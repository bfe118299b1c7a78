/** What the stored configuration promises over every run of the writers: a chosen
    retention limit stays chosen, and the emulator table stays whole. */
module ConfigIntegrity {
  import opened Wrappers
  import opened Configs
  import opened ConfigWriter
  import opened ConfigRaces
  import opened EmulatorTables

  /** What a load of the file would report, if it can be loaded. */
  ghost predicate LoadsTo(file: File, good: Config -> bool) {
    match Load(file)
    case Err(_) => true
    case Ok(config) => good(config)
  }

  ghost predicate Keeps(change: Change, good: Config -> bool) {
    forall c | good(c) && change(c).Ok? :: good(change(c).value)
  }

  ghost predicate KeptByLoad(good: Config -> bool) {
    forall c | good(c) :: good(Normalise(c))
  }

  /** A property that loads and changes keep holds of whatever a load finds. */
  lemma {:induction false} FoldKeeps(base: File, writes: seq<Write>, good: Config -> bool)
    requires LoadsTo(base, good) && KeptByLoad(good)
    requires forall k | 0 <= k < |writes| :: Keeps(writes[k].change, good)
    ensures LoadsTo(Fold(base, writes), good)
    decreases |writes|
  {
    if writes != [] {
      FoldKeeps(base, writes[..|writes| - 1], good);
      assert Keeps(writes[|writes| - 1].change, good);
    }
  }

  // --- the retention limit ---------------------------------------------------------------

  predicate HasLimit(c: Config, limit: nat) {
    c.retentionDefaultMigrated && c.saveRetentionLimit == limit
  }

  /** Once a limit has been chosen, 3 included, every load reports it, whatever the file
      was before and whatever is written after, until a change of the limit itself. */
  lemma ChosenLimitSurvives(base: File, before: seq<Write>, id: nat, limit: nat, after: seq<Write>)
    requires Load(Fold(base, before)).Ok?
    requires forall k | 0 <= k < |after| :: Keeps(after[k].change, (c: Config) => HasLimit(c, limit))
    ensures LoadsTo(Fold(base, before + [Write(id, SetLimit(limit))] + after), (c: Config) => HasLimit(c, limit))
  {
    var good := (c: Config) => HasLimit(c, limit);
    var chosen := Fold(base, before + [Write(id, SetLimit(limit))]);
    FoldStep(base, before, Write(id, SetLimit(limit)));
    assert LoadsTo(chosen, good);
    FoldConcat(base, before + [Write(id, SetLimit(limit))], after);
    FoldKeeps(chosen, after, good);
  }

  lemma {:induction false} FoldConcat(base: File, a: seq<Write>, b: seq<Write>)
    ensures Fold(base, a + b) == Fold(Fold(base, a), b)
    decreases |b|
  {
    if b == [] {
      assert a + b == a;
    } else {
      assert (a + b)[..|a + b| - 1] == a + b[..|b| - 1];
      FoldConcat(base, a, b[..|b| - 1]);
    }
  }

  // --- the emulator table ------------------------------------------------------------------

  ghost function CommandChange(cmd: Command): Change {
    (c: Config) => if Accepted(c, cmd) then Ok(Execute(c, cmd)) else Err("")
  }

  lemma LoadKeepsTable(c: Config)
    requires TableInv(c)
    ensures TableInv(Normalise(c))
  {
    assert NonBlank(c.emulators) == c.emulators;
    hide KeysDistinct, DefaultsNamed, NamesDistinct, NamesNotBlank;
  }

  /** Every command is a change that keeps the table whole, and so is every load. */
  lemma CommandsKeepTable(cmd: Command)
    ensures Keeps(CommandChange(cmd), TableInv) && KeptByLoad(TableInv)
  {
    hide TableInv, Normalise, Execute, Accepted;
    forall c | TableInv(c) ensures TableInv(Execute(c, cmd)) && TableInv(Normalise(c)) {
      CommandKeepsTable(c, cmd);
      LoadKeepsTable(c);
    }
  }

  /** Every write behind a trail, and a cut text it begins on, is of this kind. */
  ghost predicate TrailOfKind(root: Root, trail: seq<Write>, p: Change -> bool, q: Config -> bool) {
    && (root.Damaged? ==> q(root.parsed))
    && forall k | 0 <= k < |trail| :: p(trail[k].change)
  }

  ghost predicate TextOf(text: Text, p: Change -> bool, q: Config -> bool) {
    TrailOfKind(RootOf(Some(text)), TrailOf(Some(text)), p, q)
  }

  ghost predicate DiskOf(d: Disk, p: Change -> bool, q: Config -> bool) {
    forall i | i in d.inodes :: TextOf(d.inodes[i].text, p, q)
  }

  ghost predicate WriterOf(w: Writer, p: Change -> bool, q: Config -> bool) {
    p(w.change) && TrailOfKind(w.root, w.seen, p, q)
  }

  ghost predicate AllOf(s: Sys, p: Change -> bool, q: Config -> bool) {
    DiskOf(s.disk, p, q) && forall id | id in s.writers :: WriterOf(s.writers[id], p, q)
  }

  ghost predicate DamageOf(damage: Damage, q: Config -> bool) {
    Parses(damage) ==> q(damage.parsed.value)
  }

  /** The changes that begin and the cut texts that parse are of these kinds. */
  ghost predicate ActionOf(a: Action, p: Change -> bool, q: Config -> bool) {
    match a
    case Begin(change, _) => p(change)
    case Overwrite(_, damage) => DamageOf(damage, q)
    case Fail(_, damage) => DamageOf(damage, q)
    case PowerLoss(_, _, lost) => forall i | i in lost && lost[i].Some? :: q(lost[i].value)
    case _ => true
  }

  lemma StepIsOf(d: Disk, id: nat, w: Writer, p: Change -> bool, q: Config -> bool)
    requires DiskOf(d, p, q) && WriterOf(w, p, q) && CanStep(d, w)
    ensures DiskOf(StepDisk(d, id, w), p, q) && WriterOf(StepWriter(d, w), p, q)
  {
    OwnIsOf(id, w, p, q);
    var file := Shown(d, d.file);
    assert file.Some? ==> TextOf(file.value, p, q);
    assert TextOf(Empty, p, q);
    hide OwnText, Load, TrailOfKind;
    assert file.None? ==> TrailOfKind(RootOf(file), TrailOf(file), p, q) by { NothingIsOf(p, q); }
  }

  lemma NothingIsOf(p: Change -> bool, q: Config -> bool)
    ensures TrailOfKind(Found, [], p, q)
  {
  }

  lemma OwnIsOf(id: nat, w: Writer, p: Change -> bool, q: Config -> bool)
    requires WriterOf(w, p, q)
    ensures forall config :: TextOf(OwnText(id, w, config), p, q)
  {
  }

  lemma TornIsOf(parsed: Option<Config>, p: Change -> bool, q: Config -> bool)
    requires parsed.Some? ==> q(parsed.value)
    ensures TextOf(Torn(parsed), p, q)
  {
  }

  lemma ApplyIsOf(s: Sys, a: Action, p: Change -> bool, q: Config -> bool)
    requires AllOf(s, p, q) && Enabled(s, a) && ActionOf(a, p, q)
    ensures AllOf(Apply(s, a), p, q)
  {
    match a
    case Begin(_, _) =>
      NothingIsOf(p, q);
      hide DiskOf, TrailOfKind;
    case Step(id) =>
      StepIsOf(s.disk, id, s.writers[id], p, q);
      hide DiskOf, WriterOf, StepDisk, StepWriter;
    case Overwrite(id, damage) =>
      OwnIsOf(id, s.writers[id], p, q);
      if damage.Cut? {
        TornIsOf(damage.parsed, p, q);
      }
      hide OwnText, TextOf;
    case Fail(_, damage) =>
      if damage.Cut? {
        TornIsOf(damage.parsed, p, q);
      }
      hide TextOf;
    case PowerLoss(_, _, lost) =>
      forall i | i in lost ensures TextOf(Torn(lost[i]), p, q) {
        TornIsOf(lost[i], p, q);
      }
      hide TextOf;
    case _ => hide TextOf, TrailOfKind;
  }

  lemma {:induction false} TrailsAreOf(s: Sys, acts: seq<Action>, p: Change -> bool, q: Config -> bool)
    requires ValidRun(false, s, acts) && AllOf(s, p, q)
    requires forall k | 0 <= k < |acts| :: ActionOf(acts[k], p, q)
    ensures AllOf(Final(s, acts), p, q)
    decreases |acts|
  {
    if acts != [] {
      ApplyIsOf(s, acts[0], p, q);
      assert forall k | 0 <= k < |acts[1..]| :: acts[1..][k] == acts[k + 1];
      hide AllOf, Apply, Enabled, ActionOf;
      TrailsAreOf(Apply(s, acts[0]), acts[1..], p, q);
    }
  }

  lemma ShownIsOf(d: Disk, p: Change -> bool, q: Config -> bool)
    requires DiskOf(d, p, q)
    ensures TrailOfKind(RootOf(Shown(d, d.file)), TrailOf(Shown(d, d.file)), p, q)
  {
  }

  lemma InitialIsOf(base: File, p: Change -> bool, q: Config -> bool)
    requires IsBase(base)
    ensures AllOf(Initial(base), p, q)
  {
  }

  lemma RootIsWhole(base: File, root: Root, p: Change -> bool, q: Config -> bool, trail: seq<Write>)
    requires LoadsTo(base, TableInv) && TrailOfKind(root, trail, p, q)
    requires forall c | q(c) :: TableInv(Normalise(c))
    ensures LoadsTo(RootFile(base, root), TableInv)
  {
    hide TableInv, Normalise;
  }

  /** Integrity of the file, cuts and all: in every run of any number of writers, with the
      lock or without it, with failures, crashes and losses of power, as long as each
      change keeps the table and each cut text that parses still has one that is whole, a
      load at any moment finds the table whole or finds no configuration. */
  lemma TableSurvivesCuts(base: File, acts: seq<Action>)
    requires IsBase(base) && LoadsTo(base, TableInv) && ValidRun(false, Initial(base), acts)
    requires forall k | 0 <= k < |acts| ::
      ActionOf(acts[k], (ch: Change) => Keeps(ch, TableInv), (c: Config) => TableInv(Normalise(c)))
    ensures var d := Final(Initial(base), acts).disk; LoadsTo(Shown(d, d.file), TableInv)
  {
    var keeps, whole := (ch: Change) => Keeps(ch, TableInv), (c: Config) => TableInv(Normalise(c));
    TextsFoldOnRoots(base, acts);
    InitialIsOf(base, keeps, whole);
    TrailsAreOf(Initial(base), acts, keeps, whole);
    var d := Final(Initial(base), acts).disk;
    var file := Shown(d, d.file);
    ShownIsOf(d, keeps, whole);
    CommandsKeepTable(Delete(""));
    hide TableInv, Normalise, AllSucceed, Fold, AllOf, ActionOf, ValidRun, Final, IsBase;
    RootIsWhole(base, RootOf(file), keeps, whole, TrailOf(file));
    FoldKeeps(RootFile(base, RootOf(file)), TrailOf(file), TableInv);
  }

  /** Integrity of the file: in every run in which no cut text is shown, whatever else is
      spoiled, as long as each change keeps the table, a load at any moment finds it whole
      or finds no configuration. */
  lemma TableSurvivesEveryRun(base: File, acts: seq<Action>)
    requires IsBase(base) && LoadsTo(base, TableInv)
    requires ValidRun(false, Initial(base), acts) && NeverTears(Initial(base), acts)
    requires forall k | 0 <= k < |acts| && acts[k].Begin? :: Keeps(acts[k].change, TableInv)
    ensures var d := Final(Initial(base), acts).disk; LoadsTo(Shown(d, d.file), TableInv)
  {
    var keeps, any := (ch: Change) => Keeps(ch, TableInv), (c: Config) => true;
    TextsAreFolds(base, acts);
    InitialIsOf(base, keeps, any);
    TrailsAreOf(Initial(base), acts, keeps, any);
    var d := Final(Initial(base), acts).disk;
    var file := Shown(d, d.file);
    ShownIsOf(d, keeps, any);
    CommandsKeepTable(Delete(""));
    hide TableInv, Normalise, AllSucceed, Fold;
    FoldKeeps(base, TrailOf(file), TableInv);
  }

  /** Once a cut text is shown, the table is whole if and only if the cut left it so. */
  lemma CutTableIsLoaded(cut: Config) returns (acts: seq<Action>, t: Sys)
    ensures Reaches(Initial(None), acts, t)
    ensures LoadsTo(Shown(t.disk, t.disk.file), TableInv) <==> TableInv(Normalise(cut))
  {
    var before;
    acts, before, t := UnlockedWriterCutsFile(cut);
    hide Reaches, TableInv, Normalise;
  }
}
