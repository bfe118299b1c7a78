/** Writing the configuration: a load, a change and a save, the save through one
    temporary file that is flushed and renamed. A system of any number of writers, some
    under the lock and some not, with crashes and losses of power between any two steps.
    Names and files are apart: a writer that holds the temporary file open still holds it
    when another has renamed it. */
module ConfigWriter {
  import opened Wrappers
  import opened Configs

  type Change = Config -> Result<Config, string>

  /** The change of one setting. */
  function SetLimit(limit: nat): Change {
    (c: Config) => Ok(c.(saveRetentionLimit := limit))
  }

  /** One write, told apart from every other by its number. */
  datatype Write = Write(id: nat, change: Change)

  /** Where a whole text begins: the file as it was found, or a cut text that parsed. */
  datatype Root = Found | Damaged(parsed: Config)

  /** What a file holds: nothing yet; a text cut or mixed with another, with what it parses
      to, if it does; or a whole configuration, with the writes it was computed through.
      Only the first key of the file is required, so a cut text can parse. */
  datatype Text = Empty | Torn(parsed: Option<Config>) | Text(config: Config, root: Root, trail: seq<Write>)

  /** `None`: no such file. */
  type File = Option<Text>

  datatype WriteError = IoError | ParseError | Refused(message: string)

  function Load(file: File): Result<Config, WriteError> {
    match file
    case None => Ok(DEFAULT_CONFIG)
    case Some(Text(c, _, _)) => Ok(Normalise(c))
    case Some(Torn(Some(c))) => Ok(Normalise(c))
    case Some(_) => Err(ParseError)
  }

  function TrailOf(file: File): seq<Write> {
    if file.Some? && file.value.Text? then file.value.trail else []
  }

  /** A torn text that parses. */
  predicate IsCut(file: File) {
    file.Some? && file.value.Torn? && file.value.parsed.Some?
  }

  function RootOf(file: File): Root {
    if file.Some? && file.value.Text? then file.value.root
    else if IsCut(file) then Damaged(file.value.parsed.value)
    else Found
  }

  /** What a trail with this root begins on. */
  function RootFile(base: File, root: Root): File {
    match root
    case Found => base
    case Damaged(c) => Some(Torn(Some(c)))
  }

  predicate Succeeds(file: File, change: Change) {
    Load(file).Ok? && change(Load(file).value).Ok?
  }

  /** What one undisturbed write makes of the file. */
  function Rewritten(file: File, w: Write): File {
    if Succeeds(file, w.change)
    then Some(Text(w.change(Load(file).value).value, RootOf(file), TrailOf(file) + [w]))
    else file
  }

  function Fold(file: File, writes: seq<Write>): File {
    if writes == [] then file
    else Rewritten(Fold(file, writes[..|writes| - 1]), writes[|writes| - 1])
  }

  /** Each write succeeded on what the ones before it left. */
  ghost predicate AllSucceed(base: File, writes: seq<Write>) {
    forall k | 0 <= k < |writes| :: Succeeds(Fold(base, writes[..k]), writes[k].change)
  }

  // --- the system --------------------------------------------------------------------

  /** A file on disk, whatever its name. */
  datatype Inode = Inode(text: Text, synced: bool)

  /** `older` are the versions the directory may still show under the file's name after a
      loss of power, oldest first: a rename is not flushed with the file. */
  datatype Disk = Disk(inodes: map<nat, Inode>, file: Option<nat>, tmp: Option<nat>, older: seq<Option<nat>>, next: nat)

  /** How far a writer has come. */
  datatype Stage =
    | Begun
    | Loaded(config: Config)
    | Changed(config: Config)
    | Created(config: Config)
    | Written(config: Config)
    | Synced(config: Config)
    | Finished

  /** `root` and `seen` are of the text it loaded, `fd` is the file it has open. */
  datatype Writer = Writer(change: Change, locked: bool, stage: Stage, root: Root, seen: seq<Write>, fd: nat)

  /** `done` are the writes that have renamed, in order. */
  datatype Sys = Sys(disk: Disk, lock: Option<nat>, writers: map<nat, Writer>, begun: nat, done: seq<Write>)

  /** What becomes of a write: nothing worse, or a text cut short or mixed with another. */
  datatype Damage = Unharmed | Cut(parsed: Option<Config>)

  datatype Action =
    | Begin(change: Change, locked: bool)
    | Step(id: nat)
    /** A write into a file that is not empty any more: another writer's text ends up
        under this one's, or the two are mixed. */
    | Overwrite(id: nat, damage: Damage)
    /** An error of the file system or a panic. */
    | Fail(id: nat, damage: Damage)
    | End(id: nat)
    /** The directory reaches the disk. */
    | Flush
    /** The process dies; the file system lives on. */
    | Crash
    /** The power goes: the directory shows version `kept`, the temporary name is gone or
        names some other file, and the files in `lost` that were not flushed are torn. */
    | PowerLoss(kept: nat, tmp: Option<nat>, lost: map<nat, Option<Config>>)

  function Shown(d: Disk, name: Option<nat>): File {
    if name.Some? && name.value in d.inodes then Some(d.inodes[name.value].text) else None
  }

  function Version(d: Disk, kept: nat): Option<nat>
    requires kept <= |d.older|
  {
    if kept < |d.older| then d.older[kept] else d.file
  }

  predicate Enabled(s: Sys, a: Action) {
    match a
    case Begin(_, locked) => locked ==> s.lock == None
    case Step(id) => id in s.writers && CanStep(s.disk, s.writers[id])
    case Overwrite(id, _) =>
      && id in s.writers && s.writers[id].stage.Created?
      && s.writers[id].fd in s.disk.inodes && !s.disk.inodes[s.writers[id].fd].text.Empty?
    case Fail(id, _) => id in s.writers && s.writers[id].stage != Finished
    case End(id) => id in s.writers && s.writers[id].stage == Finished
    case Flush => true
    case Crash => true
    case PowerLoss(kept, tmp, _) =>
      kept <= |s.disk.older| && (tmp.Some? ==> tmp.value in s.disk.inodes && tmp != Version(s.disk, kept))
  }

  predicate CanStep(d: Disk, w: Writer) {
    match w.stage
    case Begun => Load(Shown(d, d.file)).Ok?
    case Loaded(config) => w.change(config).Ok?
    case Changed(_) => true
    case Created(_) => w.fd in d.inodes && d.inodes[w.fd].text.Empty?
    case Written(_) => w.fd in d.inodes
    case Synced(_) => d.tmp.Some?
    case Finished => false
  }

  /** The file a create opens: the one under the temporary name, or a new one. */
  function Opened(d: Disk): nat {
    if d.tmp.Some? then d.tmp.value else d.next
  }

  function Put(d: Disk, i: nat, text: Text, synced: bool): Disk {
    d.(inodes := d.inodes[i := Inode(text, synced)])
  }

  function OwnTrail(id: nat, seen: seq<Write>, change: Change): seq<Write> {
    seen + [Write(id, change)]
  }

  function OwnText(id: nat, w: Writer, config: Config): Text {
    Text(config, w.root, OwnTrail(id, w.seen, w.change))
  }

  function StepDisk(d: Disk, id: nat, w: Writer): Disk
    requires CanStep(d, w)
  {
    match w.stage
    case Changed(_) =>
      Put(d, Opened(d), Empty, false).(tmp := Some(Opened(d)), next := if d.tmp.Some? then d.next else d.next + 1)
    case Created(config) => Put(d, w.fd, OwnText(id, w, config), false)
    case Written(_) => Put(d, w.fd, d.inodes[w.fd].text, true)
    case Synced(_) => d.(file := d.tmp, tmp := None, older := d.older + [d.file])
    case _ => d
  }

  function StepWriter(d: Disk, w: Writer): Writer
    requires CanStep(d, w)
  {
    match w.stage
    case Begun =>
      var file := Shown(d, d.file);
      w.(stage := Loaded(Load(file).value), root := RootOf(file), seen := TrailOf(file))
    case Loaded(config) => w.(stage := Changed(w.change(config).value))
    case Changed(config) => w.(stage := Created(config), fd := Opened(d))
    case Created(config) => w.(stage := Written(config))
    case Written(config) => w.(stage := Synced(config))
    case Synced(_) => w.(stage := Finished)
    case Finished => w
  }

  function Lost(inodes: map<nat, Inode>, lost: map<nat, Option<Config>>): map<nat, Inode> {
    map i | i in inodes :: if i in lost && !inodes[i].synced then Inode(Torn(lost[i]), false) else inodes[i]
  }

  function Damages(damage: Damage, text: Text): Text {
    match damage
    case Unharmed => text
    case Cut(parsed) => Torn(parsed)
  }

  /** `id` is gone, and its lock with it. */
  function Without(s: Sys, id: nat): Sys
    requires id in s.writers
  {
    s.(writers := s.writers - {id}, lock := if s.writers[id].locked then None else s.lock)
  }

  function Apply(s: Sys, a: Action): Sys
    requires Enabled(s, a)
  {
    match a
    case Begin(change, locked) =>
      s.(lock := if locked then Some(s.begun) else s.lock, begun := s.begun + 1,
         writers := s.writers[s.begun := Writer(change, locked, Begun, Found, [], 0)])
    case Step(id) =>
      var w := s.writers[id];
      s.(disk := StepDisk(s.disk, id, w), writers := s.writers[id := StepWriter(s.disk, w)],
         done := if w.stage.Synced? then s.done + [Write(id, w.change)] else s.done)
    case Overwrite(id, damage) =>
      var w := s.writers[id];
      s.(disk := Put(s.disk, w.fd, Damages(damage, OwnText(id, w, w.stage.config)), false),
         writers := s.writers[id := w.(stage := Written(w.stage.config))])
    case Fail(id, damage) =>
      var w := s.writers[id];
      var d := if w.stage.Created? && damage.Cut? then Put(s.disk, w.fd, Torn(damage.parsed), false) else s.disk;
      Without(s.(disk := d), id)
    case End(id) => Without(s, id)
    case Flush => s.(disk := s.disk.(older := []))
    case Crash => s.(lock := None, writers := map[])
    case PowerLoss(kept, tmp, lost) =>
      var d := s.disk;
      s.(disk := Disk(Lost(d.inodes, lost), Version(d, kept), tmp, [], d.next), lock := None, writers := map[],
         done := s.done[..Max(0, |s.done| - (|d.older| - kept))])
  }

  function Max(a: int, b: int): int {
    if a >= b then a else b
  }

  // --- what spoils the file ------------------------------------------------------------

  predicate IsVersion(d: Disk, i: nat) {
    d.file == Some(i) || Some(i) in d.older
  }

  /** The temporary name still names a file with this writer's own text. */
  predicate TmpIsOwn(d: Disk, id: nat) {
    var text := Shown(d, d.tmp);
    TrailOf(text) != [] && TrailOf(text)[|TrailOf(text)| - 1].id == id
  }

  /** The file is the one the writer loaded. */
  ghost predicate LoadedFrom(w: Writer, file: File) {
    w.root == RootOf(file) && w.seen == TrailOf(file)
  }

  /** A rename over a file that is not the one loaded any more, or of a temporary file
      that is not the writer's own. */
  ghost predicate RenamesStale(s: Sys, a: Action) {
    && a.Step? && a.id in s.writers && s.writers[a.id].stage.Synced?
    && !(LoadedFrom(s.writers[a.id], Shown(s.disk, s.disk.file)) && TmpIsOwn(s.disk, a.id))
  }

  /** A write into a file that has been renamed already. */
  predicate WritesLive(s: Sys, a: Action) {
    && (a.Step? || a.Overwrite? || (a.Fail? && a.damage.Cut?))
    && a.id in s.writers && s.writers[a.id].stage.Created? && IsVersion(s.disk, s.writers[a.id].fd)
  }

  ghost predicate Spoils(s: Sys, a: Action) {
    RenamesStale(s, a) || WritesLive(s, a)
  }

  /** A possible run; a clean one takes no step that spoils the file. */
  ghost predicate ValidRun(clean: bool, s: Sys, acts: seq<Action>)
    decreases |acts|
  {
    acts == [] ||
    (Enabled(s, acts[0]) && (clean ==> !Spoils(s, acts[0])) && ValidRun(clean, Apply(s, acts[0]), acts[1..]))
  }

  ghost function Final(s: Sys, acts: seq<Action>): Sys
    decreases |acts|
  {
    if acts == [] || !Enabled(s, acts[0]) then s else Final(Apply(s, acts[0]), acts[1..])
  }

  /** A file as it was found, before any write: whole if it parses. */
  predicate IsBase(base: File) {
    TrailOf(base) == [] && RootOf(base) == Found
  }

  function Initial(base: File): Sys {
    match base
    case None => Sys(Disk(map[], None, None, [], 0), None, map[], 0, [])
    case Some(text) => Sys(Disk(map[0 := Inode(text, true)], Some(0), None, [], 1), None, map[], 0, [])
  }

  // --- what is always true ---------------------------------------------------------------

  /** Names name files, and the temporary one names no version. */
  predicate DiskInv(d: Disk) {
    && (forall i | i in d.inodes :: i < d.next)
    && (d.file.Some? ==> d.file.value in d.inodes)
    && (forall k | 0 <= k < |d.older| :: d.older[k].Some? ==> d.older[k].value in d.inodes)
    && (d.tmp.Some? ==> d.tmp.value in d.inodes && !IsVersion(d, d.tmp.value))
  }

  /** A whole text is the fold of its own trail on its own root. */
  ghost predicate Told(base: File, text: Text) {
    text.Text? ==>
      && AllSucceed(RootFile(base, text.root), text.trail)
      && Fold(RootFile(base, text.root), text.trail) == Some(text)
  }

  ghost predicate TextsTold(base: File, d: Disk) {
    && (forall i | i in d.inodes :: Told(base, d.inodes[i].text))
    && (d.file.None? ==> base.None?)
    && (forall k | 0 <= k < |d.older| :: d.older[k].None? ==> base.None?)
  }

  /** What a writer holds was computed from a text it saw. */
  ghost predicate Honest(base: File, d: Disk, id: nat, w: Writer) {
    && (w.stage.Begun? || w.stage.Finished? || AllSucceed(RootFile(base, w.root), w.seen))
    && match w.stage
       case Begun => true
       case Loaded(config) => Load(Fold(RootFile(base, w.root), w.seen)) == Ok(config)
       case Finished => true
       case _ =>
         && Succeeds(Fold(RootFile(base, w.root), w.seen), w.change)
         && Fold(RootFile(base, w.root), OwnTrail(id, w.seen, w.change)) == Some(OwnText(id, w, w.stage.config))
         && (!w.stage.Changed? ==> w.fd in d.inodes)
  }

  predicate EndsWith(text: Text, id: nat) {
    text.Text? && text.trail != [] && text.trail[|text.trail| - 1].id == id
  }

  /** A writer's own text is in the file it has open and nowhere else, and is flushed once
      the writer has flushed it. */
  ghost predicate OwnsText(d: Disk, id: nat, w: Writer) {
    forall i | i in d.inodes && EndsWith(d.inodes[i].text, id) ::
      match w.stage
      case Written(config) => i == w.fd && d.inodes[i].text == OwnText(id, w, config)
      case Synced(config) => i == w.fd && d.inodes[i].text == OwnText(id, w, config) && d.inodes[i].synced
      case Finished => true
      case _ => false
  }

  predicate Numbered(s: Sys) {
    && (forall id | id in s.writers :: id < s.begun)
    && (forall i | i in s.disk.inodes && s.disk.inodes[i].text.Text? && s.disk.inodes[i].text.trail != [] ::
          s.disk.inodes[i].text.trail[|s.disk.inodes[i].text.trail| - 1].id < s.begun)
  }

  ghost predicate Inv(base: File, s: Sys) {
    && DiskInv(s.disk) && TextsTold(base, s.disk) && Numbered(s)
    && (forall id | id in s.writers :: Honest(base, s.disk, id, s.writers[id]) && OwnsText(s.disk, id, s.writers[id]))
  }

  lemma FoldStep(base: File, writes: seq<Write>, w: Write)
    ensures Fold(base, writes + [w]) == Rewritten(Fold(base, writes), w)
  {
    assert (writes + [w])[..|writes|] == writes;
  }

  lemma PrefixSucceeds(base: File, writes: seq<Write>, n: nat)
    requires AllSucceed(base, writes) && n <= |writes|
    ensures AllSucceed(base, writes[..n])
  {
    forall k | 0 <= k < n ensures Succeeds(Fold(base, writes[..n][..k]), writes[..n][k].change) {
      assert writes[..n][..k] == writes[..k];
    }
  }

  lemma MoreSucceed(base: File, writes: seq<Write>, w: Write)
    ensures AllSucceed(base, writes + [w]) <==> AllSucceed(base, writes) && Succeeds(Fold(base, writes), w.change)
  {
    var more := writes + [w];
    assert forall k | 0 <= k <= |writes| :: more[..k] == writes[..k];
    assert writes[..|writes|] == writes && more[|writes|] == w;
    if AllSucceed(base, more) {
      assert Succeeds(Fold(base, more[..|writes|]), more[|writes|].change);
      forall k | 0 <= k < |writes| ensures Succeeds(Fold(base, writes[..k]), writes[k].change) {
        assert Succeeds(Fold(base, more[..k]), more[k].change);
      }
    }
  }

  lemma RewrittenTrail(base: File, writes: seq<Write>, w: Write)
    requires Succeeds(Fold(base, writes), w.change)
    ensures var file := Fold(base, writes + [w]);
      && file.Some? && file.value.Text? && TrailOf(file) == TrailOf(Fold(base, writes)) + [w]
      && RootOf(file) == RootOf(Fold(base, writes))
  {
    FoldStep(base, writes, w);
    hide Fold, Succeeds, Load;
  }

  /** The fold of writes that all succeed remembers exactly them. */
  lemma {:induction false} FoldTrail(base: File, writes: seq<Write>)
    requires TrailOf(base) == [] && AllSucceed(base, writes)
    ensures TrailOf(Fold(base, writes)) == writes && RootOf(Fold(base, writes)) == RootOf(base)
    ensures writes != [] ==> Fold(base, writes).Some? && Fold(base, writes).value.Text?
    decreases |writes|
  {
    if writes == [] {
      assert Fold(base, []) == base;
    } else {
      hide AllSucceed, Fold, Succeeds, Load, TrailOf, RootOf;
      var before, w := writes[..|writes| - 1], writes[|writes| - 1];
      assert writes == before + [w];
      MoreSucceed(base, before, w);
      FoldTrail(base, before);
      RewrittenTrail(base, before, w);
    }
  }

  // --- steps on the disk -------------------------------------------------------------------

  /** `d'` differs from `d` in one file that is no version, or in names. */
  lemma PutKeepsDisk(base: File, d: Disk, i: nat, text: Text, synced: bool)
    requires DiskInv(d) && TextsTold(base, d) && i in d.inodes && Told(base, text)
    ensures DiskInv(Put(d, i, text, synced)) && TextsTold(base, Put(d, i, text, synced))
  {
  }

  lemma CreateKeepsDisk(base: File, d: Disk, w: Writer)
    requires DiskInv(d) && TextsTold(base, d) && w.stage.Changed?
    ensures DiskInv(StepDisk(d, 0, w)) && TextsTold(base, StepDisk(d, 0, w))
  {
  }

  lemma RenameKeepsDisk(base: File, d: Disk, w: Writer)
    requires DiskInv(d) && TextsTold(base, d) && w.stage.Synced? && CanStep(d, w)
    ensures DiskInv(StepDisk(d, 0, w)) && TextsTold(base, StepDisk(d, 0, w))
  {
  }

  lemma OtherKeeps(base: File, d: Disk, d': Disk, id: nat, w: Writer)
    requires Honest(base, d, id, w) && OwnsText(d, id, w)
    requires forall i | i in d.inodes :: i in d'.inodes
    requires forall i | i in d'.inodes && EndsWith(d'.inodes[i].text, id) ::
      i in d.inodes && d'.inodes[i].text == d.inodes[i].text && (d.inodes[i].synced ==> d'.inodes[i].synced)
    ensures Honest(base, d', id, w) && OwnsText(d', id, w)
  {
  }

  lemma LoadIsHonest(base: File, d: Disk, id: nat, w: Writer)
    requires IsBase(base) && TextsTold(base, d) && DiskInv(d) && w.stage.Begun? && CanStep(d, w)
    ensures Honest(base, d, id, StepWriter(d, w))
  {
    hide Normalise;
    var file := Shown(d, d.file);
    if file.Some? {
      assert Told(base, file.value);
    }
  }

  lemma ChangeIsHonest(base: File, d: Disk, id: nat, w: Writer)
    requires IsBase(base) && Honest(base, d, id, w) && w.stage.Loaded? && CanStep(d, w)
    ensures Honest(base, d, id, StepWriter(d, w))
  {
    FoldStep(RootFile(base, w.root), w.seen, Write(id, w.change));
    FoldTrail(RootFile(base, w.root), w.seen);
    assert RootOf(RootFile(base, w.root)) == w.root;
    hide Fold, AllSucceed, Load, RootFile, RootOf, TrailOf;
    var file := Fold(RootFile(base, w.root), w.seen);
    assert Succeeds(file, w.change) && w.change(Load(file).value) == w.change(w.stage.config);
  }

  lemma OnwardIsHonest(base: File, d: Disk, id: nat, w: Writer)
    requires Honest(base, d, id, w) && CanStep(d, w)
    requires w.stage.Changed? || w.stage.Created? || w.stage.Written? || w.stage.Synced?
    ensures Honest(base, StepDisk(d, id, w), id, StepWriter(d, w))
  {
    hide Fold, AllSucceed, Succeeds, OwnTrail;
  }

  lemma StepLeavesDisk(d: Disk, id: nat, w: Writer)
    requires CanStep(d, w) && (w.stage.Begun? || w.stage.Loaded?)
    ensures StepDisk(d, id, w) == d
  {
  }

  /** A step of the writer keeps it honest. */
  lemma StepKeepsHonest(base: File, d: Disk, id: nat, w: Writer)
    requires IsBase(base) && DiskInv(d) && TextsTold(base, d) && Honest(base, d, id, w) && CanStep(d, w)
    ensures Honest(base, StepDisk(d, id, w), id, StepWriter(d, w))
  {
    hide Honest, TextsTold, DiskInv, StepDisk, StepWriter;
    match w.stage
    case Begun =>
      LoadIsHonest(base, d, id, w);
      StepLeavesDisk(d, id, w);
    case Loaded(_) =>
      ChangeIsHonest(base, d, id, w);
      StepLeavesDisk(d, id, w);
    case _ => OnwardIsHonest(base, d, id, w);
  }

  lemma StepKeepsOwn(d: Disk, id: nat, w: Writer)
    requires OwnsText(d, id, w) && CanStep(d, w)
    ensures OwnsText(StepDisk(d, id, w), id, StepWriter(d, w))
  {
  }

  lemma OwnTextIsTold(base: File, d: Disk, id: nat, w: Writer)
    requires Honest(base, d, id, w) && !w.stage.Begun? && !w.stage.Loaded? && !w.stage.Finished?
    ensures Told(base, OwnText(id, w, w.stage.config))
  {
    MoreSucceed(RootFile(base, w.root), w.seen, Write(id, w.change));
  }

  lemma StepKeepsDisk(base: File, d: Disk, id: nat, w: Writer)
    requires DiskInv(d) && TextsTold(base, d) && Honest(base, d, id, w) && CanStep(d, w)
    ensures DiskInv(StepDisk(d, id, w)) && TextsTold(base, StepDisk(d, id, w))
  {
    match w.stage
    case Changed(_) => CreateKeepsDisk(base, d, w);
    case Created(config) =>
      OwnTextIsTold(base, d, id, w);
      PutKeepsDisk(base, d, w.fd, OwnText(id, w, config), false);
    case Written(_) => PutKeepsDisk(base, d, w.fd, d.inodes[w.fd].text, true);
    case Synced(_) => RenameKeepsDisk(base, d, w);
    case _ =>
  }

  /** A step on the disk for `id` spares the other writers: no text of theirs appears, and
      none of theirs loses its flush. */
  ghost predicate Spares(d: Disk, d': Disk, id: nat) {
    && (forall i | i in d.inodes :: i in d'.inodes)
    && (forall i | i in d'.inodes && d'.inodes[i].text.Text? && !EndsWith(d'.inodes[i].text, id) ::
          i in d.inodes && d'.inodes[i].text == d.inodes[i].text && (d.inodes[i].synced ==> d'.inodes[i].synced))
  }

  lemma SparedKeeps(base: File, d: Disk, d': Disk, id: nat, other: nat, w: Writer)
    requires Spares(d, d', id) && other != id && Honest(base, d, other, w) && OwnsText(d, other, w)
    ensures Honest(base, d', other, w) && OwnsText(d', other, w)
  {
    hide AllSucceed, Fold, Load, Succeeds;
    OtherKeeps(base, d, d', other, w);
  }

  lemma StepSpares(d: Disk, id: nat, w: Writer)
    requires CanStep(d, w)
    ensures Spares(d, StepDisk(d, id, w), id)
  {
  }

  lemma PutSpares(d: Disk, id: nat, i: nat, text: Text)
    requires i in d.inodes && (text.Text? ==> EndsWith(text, id))
    ensures Spares(d, Put(d, i, text, false), id)
  {
  }

  /** Every text that was not there before ends with `id`. */
  predicate OnlyNew(d: Disk, d': Disk, id: nat) {
    forall i | i in d'.inodes && d'.inodes[i].text.Text? && d'.inodes[i].text.trail != [] ::
      EndsWith(d'.inodes[i].text, id) || (i in d.inodes && SameEnd(d.inodes[i].text, d'.inodes[i].text))
  }

  predicate SameEnd(a: Text, b: Text)
    requires b.Text? && b.trail != []
  {
    EndsWith(a, b.trail[|b.trail| - 1].id)
  }

  lemma SparesIsOnlyNew(d: Disk, d': Disk, id: nat)
    requires Spares(d, d', id)
    ensures OnlyNew(d, d', id)
  {
  }

  /** A writer's step on the disk, with what becomes of the writer. */
  lemma WriterStepKeepsInv(base: File, s: Sys, id: nat, d: Disk, w: Writer, t: Sys)
    requires Inv(base, s) && id in s.writers && Spares(s.disk, d, id)
    requires DiskInv(d) && TextsTold(base, d) && Honest(base, d, id, w) && OwnsText(d, id, w)
    requires t.disk == d && t.writers == s.writers[id := w] && t.begun == s.begun
    ensures Inv(base, t)
  {
    SparesIsOnlyNew(s.disk, d, id);
    hide Spares, DiskInv, TextsTold, Honest, OwnsText;
    forall other | other in s.writers && other != id
      ensures Honest(base, d, other, s.writers[other]) && OwnsText(d, other, s.writers[other])
    {
      SparedKeeps(base, s.disk, d, id, other, s.writers[other]);
    }
  }

  /** A writer goes, its last step on the disk with it. */
  lemma WriterGoesKeepsInv(base: File, s: Sys, id: nat, d: Disk, t: Sys)
    requires Inv(base, s) && id in s.writers && Spares(s.disk, d, id)
    requires DiskInv(d) && TextsTold(base, d)
    requires t.disk == d && t.writers == s.writers - {id} && t.begun == s.begun
    ensures Inv(base, t)
  {
    SparesIsOnlyNew(s.disk, d, id);
    hide Spares, DiskInv, TextsTold, Honest, OwnsText;
    forall other | other in s.writers && other != id
      ensures Honest(base, d, other, s.writers[other]) && OwnsText(d, other, s.writers[other])
    {
      SparedKeeps(base, s.disk, d, id, other, s.writers[other]);
    }
  }

  lemma OverwriteIsOwn(base: File, d: Disk, id: nat, w: Writer, text: Text)
    requires Honest(base, d, id, w) && OwnsText(d, id, w) && w.stage.Created? && w.fd in d.inodes
    requires text.Torn? || text == OwnText(id, w, w.stage.config)
    ensures var w' := w.(stage := Written(w.stage.config));
      Honest(base, Put(d, w.fd, text, false), id, w') && OwnsText(Put(d, w.fd, text, false), id, w')
  {
    hide AllSucceed, Fold, Load, Succeeds, OwnTrail;
  }

  lemma OverwriteKeepsInv(base: File, s: Sys, id: nat, damage: Damage)
    requires IsBase(base) && Inv(base, s) && Enabled(s, Overwrite(id, damage))
    ensures Inv(base, Apply(s, Overwrite(id, damage)))
  {
    var w := s.writers[id];
    var text := Damages(damage, OwnText(id, w, w.stage.config));
    OwnTextIsTold(base, s.disk, id, w);
    PutKeepsDisk(base, s.disk, w.fd, text, false);
    PutSpares(s.disk, id, w.fd, text);
    OverwriteIsOwn(base, s.disk, id, w, text);
    hide Inv, Put, OwnText, Damages, Honest, OwnsText, DiskInv, TextsTold;
    WriterStepKeepsInv(base, s, id, Put(s.disk, w.fd, text, false), w.(stage := Written(w.stage.config)),
                       Apply(s, Overwrite(id, damage)));
  }

  lemma FailKeepsInv(base: File, s: Sys, id: nat, damage: Damage)
    requires Inv(base, s) && Enabled(s, Fail(id, damage))
    ensures Inv(base, Apply(s, Fail(id, damage)))
  {
    var w := s.writers[id];
    hide AllSucceed, Fold, Load, Succeeds;
    assert w.stage.Created? ==> w.fd in s.disk.inodes by { assert Honest(base, s.disk, id, w); }
    if w.stage.Created? && damage.Cut? {
      var text := Torn(damage.parsed);
      PutKeepsDisk(base, s.disk, w.fd, text, false);
      PutSpares(s.disk, id, w.fd, text);
      WriterGoesKeepsInv(base, s, id, Put(s.disk, w.fd, text, false), Apply(s, Fail(id, damage)));
    } else {
      WriterGoesKeepsInv(base, s, id, s.disk, Apply(s, Fail(id, damage)));
    }
  }

  lemma BeginKeepsInv(base: File, s: Sys, change: Change, locked: bool)
    requires Inv(base, s) && Enabled(s, Begin(change, locked))
    ensures Inv(base, Apply(s, Begin(change, locked)))
  {
    var w := Writer(change, locked, Begun, Found, [], 0);
    assert forall i | i in s.disk.inodes :: !EndsWith(s.disk.inodes[i].text, s.begun);
    assert Honest(base, s.disk, s.begun, w) && OwnsText(s.disk, s.begun, w);
    hide DiskInv, TextsTold, Honest, OwnsText;
  }

  lemma FlushKeepsInv(base: File, s: Sys)
    requires Inv(base, s)
    ensures Inv(base, Apply(s, Flush))
  {
    var d := s.disk.(older := []);
    forall id | id in s.writers ensures Honest(base, d, id, s.writers[id]) && OwnsText(d, id, s.writers[id]) {
      OtherKeeps(base, s.disk, d, id, s.writers[id]);
    }
    hide Honest, OwnsText, Told;
  }

  lemma PowerLossKeepsInv(base: File, s: Sys, a: Action)
    requires Inv(base, s) && a.PowerLoss? && Enabled(s, a)
    ensures Inv(base, Apply(s, a))
  {
    hide AllSucceed, Fold, Honest, OwnsText;
  }

  /** Whatever the mix of writers, every step keeps: each whole text on disk is the fold
      of its own trail. */
  lemma StepKeepsInv(base: File, s: Sys, a: Action)
    requires IsBase(base) && Inv(base, s) && Enabled(s, a)
    ensures Inv(base, Apply(s, a))
  {
    match a
    case Begin(change, locked) => BeginKeepsInv(base, s, change, locked);
    case Step(id) =>
      var w := s.writers[id];
      StepKeepsDisk(base, s.disk, id, w);
      StepKeepsHonest(base, s.disk, id, w);
      StepKeepsOwn(s.disk, id, w);
      StepSpares(s.disk, id, w);
      hide Inv, StepDisk, StepWriter;
      WriterStepKeepsInv(base, s, id, StepDisk(s.disk, id, w), StepWriter(s.disk, w), Apply(s, a));
    case Overwrite(id, damage) => OverwriteKeepsInv(base, s, id, damage);
    case Fail(id, damage) => FailKeepsInv(base, s, id, damage);
    case End(id) => FinishKeepsInv(base, s, id);
    case Flush => FlushKeepsInv(base, s);
    case Crash => hide Honest, OwnsText, TextsTold;
    case PowerLoss(_, _, _) => PowerLossKeepsInv(base, s, a);
  }

  lemma FinishKeepsInv(base: File, s: Sys, id: nat)
    requires Inv(base, s) && Enabled(s, End(id))
    ensures Inv(base, Apply(s, End(id)))
  {
    hide AllSucceed, Fold, Load, Succeeds;
    WriterGoesKeepsInv(base, s, id, s.disk, Apply(s, End(id)));
  }

  lemma InitialInv(base: File)
    requires IsBase(base)
    ensures Inv(base, Initial(base)) && Kept(base, Initial(base))
  {
  }

  // --- what is kept as long as nothing spoils it ---------------------------------------------

  ghost predicate VersionKept(base: File, d: Disk, name: Option<nat>, writes: seq<Write>) {
    && Shown(d, name) == Fold(base, writes)
    && (name.Some? ==> name.value in d.inodes && d.inodes[name.value].synced)
  }

  /** Serial: the file is the fold of the writes done, each of which succeeded on what the
      ones before it left, and every version a loss of power may bring back is the fold of
      a prefix of them, flushed. */
  ghost predicate Kept(base: File, s: Sys) {
    && |s.disk.older| <= |s.done|
    && AllSucceed(base, s.done)
    && VersionKept(base, s.disk, s.disk.file, s.done)
    && forall k | 0 <= k < |s.disk.older| ::
         VersionKept(base, s.disk, s.disk.older[k], s.done[..|s.done| - |s.disk.older| + k])
  }

  /** A step that leaves names and versions as they are. */
  lemma SameVersions(base: File, s: Sys, t: Sys)
    requires Kept(base, s) && t.done == s.done
    requires t.disk.file == s.disk.file && (t.disk.older == s.disk.older || t.disk.older == [])
    requires forall i | i in s.disk.inodes && IsVersion(s.disk, i) ::
      i in t.disk.inodes && t.disk.inodes[i].text == s.disk.inodes[i].text
      && (s.disk.inodes[i].synced ==> t.disk.inodes[i].synced)
    ensures Kept(base, t)
  {
    hide AllSucceed, Fold;
    forall k | 0 <= k < |t.disk.older|
      ensures VersionKept(base, t.disk, t.disk.older[k], t.done[..|t.done| - |t.disk.older| + k])
    {
      assert VersionKept(base, s.disk, s.disk.older[k], s.done[..|s.done| - |s.disk.older| + k]);
      assert s.disk.older[k] in s.disk.older;
    }
  }

  lemma UnflushedBreaks(base: File, t: Sys, i: nat)
    requires IsVersion(t.disk, i) && i in t.disk.inodes && !t.disk.inodes[i].synced
    ensures !Kept(base, t)
  {
    hide Fold, AllSucceed;
    if t.disk.file != Some(i) {
      var k :| 0 <= k < |t.disk.older| && t.disk.older[k] == Some(i);
    }
  }

  /** A write into a version leaves one that is not flushed. */
  lemma WriteLiveSpoils(base: File, s: Sys, a: Action)
    requires Inv(base, s) && Enabled(s, a) && WritesLive(s, a)
    ensures !Kept(base, Apply(s, a))
  {
    var i := s.writers[a.id].fd;
    assert i in s.disk.inodes by { assert Honest(base, s.disk, a.id, s.writers[a.id]); }
    hide Fold, AllSucceed, Honest, OwnsText, Told, Kept;
    UnflushedBreaks(base, Apply(s, a), i);
  }

  lemma ShownFold(base: File, t: Sys)
    requires IsBase(base) && Kept(base, t)
    ensures TrailOf(Shown(t.disk, t.disk.file)) == t.done && RootOf(Shown(t.disk, t.disk.file)) == Found
  {
    FoldTrail(base, t.done);
    hide Fold, AllSucceed;
  }

  lemma OwnTmp(d: Disk, id: nat, w: Writer)
    requires OwnsText(d, id, w) && w.stage.Synced? && TmpIsOwn(d, id)
    ensures Shown(d, d.tmp) == Some(OwnText(id, w, w.stage.config)) && d.inodes[d.tmp.value].synced
  {
    assert EndsWith(d.inodes[d.tmp.value].text, id);
    hide OwnText;
  }

  lemma TmpText(base: File, s: Sys, id: nat)
    requires Inv(base, s) && Kept(base, s) && IsBase(base) && Enabled(s, Step(id)) && s.writers[id].stage.Synced?
    ensures var w := s.writers[id];
      && TrailOf(Shown(s.disk, s.disk.file)) == s.done && RootOf(Shown(s.disk, s.disk.file)) == Found
      && Shown(s.disk, s.disk.tmp).Some?
      && (TmpIsOwn(s.disk, id) ==>
            && Shown(s.disk, s.disk.tmp) == Some(OwnText(id, w, w.stage.config))
            && s.disk.inodes[s.disk.tmp.value].synced)
  {
    ShownFold(base, s);
    assert OwnsText(s.disk, id, s.writers[id]);
    if TmpIsOwn(s.disk, id) {
      OwnTmp(s.disk, id, s.writers[id]);
    }
    hide Fold, AllSucceed, Honest, Told, Kept, OwnsText, TmpIsOwn;
  }

  /** The versions after a rename, but for the new one. */
  lemma OlderAfterRename(base: File, s: Sys, t: Sys, w: Write)
    requires Kept(base, s) && t.done == s.done + [w]
    requires t.disk.inodes == s.disk.inodes && t.disk.older == s.disk.older + [s.disk.file]
    ensures forall k | 0 <= k < |t.disk.older| ::
      VersionKept(base, t.disk, t.disk.older[k], t.done[..|t.done| - |t.disk.older| + k])
  {
    hide AllSucceed, Fold;
    forall k | 0 <= k < |t.disk.older|
      ensures VersionKept(base, t.disk, t.disk.older[k], t.done[..|t.done| - |t.disk.older| + k])
    {
      assert t.done[..|t.done| - |t.disk.older| + k] == s.done[..|s.done| - |s.disk.older| + k];
      assert k == |s.disk.older| ==> s.done[..|s.done|] == s.done;
    }
  }

  /** What the rename shows under the file's name. */
  lemma RenameShowsTmp(s: Sys, id: nat)
    requires Enabled(s, Step(id)) && s.writers[id].stage.Synced?
    ensures var t := Apply(s, Step(id));
      && Shown(t.disk, t.disk.file) == Shown(s.disk, s.disk.tmp) && t.disk.file == s.disk.tmp
      && t.disk.inodes == s.disk.inodes && t.disk.older == s.disk.older + [s.disk.file]
      && t.done == s.done + [Write(id, s.writers[id].change)]
  {
  }

  lemma KeptFrom(base: File, t: Sys)
    requires |t.disk.older| <= |t.done| && AllSucceed(base, t.done)
    requires VersionKept(base, t.disk, t.disk.file, t.done)
    requires forall k | 0 <= k < |t.disk.older| ::
      VersionKept(base, t.disk, t.disk.older[k], t.done[..|t.done| - |t.disk.older| + k])
    ensures Kept(base, t)
  {
    hide AllSucceed, VersionKept;
  }

  lemma HonestSynced(base: File, d: Disk, id: nat, w: Writer)
    requires Honest(base, d, id, w) && w.stage.Synced?
    ensures Succeeds(Fold(RootFile(base, w.root), w.seen), w.change)
    ensures Fold(RootFile(base, w.root), OwnTrail(id, w.seen, w.change)) == Some(OwnText(id, w, w.stage.config))
  {
  }

  lemma OlderIsShort(base: File, s: Sys)
    requires Kept(base, s)
    ensures |s.disk.older| <= |s.done| && AllSucceed(base, s.done)
  {
    hide AllSucceed;
  }

  /** A fresh rename shows the writer's own text over the file it loaded. */
  lemma FreshRenameKeeps(base: File, s: Sys, id: nat)
    requires IsBase(base) && Inv(base, s) && Kept(base, s)
    requires Enabled(s, Step(id)) && s.writers[id].stage.Synced? && !RenamesStale(s, Step(id))
    ensures Kept(base, Apply(s, Step(id)))
  {
    var w, t := s.writers[id], Apply(s, Step(id));
    var write := Write(id, w.change);
    TmpText(base, s, id);
    RenameShowsTmp(s, id);
    OlderIsShort(base, s);
    HonestSynced(base, s.disk, id, w);
    assert w.seen == s.done && w.root == Found;
    hide Fold, AllSucceed, Succeeds, Inv, Apply, Enabled, Kept, OwnText, TmpIsOwn;
    MoreSucceed(base, s.done, write);
    OlderAfterRename(base, s, t, write);
    KeptFrom(base, t);
  }

  lemma SameBeforeLast(a: seq<Write>, b: seq<Write>, w: Write)
    requires a + [w] == b + [w]
    ensures a == b
  {
    assert (a + [w])[..|a|] == a && (b + [w])[..|b|] == b;
  }

  lemma EndsOwn(d: Disk, id: nat, before: seq<Write>, change: Change)
    requires TrailOf(Shown(d, d.tmp)) == before + [Write(id, change)]
    ensures TmpIsOwn(d, id)
  {
  }

  /** Only a fresh rename keeps the file the fold. */
  lemma KeptRenameIsFresh(base: File, s: Sys, id: nat)
    requires IsBase(base) && Inv(base, s) && Kept(base, s)
    requires Enabled(s, Step(id)) && s.writers[id].stage.Synced? && Kept(base, Apply(s, Step(id)))
    ensures !RenamesStale(s, Step(id))
  {
    var w := s.writers[id];
    TmpText(base, s, id);
    RenameShowsTmp(s, id);
    ShownFold(base, Apply(s, Step(id)));
    hide Inv, Apply, Enabled, Kept, TmpIsOwn, Shown;
    EndsOwn(s.disk, id, s.done, w.change);
    SameBeforeLast(w.seen, s.done, Write(id, w.change));
  }

  /** Exactly the steps `Spoils` names break what is kept: a rename over a file that is
      not the one the writer loaded, a rename of a temporary file that does not hold the
      writer's own text, and a write into a file that has been renamed. */
  lemma SpoilsIsExact(base: File, s: Sys, a: Action)
    requires IsBase(base) && Inv(base, s) && Kept(base, s) && Enabled(s, a)
    ensures Kept(base, Apply(s, a)) <==> !Spoils(s, a)
  {
    if WritesLive(s, a) {
      WriteLiveSpoils(base, s, a);
    } else if a.Step? && s.writers[a.id].stage.Synced? {
      if !RenamesStale(s, a) {
        FreshRenameKeeps(base, s, a.id);
      } else if Kept(base, Apply(s, a)) {
        KeptRenameIsFresh(base, s, a.id);
      }
    } else if a.PowerLoss? {
      PowerLossKeeps(base, s, a);
    } else {
      OtherStepsKeep(base, s, a);
    }
  }

  lemma OneVersionIsKept(base: File, s: Sys, k: nat)
    requires Kept(base, s) && k <= |s.disk.older|
    ensures |s.disk.older| <= |s.done|
    ensures VersionKept(base, s.disk, Version(s.disk, k), s.done[..|s.done| - |s.disk.older| + k])
  {
    hide AllSucceed, VersionKept;
    assert s.done[..|s.done|] == s.done;
  }

  lemma VersionIsKept(base: File, s: Sys, kept: nat)
    requires Kept(base, s) && kept <= |s.disk.older|
    ensures var n := |s.done| - (|s.disk.older| - kept);
      0 <= n <= |s.done| && AllSucceed(base, s.done[..n])
      && VersionKept(base, s.disk, Version(s.disk, kept), s.done[..n])
  {
    OneVersionIsKept(base, s, kept);
    OlderIsShort(base, s);
    PrefixSucceeds(base, s.done, |s.done| - (|s.disk.older| - kept));
    hide Kept, AllSucceed, VersionKept, Version;
  }

  lemma FlushedIsNotLost(base: File, d: Disk, d': Disk, name: Option<nat>, writes: seq<Write>,
                         lost: map<nat, Option<Config>>)
    requires VersionKept(base, d, name, writes) && d'.inodes == Lost(d.inodes, lost)
    ensures VersionKept(base, d', name, writes)
  {
    hide Fold;
  }

  /** A loss of power takes back the last writes, as many as the version is old. */
  lemma PowerLossKeeps(base: File, s: Sys, a: Action)
    requires Kept(base, s) && a.PowerLoss? && Enabled(s, a)
    ensures Kept(base, Apply(s, a))
    ensures var taken := |s.disk.older| - a.kept;
      0 <= taken <= |s.done| && Apply(s, a).done == s.done[..|s.done| - taken]
  {
    VersionIsKept(base, s, a.kept);
    var t := Apply(s, a);
    hide AllSucceed, VersionKept, Lost;
    FlushedIsNotLost(base, s.disk, t.disk, Version(s.disk, a.kept), t.done, a.lost);
  }

  lemma OtherStepsKeep(base: File, s: Sys, a: Action)
    requires Inv(base, s) && Kept(base, s) && Enabled(s, a) && !WritesLive(s, a) && !a.PowerLoss?
    requires !(a.Step? && s.writers[a.id].stage.Synced?)
    ensures Kept(base, Apply(s, a))
  {
    hide AllSucceed, Fold, OwnsText, Told;
    SameVersions(base, s, Apply(s, a));
  }

  // --- over whole runs -----------------------------------------------------------------------

  lemma {:induction false} AlwaysInv(base: File, s: Sys, acts: seq<Action>)
    requires IsBase(base) && Inv(base, s) && ValidRun(false, s, acts)
    ensures Inv(base, Final(s, acts))
    decreases |acts|
  {
    if acts != [] {
      StepKeepsInv(base, s, acts[0]);
      AlwaysInv(base, Apply(s, acts[0]), acts[1..]);
    }
  }

  /** Some writes that each succeeded on the ones before it, over the text they began on. */
  ghost predicate FoldsFrom(root: File, file: File) {
    Load(file).Ok? ==> AllSucceed(root, TrailOf(file)) && file == Fold(root, TrailOf(file))
  }

  lemma ShownFolds(base: File, s: Sys)
    requires Inv(base, s)
    ensures var file := Shown(s.disk, s.disk.file); FoldsFrom(RootFile(base, RootOf(file)), file)
  {
    var file := Shown(s.disk, s.disk.file);
    hide Honest, OwnsText, Numbered, Normalise;
    if file.Some? {
      assert Told(base, file.value);
    }
  }

  /** In every run, with any mix of writers and whatever they spoil: a file that parses is
      the fold of some writes over the file as it was found, or over a cut text that
      parsed. */
  lemma TextsFoldOnRoots(base: File, acts: seq<Action>)
    requires IsBase(base) && ValidRun(false, Initial(base), acts)
    ensures var d := Final(Initial(base), acts).disk;
      var file := Shown(d, d.file); FoldsFrom(RootFile(base, RootOf(file)), file)
  {
    InitialInv(base);
    AlwaysInv(base, Initial(base), acts);
    ShownFolds(base, Final(Initial(base), acts));
  }

  // --- what shows a cut text -------------------------------------------------------------------

  predicate Parses(damage: Damage) {
    damage.Cut? && damage.parsed.Some?
  }

  /** A rename of a temporary file that holds a cut text, a damaged write into the file that
      is shown, and a loss of power that brings back or makes a cut version. */
  predicate Tears(s: Sys, a: Action)
    requires Enabled(s, a)
  {
    match a
    case Step(id) => s.writers[id].stage.Synced? && IsCut(Shown(s.disk, s.disk.tmp))
    case Overwrite(id, damage) => Parses(damage) && s.disk.file == Some(s.writers[id].fd)
    case Fail(id, damage) =>
      s.writers[id].stage.Created? && Parses(damage) && s.disk.file == Some(s.writers[id].fd)
    case PowerLoss(kept, _, lost) =>
      var v := Version(s.disk, kept);
      && v.Some? && v.value in s.disk.inodes
      && if v.value in lost && !s.disk.inodes[v.value].synced then lost[v.value].Some?
         else IsCut(Shown(s.disk, v))
    case _ => false
  }

  /** No cut text is shown, and none was ever loaded. */
  predicate Untorn(s: Sys) {
    && !IsCut(Shown(s.disk, s.disk.file))
    && (forall id | id in s.writers :: s.writers[id].root.Found?)
    && (forall i | i in s.disk.inodes && s.disk.inodes[i].text.Text? :: s.disk.inodes[i].text.root.Found?)
  }

  lemma WriterStepUntorn(s: Sys, id: nat)
    requires DiskInv(s.disk) && Untorn(s) && Enabled(s, Step(id))
    ensures Untorn(Apply(s, Step(id))) <==> !Tears(s, Step(id))
    ensures IsCut(Shown(Apply(s, Step(id)).disk, Apply(s, Step(id)).disk.file)) <==> Tears(s, Step(id))
  {
    hide Load;
  }

  lemma OtherStepUntorn(s: Sys, a: Action)
    requires DiskInv(s.disk) && Untorn(s) && Enabled(s, a) && !a.Step? && !a.PowerLoss?
    requires a.Overwrite? || a.Fail? ==> s.writers[a.id].stage.Created? ==> s.writers[a.id].fd in s.disk.inodes
    ensures Untorn(Apply(s, a)) <==> !Tears(s, a)
    ensures IsCut(Shown(Apply(s, a).disk, Apply(s, a).disk.file)) <==> Tears(s, a)
  {
    hide Load;
  }

  lemma PowerLossUntorn(s: Sys, a: Action)
    requires DiskInv(s.disk) && Untorn(s) && Enabled(s, a) && a.PowerLoss?
    ensures Untorn(Apply(s, a)) <==> !Tears(s, a)
    ensures IsCut(Shown(Apply(s, a).disk, Apply(s, a).disk.file)) <==> Tears(s, a)
  {
    hide Load;
  }

  lemma StepUntorn(base: File, s: Sys, a: Action)
    requires Inv(base, s) && Untorn(s) && Enabled(s, a)
    ensures Untorn(Apply(s, a)) <==> !Tears(s, a)
    ensures IsCut(Shown(Apply(s, a).disk, Apply(s, a).disk.file)) <==> Tears(s, a)
  {
    hide Fold, AllSucceed, Load, OwnsText, Told;
    if a.Overwrite? || a.Fail? {
      assert Honest(base, s.disk, a.id, s.writers[a.id]);
    }
    hide Honest, Apply, Untorn, Tears, Enabled;
    match a
    case Step(id) => WriterStepUntorn(s, id);
    case PowerLoss(_, _, _) => PowerLossUntorn(s, a);
    case _ => OtherStepUntorn(s, a);
  }

  lemma UntornFolds(base: File, s: Sys)
    requires IsBase(base) && Inv(base, s)
    ensures Untorn(s) ==> FoldsFrom(base, Shown(s.disk, s.disk.file))
    ensures IsCut(Shown(s.disk, s.disk.file)) ==> !FoldsFrom(base, Shown(s.disk, s.disk.file))
  {
    ShownFolds(base, s);
    hide Honest, OwnsText, Told, AllSucceed, Normalise;
    var file := Shown(s.disk, s.disk.file);
    if IsCut(file) {
      assert Fold(base, []) == base;
    }
  }

  /** Exactly the steps `Tears` names put a cut text under the file's name, and so break
      that a file that parses is the fold of some writes over the file as it was found. */
  lemma TearsIsExact(base: File, s: Sys, a: Action)
    requires IsBase(base) && Inv(base, s) && Untorn(s) && Enabled(s, a)
    ensures var t := Apply(s, a);
      && (Untorn(t) <==> !Tears(s, a))
      && (FoldsFrom(base, Shown(t.disk, t.disk.file)) <==> !Tears(s, a))
  {
    StepUntorn(base, s, a);
    StepKeepsInv(base, s, a);
    UntornFolds(base, Apply(s, a));
    hide Inv, Untorn, Tears, Apply, FoldsFrom, IsCut;
  }

  /** A run without such a step. */
  predicate NeverTears(s: Sys, acts: seq<Action>)
    decreases |acts|
  {
    acts != [] && Enabled(s, acts[0]) ==> !Tears(s, acts[0]) && NeverTears(Apply(s, acts[0]), acts[1..])
  }

  lemma {:induction false} StaysUntorn(base: File, s: Sys, acts: seq<Action>)
    requires IsBase(base) && Inv(base, s) && Untorn(s) && ValidRun(false, s, acts) && NeverTears(s, acts)
    ensures Inv(base, Final(s, acts)) && Untorn(Final(s, acts))
    decreases |acts|
  {
    if acts != [] {
      StepKeepsInv(base, s, acts[0]);
      TearsIsExact(base, s, acts[0]);
      hide Inv, Untorn, Tears, Apply, FoldsFrom, Enabled;
      StaysUntorn(base, Apply(s, acts[0]), acts[1..]);
    }
  }

  /** In every run in which no cut text is shown, with any mix of writers and whatever else
      they spoil: a file that parses is the fold of some writes that each succeeded on the
      ones before it, over the file as it was found. */
  lemma TextsAreFolds(base: File, acts: seq<Action>)
    requires IsBase(base) && ValidRun(false, Initial(base), acts) && NeverTears(Initial(base), acts)
    ensures var d := Final(Initial(base), acts).disk; FoldsFrom(base, Shown(d, d.file))
  {
    InitialInv(base);
    assert Untorn(Initial(base));
    StaysUntorn(base, Initial(base), acts);
    UntornFolds(base, Final(Initial(base), acts));
  }

  /** Serializability: in every run without a step that spoils it, whatever the writers,
      their locks, their failures, the crashes and the losses of power, the file is the
      fold of the writes done, and so is every version a loss of power may bring back. */
  lemma {:induction false} FileIsTheFold(base: File, s: Sys, acts: seq<Action>)
    requires IsBase(base) && Inv(base, s) && Kept(base, s) && ValidRun(true, s, acts)
    ensures Inv(base, Final(s, acts)) && Kept(base, Final(s, acts))
    decreases |acts|
  {
    if acts != [] {
      StepKeepsInv(base, s, acts[0]);
      SpoilsIsExact(base, s, acts[0]);
      FileIsTheFold(base, Apply(s, acts[0]), acts[1..]);
    }
  }

  predicate AllLocked(acts: seq<Action>) {
    forall k | 0 <= k < |acts| && acts[k].Begin? :: acts[k].locked
  }

  /** The one writer under the lock, over a file and a temporary file nobody touches. */
  ghost predicate Undisturbed(d: Disk, id: nat, w: Writer) {
    && w.locked
    && (!w.stage.Begun? && !w.stage.Finished? ==> LoadedFrom(w, Shown(d, d.file)))
    && (w.stage.Created? ==> d.tmp == Some(w.fd) && Shown(d, d.tmp) == Some(Empty))
    && (w.stage.Written? || w.stage.Synced? ==> d.tmp == Some(w.fd) && TmpIsOwn(d, id))
  }

  ghost predicate LockedInv(s: Sys) {
    && s.writers.Keys == (match s.lock case None => {} case Some(id) => {id})
    && forall id | id in s.writers :: Undisturbed(s.disk, id, s.writers[id])
  }

  lemma StepIsUndisturbed(d: Disk, id: nat, w: Writer)
    requires DiskInv(d) && Undisturbed(d, id, w) && CanStep(d, w)
    ensures Undisturbed(StepDisk(d, id, w), id, StepWriter(d, w))
  {
    hide Load;
  }

  lemma LockedStepIsClean(s: Sys, a: Action)
    requires DiskInv(s.disk) && LockedInv(s) && Enabled(s, a) && (a.Begin? ==> a.locked)
    ensures LockedInv(Apply(s, a)) && !Spoils(s, a)
  {
    hide Load;
    match a
    case Step(id) =>
      StepIsUndisturbed(s.disk, id, s.writers[id]);
      hide StepDisk, StepWriter;
    case _ =>
  }

  /** Under the lock nothing is spoiled. */
  lemma {:induction false} LockedRunIsClean(base: File, s: Sys, acts: seq<Action>)
    requires IsBase(base) && Inv(base, s) && LockedInv(s) && AllLocked(acts) && ValidRun(false, s, acts)
    ensures ValidRun(true, s, acts) && LockedInv(Final(s, acts))
    decreases |acts|
  {
    if acts != [] {
      StepKeepsInv(base, s, acts[0]);
      LockedStepIsClean(s, acts[0]);
      assert forall k | 0 <= k < |acts[1..]| :: acts[1..][k] == acts[k + 1];
      LockedRunIsClean(base, Apply(s, acts[0]), acts[1..]);
    }
  }

  /** Under the lock there is one writer, which can go on unless it is done or its load or
      its change failed; when it ends, fails or dies with the process, the next can begin
      on the file it left. */
  lemma LockIsFreed(base: File, acts: seq<Action>, change: Change)
    requires IsBase(base) && AllLocked(acts) && ValidRun(false, Initial(base), acts)
    ensures var s := Final(Initial(base), acts);
      match s.lock
      case None => s.writers == map[] && Enabled(s, Begin(change, true))
      case Some(id) =>
        && s.writers.Keys == {id}
        && OnceFree(s, if s.writers[id].stage == Finished then End(id) else Fail(id, Unharmed), change)
        && OnceFree(s, Crash, change)
        && match s.writers[id].stage
           case Finished => true
           case Begun => Enabled(s, Step(id)) || Load(Shown(s.disk, s.disk.file)).Err?
           case Loaded(config) => Enabled(s, Step(id)) || s.writers[id].change(config).Err?
           case _ => Enabled(s, Step(id))
  {
    InitialInv(base);
    assert LockedInv(Initial(base));
    LockedRunIsClean(base, Initial(base), acts);
    hide Load, ValidRun, Final;
  }

  /** `a` leaves the disk and the writes done as they are, and the lock to the next. */
  ghost predicate OnceFree(s: Sys, a: Action, change: Change) {
    && Enabled(s, a) && Apply(s, a).disk == s.disk && Apply(s, a).done == s.done
    && Apply(s, a).writers == map[] && Enabled(Apply(s, a), Begin(change, true))
  }

  /** The promise of the lock: if every writer takes it, the file is the fold of the writes
      done in every run. */
  lemma LockedFileIsTheFold(base: File, acts: seq<Action>)
    requires IsBase(base) && AllLocked(acts) && ValidRun(false, Initial(base), acts)
    ensures Kept(base, Final(Initial(base), acts))
  {
    InitialInv(base);
    assert LockedInv(Initial(base));
    LockedRunIsClean(base, Initial(base), acts);
    FileIsTheFold(base, Initial(base), acts);
  }

  predicate LosesPower(acts: seq<Action>) {
    exists k :: 0 <= k < |acts| && acts[k].PowerLoss?
  }

  lemma DoneGrows(s: Sys, a: Action)
    requires Enabled(s, a) && !a.PowerLoss?
    ensures s.done <= Apply(s, a).done
  {
  }

  lemma FileIsFold(base: File, s: Sys)
    requires Kept(base, s)
    ensures Shown(s.disk, s.disk.file) == Fold(base, s.done)
  {
    hide AllSucceed, Fold;
  }

  /** In a clean run a reader that takes no lock loads, at any moment, the fold of a prefix
      of the writes the run ends with; a crash of the process takes none of them away. */
  lemma {:induction false} ReadersSeePrefixes(base: File, s: Sys, acts: seq<Action>)
    requires IsBase(base) && Inv(base, s) && Kept(base, s) && ValidRun(true, s, acts) && !LosesPower(acts)
    ensures s.done <= Final(s, acts).done
    ensures Load(Shown(s.disk, s.disk.file)) == Load(Fold(base, Final(s, acts).done[..|s.done|]))
    decreases |acts|
  {
    hide Inv, Kept, Apply, Enabled, Load, Fold, Spoils, Shown;
    FileIsFold(base, s);
    if acts != [] {
      StepKeepsInv(base, s, acts[0]);
      SpoilsIsExact(base, s, acts[0]);
      assert !acts[0].PowerLoss?;
      assert forall k | 0 <= k < |acts[1..]| :: acts[1..][k] == acts[k + 1];
      DoneGrows(s, acts[0]);
      ReadersSeePrefixes(base, Apply(s, acts[0]), acts[1..]);
    }
    assert Final(s, acts).done[..|s.done|] == s.done;
  }

  /** What a loss of power takes back is the last writes whose rename had not reached the
      disk, as many as the version shown is old; after a flush it takes none. */
  lemma PowerLossTakesTheTail(base: File, s: Sys, a: Action)
    requires Kept(base, s) && a.PowerLoss? && Enabled(s, a)
    ensures var t := Apply(s, a);
      && t.done <= s.done && |s.done| - |t.done| == |s.disk.older| - a.kept
      && Shown(t.disk, t.disk.file) == Fold(base, t.done)
      && (s.disk.older == [] ==> t.done == s.done)
  {
    PowerLossKeeps(base, s, a);
    FileIsFold(base, Apply(s, a));
    hide Kept, Apply, Enabled, Shown;
  }

  /** `acts` leads from `s` to `t`. */
  ghost predicate Reaches(s: Sys, acts: seq<Action>, t: Sys) {
    ValidRun(false, s, acts) && Final(s, acts) == t
  }

  lemma {:induction false} Then(s: Sys, acts: seq<Action>, t: Sys, a: Action) returns (acts': seq<Action>)
    requires Reaches(s, acts, t) && Enabled(t, a)
    ensures Reaches(s, acts', Apply(t, a))
    decreases |acts|
  {
    acts' := acts + [a];
    if acts == [] {
      assert [a][1..] == [];
    } else {
      var rest := Then(Apply(s, acts[0]), acts[1..], t, a);
      acts' := [acts[0]] + rest;
      assert acts'[1..] == rest;
    }
  }
}
