/** The configuration file as the code handles it: load, migrate, save, and the write
    under the lock, each method a run of the system of writers. */
module ConfigStores {
  import opened Wrappers
  import opened Configs
  import opened ConfigWriter

  /** Where a write meets an error of the file system; a failed write may leave the
      temporary file cut. */
  datatype Failure = NoFailure | AtRead | AtCreate | AtWrite(damage: Damage) | AtSync | AtRename

  predicate InSave(f: Failure) {
    f.AtCreate? || f.AtWrite? || f.AtSync? || f.AtRename?
  }

  /** The system with one writer at work, the newest. */
  function One(d: Disk, begun: nat, done: seq<Write>, w: Writer): Sys {
    Sys(d, Some(begun), map[begun := w], begun + 1, done)
  }

  function Idle(d: Disk, begun: nat, done: seq<Write>): Sys {
    Sys(d, None, map[], begun, done)
  }

  lemma ThenStep(s: Sys, before: seq<Action>, d: Disk, begun: nat, done: seq<Write>, w: Writer)
      returns (acts: seq<Action>)
    requires Reaches(s, before, One(d, begun, done, w)) && CanStep(d, w)
    ensures Reaches(s, acts, One(StepDisk(d, begun, w), begun,
                                 if w.stage.Synced? then done + [Write(begun, w.change)] else done, StepWriter(d, w)))
  {
    acts := Then(s, before, One(d, begun, done, w), Step(begun));
    assert map[begun := w][begun := StepWriter(d, w)] == map[begun := StepWriter(d, w)];
  }

  function AfterFail(d: Disk, w: Writer, damage: Damage): Disk {
    if w.stage.Created? && damage.Cut? then Put(d, w.fd, Torn(damage.parsed), false) else d
  }

  lemma ThenFail(s: Sys, before: seq<Action>, d: Disk, begun: nat, done: seq<Write>, w: Writer,
                 damage: Damage)
      returns (acts: seq<Action>)
    requires Reaches(s, before, One(d, begun, done, w)) && w.stage != Finished && w.locked
    ensures Reaches(s, acts, Idle(AfterFail(d, w, damage), begun + 1, done))
  {
    acts := Then(s, before, One(d, begun, done, w), Fail(begun, damage));
    assert map[begun := w] - {begun} == map[];
  }

  lemma ThenEnd(s: Sys, before: seq<Action>, d: Disk, begun: nat, done: seq<Write>, w: Writer)
      returns (acts: seq<Action>)
    requires Reaches(s, before, One(d, begun, done, w)) && w.stage == Finished && w.locked
    ensures Reaches(s, acts, Idle(d, begun + 1, done))
  {
    acts := Then(s, before, One(d, begun, done, w), End(begun));
    assert map[begun := w] - {begun} == map[];
  }

  class ConfigStore {
    var disk: Disk

    constructor (file: File)
      ensures disk == Initial(file).disk
    {
      disk := Initial(file).disk;
    }

    method MigrateRetentionDefault(c: Config) returns (r: Config)
      ensures r == Migrated(c)
    {
      r := c;
      if r.retentionDefaultMigrated {
        return;
      }
      if r.saveRetentionLimit == OLD_SAVE_RETENTION_LIMIT {
        r := r.(saveRetentionLimit := DEFAULT_SAVE_RETENTION_LIMIT);
      }
      r := r.(retentionDefaultMigrated := true);
    }

    /** What a load does to what it has parsed. */
    method Cleaned(parsed: Config) returns (config: Config)
      ensures config == Normalise(parsed)
    {
      config := parsed.(emulators := NonBlank(parsed.emulators));
      config := MigrateRetentionDefault(config);
    }

    method LoadFile(failure: Failure) returns (r: Result<Config, WriteError>)
      ensures r == if failure.AtRead? then Err(IoError) else Load(Shown(disk, disk.file))
      ensures !failure.AtRead? ==>
        match Shown(disk, disk.file)
        case None => r == Ok(DEFAULT_CONFIG)
        case Some(Text(c, _, _)) => r == Ok(Normalise(c))
        case Some(Torn(Some(c))) => r == Ok(Normalise(c))
        case Some(_) => r == Err(ParseError)
    {
      if failure.AtRead? {
        return Err(IoError);
      }
      match Shown(disk, disk.file) {
        case None =>
          assert Normalise(DEFAULT_CONFIG) == DEFAULT_CONFIG;
          r := Ok(DEFAULT_CONFIG);
        case Some(Empty) => r := Err(ParseError);
        case Some(Torn(None)) => r := Err(ParseError);
        case Some(Torn(Some(parsed))) =>
          var config := Cleaned(parsed);
          r := Ok(config);
        case Some(Text(stored, _, _)) =>
          var config := Cleaned(stored);
          r := Ok(config);
      }
    }

    /** The first half of a save: create and write. `begun` is the number of this write. */
    method CreateAndWrite(config: Config, failure: Failure, begun: nat, w: Writer,
                          ghost s0: Sys, ghost before: seq<Action>, ghost done: seq<Write>)
        returns (ok: bool, written: Writer, ghost acts: seq<Action>)
      requires Reaches(s0, before, One(disk, begun, done, w)) && w.stage == Changed(config) && w.locked
      requires DiskInv(disk)
      modifies this
      ensures DiskInv(disk) && disk.file == old(disk.file) && disk.older == old(disk.older)
      ensures Shown(disk, disk.file) == old(Shown(disk, disk.file))
      ensures ok <==> !failure.AtCreate? && !failure.AtWrite?
      ensures !ok ==> Reaches(s0, acts, Idle(disk, begun + 1, done))
      ensures ok ==>
        && Reaches(s0, acts, One(disk, begun, done, written))
        && written == w.(stage := Written(config), fd := written.fd)
        && disk.tmp == Some(written.fd) && disk.inodes[written.fd].text == OwnText(begun, w, config)
    {
      hide Reaches;
      acts, written := before, w;
      if failure.AtCreate? {
        acts := ThenFail(s0, acts, disk, begun, done, w, Unharmed);
        return false, written, acts;
      }
      var fd := Opened(disk);
      acts := ThenStep(s0, acts, disk, begun, done, w);
      disk := Put(disk, fd, Empty, false)
        .(tmp := Some(fd), next := if disk.tmp.Some? then disk.next else disk.next + 1);
      written := w.(stage := Created(config), fd := fd);
      if failure.AtWrite? {
        acts := ThenFail(s0, acts, disk, begun, done, written, failure.damage);
        disk := AfterFail(disk, written, failure.damage);
        return false, written, acts;
      }
      acts := ThenStep(s0, acts, disk, begun, done, written);
      disk := Put(disk, fd, OwnText(begun, w, config), false);
      written := written.(stage := Written(config));
      return true, written, acts;
    }

    /** The second half: flush and rename. `last` is what is left of the writer. */
    method SyncAndRename(config: Config, failure: Failure, begun: nat, w: Writer,
                         ghost s0: Sys, ghost before: seq<Action>, ghost done: seq<Write>)
        returns (ok: bool, ghost acts: seq<Action>, ghost last: Writer)
      requires Reaches(s0, before, One(disk, begun, done, w)) && w.stage == Written(config) && w.locked
      requires DiskInv(disk) && disk.tmp == Some(w.fd)
      modifies this
      ensures DiskInv(disk)
      ensures ok <==> !failure.AtSync? && !failure.AtRename?
      ensures Shown(disk, disk.file) == old(if ok then Shown(disk, disk.tmp) else Shown(disk, disk.file))
      ensures disk.older == if ok then old(disk.older) + [old(disk.file)] else old(disk.older)
      ensures last == w.(stage := Finished)
      ensures Reaches(s0, acts,
        if ok then One(disk, begun, done + [Write(begun, w.change)], last) else Idle(disk, begun + 1, done))
    {
      hide Reaches;
      acts, last := before, w.(stage := Finished);
      if failure.AtSync? {
        acts := ThenFail(s0, acts, disk, begun, done, w, Unharmed);
        return false, acts, last;
      }
      acts := ThenStep(s0, acts, disk, begun, done, w);
      disk := Put(disk, w.fd, disk.inodes[w.fd].text, true);
      if failure.AtRename? {
        acts := ThenFail(s0, acts, disk, begun, done, w.(stage := Synced(config)), Unharmed);
        return false, acts, last;
      }
      acts := ThenStep(s0, acts, disk, begun, done, w.(stage := Synced(config)));
      disk := disk.(file := disk.tmp, tmp := None, older := disk.older + [disk.file]);
      return true, acts, last;
    }

    /** Create, write, flush, rename. */
    method Save(config: Config, failure: Failure, begun: nat, w: Writer,
                ghost s0: Sys, ghost before: seq<Action>, ghost done: seq<Write>)
        returns (ok: bool, ghost acts: seq<Action>, ghost last: Writer)
      requires Reaches(s0, before, One(disk, begun, done, w)) && w.stage == Changed(config) && w.locked
      requires DiskInv(disk)
      modifies this
      ensures DiskInv(disk)
      ensures ok <==> !InSave(failure)
      ensures Shown(disk, disk.file) == if ok then Some(OwnText(begun, w, config)) else old(Shown(disk, disk.file))
      ensures disk.older == if ok then old(disk.older) + [old(disk.file)] else old(disk.older)
      ensures last.stage == Finished && last.locked
      ensures Reaches(s0, acts,
        if ok then One(disk, begun, done + [Write(begun, w.change)], last) else Idle(disk, begun + 1, done))
    {
      hide Reaches;
      var written: Writer;
      last := w.(stage := Finished);
      ok, written, acts := CreateAndWrite(config, failure, begun, w, s0, before, done);
      if ok {
        ok, acts, last := SyncAndRename(config, failure, begun, written, s0, acts, done);
      }
    }

    /** One write under the lock: it takes effect as a whole or not at all, and is a run
        of the system that begins and ends with the lock free. */
    method ModifyConfig(change: Change, failure: Failure, begun: nat, ghost done: seq<Write>)
        returns (r: Result<Config, WriteError>, ghost acts: seq<Action>)
      requires DiskInv(disk)
      modifies this
      ensures DiskInv(disk)
      ensures r.Ok? <==> failure == NoFailure && Succeeds(old(Shown(disk, disk.file)), change)
      ensures r.Ok? ==>
        && Shown(disk, disk.file) == Rewritten(old(Shown(disk, disk.file)), Write(begun, change))
        && Shown(disk, disk.file).value.Text? && Shown(disk, disk.file).value.config == r.value
        && Load(Shown(disk, disk.file)) == Ok(Normalise(r.value))
      ensures r.Err? ==> Shown(disk, disk.file) == old(Shown(disk, disk.file))
      ensures r == if failure.AtRead? then Err(IoError)
                   else match old(Load(Shown(disk, disk.file)))
                     case Err(error) => Err(error)
                     case Ok(loaded) =>
                       match change(loaded)
                       case Err(message) => Err(Refused(message))
                       case Ok(changed) => if failure == NoFailure then Ok(changed) else Err(IoError)
      ensures Reaches(Idle(old(disk), begun, done), acts,
                      Idle(disk, begun + 1, if r.Ok? then done + [Write(begun, change)] else done))
    {
      ghost var s0 := Idle(disk, begun, done);
      acts := [];
      acts := Then(s0, acts, s0, Begin(change, true));
      hide Reaches;
      var w := Writer(change, true, Begun, Found, [], 0);
      assert Apply(s0, Begin(change, true)) == One(disk, begun, done, w);
      var loaded := LoadFile(failure);
      if loaded.Err? {
        acts := ThenFail(s0, acts, disk, begun, done, w, Unharmed);
        return Err(loaded.error), acts;
      }
      acts := ThenStep(s0, acts, disk, begun, done, w);
      var file := Shown(disk, disk.file);
      w := w.(stage := Loaded(loaded.value), root := RootOf(file), seen := TrailOf(file));
      var changed := change(loaded.value);
      if changed.Err? {
        acts := ThenFail(s0, acts, disk, begun, done, w, Unharmed);
        return Err(Refused(changed.error)), acts;
      }
      acts := ThenStep(s0, acts, disk, begun, done, w);
      w := w.(stage := Changed(changed.value));
      var ok: bool;
      ghost var last: Writer;
      ok, acts, last := Save(changed.value, failure, begun, w, s0, acts, done);
      if !ok {
        return Err(IoError), acts;
      }
      acts := ThenEnd(s0, acts, disk, begun, done + [Write(begun, change)], last);
      return Ok(changed.value), acts;
    }
  }
}
