/** What one writer without the lock can do to one that takes it: an update lost, and the
    file torn in three ways. */
module ConfigRaces {
  import opened Wrappers
  import opened Configs
  import opened ConfigWriter

  function SetExtra(text: string): Change {
    (c: Config) => Ok(c.(extra := text))
  }

  const EXTRA := SetExtra("a")
  const LIMIT := SetLimit(7)

  /** A writer under the lock and one without it have loaded the same file. */
  ghost predicate BothLoaded(t: Sys) {
    && t.disk == Initial(None).disk && t.lock == Some(0) && t.begun == 2 && t.done == []
    && t.writers == map[0 := Writer(EXTRA, true, Loaded(DEFAULT_CONFIG), Found, [], 0),
                        1 := Writer(LIMIT, false, Loaded(DEFAULT_CONFIG), Found, [], 0)]
  }

  lemma BothLoad() returns (acts: seq<Action>, t: Sys)
    ensures Reaches(Initial(None), acts, t) && BothLoaded(t)
  {
    var s := Initial(None);
    acts := [];
    assert Reaches(s, acts, s);
    hide Reaches;
    acts := Then(s, acts, s, Begin(EXTRA, true));
    t := Apply(s, Begin(EXTRA, true));
    acts := Then(s, acts, t, Begin(LIMIT, false));
    t := Apply(t, Begin(LIMIT, false));
    acts := Then(s, acts, t, Step(0));
    t := Apply(t, Step(0));
    acts := Then(s, acts, t, Step(1));
    t := Apply(t, Step(1));
  }

  predicate CanChange(t: Sys, id: nat, config: Config, changed: Config) {
    && id in t.writers && t.writers[id].stage == Loaded(config)
    && t.writers[id].change(config) == Ok(changed)
  }

  /** The writer has created the temporary file. */
  function AfterCreate(t: Sys, id: nat, changed: Config): Sys
    requires id in t.writers
  {
    var i := Opened(t.disk);
    t.(disk := Disk(t.disk.inodes[i := Inode(Empty, false)], t.disk.file, Some(i), t.disk.older,
                    if t.disk.tmp.Some? then t.disk.next else t.disk.next + 1),
       writers := t.writers[id := t.writers[id].(stage := Created(changed), fd := i)])
  }

  lemma Creates(s: Sys, before: seq<Action>, t: Sys, id: nat, config: Config, changed: Config)
      returns (acts: seq<Action>)
    requires Reaches(s, before, t) && CanChange(t, id, config, changed)
    ensures Reaches(s, acts, AfterCreate(t, id, changed))
  {
    hide Reaches;
    var w := t.writers[id];
    acts := Then(s, before, t, Step(id));
    var u := t.(writers := t.writers[id := w.(stage := Changed(changed))]);
    acts := Then(s, acts, u, Step(id));
    assert u.writers[id := w.(stage := Created(changed), fd := Opened(t.disk))]
        == t.writers[id := w.(stage := Created(changed), fd := Opened(t.disk))];
  }

  /** The writer has written and flushed its own text. */
  function AfterSync(t: Sys, id: nat): Sys
    requires id in t.writers && t.writers[id].stage.Created?
  {
    var w := t.writers[id];
    t.(disk := Put(t.disk, w.fd, OwnText(id, w, w.stage.config), true),
       writers := t.writers[id := w.(stage := Synced(w.stage.config))])
  }

  lemma WritesAndSyncs(s: Sys, before: seq<Action>, t: Sys, id: nat) returns (acts: seq<Action>)
    requires Reaches(s, before, t) && id in t.writers && t.writers[id].stage.Created?
    requires t.writers[id].fd in t.disk.inodes && t.disk.inodes[t.writers[id].fd].text.Empty?
    ensures Reaches(s, acts, AfterSync(t, id))
  {
    hide Reaches;
    var w := t.writers[id];
    var own := OwnText(id, w, w.stage.config);
    acts := Then(s, before, t, Step(id));
    var u := t.(disk := Put(t.disk, w.fd, own, false),
                writers := t.writers[id := w.(stage := Written(w.stage.config))]);
    acts := Then(s, acts, u, Step(id));
    assert u.disk.inodes[w.fd := Inode(own, true)] == t.disk.inodes[w.fd := Inode(own, true)];
    assert u.writers[id := w.(stage := Synced(w.stage.config))]
        == t.writers[id := w.(stage := Synced(w.stage.config))];
  }

  /** The writer has renamed. */
  function AfterRename(t: Sys, id: nat): Sys
    requires id in t.writers
  {
    var w := t.writers[id];
    t.(disk := Disk(t.disk.inodes, t.disk.tmp, None, t.disk.older + [t.disk.file], t.disk.next),
       writers := t.writers[id := w.(stage := Finished)], done := t.done + [Write(id, w.change)])
  }

  lemma Renames(s: Sys, before: seq<Action>, t: Sys, id: nat) returns (acts: seq<Action>)
    requires Reaches(s, before, t) && id in t.writers && t.writers[id].stage.Synced? && t.disk.tmp.Some?
    ensures Reaches(s, acts, AfterRename(t, id))
  {
    acts := Then(s, before, t, Step(id));
  }

  const CHANGED_EXTRA := DEFAULT_CONFIG.(extra := "a")
  const CHANGED_LIMIT := DEFAULT_CONFIG.(saveRetentionLimit := 7)

  /** One writer had the lock and one had not, both as far as they go. */
  predicate OneUnlocked(t: Sys) {
    t.begun == 2 && t.writers.Keys == {0, 1} && t.writers[0].locked && !t.writers[1].locked
  }

  lemma FirstHasSaved() returns (acts: seq<Action>, t: Sys)
    ensures Reaches(Initial(None), acts, t)
    ensures t.disk == Disk(map[0 := Inode(Text(CHANGED_EXTRA, Found, [Write(0, EXTRA)]), true)],
                           Some(0), None, [None], 1)
    ensures t.writers == map[0 := Writer(EXTRA, true, Finished, Found, [], 0),
                             1 := Writer(LIMIT, false, Loaded(DEFAULT_CONFIG), Found, [], 0)]
    ensures t.lock == Some(0) && t.begun == 2 && t.done == [Write(0, EXTRA)]
  {
    hide Reaches;
    var s := Initial(None);
    acts, t := BothLoad();
    acts := Creates(s, acts, t, 0, DEFAULT_CONFIG, CHANGED_EXTRA);
    t := AfterCreate(t, 0, CHANGED_EXTRA);
    acts := WritesAndSyncs(s, acts, t, 0);
    t := AfterSync(t, 0);
    acts := Renames(s, acts, t, 0);
    t := AfterRename(t, 0);
    assert OwnTrail(0, [], EXTRA) == [Write(0, EXTRA)];
    assert t.disk.inodes == map[0 := Inode(Text(CHANGED_EXTRA, Found, [Write(0, EXTRA)]), true)];
    assert t.writers == map[0 := Writer(EXTRA, true, Finished, Found, [], 0),
                            1 := Writer(LIMIT, false, Loaded(DEFAULT_CONFIG), Found, [], 0)];
    assert t.done == [Write(0, EXTRA)];
  }

  /** A lost update: a writer that took the lock has returned, and its change is gone from
      the file, because one that did not had loaded before it. */
  lemma UnlockedWriterLosesUpdate() returns (acts: seq<Action>, t: Sys)
    ensures Reaches(Initial(None), acts, t) && OneUnlocked(t)
    ensures t.done == [Write(0, EXTRA), Write(1, LIMIT)]
    ensures Load(Shown(t.disk, t.disk.file)) == Ok(CHANGED_LIMIT)
    ensures Load(Fold(None, t.done)) == Ok(CHANGED_LIMIT.(extra := "a"))
  {
    hide Reaches;
    var s := Initial(None);
    acts, t := FirstHasSaved();
    acts := Creates(s, acts, t, 1, DEFAULT_CONFIG, CHANGED_LIMIT);
    t := AfterCreate(t, 1, CHANGED_LIMIT);
    acts := WritesAndSyncs(s, acts, t, 1);
    t := AfterSync(t, 1);
    acts := Renames(s, acts, t, 1);
    t := AfterRename(t, 1);
    FoldOfBoth(t.done);
  }

  lemma FoldOfBoth(done: seq<Write>)
    requires done == [Write(0, EXTRA), Write(1, LIMIT)]
    ensures Load(Fold(None, done)) == Ok(CHANGED_LIMIT.(extra := "a"))
  {
    FoldStep(None, [], Write(0, EXTRA));
    FoldStep(None, [Write(0, EXTRA)], Write(1, LIMIT));
    assert [] + [Write(0, EXTRA)] == [Write(0, EXTRA)];
    assert [Write(0, EXTRA)] + [Write(1, LIMIT)] == done;
  }

  /** The first writer has flushed its text, and the second has created the temporary file
      over it. */
  ghost predicate CreatedOver(t: Sys) {
    && OneUnlocked(t) && t.done == [] && t.lock == Some(0)
    && t.disk == Disk(map[0 := Inode(Empty, false)], None, Some(0), [], 1)
    && t.writers == map[0 := Writer(EXTRA, true, Synced(CHANGED_EXTRA), Found, [], 0),
                        1 := Writer(LIMIT, false, Created(CHANGED_LIMIT), Found, [], 0)]
  }

  lemma CreatesOver() returns (acts: seq<Action>, t: Sys)
    ensures Reaches(Initial(None), acts, t) && CreatedOver(t)
  {
    hide Reaches;
    var s := Initial(None);
    acts, t := BothLoad();
    acts := Creates(s, acts, t, 0, DEFAULT_CONFIG, CHANGED_EXTRA);
    t := AfterCreate(t, 0, CHANGED_EXTRA);
    acts := WritesAndSyncs(s, acts, t, 0);
    t := AfterSync(t, 0);
    acts := Creates(s, acts, t, 1, DEFAULT_CONFIG, CHANGED_LIMIT);
    t := AfterCreate(t, 1, CHANGED_LIMIT);
    assert t.disk.inodes == map[0 := Inode(Empty, false)];
    assert t.writers == map[0 := Writer(EXTRA, true, Synced(CHANGED_EXTRA), Found, [], 0),
                            1 := Writer(LIMIT, false, Created(CHANGED_LIMIT), Found, [], 0)];
  }

  /** A torn file: the second writer creates the temporary file between the first one's
      flush and its rename, and the file that is renamed is empty. */
  lemma UnlockedWriterTearsFile() returns (acts: seq<Action>, t: Sys)
    ensures Reaches(Initial(None), acts, t) && OneUnlocked(t)
    ensures t.done == [Write(0, EXTRA)] && Load(Shown(t.disk, t.disk.file)) == Err(ParseError)
  {
    hide Reaches;
    acts, t := CreatesOver();
    acts := Renames(Initial(None), acts, t, 0);
    t := AfterRename(t, 0);
  }

  /** A cut file: the second writer's write fails half way, and the file that is renamed
      holds what was written. Whatever that parses to is loaded as the configuration,
      though nobody saved it. */
  lemma UnlockedWriterCutsFile(cut: Config) returns (acts: seq<Action>, before: Sys, t: Sys)
    ensures Reaches(Initial(None), acts, t) && t.done == [Write(0, EXTRA)]
    ensures Enabled(before, Step(0)) && Tears(before, Step(0)) && t == Apply(before, Step(0))
    ensures Load(Shown(t.disk, t.disk.file)) == Ok(Normalise(cut))
    ensures !FoldsFrom(None, Shown(t.disk, t.disk.file))
  {
    hide Reaches;
    acts, t := CreatesOver();
    acts := Then(Initial(None), acts, t, Fail(1, Cut(Some(cut))));
    before := Apply(t, Fail(1, Cut(Some(cut))));
    acts := Then(Initial(None), acts, before, Step(0));
    t := Apply(before, Step(0));
    assert Fold(None, []) == None;
  }

  /** The live file torn after a rename that was fresh: the second writer still has the
      file open that the first one has renamed, and writes into it. What is left may parse
      or not. */
  lemma UnlockedWriterTearsLiveFile(parsed: Option<Config>) returns (acts: seq<Action>, t: Sys)
    ensures Reaches(Initial(None), acts, t) && OneUnlocked(t) && t.done == [Write(0, EXTRA)]
    ensures Shown(t.disk, t.disk.file) == Some(Torn(parsed))
  {
    hide Reaches;
    var s := Initial(None);
    acts, t := BothLoad();
    acts := Creates(s, acts, t, 0, DEFAULT_CONFIG, CHANGED_EXTRA);
    t := AfterCreate(t, 0, CHANGED_EXTRA);
    acts := Creates(s, acts, t, 1, DEFAULT_CONFIG, CHANGED_LIMIT);
    t := AfterCreate(t, 1, CHANGED_LIMIT);
    acts := WritesAndSyncs(s, acts, t, 0);
    t := AfterSync(t, 0);
    acts := Renames(s, acts, t, 0);
    t := AfterRename(t, 0);
    acts := Then(s, acts, t, Overwrite(1, Cut(parsed)));
    t := Apply(t, Overwrite(1, Cut(parsed)));
  }
}
