/** What holds in every run of the library protocol, and exactly which steps of the
    code can break it. */
module LibraryRuns {
  import opened LibraryGates
  import opened LibraryProtocol

  // --- whole runs ----------------------------------------------------------

  lemma {:induction false} AlwaysMover(c: Care, s: Sys, acts: seq<Action>)
    requires c.noEarlySpawn && MoverInv(s) && ValidRun(c, s, acts)
    ensures MoverInv(Final(c, s, acts))
    decreases |acts|
  {
    if acts != [] {
      StepKeepsMover(s, acts[0]);
      AlwaysMover(c, Apply(s, acts[0]), acts[1..]);
    }
  }

  lemma {:induction false} AlwaysNoOrphan(c: Care, s: Sys, acts: seq<Action>)
    requires c.noEarlySpawn && c.noLatePanic
    requires MoverInv(s) && NoOrphanLock(s) && ValidRun(c, s, acts)
    ensures NoOrphanLock(Final(c, s, acts))
    decreases |acts|
  {
    if acts != [] {
      StepKeepsMover(s, acts[0]);
      StepKeepsNoOrphan(s, acts[0]);
      AlwaysNoOrphan(c, Apply(s, acts[0]), acts[1..]);
    }
  }

  lemma StartAvoidsPoolQuiet(s: Sys, a: StartAction)
    requires !s.op.PoolQuiet? && StartEnabled(s, a) && !(a.StartReadPool? && s.op.GamesQuiet?)
    ensures !StartStep(s, a).op.PoolQuiet?
  {
  }

  lemma ResumeAvoidsPoolQuiet(s: Sys, a: ResumeAction)
    requires !s.op.PoolQuiet? && ResumeEnabled(s, a)
    ensures !ResumeStep(s, a).op.PoolQuiet?
  {
  }

  lemma RunAvoidsPoolQuiet(s: Sys, a: JobAction)
    requires !s.op.PoolQuiet? && JobEnabled(s, a)
    ensures !JobStep(s, a).op.PoolQuiet?
  {
  }

  lemma BootAvoidsPoolQuiet(s: Sys, a: BootAction)
    requires !s.op.PoolQuiet? && BootEnabled(s, a)
    ensures !BootStep(s, a).op.PoolQuiet?
  {
  }

  /** A count-first start never stands between a pool read and a count read. */
  lemma StepAvoidsPoolQuiet(c: Care, s: Sys, a: Action)
    requires c.order.CountFirst? && !s.op.PoolQuiet? && Enabled(s, a) && Allowed(c, s, a)
    ensures !Apply(s, a).op.PoolQuiet?
  {
    match a
    case Client(client) => ClientLeavesMover(s, client);
    case Start(start) => StartAvoidsPoolQuiet(s, start);
    case Resume(resume) => ResumeAvoidsPoolQuiet(s, resume);
    case Control(control) => ControlLeavesRow(s, control);
    case Run(run) => RunAvoidsPoolQuiet(s, run);
    case Settle(settle) => SettleLeavesClients(s, settle);
    case Boot(boot) => BootAvoidsPoolQuiet(s, boot);
  }

  lemma {:induction false} AlwaysClients(c: Care, s: Sys, acts: seq<Action>)
    requires c.noEarlySpawn && (c.noSlip || (c.order.CountFirst? && !s.op.PoolQuiet?))
    requires MoverInv(s) && ClientInv(s) && ValidRun(c, s, acts)
    ensures ClientInv(Final(c, s, acts))
    decreases |acts|
  {
    if acts != [] {
      StepKeepsMover(s, acts[0]);
      StepKeepsClients(s, acts[0]);
      if !c.noSlip {
        StepAvoidsPoolQuiet(c, s, acts[0]);
      }
      AlwaysClients(c, Apply(s, acts[0]), acts[1..]);
    }
  }

  /** Exclusion, in the code's read order: over every interleaving of any number
      of clients with starts, runs, cancels, relocates and crashes, nobody is
      inside the library while a journal exists, as long as no hand-off slips
      between the two reads and no run is spawned under a late store. */
  lemma Exclusion(journal: Journal, acts: seq<Action>)
    requires ValidRun(Care(PoolFirst, true, true, false), BootState(journal), acts)
    ensures Excluded(Final(Care(PoolFirst, true, true, false), BootState(journal), acts))
  {
    BootEstablishes(journal);
    AlwaysClients(Care(PoolFirst, true, true, false), BootState(journal), acts);
  }

  /** Reading the count before the pool needs no assumption about the hand-off. */
  lemma ExclusionCountFirst(journal: Journal, acts: seq<Action>)
    requires ValidRun(Care(CountFirst, false, true, false), BootState(journal), acts)
    ensures Excluded(Final(Care(CountFirst, false, true, false), BootState(journal), acts))
  {
    BootEstablishes(journal);
    AlwaysClients(Care(CountFirst, false, true, false), BootState(journal), acts);
  }

  /** Gate exactness: whenever no operation and no run is in progress, the gate
      is closed exactly when a journal exists or the library is unreachable. */
  lemma GateExactness(journal: Journal, acts: seq<Action>)
    requires ValidRun(Care(PoolFirst, false, true, true), BootState(journal), acts)
    ensures GateExact(Final(Care(PoolFirst, false, true, true), BootState(journal), acts))
  {
    BootEstablishes(journal);
    AlwaysMover(Care(PoolFirst, false, true, true), BootState(journal), acts);
    AlwaysNoOrphan(Care(PoolFirst, false, true, true), BootState(journal), acts);
  }

  lemma {:induction false} AlwaysRow(c: Care, s: Sys, acts: seq<Action>)
    requires RowInv(s) && ValidRun(c, s, acts)
    ensures RowInv(Final(c, s, acts))
    decreases |acts|
  {
    if acts != [] {
      StepKeepsRow(s, acts[0]);
      AlwaysRow(c, Apply(s, acts[0]), acts[1..]);
    }
  }

  /** Never two runs under one row: in every run, hazards and all, whatever spawns a run
      finds none that still holds the row. */
  lemma SingleRun(order: ReadOrder, journal: Journal, acts: seq<Action>, a: Action)
    requires ValidRun(Care(order, false, false, false), BootState(journal), acts)
    requires Spawns(Final(Care(order, false, false, false), BootState(journal), acts), a)
    ensures Final(Care(order, false, false, false), BootState(journal), acts).job.NoJob?
  {
    AlwaysRow(Care(order, false, false, false), BootState(journal), acts);
  }

  /** Without early spawns `running` is true of every run that has not made its own last
      store, so whatever spawns a run, starts, resumes, cancels at once or relocates finds
      nobody settling either. */
  lemma RunningIsTrue(journal: Journal, acts: seq<Action>)
    requires ValidRun(Care(PoolFirst, false, true, false), BootState(journal), acts)
    ensures var s := Final(Care(PoolFirst, false, true, false), BootState(journal), acts);
      && (Alive(s) ==> s.running)
      && (PastRunningCheck(s.op) ==> !Alive(s))
      && (forall i, j | i in s.settling && j in s.settling :: i == j)
  {
    BootEstablishes(journal);
    AlwaysMover(Care(PoolFirst, false, true, false), BootState(journal), acts);
  }

  // --- the hazards are exactly these ---------------------------------------

  const CAREFUL := Care(PoolFirst, true, true, true)

  /** Exclusion holds now and after everything that can follow. */
  ghost predicate StaysExcluded(s: Sys) {
    forall acts | ValidRun(CAREFUL, s, acts) :: Excluded(Final(CAREFUL, s, acts))
  }

  /** Gate exactness holds now and after everything that can follow. */
  ghost predicate StaysExact(s: Sys) {
    forall acts | ValidRun(CAREFUL, s, acts) :: GateExact(Final(CAREFUL, s, acts))
  }

  lemma RunCons(c: Care, s: Sys, a: Action, rest: seq<Action>)
    requires Enabled(s, a) && Allowed(c, s, a) && ValidRun(c, Apply(s, a), rest)
    ensures ValidRun(c, s, [a] + rest)
    ensures Final(c, s, [a] + rest) == Final(c, Apply(s, a), rest)
  {
    assert ([a] + rest)[1..] == rest;
  }

  lemma {:induction false} RunConcat(c: Care, s: Sys, first: seq<Action>, second: seq<Action>)
    requires ValidRun(c, s, first) && ValidRun(c, Final(c, s, first), second)
    ensures ValidRun(c, s, first + second)
    ensures Final(c, s, first + second) == Final(c, Final(c, s, first), second)
    decreases |first|
  {
    hide Enabled, Allowed, Apply;
    if first == [] {
      assert first + second == second;
    } else {
      RunConcat(c, Apply(s, first[0]), first[1..], second);
      assert first + second == [first[0]] + (first[1..] + second);
      RunCons(c, s, first[0], first[1..] + second);
    }
  }

  lemma RunOne(c: Care, s: Sys, a: Action)
    requires Enabled(s, a) && Allowed(c, s, a)
    ensures ValidRun(c, s, [a]) && Final(c, s, [a]) == Apply(s, a)
  {
    RunCons(c, s, a, []);
  }

  /** One more action at the end of a run. */
  lemma RunThen(c: Care, s: Sys, acts: seq<Action>, a: Action)
    requires ValidRun(c, s, acts)
    requires Enabled(Final(c, s, acts), a) && Allowed(c, Final(c, s, acts), a)
    ensures ValidRun(c, s, acts + [a])
    ensures Final(c, s, acts + [a]) == Apply(Final(c, s, acts), a)
  {
    RunOne(c, Final(c, s, acts), a);
    RunConcat(c, s, acts, [a]);
  }

  lemma AlwaysExact(s: Sys)
    requires MoverInv(s) && NoOrphanLock(s)
    ensures StaysExact(s)
  {
    forall acts | ValidRun(CAREFUL, s, acts) ensures GateExact(Final(CAREFUL, s, acts)) {
      AlwaysMover(CAREFUL, s, acts);
      AlwaysNoOrphan(CAREFUL, s, acts);
    }
  }

  lemma AlwaysExcluded(s: Sys)
    requires MoverInv(s) && ClientInv(s)
    ensures StaysExcluded(s)
  {
    forall acts | ValidRun(CAREFUL, s, acts) ensures Excluded(Final(CAREFUL, s, acts)) {
      AlwaysClients(CAREFUL, s, acts);
    }
  }

  /** At the moment the count reads zero, exclusion holds over everything that
      can follow if and only if the pool, read empty before, is still empty. */
  lemma SlipIsExact(s: Sys)
    requires MoverInv(s) && ClientInv(s) && s.op.PoolQuiet? && Enabled(s, Start(StartReadCount))
    ensures StaysExcluded(Apply(s, Start(StartReadCount))) <==> s.pool == {}
  {
    var quiet := Apply(s, Start(StartReadCount));
    if s.pool == {} {
      StepKeepsMover(s, Start(StartReadCount));
      StepKeepsClients(s, Start(StartReadCount));
      AlwaysExcluded(quiet);
    } else {
      RunOne(CAREFUL, quiet, Start(StartWrite));
      assert !Excluded(Final(CAREFUL, quiet, [Start(StartWrite)]));
    }
  }

  /** `acts` leads from `s` to `t`. */
  predicate Reaches(c: Care, s: Sys, acts: seq<Action>, t: Sys) {
    ValidRun(c, s, acts) && Final(c, s, acts) == t
  }

  lemma Then(c: Care, s: Sys, acts: seq<Action>, t: Sys, a: Action) returns (acts': seq<Action>)
    requires Reaches(c, s, acts, t) && Enabled(t, a) && Allowed(c, t, a)
    ensures Reaches(c, s, acts', Apply(t, a))
  {
    RunThen(c, s, acts, a);
    acts' := acts + [a];
  }

  // --- pieces of runs --------------------------------------------------------

  /** A resume up to its row. */
  lemma ResumeToRow(s: Sys, before: seq<Action>, t: Sys) returns (acts: seq<Action>)
    requires Reaches(CAREFUL, s, before, t)
    requires t.op.Idle? && !t.unreachable && !t.running && t.journal.Present? && !t.rowLive
    ensures Reaches(CAREFUL, s, acts, t.(gate := t.gate.Close(MOVE_BUSY), rowLive := true, op := ResumeRow))
  {
    hide Reaches;
    acts := Then(CAREFUL, s, before, t, Resume(ResumeReach));
    acts := Then(CAREFUL, s, acts, t.(op := ResumeReached), Resume(ResumeNotRunning));
    acts := Then(CAREFUL, s, acts, t.(op := ResumeFree), Resume(ResumeLoad));
    acts := Then(CAREFUL, s, acts, t.(op := ResumeLoaded), Resume(ResumeClose));
    acts := Then(CAREFUL, s, acts, t.(gate := t.gate.Close(MOVE_BUSY), op := ResumeClosed), Resume(ResumeTakeRow));
  }

  lemma Resumes(s: Sys, before: seq<Action>, t: Sys) returns (acts: seq<Action>)
    requires Reaches(CAREFUL, s, before, t) && t.clears == 0
    requires t.op.Idle? && !t.unreachable && !t.running && t.journal.Present? && !t.rowLive
    ensures Reaches(CAREFUL, s, acts,
      t.(gate := t.gate.Close(MOVE_BUSY), rowLive := true, pendingResume := false, cancel := false, running := true,
         job := Spawned))
  {
    hide Reaches;
    acts := ResumeToRow(s, before, t);
    acts := Then(CAREFUL, s, acts, t.(gate := t.gate.Close(MOVE_BUSY), rowLive := true, op := ResumeRow),
                 Resume(ResumeSpawn));
  }

  /** A spawned run fails at once and its row ends. */
  lemma RunFails(s: Sys, before: seq<Action>, t: Sys, id: Id) returns (acts: seq<Action>)
    requires Reaches(CAREFUL, s, before, t) && t.job.Spawned? && t.journal.Present? && id !in t.settling
    ensures Reaches(CAREFUL, s, acts,
                    t.(job := NoJob, rowLive := false, settling := t.settling[id := RowEnded(false)]))
  {
    hide Reaches;
    acts := Then(CAREFUL, s, before, t, Run(JobLoad));
    acts := Then(CAREFUL, s, acts, t.(job := Working(t.journal.phase)), Run(JobFail(false)));
    acts := Then(CAREFUL, s, acts, t.(job := Ended(Failed(false))), Run(RowEnd(id)));
  }

  /** A spawned run goes through its phases to Cleanup. */
  lemma RunCleansUp(s: Sys, before: seq<Action>, t: Sys) returns (acts: seq<Action>)
    requires Reaches(CAREFUL, s, before, t) && t.job.Spawned? && t.journal.Present?
    ensures Reaches(CAREFUL, s, acts, t.(job := Working(Cleanup), journal := Present(Cleanup)))
  {
    hide Reaches;
    acts := Then(CAREFUL, s, before, t, Run(JobLoad));
    if t.journal.phase.Copy? {
      acts := Then(CAREFUL, s, acts, t.(job := Working(Copy)), Run(JobSave(Commit)));
      acts := Then(CAREFUL, s, acts, t.(job := Working(Commit), journal := Present(Commit)), Run(JobSave(Cleanup)));
    } else {
      acts := Then(CAREFUL, s, acts, t.(job := Working(t.journal.phase)), Run(JobSave(Cleanup)));
    }
  }

  /** A settling run reads everything clear and is about to open the gate. */
  lemma AboutToOpen(s: Sys, before: seq<Action>, t: Sys, id: Id) returns (acts: seq<Action>)
    requires Reaches(CAREFUL, s, before, t) && id in t.settling && t.settling[id].Checking?
    requires t.journal.Absent? && !t.unreachable
    ensures Reaches(CAREFUL, s, acts, t.(settling := t.settling[id := Clear]))
  {
    hide Reaches;
    acts := Then(CAREFUL, s, before, t, Settle(SettleStep(id)));
    acts := Then(CAREFUL, s, acts, t.(settling := t.settling[id := Reachable]), Settle(SettleStep(id)));
    assert t.settling[id := Reachable][id := Clear] == t.settling[id := Clear];
  }

  /** The gate opens. */
  lemma OpensNow(s: Sys, before: seq<Action>, t: Sys, id: Id) returns (acts: seq<Action>)
    requires Reaches(CAREFUL, s, before, t) && id in t.settling && t.settling[id].Clear?
    ensures Reaches(CAREFUL, s, acts, t.(gate := t.gate.Open(), settling := t.settling[id := Decided]))
  {
    acts := Then(CAREFUL, s, before, t, Settle(SettleStep(id)));
  }

  /** A run's own store and its drop guard's. */
  lemma BothStores(s: Sys, before: seq<Action>, t: Sys, id: Id) returns (acts: seq<Action>)
    requires Reaches(CAREFUL, s, before, t) && id in t.settling && t.settling[id].Decided?
    ensures Reaches(CAREFUL, s, acts, t.(running := false, settling := t.settling - {id}))
  {
    hide Reaches;
    acts := Then(CAREFUL, s, before, t, Settle(SettleStep(id)));
    acts := Then(CAREFUL, s, acts, t.(running := false, settling := t.settling - {id}, clears := t.clears + 1),
                 Settle(ClearRunning));
  }

  predicate NoClients(s: Sys) {
    NobodyInside(s) && s.transfers == 0 && s.arriving == {} && s.waiting == {} && s.leaving == {}
  }

  /** The same state without its clients. */
  function Empty(s: Sys): Sys {
    s.(transfers := 0, arriving := {}, manual := {}, waiting := {}, window := {}, leaving := {}, pool := {},
       gate := s.gate.(tickets := 0), games := 0)
  }

  /** What goes next under a closed gate; `id` and `key` are whose turn it is. */
  function Leaver(t: Sys, id: Id, key: Key): ClientAction {
    if t.pool != {} then TaskDone(key)
    else if t.games > 0 then GameEnd
    else if t.gate.tickets > 0 then TicketDrop
    else if t.leaving != {} then DropCount(id)
    else if t.manual != {} then ManualDone(id)
    else if t.arriving != {} then ManualCheck(id)
    else UploadAbort(id)
  }

  predicate Leaves(t: Sys, id: Id, key: Key) {
    if t.pool != {} then key in t.pool
    else if t.games > 0 || t.gate.tickets > 0 then true
    else if t.leaving != {} then id in t.leaving
    else if t.manual != {} then id in t.manual
    else if t.arriving != {} then id in t.arriving
    else id in t.waiting || id in t.window
  }

  function StepsToLeave(t: Sys): nat {
    2 * (|t.arriving| + |t.waiting| + |t.manual| + |t.window|) + |t.leaving| + |t.pool| + t.games + t.gate.tickets
  }

  lemma ClientLeaves(t: Sys, id: Id, key: Key)
    requires t.gate.Closed() && CountExact(t) && Leaves(t, id, key)
    ensures ClientEnabled(t, Leaver(t, id, key))
    ensures var u := ClientStep(t, Leaver(t, id, key));
      u.gate.Closed() && Empty(u) == Empty(t) && StepsToLeave(u) < StepsToLeave(t)
  {
    if t.pool != {} || t.games > 0 || t.gate.tickets > 0 {
      HoldersLeave(t, id, key);
    } else if t.leaving != {} || t.manual != {} {
      TransfersLeave(t, id, key);
    } else {
      StartersLeave(t, id, key);
    }
  }

  lemma HoldersLeave(t: Sys, id: Id, key: Key)
    requires t.gate.Closed() && (t.pool != {} || t.games > 0 || t.gate.tickets > 0) && Leaves(t, id, key)
    ensures ClientEnabled(t, Leaver(t, id, key))
    ensures var u := ClientStep(t, Leaver(t, id, key));
      u.gate.Closed() && Empty(u) == Empty(t) && StepsToLeave(u) < StepsToLeave(t)
  {
    OneFewer(t.pool, key);
  }

  lemma TransfersLeave(t: Sys, id: Id, key: Key)
    requires t.gate.Closed() && t.pool == {} && t.games == t.gate.tickets == 0 && (t.leaving != {} || t.manual != {})
    requires CountExact(t) && Leaves(t, id, key)
    ensures ClientEnabled(t, Leaver(t, id, key))
    ensures var u := ClientStep(t, Leaver(t, id, key));
      u.gate.Closed() && Empty(u) == Empty(t) && StepsToLeave(u) < StepsToLeave(t)
  {
    OneFewer(t.leaving, id);
    OneFewer(t.manual, id);
    assert t.leaving == {} ==> t.leaving + {id} == {id};
  }

  /** The gate is closed, so whoever has yet to look at it turns away. */
  lemma StartersLeave(t: Sys, id: Id, key: Key)
    requires t.gate.Closed() && t.pool == {} && t.games == t.gate.tickets == 0 && t.leaving == t.manual == {}
    requires Leaves(t, id, key)
    ensures ClientEnabled(t, Leaver(t, id, key))
    ensures var u := ClientStep(t, Leaver(t, id, key));
      u.gate.Closed() && Empty(u) == Empty(t) && StepsToLeave(u) < StepsToLeave(t)
  {
    assert t.leaving + {id} == {id};
    if t.arriving != {} {
      OneFewer(t.arriving, id);
    } else if id in t.waiting {
      OneFewer(t.waiting, id);
    } else {
      OneFewer(t.window, id);
    }
  }

  lemma OneFewer<T>(ids: set<T>, id: T)
    ensures |ids - {id}| == if id in ids then |ids| - 1 else |ids|
  {
    if id in ids {
      assert ids == (ids - {id}) + {id};
    } else {
      assert ids == ids - {id};
    }
  }

  lemma SomebodyLeaves(t: Sys) returns (id: Id, key: Key)
    requires CountExact(t) && t != Empty(t)
    ensures Leaves(t, id, key)
  {
    id, key := *, *;
    if t.pool != {} {
      key :| key in t.pool;
    } else if t.leaving != {} {
      id :| id in t.leaving;
    } else if t.manual != {} {
      id :| id in t.manual;
    } else if t.arriving != {} {
      id :| id in t.arriving;
    } else if t.waiting != {} {
      id :| id in t.waiting;
    } else if t.window != {} {
      id :| id in t.window;
    }
  }

  /** Under a closed gate every client, inside or not, goes away again and leaves all else
      as it was, so a start's drain and its quiet reads can always succeed. */
  lemma {:induction false} ClientsLeave(s: Sys, before: seq<Action>, t: Sys) returns (acts: seq<Action>)
    requires Reaches(CAREFUL, s, before, t) && t.gate.Closed() && CountExact(t)
    ensures Reaches(CAREFUL, s, acts, Empty(t))
    decreases StepsToLeave(t)
  {
    if t == Empty(t) {
      acts := before;
    } else {
      var id, key := SomebodyLeaves(t);
      ClientLeaves(t, id, key);
      ClientKeepsCount(t, Leaver(t, id, key));
      acts := Then(CAREFUL, s, before, t, Client(Leaver(t, id, key)));
      hide Reaches, ClientStep, ClientEnabled, CountExact, Leaver, Leaves, Empty, StepsToLeave;
      acts := ClientsLeave(s, acts, ClientStep(t, Leaver(t, id, key)));
    }
  }

  /** The plan finds nobody about. */
  lemma StartPlans(s: Sys, before: seq<Action>, t: Sys) returns (acts: seq<Action>)
    requires Reaches(CAREFUL, s, before, t) && t.op.StartFree?
    requires t.journal.Absent? && !t.rowLive && t.games == 0 && t.pool == {} && t.transfers == 0
    ensures Reaches(CAREFUL, s, acts, t.(op := Planned))
  {
    hide Reaches;
    acts := Then(CAREFUL, s, before, t, Start(PlanReadGames));
    acts := Then(CAREFUL, s, acts, t.(op := PlanGames), Start(PlanReadPool));
    acts := Then(CAREFUL, s, acts, t.(op := PlanPool), Start(PlanReadCount));
    acts := Then(CAREFUL, s, acts, t.(op := PlanQuiet), Start(PlanReadRow));
    acts := Then(CAREFUL, s, acts, t.(op := PlanNoRow), Start(StartPlan));
  }

  lemma StartGetsRow(s: Sys, before: seq<Action>, t: Sys) returns (acts: seq<Action>)
    requires Reaches(CAREFUL, s, before, t)
    requires t.op.Idle? && !t.unreachable && !t.running && t.journal.Absent? && !t.rowLive
    requires t.games == 0 && t.pool == {} && t.transfers == 0
    ensures Reaches(CAREFUL, s, acts, t.(rowLive := true, op := RowTaken))
  {
    hide Reaches;
    acts := Then(CAREFUL, s, before, t, Start(StartReach));
    acts := Then(CAREFUL, s, acts, t.(op := StartReached), Start(StartNotRunning));
    acts := StartPlans(s, acts, t.(op := StartFree));
    acts := Then(CAREFUL, s, acts, t.(op := Planned), Start(StartRow));
  }

  lemma StartCloses(s: Sys, before: seq<Action>, t: Sys) returns (acts: seq<Action>)
    requires Reaches(CAREFUL, s, before, t) && NoClients(t) && t.op.RowTaken? && !t.gate.Closed()
    ensures Reaches(CAREFUL, s, acts, t.(gate := t.gate.Close(MOVE_BUSY), op := GamesQuiet))
  {
    hide Reaches;
    acts := Then(CAREFUL, s, before, t, Start(StartClose));
    var u := t.(gate := t.gate.Close(MOVE_BUSY));
    acts := Then(CAREFUL, s, acts, u.(op := GateClosed), Start(StartDrained));
    acts := Then(CAREFUL, s, acts, u.(op := Drained), Start(StartReadGames));
  }

  /** A start with nobody about, from its row to its quiet read. */
  lemma StartGetsQuiet(s: Sys, before: seq<Action>, t: Sys) returns (acts: seq<Action>)
    requires Reaches(CAREFUL, s, before, t) && NoClients(t) && t.op.RowTaken? && !t.gate.Closed()
    ensures Reaches(CAREFUL, s, acts, t.(gate := t.gate.Close(MOVE_BUSY), op := Quiet))
  {
    hide Reaches;
    acts := StartCloses(s, before, t);
    var u := t.(gate := t.gate.Close(MOVE_BUSY));
    acts := Then(CAREFUL, s, acts, u.(op := GamesQuiet), Start(StartReadPool));
    acts := Then(CAREFUL, s, acts, u.(op := PoolQuiet), Start(StartReadCount));
  }

  lemma Starts(s: Sys, before: seq<Action>, t: Sys) returns (acts: seq<Action>)
    requires Reaches(CAREFUL, s, before, t) && NoClients(t) && t.clears == 0
    requires t.op.Idle? && !t.unreachable && !t.running && t.journal.Absent? && !t.rowLive && !t.gate.Closed()
    ensures Reaches(CAREFUL, s, acts,
      t.(gate := t.gate.Close(MOVE_BUSY), rowLive := true, journal := Present(Copy), cancel := false, running := true,
         job := Spawned))
  {
    hide Reaches;
    acts := StartGetsRow(s, before, t);
    acts := StartGetsQuiet(s, acts, t.(rowLive := true, op := RowTaken));
    var u := t.(gate := t.gate.Close(MOVE_BUSY), rowLive := true);
    acts := Then(CAREFUL, s, acts, u.(op := Quiet), Start(StartWrite));
    acts := Then(CAREFUL, s, acts, u.(op := Written, journal := Present(Copy)), Start(StartSpawn));
  }

  // --- an early spawn --------------------------------------------------------

  /** A run past the end of its row that has not looked at the journal, and a `running`
      that is already false. */
  predicate Forgotten(t: Sys) {
    && t.op.Idle? && t.job.NoJob? && t.settling == map[0 := RowEnded(false)] && t.clears == 0
    && !t.running && !t.rowLive && !t.unreachable && t.journal.Present? && t.gate.Closed() && NoClients(t)
  }

  /** The hidden run's library root is relocated meanwhile, if it was unreachable. */
  lemma HiddenRunIsRelocated(s: Sys, before: seq<Action>, t: Sys) returns (acts: seq<Action>, u: Sys)
    requires Reaches(CAREFUL, s, before, t)
    requires t.op.Idle? && t.job == Working(Cleanup) && t.journal == Present(Cleanup) && !t.running
    ensures Reaches(CAREFUL, s, acts, u)
    ensures u == if t.unreachable then t.(unreachable := false, pendingResume := true) else t
  {
    hide Reaches;
    if !t.unreachable {
      return before, t;
    }
    acts := Then(CAREFUL, s, before, t, Control(RelocateNotRunning));
    acts := Then(CAREFUL, s, acts, t.(op := RelocateFree), Control(RelocateSeesLost));
    acts := Then(CAREFUL, s, acts, t.(op := RelocateLost), Control(RelocateWork(Relocated)));
    acts := Then(CAREFUL, s, acts, t.(op := RelocateDone(true)), Control(RelocateForget));
    u := t.(unreachable := false, pendingResume := true);
  }

  /** After an early spawn the drop guard clears the new run's flag, and the run fails. */
  lemma SpawnIsForgotten(s: Sys, a: Action) returns (acts: seq<Action>, t: Sys)
    requires MoverInv(s) && ClientInv(s) && SpawnsEarly(s, a)
    ensures Reaches(CAREFUL, Apply(s, a), acts, t) && Forgotten(t)
  {
    var s1 := Apply(s, a);
    acts := [];
    assert Reaches(CAREFUL, s1, acts, s1);
    assert NobodyInside(s1) && CountExact(s1);
    hide Reaches;
    acts := ClientsLeave(s1, acts, s1);
    t := Empty(s1);
    acts := Then(CAREFUL, s1, acts, t, Settle(ClearRunning));
    t := t.(running := false, clears := 0);
    acts := RunCleansUp(s1, acts, t);
    t := t.(job := Working(Cleanup), journal := Present(Cleanup));
    acts, t := HiddenRunIsRelocated(s1, acts, t);
    acts := Then(CAREFUL, s1, acts, t, Run(JobFail(false)));
    t := t.(job := Ended(Failed(false)));
    acts := Then(CAREFUL, s1, acts, t, Run(RowEnd(0)));
    t := t.(job := NoJob, rowLive := false, settling := t.settling[0 := RowEnded(false)]);
  }

  /** A resume runs the move to its end and opens the gate; the forgotten run then finds
      everything clear. */
  lemma MoveEndsBehind(s: Sys, before: seq<Action>, t: Sys) returns (acts: seq<Action>, u: Sys)
    requires Reaches(CAREFUL, s, before, t) && Forgotten(t)
    ensures Reaches(CAREFUL, s, acts, u)
    ensures u == t.(journal := Absent, gate := t.gate.Open(), pendingResume := false, cancel := false,
                    settling := map[0 := Clear])
  {
    hide Reaches;
    acts := Resumes(s, before, t);
    u := t.(rowLive := true, pendingResume := false, cancel := false, running := true, job := Spawned);
    acts := RunCleansUp(s, acts, u);
    u := u.(job := Working(Cleanup), journal := Present(Cleanup));
    acts := Then(CAREFUL, s, acts, u, Run(JobFinish));
    u := u.(job := Ended(Finished), journal := Absent);
    acts := Then(CAREFUL, s, acts, u, Run(RowEnd(1)));
    u := u.(job := NoJob, rowLive := false, settling := map[0 := RowEnded(false), 1 := Checking]);
    acts := AboutToOpen(s, acts, u, 1);
    u := u.(settling := u.settling[1 := Clear]);
    acts := OpensNow(s, acts, u, 1);
    u := u.(gate := t.gate.Open(), settling := u.settling[1 := Decided]);
    acts := BothStores(s, acts, u, 1);
    assert u.settling - {1} == map[0 := RowEnded(false)];
    u := u.(running := false, settling := map[0 := RowEnded(false)]);
    acts := Then(CAREFUL, s, acts, u, Settle(SettleStep(0)));
    assert u.settling[0 := Checking] == map[0 := Checking];
    u := u.(settling := map[0 := Checking]);
    acts := AboutToOpen(s, acts, u, 0);
    assert u.settling[0 := Clear] == map[0 := Clear];
    u := u.(settling := map[0 := Clear]);
  }

  predicate Unlocked(t: Sys) {
    Quiescent(t) && t.journal.Present? && !t.unreachable && !t.gate.Closed()
  }

  /** A new start closes the gate and writes its journal, and the forgotten run opens
      the gate over it. The new run fails and everything comes to rest. */
  lemma GateOpensUnderMove(s: Sys, before: seq<Action>, t: Sys) returns (acts: seq<Action>, u: Sys)
    requires Reaches(CAREFUL, s, before, t) && NoClients(t) && t.op.Idle? && t.job.NoJob? && t.clears == 0
    requires t.settling == map[0 := Clear] && t.journal.Absent?
    requires !t.running && !t.rowLive && !t.unreachable && !t.gate.Closed()
    ensures Reaches(CAREFUL, s, acts, u) && Unlocked(u)
  {
    hide Reaches;
    acts := Starts(s, before, t);
    u := t.(gate := t.gate.Close(MOVE_BUSY), rowLive := true, journal := Present(Copy), cancel := false,
            running := true, job := Spawned);
    acts := OpensNow(s, acts, u, 0);
    u := u.(gate := u.gate.Open(), settling := u.settling[0 := Decided]);
    acts := RunFails(s, acts, u, 1);
    u := u.(job := NoJob, rowLive := false, settling := u.settling[1 := RowEnded(false)]);
    acts := Then(CAREFUL, s, acts, u, Settle(SettleStep(1)));
    u := u.(settling := u.settling[1 := Decided]);
    acts := BothStores(s, acts, u, 1);
    u := u.(running := false, settling := u.settling - {1});
    acts := BothStores(s, acts, u, 0);
    u := u.(settling := u.settling - {0});
    assert u.settling == map[];
  }

  lemma EarlySpawnUnlocks(s: Sys, a: Action) returns (acts: seq<Action>, t: Sys)
    requires MoverInv(s) && ClientInv(s) && SpawnsEarly(s, a)
    ensures Reaches(CAREFUL, Apply(s, a), acts, t) && Unlocked(t)
  {
    hide Reaches;
    acts, t := SpawnIsForgotten(s, a);
    acts, t := MoveEndsBehind(Apply(s, a), acts, t);
    acts, t := GateOpensUnderMove(Apply(s, a), acts, t);
  }

  /** Through the open gate a ticket holder walks in. */
  lemma UnlockedIsEntered(s: Sys, before: seq<Action>, t: Sys) returns (acts: seq<Action>)
    requires Reaches(CAREFUL, s, before, t) && Unlocked(t)
    ensures ValidRun(CAREFUL, s, acts) && !Excluded(Final(CAREFUL, s, acts))
  {
    acts := Then(CAREFUL, s, before, t, Client(TicketEnter));
  }

  /** A spawn keeps both promises over everything that can follow if and only if no drop
      guard's store is still to come, in whatever phase the journal is. */
  lemma EarlySpawnIsExact(s: Sys, a: Action)
    requires MoverInv(s) && ClientInv(s) && NoOrphanLock(s) && Spawns(s, a)
    ensures StaysExact(Apply(s, a)) <==> s.clears == 0
    ensures StaysExcluded(Apply(s, a)) <==> s.clears == 0
  {
    if SpawnsEarly(s, a) {
      var acts, t := EarlySpawnUnlocks(s, a);
      assert !GateExact(Final(CAREFUL, Apply(s, a), acts));
      acts := UnlockedIsEntered(Apply(s, a), acts, t);
    } else {
      StepKeepsMover(s, a);
      StepKeepsNoOrphan(s, a);
      StepKeepsClients(s, a);
      AlwaysExact(Apply(s, a));
      AlwaysExcluded(Apply(s, a));
    }
  }

  // --- a late panic ----------------------------------------------------------

  /** The operation in progress, if it has not got past `running`, gives up. */
  lemma OperationEnds(s: Sys) returns (acts: seq<Action>)
    requires s.op.Idle? || s.op.StartReached? || s.op.ResumeReached? || (s.op.CancelLoaded? && s.running)
    ensures ValidRun(CAREFUL, s, acts)
    ensures var t := Final(CAREFUL, s, acts); t == s.(op := Idle, cancel := t.cancel)
  {
    if s.op.Idle? {
      acts := [];
    } else {
      var a := if s.op.StartReached? then Start(StartAbort) else if s.op.ResumeReached? then Resume(ResumeAbort)
               else Control(CancelFlag);
      acts := [a];
      RunOne(CAREFUL, s, a);
    }
  }

  /** A panic of a run, before or after the end of its row, or of an operation keeps gate
      exactness over everything that can follow if and only if it does not leave the gate
      closed with no journal and a reachable library; an operation that has not read
      `running` as false leaves that to the run it may have met. */
  lemma LatePanicIsExact(s: Sys, a: Action)
    requires MoverInv(s) && NoOrphanLock(s) && Panics(s, a)
    ensures StaysExact(Apply(s, a))
       <==> || !s.gate.Closed() || s.journal.Exists() || s.unreachable
            || (a == Control(OperationPanics) && !PastRunningCheck(s.op))
  {
    var after := Apply(s, a);
    if PanicsLate(s, a) {
      assert after.settling == map[] && after.job.NoJob?;
      var acts := OperationEnds(after);
      assert !GateExact(Final(CAREFUL, after, acts));
    } else {
      StepKeepsMover(s, a);
      StepKeepsNoOrphan(s, a);
      AlwaysExact(after);
    }
  }

  // --- both happen ------------------------------------------------------------

  /** From a start on a journal to a resumed run. */
  lemma ResumedAtStartup(p: Phase) returns (acts: seq<Action>, t: Sys)
    ensures Reaches(CAREFUL, BootState(Present(p)), acts, t)
    ensures t == BootState(Present(p)).(op := Idle, rowLive := true, running := true, job := Spawned)
  {
    var s := BootState(Present(p));
    acts := [];
    assert Reaches(CAREFUL, s, acts, s);
    hide Reaches;
    acts := Then(CAREFUL, s, acts, s, Boot(StartupCheck(false)));
    acts := Then(CAREFUL, s, acts, s.(op := Recovering), Boot(StartupRecover(RecoverError)));
    t := s.(op := Idle, pendingResume := true);
    acts := Resumes(s, acts, t);
    t := s.(op := Idle, rowLive := true, running := true, job := Spawned);
  }

  /** A run fails; between its store of `running` and its drop guard's a resume comes to
      its spawn. In every phase. */
  lemma EarlySpawnIsReachable(p: Phase) returns (acts: seq<Action>, t: Sys)
    ensures Reaches(CAREFUL, BootState(Present(p)), acts, t) && SpawnsEarly(t, Resume(ResumeSpawn))
  {
    var s := BootState(Present(p));
    hide Reaches;
    acts, t := ResumedAtStartup(p);
    acts := RunFails(s, acts, t, 0);
    t := t.(job := NoJob, rowLive := false, settling := t.settling[0 := RowEnded(false)]);
    acts := Then(CAREFUL, s, acts, t, Settle(SettleStep(0)));
    t := t.(settling := t.settling[0 := Decided]);
    acts := Then(CAREFUL, s, acts, t, Settle(SettleStep(0)));
    t := t.(running := false, settling := t.settling - {0}, clears := 1);
    acts := ResumeToRow(s, acts, t);
    t := t.(rowLive := true, op := ResumeRow);
  }

  const BUT_EARLY := Care(PoolFirst, true, false, true)
  const BUT_LATE := Care(PoolFirst, true, true, false)

  /** Less care allows the same run. */
  lemma {:induction false} Loosen(c: Care, s: Sys, acts: seq<Action>)
    requires ValidRun(CAREFUL, s, acts) && c.order.PoolFirst?
    ensures ValidRun(c, s, acts) && Final(c, s, acts) == Final(CAREFUL, s, acts)
    decreases |acts|
  {
    if acts != [] {
      Loosen(c, Apply(s, acts[0]), acts[1..]);
    }
  }

  /** From a start on a journal in any phase, one early spawn and no other hazard: a
      pending move that nothing locks, and then somebody inside. */
  lemma EarlySpawnBreaksBoth(p: Phase)
    ensures exists acts :: ValidRun(BUT_EARLY, BootState(Present(p)), acts) &&
                           !GateExact(Final(BUT_EARLY, BootState(Present(p)), acts))
    ensures exists acts :: ValidRun(BUT_EARLY, BootState(Present(p)), acts) &&
                           !Excluded(Final(BUT_EARLY, BootState(Present(p)), acts))
  {
    var s := BootState(Present(p));
    var first, t := EarlySpawnIsReachable(p);
    BootEstablishes(Present(p));
    AlwaysMover(CAREFUL, s, first);
    AlwaysClients(CAREFUL, s, first);
    Loosen(BUT_EARLY, s, first);
    var spawn := Resume(ResumeSpawn);
    RunThen(BUT_EARLY, s, first, spawn);
    var second, u := EarlySpawnUnlocks(t, spawn);
    Loosen(BUT_EARLY, Apply(t, spawn), second);
    RunConcat(BUT_EARLY, s, first + [spawn], second);
    assert !GateExact(Final(BUT_EARLY, s, first + [spawn] + second));
    var third := UnlockedIsEntered(Apply(t, spawn), second, u);
    Loosen(BUT_EARLY, Apply(t, spawn), third);
    RunConcat(BUT_EARLY, s, first + [spawn], third);
    assert !Excluded(Final(BUT_EARLY, s, first + [spawn] + third));
  }

  /** From a start on a journal in any phase, a run that panics when its journal is gone:
      a locked library with no move. */
  lemma LatePanicBreaksExactness(p: Phase)
    ensures exists acts :: ValidRun(BUT_LATE, BootState(Present(p)), acts) &&
                           !GateExact(Final(BUT_LATE, BootState(Present(p)), acts))
  {
    var s := BootState(Present(p));
    var acts, t := ResumedAtStartup(p);
    acts := RunCleansUp(s, acts, t);
    t := t.(job := Working(Cleanup), journal := Present(Cleanup));
    acts := Then(CAREFUL, s, acts, t, Run(JobFinish));
    t := t.(job := Ended(Finished), journal := Absent);
    Loosen(BUT_LATE, s, acts);
    RunThen(BUT_LATE, s, acts, Run(JobPanic));
    assert !GateExact(Final(BUT_LATE, s, acts + [Run(JobPanic)]));
  }

  /** From a start with no journal to an operation at rest. */
  lemma IdleAtStartup() returns (acts: seq<Action>)
    ensures Reaches(CAREFUL, BootState(Absent), acts, BootState(Absent).(op := Idle))
  {
    var s := BootState(Absent);
    acts := [];
    assert Reaches(CAREFUL, s, acts, s);
    hide Reaches;
    acts := Then(CAREFUL, s, acts, s, Boot(StartupCheck(false)));
    acts := Then(CAREFUL, s, acts, s.(op := Recovering), Boot(StartupRecover(Recovered)));
  }

  /** From a start with no journal, a move that panics between its close of the gate and
      its journal: a locked library with no move. */
  lemma StartPanicBreaksExactness()
    ensures exists acts :: ValidRun(BUT_LATE, BootState(Absent), acts) &&
                           !GateExact(Final(BUT_LATE, BootState(Absent), acts))
  {
    var s := BootState(Absent);
    var t := s.(op := Idle);
    var acts := IdleAtStartup();
    acts := StartGetsRow(s, acts, t);
    t := t.(rowLive := true, op := RowTaken);
    acts := StartCloses(s, acts, t);
    t := t.(gate := t.gate.Close(MOVE_BUSY), op := GamesQuiet);
    Loosen(BUT_LATE, s, acts);
    RunThen(BUT_LATE, s, acts, Control(OperationPanics));
    assert !GateExact(Final(BUT_LATE, s, acts + [Control(OperationPanics)]));
  }

  // --- the slip happens ----------------------------------------------------

  const BUT_SLIP := Care(PoolFirst, false, true, true)

  /** A start whose plan found nobody about, with its row; then an upload is counted and
      sees the gate open. */
  lemma UploadAfterPlan() returns (acts: seq<Action>, t: Sys)
    ensures Reaches(BUT_SLIP, BootState(Absent), acts, t)
    ensures t == BootState(Absent).(rowLive := true, op := RowTaken, transfers := 1, window := {0})
  {
    var s := BootState(Absent);
    acts := IdleAtStartup();
    acts := StartGetsRow(s, acts, s.(op := Idle));
    Loosen(BUT_SLIP, s, acts);
    t := s.(rowLive := true, op := RowTaken);
    assert Reaches(BUT_SLIP, s, acts, t);
    hide Reaches;
    acts := Then(BUT_SLIP, s, acts, t, Client(UploadCount(0)));
    t := t.(transfers := 1, waiting := {0});
    acts := Then(BUT_SLIP, s, acts, t, Client(UploadSeesOpen(0)));
    t := t.(waiting := {}, window := {0});
  }

  lemma DrainedReadsPool(s: Sys, before: seq<Action>, t: Sys) returns (acts: seq<Action>)
    requires Reaches(BUT_SLIP, s, before, t) && t.op.GateClosed? && t.gate.tickets == 0
    requires t.games == 0 && t.pool == {}
    ensures Reaches(BUT_SLIP, s, acts, t.(op := PoolQuiet))
  {
    hide Reaches;
    acts := Then(BUT_SLIP, s, before, t, Start(StartDrained));
    acts := Then(BUT_SLIP, s, acts, t.(op := Drained), Start(StartReadGames));
    acts := Then(BUT_SLIP, s, acts, t.(op := GamesQuiet), Start(StartReadPool));
  }

  /** The start goes on, up to its empty read of the pool. */
  lemma StartReadsPool(s: Sys, before: seq<Action>, t: Sys) returns (acts: seq<Action>)
    requires Reaches(BUT_SLIP, s, before, t) && t.op.RowTaken? && !t.gate.Closed() && t.gate.tickets == 0
    requires t.games == 0 && t.pool == {}
    ensures Reaches(BUT_SLIP, s, acts, t.(gate := t.gate.Close(MOVE_BUSY), op := PoolQuiet))
  {
    hide Reaches;
    acts := Then(BUT_SLIP, s, before, t, Start(StartClose));
    acts := DrainedReadsPool(s, acts, t.(gate := t.gate.Close(MOVE_BUSY), op := GateClosed));
  }

  /** The hand-off between the two reads, and the journal written over it. */
  lemma HandOffSlips(s: Sys, before: seq<Action>, t: Sys) returns (acts: seq<Action>, u: Sys)
    requires Reaches(BUT_SLIP, s, before, t)
    requires t.op.PoolQuiet? && t.transfers == 1 && t.window == {0} && t.leaving == {}
    requires t.pool == {} && t.journal.Absent?
    ensures Reaches(BUT_SLIP, s, acts, u) && !Excluded(u)
  {
    hide Reaches;
    acts := Then(BUT_SLIP, s, before, t, Client(UploadTrigger(0, "game")));
    u := t.(window := t.window - {0}, leaving := t.leaving + {0}, pool := t.pool + {"game"});
    assert "game" in u.pool;
    acts := Then(BUT_SLIP, s, acts, u, Client(DropCount(0)));
    u := u.(transfers := 0, leaving := u.leaving - {0});
    acts := Then(BUT_SLIP, s, acts, u, Start(StartReadCount));
    acts := Then(BUT_SLIP, s, acts, u.(op := Quiet), Start(StartWrite));
    u := u.(op := Written, journal := Present(Copy));
  }

  /** One auto-upload and one move, from a cold start: the move's plan finds nobody about,
      the upload is counted and sees the gate open, the move closes it and reads the pool
      empty, the upload hands its key to the pool and drops its count, the move reads the
      count zero and writes its journal with the upload inside. */
  lemma SlipBreaksExclusion()
    ensures exists acts :: ValidRun(BUT_SLIP, BootState(Absent), acts) &&
                           !Excluded(Final(BUT_SLIP, BootState(Absent), acts))
  {
    var s := BootState(Absent);
    var acts, t := UploadAfterPlan();
    acts := StartReadsPool(s, acts, t);
    acts, t := HandOffSlips(s, acts, t.(gate := t.gate.Close(MOVE_BUSY), op := PoolQuiet));
    assert !Excluded(Final(BUT_SLIP, s, acts));
  }
}
