/** The library move service as the object it is. Each method, run alone, performs
    exactly a run of the library protocol, so the theorems about every interleaving
    speak about this object too. What the disk, the engine and the clients answer is
    passed in. */
module LibraryMoves {
  import opened Wrappers
  import opened LibraryGates
  import opened LibraryProtocol
  import opened LibraryRuns

  /** The code's read order, no hazard assumed away. */
  const CODE := Care(PoolFirst, false, false, false)

  datatype WriteOutcome = Saved | PlanRefused | SaveFailed(written: bool)

  datatype StartOutcome = Started | StartRefused | StartError

  datatype CancelOutcome = Cancelling | CancelledNow | NotCancellable | NoMove | CancelError

  /** How one phase of the engine ends. */
  datatype PhaseResult = PhaseDone | PhaseCancelled | PhaseError(rootLost: bool)

  // --- the protocol's side of each operation ----------------------------------

  function OpenIfClear(s: Sys): Sys {
    if !s.unreachable && !s.journal.Exists() then s.(gate := s.gate.Open()) else s
  }

  /** The three steps of opening the gate when nothing holds it. */
  lemma OpensIfClear(s: Sys, before: seq<Action>, t: Sys) returns (acts: seq<Action>)
    requires Reaches(CODE, s, before, t) && t.op.Opening?
    ensures Reaches(CODE, s, acts, OpenIfClear(t).(op := Idle))
  {
    hide Reaches;
    acts := Then(CODE, s, before, t, Control(OpenSeesReachable));
    if !t.unreachable {
      acts := Then(CODE, s, acts, t.(op := OpeningReachable), Control(OpenSeesNoJournal));
      if !t.journal.Exists() {
        acts := Then(CODE, s, acts, t.(op := OpeningClear), Control(OpenNow));
      }
    }
  }

  /** A start up to its gate: closed by it, or found closed and given up. */
  lemma StartComesToGate(s: Sys) returns (acts: seq<Action>)
    requires s.op.Idle? && !s.unreachable && !s.running && s.journal.Absent? && !s.rowLive
    requires s.games == 0 && s.pool == {} && s.transfers == 0
    ensures Reaches(CODE, s, acts,
      if s.gate.Closed() then s else s.(rowLive := true, gate := s.gate.Close(MOVE_BUSY), op := GateClosed))
  {
    acts := [];
    acts := StartGetsRow(s, acts, s);
    Loosen(CODE, s, acts);
    hide Reaches;
    acts := Then(CODE, s, acts, s.(rowLive := true, op := RowTaken), Action.Start(StartClose));
    if s.gate.Closed() {
      acts := Then(CODE, s, acts, s.(rowLive := true, op := Dropping), Action.Start(StartDrop));
    }
  }

  lemma StartDrains(s: Sys, before: seq<Action>, t: Sys) returns (acts: seq<Action>)
    requires Reaches(CODE, s, before, t) && t.op.GateClosed? && t.gate.tickets == 0
    ensures Reaches(CODE, s, acts, t.(op := Drained))
  {
    acts := Then(CODE, s, before, t, Action.Start(StartDrained));
  }

  /** The refusal of a start that closed the gate. */
  lemma StartGivesUp(s: Sys, before: seq<Action>, t: Sys) returns (acts: seq<Action>)
    requires Reaches(CODE, s, before, t) && HoldsGate(t.op)
    ensures Reaches(CODE, s, acts, t.(gate := t.gate.Open(), rowLive := false, op := Idle))
  {
    hide Reaches;
    acts := Then(CODE, s, before, t, Action.Start(StartRefuse));
    acts := Then(CODE, s, acts, t.(gate := t.gate.Open(), op := Dropping), Action.Start(StartDrop));
  }

  lemma StartFindsQuiet(s: Sys, before: seq<Action>, t: Sys) returns (acts: seq<Action>)
    requires Reaches(CODE, s, before, t) && t.op.Drained?
    requires t.games == 0 && t.pool == {} && t.transfers == 0
    ensures Reaches(CODE, s, acts, t.(op := Quiet))
  {
    hide Reaches;
    acts := Then(CODE, s, before, t, Action.Start(StartReadGames));
    acts := Then(CODE, s, acts, t.(op := GamesQuiet), Action.Start(StartReadPool));
    acts := Then(CODE, s, acts, t.(op := PoolQuiet), Action.Start(StartReadCount));
  }

  lemma StartFails(s: Sys, before: seq<Action>, t: Sys, written: bool) returns (acts: seq<Action>)
    requires Reaches(CODE, s, before, t) && t.op.Quiet? && t.journal.Absent?
    ensures Reaches(CODE, s, acts,
      if written then t.(journal := Present(Copy), rowLive := false, op := Idle)
      else t.(gate := t.gate.Open(), rowLive := false, op := Idle))
  {
    hide Reaches;
    acts := Then(CODE, s, before, t, Action.Start(StartWriteFails(written)));
    acts := FailureIsCleared(s, acts, t.(journal := if written then Present(Copy) else Absent, op := WriteFailed));
  }

  /** A failed write: the gate opens if no journal is there, and the row goes. */
  lemma FailureIsCleared(s: Sys, before: seq<Action>, t: Sys) returns (acts: seq<Action>)
    requires Reaches(CODE, s, before, t) && t.op.WriteFailed?
    ensures Reaches(CODE, s, acts,
      t.(gate := if t.journal.Exists() then t.gate else t.gate.Open(), rowLive := false, op := Idle))
  {
    hide Reaches;
    acts := Then(CODE, s, before, t, Action.Start(StartFailCheck));
    var u := t;
    if !t.journal.Exists() {
      acts := Then(CODE, s, acts, t.(op := Reopening), Action.Start(StartReopen));
      u := t.(gate := t.gate.Open());
    }
    acts := Then(CODE, s, acts, u.(op := Dropping), Action.Start(StartDrop));
  }

  lemma StartSucceeds(s: Sys, before: seq<Action>, t: Sys) returns (acts: seq<Action>)
    requires Reaches(CODE, s, before, t) && t.op.Quiet? && t.journal.Absent?
    ensures Reaches(CODE, s, acts, SpawnRun(t.(journal := Present(Copy))))
  {
    hide Reaches;
    acts := Then(CODE, s, before, t, Action.Start(StartWrite));
    acts := Then(CODE, s, acts, t.(journal := Present(Copy), op := Written), Action.Start(StartSpawn));
  }

  lemma ResumeCloses(s: Sys) returns (acts: seq<Action>)
    requires s.op.Idle? && !s.unreachable && !s.running && s.journal.Present?
    ensures Reaches(CODE, s, acts, s.(gate := s.gate.Close(MOVE_BUSY), op := ResumeClosed))
  {
    acts := [];
    assert Reaches(CODE, s, acts, s);
    hide Reaches;
    acts := Then(CODE, s, acts, s, Action.Resume(ResumeReach));
    acts := Then(CODE, s, acts, s.(op := ResumeReached), Action.Resume(ResumeNotRunning));
    acts := Then(CODE, s, acts, s.(op := ResumeFree), Action.Resume(ResumeLoad));
    acts := Then(CODE, s, acts, s.(op := ResumeLoaded), Action.Resume(ResumeClose));
  }

  /** With the row free the run is spawned, otherwise the resume is refused. */
  lemma ResumeEnds(s: Sys, before: seq<Action>, t: Sys) returns (acts: seq<Action>)
    requires Reaches(CODE, s, before, t) && t.op.ResumeClosed?
    ensures Reaches(CODE, s, acts,
      if t.rowLive then t.(op := Idle) else SpawnRun(t.(rowLive := true, pendingResume := false)))
  {
    hide Reaches;
    if t.rowLive {
      acts := Then(CODE, s, before, t, Action.Resume(ResumeAbort));
    } else {
      acts := Then(CODE, s, before, t, Action.Resume(ResumeTakeRow));
      acts := Then(CODE, s, acts, t.(rowLive := true, op := ResumeRow), Action.Resume(ResumeSpawn));
    }
  }

  /** A cancel of a copy: flagged, rolled back, or given up. */
  lemma CancelGoes(s: Sys, rolledBack: bool) returns (acts: seq<Action>)
    requires s.op.Idle? && s.journal == Present(Copy)
    ensures Reaches(CODE, s, acts,
      if s.running then s.(cancel := true)
      else if rolledBack then OpenIfClear(s.(journal := Absent)) else s)
  {
    acts := [];
    assert Reaches(CODE, s, acts, s);
    hide Reaches;
    acts := Then(CODE, s, acts, s, Control(CancelLoad));
    if s.running {
      acts := Then(CODE, s, acts, s.(op := CancelLoaded), Control(CancelFlag));
    } else {
      acts := Then(CODE, s, acts, s.(op := CancelLoaded), Control(CancelNotRunning));
      if rolledBack {
        acts := Then(CODE, s, acts, s.(op := CancelFree), Control(CancelRollback));
        acts := OpensIfClear(s, acts, s.(journal := Absent, op := Opening));
      } else {
        acts := Then(CODE, s, acts, s.(op := CancelFree), Control(CancelAbort));
      }
    }
  }

  /** A relocation up to its work on the journal. */
  lemma RelocateWorks(s: Sys, outcome: RelocateOutcome) returns (acts: seq<Action>)
    requires s.op.Idle? && !s.running && s.unreachable && !s.journal.Unreadable?
    ensures var files := RelocateFiles(s.journal, outcome);
      Reaches(CODE, s, acts, s.(journal := files.0, op := files.1))
  {
    acts := [];
    assert Reaches(CODE, s, acts, s);
    hide Reaches;
    acts := Then(CODE, s, acts, s, Control(RelocateNotRunning));
    acts := Then(CODE, s, acts, s.(op := RelocateFree), Control(RelocateSeesLost));
    acts := Then(CODE, s, acts, s.(op := RelocateLost), Control(RelocateWork(outcome)));
  }

  lemma RelocateEnds(s: Sys, before: seq<Action>, t: Sys) returns (acts: seq<Action>)
    requires Reaches(CODE, s, before, t) && t.op.RelocateDone?
    ensures var u := t.(unreachable := false, op := Idle);
      Reaches(CODE, s, acts, if t.op.resume then u.(pendingResume := true) else OpenIfClear(u))
  {
    hide Reaches;
    acts := Then(CODE, s, before, t, Control(RelocateForget));
    if !t.op.resume {
      acts := OpensIfClear(s, acts, t.(unreachable := false, op := Opening));
    }
  }

  // --- the protocol's side of a run -----------------------------------------

  lemma JobLoads(s: Sys) returns (acts: seq<Action>)
    requires s.job.Spawned?
    ensures Reaches(CODE, s, acts,
      if s.journal.Present? then s.(job := Working(s.journal.phase)) else s.(job := Ended(Failed(false))))
  {
    acts := [];
    assert Reaches(CODE, s, acts, s);
    acts := Then(CODE, s, acts, s, Run(JobLoad));
  }

  lemma JobSaves(s: Sys, before: seq<Action>, t: Sys, p: Phase) returns (acts: seq<Action>)
    requires Reaches(CODE, s, before, t) && t.job.Working? && Follows(t.job.phase, p)
    ensures Reaches(CODE, s, acts, t.(journal := Present(p), job := Working(p)))
  {
    acts := Then(CODE, s, before, t, Run(JobSave(p)));
  }

  lemma JobFails(s: Sys, before: seq<Action>, t: Sys, lost: bool) returns (acts: seq<Action>)
    requires Reaches(CODE, s, before, t) && t.job.Working?
    ensures Reaches(CODE, s, acts, t.(job := Ended(Failed(lost))))
  {
    acts := Then(CODE, s, before, t, Run(JobFail(lost)));
  }

  /** The two ends that delete the journal. */
  lemma JobDeletes(s: Sys, before: seq<Action>, t: Sys, outcome: Outcome) returns (acts: seq<Action>)
    requires Reaches(CODE, s, before, t)
    requires (outcome.Finished? && t.job == Working(Cleanup))
          || (outcome.Cancelled? && t.job == Working(Copy) && t.cancel)
    ensures Reaches(CODE, s, acts, t.(journal := Absent, job := Ended(outcome)))
  {
    hide Reaches;
    if outcome.Finished? {
      acts := Then(CODE, s, before, t, Run(JobFinish));
    } else {
      acts := Then(CODE, s, before, t, Run(JobSeesCancel));
      acts := Then(CODE, s, acts, t.(job := RollingBack), Run(JobRollback));
    }
  }

  /** The state after the gate decision of an ended run. */
  function Settled(s: Sys): Sys
    requires s.job.Ended?
  {
    var t := s.(rowLive := false, job := NoJob);
    match s.job.outcome
    case Failed(lost) =>
      if !s.journal.Present? then OpenIfClear(t) else if lost then SetUnreachable(t) else t
    case _ => OpenIfClear(t)
  }

  lemma StageRuns(s: Sys, before: seq<Action>, t: Sys, id: Id) returns (acts: seq<Action>)
    requires Reaches(CODE, s, before, t) && id in t.settling && !t.settling[id].Decided?
    ensures var stage := t.settling[id];
      Reaches(CODE, s, acts, StageEffect(t, stage).(settling := t.settling[id := StageAfter(t, stage)]))
  {
    acts := Then(CODE, s, before, t, Settle(SettleStep(id)));
  }

  lemma SettlingOpens(s: Sys, before: seq<Action>, t: Sys, id: Id) returns (acts: seq<Action>)
    requires Reaches(CODE, s, before, t) && id in t.settling && t.settling[id].Checking?
    ensures Reaches(CODE, s, acts, OpenIfClear(t).(settling := t.settling[id := Decided]))
  {
    hide Reaches;
    acts := StageRuns(s, before, t, id);
    if !t.unreachable {
      var u := t.(settling := t.settling[id := Reachable]);
      acts := StageRuns(s, acts, u, id);
      assert u.settling[id := Decided] == t.settling[id := Decided];
      if !t.journal.Exists() {
        assert u.settling[id := Clear] == t.settling[id := Clear];
        u := t.(settling := t.settling[id := Clear]);
        acts := StageRuns(s, acts, u, id);
        assert u.settling[id := Decided] == t.settling[id := Decided];
      }
    }
  }

  lemma SettlingNotes(s: Sys, before: seq<Action>, t: Sys, id: Id) returns (acts: seq<Action>)
    requires Reaches(CODE, s, before, t) && id in t.settling && t.settling[id].Noting?
    ensures Reaches(CODE, s, acts, SetUnreachable(t).(settling := t.settling[id := Decided]))
  {
    hide Reaches;
    acts := StageRuns(s, before, t, id);
    var u := t.(unreachable := true, settling := t.settling[id := Closing]);
    acts := StageRuns(s, acts, u, id);
    assert u.settling[id := Decided] == t.settling[id := Decided];
  }

  function AfterLoad(t: Sys, lost: bool): Settling {
    if !t.journal.Present? then Checking else if lost then Noting else Decided
  }

  /** A run that failed loads the journal. */
  lemma FailureLoads(s: Sys, before: seq<Action>, t: Sys, id: Id, lost: bool) returns (acts: seq<Action>)
    requires Reaches(CODE, s, before, t) && id in t.settling && t.settling[id] == RowEnded(lost)
    ensures Reaches(CODE, s, acts, t.(settling := t.settling[id := AfterLoad(t, lost)]))
  {
    acts := StageRuns(s, before, t, id);
  }

  /** What the journal says to it. */
  lemma FailureSettles(s: Sys, before: seq<Action>, t: Sys, id: Id, lost: bool) returns (acts: seq<Action>)
    requires Reaches(CODE, s, before, t) && id in t.settling && t.settling[id] == RowEnded(lost)
    ensures Reaches(CODE, s, acts,
      (if !t.journal.Present? then OpenIfClear(t) else if lost then SetUnreachable(t) else t)
        .(settling := t.settling[id := Decided]))
  {
    hide Reaches;
    acts := FailureLoads(s, before, t, id, lost);
    var u := t.(settling := t.settling[id := AfterLoad(t, lost)]);
    assert u.settling[id := Decided] == t.settling[id := Decided];
    if !t.journal.Present? {
      acts := SettlingOpens(s, acts, u, id);
    } else if lost {
      acts := SettlingNotes(s, acts, u, id);
    }
  }

  lemma RowEnds(s: Sys, id: Id) returns (acts: seq<Action>)
    requires s.job.Ended? && id !in s.settling
    ensures Reaches(CODE, s, acts,
      s.(rowLive := false, job := NoJob, settling := s.settling[id := Unsettled(s.job.outcome)]))
  {
    acts := [];
    acts := Then(CODE, s, acts, s, Run(RowEnd(id)));
  }

  lemma SuccessSettles(s: Sys, id: Id) returns (acts: seq<Action>)
    requires s.job.Ended? && !s.job.outcome.Failed? && id !in s.settling
    ensures Reaches(CODE, s, acts, Settled(s).(settling := s.settling[id := Decided]))
  {
    hide Reaches;
    acts := RowEnds(s, id);
    var t := s.(rowLive := false, job := NoJob, settling := s.settling[id := Checking]);
    assert t.settling[id := Decided] == s.settling[id := Decided];
    acts := SettlingOpens(s, acts, t, id);
  }

  lemma FailedRunSettles(s: Sys, id: Id) returns (acts: seq<Action>)
    requires s.job.Ended? && s.job.outcome.Failed? && id !in s.settling
    ensures Reaches(CODE, s, acts, Settled(s).(settling := s.settling[id := Decided]))
  {
    hide Reaches;
    acts := RowEnds(s, id);
    var lost := s.job.outcome.rootLost;
    var t := s.(rowLive := false, job := NoJob, settling := s.settling[id := RowEnded(lost)]);
    assert t.settling[id := Decided] == s.settling[id := Decided];
    acts := FailureSettles(s, acts, t, id, lost);
  }

  /** The end of a run up to its own store of `running`. */
  lemma RunSettles(s: Sys, id: Id) returns (acts: seq<Action>)
    requires s.job.Ended? && id !in s.settling
    ensures Reaches(CODE, s, acts, Settled(s).(settling := s.settling[id := Decided]))
  {
    hide Reaches, Settled;
    if s.job.outcome.Failed? {
      acts := FailedRunSettles(s, id);
    } else {
      acts := SuccessSettles(s, id);
    }
  }

  lemma RunIsOver(s: Sys, id: Id) returns (acts: seq<Action>)
    requires s.job.Ended? && id !in s.settling
    ensures Reaches(CODE, s, acts, Settled(s).(running := false, clears := s.clears + 1))
  {
    hide Reaches, Settled;
    acts := RunSettles(s, id);
    var t := Settled(s).(settling := s.settling[id := Decided]);
    SettledClears(s);
    acts := StoresOwn(s, acts, t, id);
    assert s.settling[id := Decided] - {id} == s.settling;
  }

  lemma SettledClears(s: Sys)
    requires s.job.Ended?
    ensures Settled(s).clears == s.clears && Settled(s).settling == s.settling
  {
  }

  lemma StoresOwn(s: Sys, before: seq<Action>, t: Sys, id: Id) returns (acts: seq<Action>)
    requires Reaches(CODE, s, before, t) && id in t.settling && t.settling[id].Decided?
    ensures Reaches(CODE, s, acts, t.(running := false, settling := t.settling - {id}, clears := t.clears + 1))
  {
    acts := Then(CODE, s, before, t, Settle(SettleStep(id)));
  }

  lemma StartsUp(s: Sys, lost: bool, result: RecoverOutcome) returns (acts: seq<Action>)
    requires s.op.Startup?
    ensures Reaches(CODE, s, acts, Recovery(if lost then SetUnreachable(s) else s, result).(op := Idle))
  {
    acts := [];
    acts := Then(CODE, s, acts, s, Boot(StartupCheck(lost)));
    hide Reaches;
    var t := if lost then SetUnreachable(s) else s;
    acts := Then(CODE, s, acts, t.(op := Recovering), Boot(StartupRecover(result)));
    RecoveryIgnoresOp(t, result);
  }

  /** What startup leaves: an unreachable root closes the gate, a commit that was finished
      goes on to Cleanup, and what is left of a move waits to be resumed. */
  lemma StartUpMeans(s: Sys, lost: bool, result: RecoverOutcome)
    ensures
      var asks := !s.unreachable && !lost && !result.RecoverSkipped? && s.journal.Present?;
      var commits := asks && s.journal.phase.Commit?;
      var gone := lost || (commits && result.RootLost?);
      Recovery(if lost then SetUnreachable(s) else s, result)
      == s.(unreachable := s.unreachable || gone,
            gate := if gone then s.gate.Close(UNREACHABLE_BUSY) else s.gate,
            journal := if commits && result.Recovered? then Present(Cleanup) else s.journal,
            pendingResume := s.pendingResume || (asks && !gone))
  {
  }

  lemma RecoveryIgnoresOp(t: Sys, result: RecoverOutcome)
    ensures Recovery(t.(op := Recovering), result).(op := Idle) == Recovery(t, result).(op := Idle)
  {
    if t.unreachable || result.RecoverSkipped? || !t.journal.Present? {
    } else if t.journal.phase.Commit? {
      match result
      case RootLost =>
      case _ =>
    }
  }

  /** Who decides a run that begins in phase `from`: the cancel of a copy, the first phase
      that errs, or nobody. A failure leaves the journal in its phase, the others none. */
  predicate PhasesDecide(from: Phase, copy: PhaseResult, commit: PhaseResult, cleanup: PhaseResult,
                         outcome: Outcome, journal: Journal) {
    && (from.Copy? && copy.PhaseCancelled? <==> outcome.Cancelled?)
    && (outcome.Cancelled? ==> journal.Absent?)
    && (from.Copy? && copy.PhaseError? ==> outcome == Failed(copy.rootLost) && journal == Present(Copy))
    && (!from.Cleanup? && (from.Copy? ==> copy.PhaseDone?) && commit.PhaseError? ==>
          outcome == Failed(commit.rootLost) && journal == Present(Commit))
    && ((from.Copy? ==> copy.PhaseDone?) && (!from.Cleanup? ==> commit.PhaseDone?) && cleanup.PhaseError? ==>
          outcome == Failed(cleanup.rootLost) && journal == Present(Cleanup))
    && ((from.Copy? ==> copy.PhaseDone?) && (!from.Cleanup? ==> commit.PhaseDone?) && cleanup.PhaseDone? ==>
          outcome.Finished? && journal.Absent?)
  }

  class LibraryMoveService {
    const gate: LibraryGate
    var journal: Journal      // the journal file
    var unreachable: bool
    var running: bool
    var cancel: bool
    var pendingResume: bool
    var rowLive: bool         // the Downloads row of the move
    var job: Job              // the run handed to the blocking pool
    var clears: nat           // drop guards that still owe their store of `running`

    /** The protocol state this object is part of; `rest` holds the clients and
        the operation in progress. */
    ghost function View(rest: Sys): Sys
      reads this, gate
    {
      rest.(journal := journal, gate := gate.State(), unreachable := unreachable, running := running,
            cancel := cancel, pendingResume := pendingResume, rowLive := rowLive, job := job, clears := clears)
    }

    constructor (onDisk: Journal)
      ensures View(BootState(onDisk)) == BootState(onDisk)
      ensures gate.State() == GateState(if onDisk.Exists() then Some(MOVE_BUSY) else None, 0)
      ensures journal == onDisk && !unreachable && !running && !cancel && !pendingResume && !rowLive
      ensures job.NoJob? && clears == 0
      ensures fresh(gate)
    {
      var g := new LibraryGate();
      if onDisk.Exists() {
        var _ := g.Close(MOVE_BUSY);
      }
      gate, journal := g, onDisk;
      unreachable, running, cancel, pendingResume, rowLive := false, false, false, false, false;
      job, clears := NoJob, 0;
    }

    method OpenGateIfClear(ghost rest: Sys)
      modifies gate
      ensures View(rest) == OpenIfClear(old(View(rest)))
    {
      if !unreachable && journal.Absent? {
        gate.Open();
      }
    }

    method MarkUnreachable(ghost rest: Sys)
      modifies this`unreachable, gate
      ensures View(rest) == SetUnreachable(old(View(rest)))
    {
      unreachable := true;
      var _ := gate.Close(UNREACHABLE_BUSY);
    }

    /** Startup: is the library root reachable, and what does the journal ask for? */
    method StartUp(lost: bool, result: RecoverOutcome, ghost rest: Sys) returns (ghost acts: seq<Action>)
      requires rest.op.Startup?
      modifies this, gate
      ensures Reaches(CODE, old(View(rest)), acts, View(rest).(op := Idle))
      ensures
        var s := old(View(rest));
        var asks := !s.unreachable && !lost && !result.RecoverSkipped? && s.journal.Present?;
        var commits := asks && s.journal.phase.Commit?;
        var gone := lost || (commits && result.RootLost?);
        View(rest) == s.(unreachable := s.unreachable || gone,
                         gate := if gone then s.gate.Close(UNREACHABLE_BUSY) else s.gate,
                         journal := if commits && result.Recovered? then Present(Cleanup) else s.journal,
                         pendingResume := s.pendingResume || (asks && !gone))
    {
      acts := StartsUp(View(rest), lost, result);
      hide Reaches, Recovery;
      if lost {
        MarkUnreachable(rest);
      }
      RecoverMove(result, rest);
      StartUpMeans(old(View(rest)), lost, result);
    }

    method RecoverMove(result: RecoverOutcome, ghost rest: Sys)
      modifies this, gate
      ensures View(rest) == Recovery(old(View(rest)), result)
    {
      if unreachable || result.RecoverSkipped? || !journal.Present? {
        return;
      }
      if !journal.phase.Commit? {
        pendingResume := true;
        return;
      }
      if result.Recovered? {
        journal := Present(Cleanup);
        pendingResume := true;
      } else if result.RootLost? {
        MarkUnreachable(rest);
      } else {
        pendingResume := true;
      }
    }

    method SpawnTheRun()
      modifies this`cancel, this`running, this`job
      ensures !cancel && running && job == Spawned
    {
      cancel := false;
      running := true;
      job := Spawned;
    }

    /** Start: plan, row, close, wait for tickets, read the activity again, write
        the journal, spawn. `planned` is what the plan finds beside the activity,
        `installs` an install that has begun since. */
    method Start(planned: bool, drained: bool, games: nat, poolBusy: bool, transfers: nat, installs: bool,
                 write: WriteOutcome, ghost rest: Sys)
      returns (outcome: StartOutcome, ghost acts: seq<Action>)
      requires rest.op.Idle?
      requires rest.games == games && rest.transfers == transfers && (rest.pool != {} <==> poolBusy)
      requires drained ==> gate.tickets == 0
      modifies this, gate
      ensures Reaches(CODE, old(View(rest)), acts, View(rest))
      ensures
        var quiet := games == 0 && !poolBusy && transfers == 0;
        var written := old(!unreachable && !running && !rowLive && journal.Absent? && !gate.State().Closed())
                       && planned && drained && quiet && !installs && !write.PlanRefused?;
        && (outcome.Started? <==> written && write.Saved?)
        && (outcome.StartError? <==> written && write.SaveFailed?)
      ensures outcome.Started? ==>
        View(rest) == old(View(rest)).(journal := Present(Copy), gate := old(gate.State()).Close(MOVE_BUSY),
                                       rowLive := true, cancel := false, running := true, job := Spawned)
      ensures outcome.StartError? ==>
        View(rest) == if write.written
                      then old(View(rest)).(journal := Present(Copy), gate := old(gate.State()).Close(MOVE_BUSY))
                      else old(View(rest))
      ensures outcome.StartRefused? ==> View(rest) == old(View(rest))
    {
      ghost var s := View(rest);
      acts := [];
      if unreachable || running {
        return StartRefused, acts;
      }
      if !planned || games > 0 || poolBusy || transfers > 0 || rowLive || journal.Exists() {
        return StartRefused, acts;
      }
      acts := StartComesToGate(s);
      hide Reaches;
      rowLive := true;
      var wasOpen := gate.Close(MOVE_BUSY);
      if !wasOpen {
        rowLive := false;
        return StartRefused, acts;
      }
      outcome, acts := StartUnderGate(drained, games, poolBusy, transfers, installs, write, rest, s, acts);
    }

    /** The half of a start behind the gate it closed. */
    method StartUnderGate(drained: bool, games: nat, poolBusy: bool, transfers: nat, installs: bool,
                          write: WriteOutcome, ghost rest: Sys, ghost s: Sys, ghost before: seq<Action>)
      returns (outcome: StartOutcome, ghost acts: seq<Action>)
      requires rest.op.Idle? && rowLive && journal.Absent?
      requires rest.games == games && rest.transfers == transfers && (rest.pool != {} <==> poolBusy)
      requires drained ==> gate.tickets == 0
      requires Reaches(CODE, s, before, View(rest).(op := GateClosed))
      modifies this, gate
      ensures Reaches(CODE, s, acts, View(rest))
      ensures
        var written := drained && games == 0 && !poolBusy && transfers == 0 && !installs && !write.PlanRefused?;
        && (outcome.Started? <==> written && write.Saved?)
        && (outcome.StartError? <==> written && write.SaveFailed?)
      ensures
        var t := old(View(rest));
        View(rest) == match outcome
                      case Started => t.(journal := Present(Copy), cancel := false, running := true, job := Spawned)
                      case StartError =>
                        if write.written then t.(journal := Present(Copy), rowLive := false)
                        else t.(gate := t.gate.Open(), rowLive := false)
                      case StartRefused => t.(gate := t.gate.Open(), rowLive := false)
    {
      hide Reaches;
      acts := before;
      if !drained {
        acts := StartGivesUp(s, acts, View(rest).(op := GateClosed));
        DropRowAndOpen();
        return StartRefused, acts;
      }
      acts := StartDrains(s, acts, View(rest).(op := GateClosed));
      if installs || games > 0 || poolBusy || transfers > 0 {
        acts := StartGivesUp(s, acts, View(rest).(op := Drained));
        DropRowAndOpen();
        return StartRefused, acts;
      }
      acts := StartFindsQuiet(s, acts, View(rest).(op := Drained));
      if write.PlanRefused? {
        acts := StartGivesUp(s, acts, View(rest).(op := Quiet));
        DropRowAndOpen();
        return StartRefused, acts;
      }
      if write.SaveFailed? {
        acts := StartFails(s, acts, View(rest).(op := Quiet), write.written);
        if write.written {
          journal := Present(Copy);
        }
        if journal.Absent? {
          gate.Open();
        }
        rowLive := false;
        return StartError, acts;
      }
      acts := StartSucceeds(s, acts, View(rest).(op := Quiet));
      journal := Present(Copy);
      SpawnTheRun();
      return Started, acts;
    }

    /** The refusal after the gate closed. */
    method DropRowAndOpen()
      modifies this`rowLive, gate
      ensures !rowLive && gate.State() == old(gate.State()).Open()
    {
      gate.Open();
      rowLive := false;
    }

    /** Resume: only a readable journal, no run alive, a reachable library. */
    method ResumeMove(ghost rest: Sys) returns (resumed: bool, ghost acts: seq<Action>)
      requires rest.op.Idle?
      modifies this, gate
      ensures Reaches(CODE, old(View(rest)), acts, View(rest))
      ensures resumed == old(!unreachable && !running && journal.Present? && !rowLive)
      ensures
        var s := old(View(rest));
        View(rest) == if resumed
                      then s.(gate := s.gate.Close(MOVE_BUSY), rowLive := true, pendingResume := false,
                              cancel := false, running := true, job := Spawned)
                      else if !s.unreachable && !s.running && s.journal.Present?
                      then s.(gate := s.gate.Close(MOVE_BUSY))
                      else s
    {
      acts := [];
      if unreachable || running || !journal.Present? {
        return false, acts;
      }
      ghost var s := View(rest);
      acts := ResumeCloses(s);
      hide Reaches;
      var _ := gate.Close(MOVE_BUSY);
      acts := ResumeEnds(s, acts, View(rest).(op := ResumeClosed));
      if rowLive {
        return false, acts;
      }
      rowLive := true;
      pendingResume := false;
      SpawnTheRun();
      return true, acts;
    }

    /** Cancel: a live copy is flagged, a stopped one is rolled back now. */
    method CancelMove(rolledBack: bool, ghost rest: Sys) returns (outcome: CancelOutcome, ghost acts: seq<Action>)
      requires rest.op.Idle?
      modifies this, gate
      ensures Reaches(CODE, old(View(rest)), acts, View(rest))
      ensures outcome.CancelledNow? <==> old(journal) == Present(Copy) && !old(running) && rolledBack
      ensures outcome.Cancelling? <==> old(journal) == Present(Copy) && old(running)
      ensures outcome.NoMove? <==> old(journal).Absent?
      ensures outcome.NotCancellable? <==> old(journal.Present? && !journal.phase.Copy?)
      ensures
        var s := old(View(rest));
        View(rest) == match outcome
                      case Cancelling => s.(cancel := true)
                      case CancelledNow =>
                        s.(journal := Absent, gate := if s.unreachable then s.gate else s.gate.Open())
                      case _ => s
    {
      acts := [];
      match journal
      case Absent => return NoMove, acts;
      case Unreadable => return CancelError, acts;
      case Present(phase) =>
        if !phase.Copy? {
          return NotCancellable, acts;
        }
        acts := CancelGoes(View(rest), rolledBack);
        if running {
          cancel := true;
          return Cancelling, acts;
        }
        if !rolledBack {
          return CancelError, acts;
        }
        journal := Absent;
        OpenGateIfClear(rest);
        return CancelledNow, acts;
    }

    /** Relocate: the unreachable library now lives elsewhere. `true` when it
        succeeded; a committed move is then left to resume. */
    method RelocateLibrary(result: RelocateOutcome, ghost rest: Sys) returns (done: bool, ghost acts: seq<Action>)
      requires rest.op.Idle?
      modifies this, gate
      ensures Reaches(CODE, old(View(rest)), acts, View(rest))
      ensures done <==> old(!running && unreachable && !journal.Unreadable?) && result.Relocated?
      ensures
        var s := old(View(rest));
        var copied := s.journal == Present(Copy);
        View(rest) == if done
                      then if s.journal.Present? && !copied
                        then s.(journal := Present(Cleanup), unreachable := false, pendingResume := true)
                        else s.(journal := Absent, unreachable := false, gate := s.gate.Open())
                      else if copied && !s.running && s.unreachable && result.ReferencesFailed?
                      then s.(journal := Absent)
                      else s
    {
      acts := [];
      if running || !unreachable || journal.Unreadable? {
        return false, acts;
      }
      ghost var s := View(rest);
      acts := RelocateWorks(s, result);
      hide Reaches;
      if journal == Present(Copy) {
        // Its files came from the root that is gone.
        if result.RollbackFailed? {
          return false, acts;
        }
        journal := Absent;
      }
      if !result.Relocated? {
        return false, acts;
      }
      var resumeAfter := journal.Present?;
      if resumeAfter {
        journal := Present(Cleanup);
      }
      acts := RelocateEnds(s, acts, View(rest).(op := RelocateDone(resumeAfter)));
      unreachable := false;
      if resumeAfter {
        pendingResume := true;
      } else {
        OpenGateIfClear(rest);
      }
      return true, acts;
    }

    /** One phase of the engine. `None`: the journal went on to the next phase. */
    method RunPhase(result: PhaseResult, ghost s: Sys, ghost before: seq<Action>)
      returns (ended: Option<Outcome>, ghost acts: seq<Action>)
      requires job.Working? && journal == Present(job.phase)
      requires result.PhaseCancelled? ==> job.phase.Copy? && s.cancel
      requires Reaches(CODE, s, before, s.(journal := journal, job := job))
      modifies this`journal, this`job
      ensures Reaches(CODE, s, acts, s.(journal := journal, job := job))
      ensures ended.None? <==> result.PhaseDone? && !old(job.phase).Cleanup?
      ensures ended.None? ==>
        job == Working(if old(job.phase).Copy? then Commit else Cleanup) && journal == Present(job.phase)
      ensures ended.Some? ==> job == Ended(ended.value)
      ensures result.PhaseError? ==> ended == Some(Failed(result.rootLost)) && journal == old(journal)
      ensures result.PhaseCancelled? ==> ended == Some(Cancelled) && journal.Absent?
      ensures result.PhaseDone? && old(job.phase).Cleanup? ==> ended == Some(Finished) && journal.Absent?
    {
      var phase := job.phase;
      if result.PhaseError? {
        acts := JobFails(s, before, s.(journal := journal, job := job), result.rootLost);
        job := Ended(Failed(result.rootLost));
        return Some(Failed(result.rootLost)), acts;
      }
      if result.PhaseCancelled? || phase.Cleanup? {
        var outcome := if result.PhaseCancelled? then Cancelled else Finished;
        acts := JobDeletes(s, before, s.(journal := journal, job := job), outcome);
        journal, job := Absent, Ended(outcome);
        return Some(outcome), acts;
      }
      var next := if phase.Copy? then Commit else Cleanup;
      acts := JobSaves(s, before, s.(journal := journal, job := job), next);
      journal, job := Present(next), Working(next);
      return None, acts;
    }

    /** The engine's loop: from the journal's phase to the end, one phase a turn. */
    method RunPhases(copy: PhaseResult, commit: PhaseResult, cleanup: PhaseResult,
                     ghost s: Sys, ghost before: seq<Action>)
      returns (outcome: Outcome, ghost acts: seq<Action>)
      requires job.Working? && journal == Present(job.phase)
      requires copy.PhaseCancelled? ==> s.cancel
      requires !commit.PhaseCancelled? && !cleanup.PhaseCancelled?
      requires Reaches(CODE, s, before, s.(journal := journal, job := job))
      modifies this`journal, this`job
      ensures Reaches(CODE, s, acts, s.(journal := journal, job := job))
      ensures job == Ended(outcome)
      ensures PhasesDecide(old(job.phase), copy, commit, cleanup, outcome, journal)
    {
      hide Reaches;
      acts := before;
      while true
        invariant Reaches(CODE, s, acts, s.(journal := journal, job := job))
        invariant job.Working? && journal == Present(job.phase)
        invariant job.phase.Copy? ==> old(job.phase).Copy?
        invariant old(job.phase).Copy? && !job.phase.Copy? ==> copy.PhaseDone?
        invariant !old(job.phase).Cleanup? && job.phase.Cleanup? ==> commit.PhaseDone?
        invariant old(job.phase).Cleanup? ==> job.phase.Cleanup?
        decreases if job.phase.Copy? then 2 else if job.phase.Commit? then 1 else 0
      {
        var result := match job.phase case Copy => copy case Commit => commit case Cleanup => cleanup;
        var ended;
        ended, acts := RunPhase(result, s, acts);
        if ended.Some? {
          return ended.value, acts;
        }
      }
    }

    /** The engine: load the journal, then run its phases. */
    method RunEngine(copy: PhaseResult, commit: PhaseResult, cleanup: PhaseResult, ghost rest: Sys)
      returns (outcome: Outcome, ghost acts: seq<Action>)
      requires job.Spawned?
      requires copy.PhaseCancelled? ==> cancel
      requires !commit.PhaseCancelled? && !cleanup.PhaseCancelled?
      modifies this`journal, this`job
      ensures Reaches(CODE, old(View(rest)), acts, View(rest))
      ensures job == Ended(outcome)
      ensures old(journal).Present? ==>
        PhasesDecide(old(journal).phase, copy, commit, cleanup, outcome, journal)
      ensures !old(journal).Present? ==> outcome == Failed(false) && journal == old(journal)
    {
      hide Reaches;
      ghost var s := View(rest);
      acts := JobLoads(s);
      if !journal.Present? {
        outcome := Failed(false);
        job := Ended(outcome);
        return;
      }
      job := Working(journal.phase);
      outcome, acts := RunPhases(copy, commit, cleanup, s, acts);
    }

    /** The end of a run up to the gate: drop the row, load the journal, note a lost
        library root, open the gate if nothing holds it. */
    method SettleRun(ghost rest: Sys)
      requires job.Ended?
      modifies this`rowLive, this`job, this`unreachable, gate
      ensures View(rest) == Settled(old(View(rest)))
    {
      var outcome := job.outcome;
      rowLive := false;
      job := NoJob;
      match outcome {
        case Failed(lost) =>
          var loaded := journal;
          if lost && loaded.Present? {
            MarkUnreachable(rest);
          }
          if !loaded.Present? {
            OpenGateIfClear(rest);
          }
        case _ =>
          OpenGateIfClear(rest);
      }
    }

    /** The end of a run: settle it, then clear `running`. The guard's second
        store is still owed when this returns. */
    method FinishRun(ghost id: Id, ghost rest: Sys) returns (ghost acts: seq<Action>)
      requires job.Ended? && id !in rest.settling
      modifies this, gate
      ensures Reaches(CODE, old(View(rest)), acts, View(rest))
      ensures
        var s := old(View(rest));
        var failed := s.job.outcome.Failed? && s.journal.Present?;
        var gone := failed && s.job.outcome.rootLost;
        View(rest) == s.(rowLive := false, job := NoJob, running := false, clears := s.clears + 1,
                         unreachable := s.unreachable || gone,
                         gate := if gone then s.gate.Close(UNREACHABLE_BUSY)
                                 else if s.journal.Absent? && !s.unreachable then s.gate.Open()
                                 else s.gate)
    {
      acts := RunIsOver(View(rest), id);
      SettleRun(rest);
      running := false;
      clears := clears + 1;
    }
  }
}
