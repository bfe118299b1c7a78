/** Who may touch the library while it moves, as one transition system.

    The clients are manual cloud transfers, auto-uploads, pool tasks and ticket
    holders (firmware passes and launches), any number of each. The mover is the
    library move service: start, resume, cancel, relocate, the background runs,
    a crash at any point and the startup that follows it. An operation holds the
    control lock; a run holds nothing but its Downloads row, and not even that once
    its end begins. An action is one read or one write of what another thread can
    touch. Four things are one action all the same: the three stores of a spawn, the
    plan's look at the journal with the write after it, a rollback's look at the
    journal with its delete, and what a relocation does to the journal. What the
    outside world decides (an I/O error, an unreachable folder) is an argument of the
    action. */
module LibraryProtocol {
  import opened Wrappers
  import opened LibraryGates
  import opened Numbers

  type Id = nat
  type Key = string

  datatype Phase = Copy | Commit | Cleanup

  /** The journal file. An unreadable one exists but cannot be loaded. */
  datatype Journal = Absent | Unreadable | Present(phase: Phase) {
    predicate Exists() {
      !Absent?
    }
  }

  datatype Outcome = Finished | Cancelled | Failed(rootLost: bool)

  /** A run up to the end of its row: spawned, driving the engine with its own copy of
      the journal's phase, rolling back, or holding the engine's result. */
  datatype Job = NoJob | Spawned | Working(phase: Phase) | RollingBack | Ended(outcome: Outcome)

  /** The rest of a run, with its row ended: a failed one loads the journal, notes a lost
      root and closes the gate for it; the others, and one whose journal is gone, look at
      the root, then at the journal, then open the gate; all store `running` at the end. */
  datatype Settling = RowEnded(rootLost: bool) | Noting | Closing | Checking | Reachable | Clear | Decided

  /** How far the operation holding the control lock has come. */
  datatype Op =
    | Startup
    | Recovering
    | Idle
    // start
    | StartReached
    | StartFree
    | PlanGames
    | PlanPool
    | PlanCount
    | PlanQuiet
    | PlanNoRow
    | Planned
    | RowTaken
    | GateClosed
    | Drained
    | GamesQuiet
    | PoolQuiet
    | CountQuiet
    | Quiet
    | Written
    | WriteFailed
    | Reopening
    | Dropping
    // resume
    | ResumeReached
    | ResumeFree
    | ResumeLoaded
    | ResumeClosed
    | ResumeRow
    // cancel
    | CancelLoaded
    | CancelFree
    // relocate
    | RelocateFree
    | RelocateLost
    | RelocateDone(resume: bool)
    // opening the gate after a cancel or a relocate
    | Opening
    | OpeningReachable
    | OpeningClear

  datatype Sys = Sys(
    // On disk: survives a crash.
    journal: Journal,
    // The move service.
    gate: GateState,
    unreachable: bool,
    running: bool,
    cancel: bool,
    pendingResume: bool,
    rowLive: bool,
    job: Job,                    // the run that holds the row
    settling: map<Id, Settling>, // the runs past the end of their row
    clears: nat,                 // drop guards that still have to store `running = false`
    op: Op,
    // The clients, by where they are; `transfers` is the shared counter.
    transfers: nat,
    arriving: set<Id>,  // manual: counted, gate not checked yet
    manual: set<Id>,    // manual: past the gate
    waiting: set<Id>,   // auto-upload: counted, gate not seen open yet
    window: set<Id>,    // auto-upload: saw the gate open, not handed to the pool
    leaving: set<Id>,   // only the count is left to drop
    pool: set<Key>,
    games: nat)

  datatype ClientAction =
    | ManualCount(id: Id)
    | ManualCheck(id: Id)
    | ManualDone(id: Id)
    | DropCount(id: Id)
    | UploadCount(id: Id)
    | UploadSeesOpen(id: Id)
    | UploadAbort(id: Id)
    | UploadTrigger(id: Id, key: Key)
    | TaskDone(key: Key)
    | TicketEnter
    | TicketDrop
    | LaunchRegister
    | GameEnd

  datatype StartAction =
    | StartReach
    | StartNotRunning
    | PlanReadGames
    | PlanReadPool
    | PlanReadCount
    | PlanReadRow
    | StartPlan
    | StartRow
    | StartClose
    | StartDrained
    | StartReadGames
    | StartReadPool
    | StartReadCount
    | StartRefuse
    | StartWrite
    | StartWriteFails(written: bool)
    | StartFailCheck
    | StartReopen
    | StartDrop
    | StartSpawn
    | StartAbort

  datatype ResumeAction =
    | ResumeReach
    | ResumeNotRunning
    | ResumeLoad
    | ResumeClose
    | ResumeTakeRow
    | ResumeSpawn
    | ResumeAbort

  datatype RelocateOutcome = Relocated | RollbackFailed | ReferencesFailed

  datatype ControlAction =
    | CancelLoad
    | CancelFlag
    | CancelNotRunning
    | CancelRollback
    | CancelAbort
    | RelocateNotRunning
    | RelocateSeesLost
    | RelocateWork(outcome: RelocateOutcome)
    | RelocateForget
    | RelocateAbort
    | OpenSeesReachable
    | OpenSeesNoJournal
    | OpenNow
    | OperationPanics

  datatype JobAction =
    | JobLoad
    | JobSave(phase: Phase)
    | JobFinish
    | JobSeesCancel
    | JobRollback
    | JobFail(rootLost: bool)
    | JobPanic
    | RowEnd(id: Id)

  datatype SettleAction =
    | SettleStep(id: Id)
    | SettlePanic(id: Id)
    | ClearRunning

  datatype RecoverOutcome = Recovered | RootLost | RecoverError | RecoverSkipped

  datatype BootAction =
    | Crash
    | StartupCheck(lost: bool)
    | StartupRecover(result: RecoverOutcome)

  datatype Action =
    | Client(client: ClientAction)
    | Start(start: StartAction)
    | Resume(resume: ResumeAction)
    | Control(control: ControlAction)
    | Run(run: JobAction)
    | Settle(settle: SettleAction)
    | Boot(boot: BootAction)

  // --- steps ---------------------------------------------------------------

  /** The state right after the process starts on a disk holding `journal`. */
  function BootState(journal: Journal): Sys {
    Sys(journal,
        if journal.Exists() then GateState(None, 0).Close(MOVE_BUSY) else GateState(None, 0),
        false, false, false, false, false, NoJob, map[], 0, Startup,
        0, {}, {}, {}, {}, {}, {}, 0)
  }

  predicate ClientEnabled(s: Sys, a: ClientAction) {
    match a
    case ManualCount(id) => id !in s.arriving
    case ManualCheck(id) => id in s.arriving && id !in s.manual && id !in s.leaving
    case ManualDone(id) => id in s.manual && id !in s.leaving
    case DropCount(id) => id in s.leaving
    case UploadCount(id) => id !in s.waiting
    case UploadSeesOpen(id) => id in s.waiting && id !in s.window && !s.gate.Closed()
    case UploadAbort(id) => (id in s.waiting || id in s.window) && id !in s.leaving
    case UploadTrigger(id, _) => id in s.window && id !in s.leaving
    case TaskDone(key) => key in s.pool
    case TicketEnter => true
    case TicketDrop => s.gate.tickets > 0
    case LaunchRegister => s.gate.tickets > 0
    case GameEnd => s.games > 0
  }

  function ClientStep(s: Sys, a: ClientAction): Sys
    requires ClientEnabled(s, a)
  {
    match a
    case ManualCount(id) => s.(transfers := s.transfers + 1, arriving := s.arriving + {id})
    case ManualCheck(id) =>
      if s.gate.Closed()
      then s.(arriving := s.arriving - {id}, leaving := s.leaving + {id})
      else s.(arriving := s.arriving - {id}, manual := s.manual + {id})
    case ManualDone(id) => s.(manual := s.manual - {id}, leaving := s.leaving + {id})
    case DropCount(id) => s.(transfers := Pred(s.transfers), leaving := s.leaving - {id})
    case UploadCount(id) => s.(transfers := s.transfers + 1, waiting := s.waiting + {id})
    case UploadSeesOpen(id) => s.(waiting := s.waiting - {id}, window := s.window + {id})
    case UploadAbort(id) =>
      if id in s.waiting
      then s.(waiting := s.waiting - {id}, leaving := s.leaving + {id})
      else s.(window := s.window - {id}, leaving := s.leaving + {id})
    case UploadTrigger(id, key) =>
      // A key already in flight is coalesced: the set does not change.
      s.(window := s.window - {id}, leaving := s.leaving + {id}, pool := s.pool + {key})
    case TaskDone(key) => s.(pool := s.pool - {key})
    case TicketEnter => s.(gate := s.gate.Enter())
    case TicketDrop => s.(gate := s.gate.Leave())
    case LaunchRegister => s.(games := s.games + 1)
    case GameEnd => s.(games := Pred(s.games))
  }

  predicate StartEnabled(s: Sys, a: StartAction) {
    match a
    case StartReach => s.op.Idle? && !s.unreachable
    case StartNotRunning => s.op.StartReached? && !s.running
    case PlanReadGames => s.op.StartFree? && s.games == 0
    case PlanReadPool => (s.op.PlanGames? || s.op.PlanCount?) && s.pool == {}
    case PlanReadCount => (s.op.PlanGames? || s.op.PlanPool?) && s.transfers == 0
    case PlanReadRow => s.op.PlanQuiet? && !s.rowLive
    case StartPlan => s.op.PlanNoRow? && s.journal.Absent?
    case StartRow => s.op.Planned? && !s.rowLive
    case StartClose => s.op.RowTaken?
    case StartDrained => s.op.GateClosed? && s.gate.tickets == 0
    case StartReadGames => s.op.Drained? && s.games == 0
    case StartReadPool => (s.op.GamesQuiet? || s.op.CountQuiet?) && s.pool == {}
    case StartReadCount => (s.op.GamesQuiet? || s.op.PoolQuiet?) && s.transfers == 0
    case StartRefuse => HoldsGate(s.op)
    case StartWrite => s.op.Quiet? && s.journal.Absent?
    case StartWriteFails(_) => s.op.Quiet? && s.journal.Absent?
    case StartFailCheck => s.op.WriteFailed?
    case StartReopen => s.op.Reopening?
    case StartDrop => s.op.Dropping?
    case StartSpawn => s.op.Written?
    case StartAbort => s.op.StartReached? || s.op.StartFree? || Planning(s.op)
  }

  predicate Planning(op: Op) {
    op.PlanGames? || op.PlanPool? || op.PlanCount? || op.PlanQuiet? || op.PlanNoRow? || op.Planned?
  }

  /** A start that closed the gate and has not tried to write its journal. */
  predicate HoldsGate(op: Op) {
    op.GateClosed? || op.Drained? || op.GamesQuiet? || op.PoolQuiet? || op.CountQuiet? || op.Quiet?
  }

  function StartStep(s: Sys, a: StartAction): Sys
    requires StartEnabled(s, a)
  {
    match a
    case StartReach => s.(op := StartReached)
    case StartNotRunning => s.(op := StartFree)
    case PlanReadGames => s.(op := PlanGames)
    case PlanReadPool => s.(op := if s.op.PlanGames? then PlanPool else PlanQuiet)
    case PlanReadCount => s.(op := if s.op.PlanGames? then PlanCount else PlanQuiet)
    case PlanReadRow => s.(op := PlanNoRow)
    case StartPlan => s.(op := Planned)
    case StartRow => s.(rowLive := true, op := RowTaken)
    case StartClose =>
      if s.gate.Closed() then s.(op := Dropping) else s.(gate := s.gate.Close(MOVE_BUSY), op := GateClosed)
    case StartDrained => s.(op := Drained)
    case StartReadGames => s.(op := GamesQuiet)
    case StartReadPool => s.(op := if s.op.GamesQuiet? then PoolQuiet else Quiet)
    case StartReadCount => s.(op := if s.op.GamesQuiet? then CountQuiet else Quiet)
    case StartRefuse => s.(gate := s.gate.Open(), op := Dropping)
    case StartWrite => s.(journal := Present(Copy), op := Written)
    case StartWriteFails(written) => s.(journal := if written then Present(Copy) else Absent, op := WriteFailed)
    case StartFailCheck => s.(op := if s.journal.Exists() then Dropping else Reopening)
    case StartReopen => s.(gate := s.gate.Open(), op := Dropping)
    case StartDrop => s.(rowLive := false, op := Idle)
    case StartSpawn => SpawnRun(s)
    case StartAbort => s.(op := Idle)
  }

  function SpawnRun(s: Sys): Sys {
    s.(cancel := false, running := true, job := Spawned, op := Idle)
  }

  predicate ResumeEnabled(s: Sys, a: ResumeAction) {
    match a
    case ResumeReach => s.op.Idle? && !s.unreachable
    case ResumeNotRunning => s.op.ResumeReached? && !s.running
    case ResumeLoad => s.op.ResumeFree? && s.journal.Present?
    case ResumeClose => s.op.ResumeLoaded?
    case ResumeTakeRow => s.op.ResumeClosed? && !s.rowLive
    case ResumeSpawn => s.op.ResumeRow?
    case ResumeAbort => s.op.ResumeReached? || s.op.ResumeFree? || s.op.ResumeClosed?
  }

  function ResumeStep(s: Sys, a: ResumeAction): Sys
    requires ResumeEnabled(s, a)
  {
    match a
    case ResumeReach => s.(op := ResumeReached)
    case ResumeNotRunning => s.(op := ResumeFree)
    case ResumeLoad => s.(op := ResumeLoaded)
    case ResumeClose => s.(gate := s.gate.Close(MOVE_BUSY), op := ResumeClosed)
    case ResumeTakeRow => s.(rowLive := true, op := ResumeRow)
    case ResumeSpawn => SpawnRun(s.(pendingResume := false))
    case ResumeAbort => s.(op := Idle)
  }

  function SetUnreachable(s: Sys): Sys {
    s.(unreachable := true, gate := s.gate.Close(UNREACHABLE_BUSY))
  }

  predicate ControlEnabled(s: Sys, a: ControlAction) {
    match a
    case CancelLoad => s.op.Idle? && s.journal == Present(Copy)
    case CancelFlag => s.op.CancelLoaded? && s.running
    case CancelNotRunning => s.op.CancelLoaded? && !s.running
    case CancelRollback => s.op.CancelFree? && s.journal == Present(Copy)
    case CancelAbort => s.op.CancelFree?
    case RelocateNotRunning => s.op.Idle? && !s.running
    case RelocateSeesLost => s.op.RelocateFree? && s.unreachable
    case RelocateWork(_) => s.op.RelocateLost? && !s.journal.Unreadable?
    case RelocateForget => s.op.RelocateDone?
    case RelocateAbort => s.op.RelocateFree? || s.op.RelocateLost?
    case OpenSeesReachable => s.op.Opening?
    case OpenSeesNoJournal => s.op.OpeningReachable?
    case OpenNow => s.op.OpeningClear?
    case OperationPanics => !s.op.Startup? && !s.op.Recovering? && !s.op.Idle?
  }

  function ControlStep(s: Sys, a: ControlAction): Sys
    requires ControlEnabled(s, a)
  {
    match a
    case CancelLoad => s.(op := CancelLoaded)
    case CancelFlag => s.(cancel := true, op := Idle)
    case CancelNotRunning => s.(op := CancelFree)
    case CancelRollback => s.(journal := Absent, op := Opening)
    case CancelAbort => s.(op := Idle)
    case RelocateNotRunning => s.(op := RelocateFree)
    case RelocateSeesLost => s.(op := RelocateLost)
    case RelocateWork(outcome) =>
      var files := RelocateFiles(s.journal, outcome);
      s.(journal := files.0, op := files.1)
    case RelocateForget =>
      if s.op.resume then s.(unreachable := false, pendingResume := true, op := Idle)
      else s.(unreachable := false, op := Opening)
    case RelocateAbort => s.(op := Idle)
    case OpenSeesReachable => s.(op := if s.unreachable then Idle else OpeningReachable)
    case OpenSeesNoJournal => s.(op := if s.journal.Exists() then Idle else OpeningClear)
    case OpenNow => s.(gate := s.gate.Open(), op := Idle)
    case OperationPanics =>
      // The control lock is recovered; a row that was taken stays live.
      s.(op := Idle)
  }

  /** What the relocation does to the journal, and how far it comes: a copy is dropped, a
      commit is finished against the new place. */
  function RelocateFiles(journal: Journal, outcome: RelocateOutcome): (Journal, Op) {
    match journal
    case Present(Copy) =>
      if outcome.RollbackFailed? then (journal, Idle)
      else (Absent, if outcome.ReferencesFailed? then Idle else RelocateDone(false))
    case Present(_) =>
      if outcome.Relocated? then (Present(Cleanup), RelocateDone(true)) else (journal, Idle)
    case _ => (journal, if outcome.Relocated? then RelocateDone(false) else Idle)
  }

  predicate Follows(p: Phase, q: Phase) {
    p == q || (p.Copy? && q.Commit?) || (p.Commit? && q.Cleanup?)
  }

  predicate JobEnabled(s: Sys, a: JobAction) {
    match a
    case JobLoad => s.job.Spawned?
    case JobSave(p) => s.job.Working? && Follows(s.job.phase, p)
    case JobFinish => s.job == Working(Cleanup)
    case JobSeesCancel => s.job == Working(Copy) && s.cancel
    case JobRollback => s.job.RollingBack?
    case JobFail(_) => s.job.Working? || s.job.RollingBack?
    case JobPanic => !s.job.NoJob?
    case RowEnd(id) => s.job.Ended? && id !in s.settling
  }

  function JobStep(s: Sys, a: JobAction): Sys
    requires JobEnabled(s, a)
  {
    match a
    case JobLoad =>
      if s.journal.Present? then s.(job := Working(s.journal.phase)) else s.(job := Ended(Failed(false)))
    case JobSave(p) => s.(journal := Present(p), job := Working(p))
    case JobFinish => s.(journal := Absent, job := Ended(Finished))
    case JobSeesCancel => s.(job := RollingBack)
    case JobRollback => s.(journal := Absent, job := Ended(Cancelled))
    case JobFail(lost) => s.(job := Ended(Failed(lost)))
    case JobPanic =>
      // The row stays live; the drop guard still clears `running`.
      s.(job := NoJob, clears := s.clears + 1)
    case RowEnd(id) => s.(rowLive := false, job := NoJob, settling := s.settling[id := Unsettled(s.job.outcome)])
  }

  function Unsettled(outcome: Outcome): Settling {
    match outcome
    case Failed(lost) => RowEnded(lost)
    case _ => Checking
  }

  predicate SettleEnabled(s: Sys, a: SettleAction) {
    match a
    case SettleStep(id) => id in s.settling
    case SettlePanic(id) => id in s.settling
    case ClearRunning => s.clears > 0
  }

  function SettledStep(s: Sys, a: SettleAction): Sys
    requires SettleEnabled(s, a)
  {
    match a
    case SettleStep(id) =>
      var stage := s.settling[id];
      StageEffect(s, stage).(settling :=
        if stage.Decided? then s.settling - {id} else s.settling[id := StageAfter(s, stage)])
    case SettlePanic(id) => s.(settling := s.settling - {id}, clears := s.clears + 1)
    case ClearRunning => s.(running := false, clears := Pred(s.clears))
  }

  /** What a stage reads decides the next. */
  function StageAfter(s: Sys, stage: Settling): Settling {
    match stage
    case RowEnded(lost) => if !s.journal.Present? then Checking else if lost then Noting else Decided
    case Noting => Closing
    case Checking => if s.unreachable then Decided else Reachable
    case Reachable => if s.journal.Exists() then Decided else Clear
    case _ => Decided
  }

  /** What a stage writes. The last one is the run's own store of `running`; its drop
      guard's is still to come. */
  function StageEffect(s: Sys, stage: Settling): Sys {
    match stage
    case Noting => s.(unreachable := true)
    case Closing => s.(gate := s.gate.Close(UNREACHABLE_BUSY))
    case Clear => s.(gate := s.gate.Open())
    case Decided => s.(running := false, clears := s.clears + 1)
    case _ => s
  }

  predicate BootEnabled(s: Sys, a: BootAction) {
    match a
    case Crash => true
    case StartupCheck(_) => s.op.Startup?
    case StartupRecover(_) => s.op.Recovering?
  }

  function BootStep(s: Sys, a: BootAction): Sys
    requires BootEnabled(s, a)
  {
    match a
    case Crash => BootState(s.journal)
    case StartupCheck(lost) => (if lost then SetUnreachable(s) else s).(op := Recovering)
    case StartupRecover(result) => Recovery(s, result).(op := Idle)
  }

  function Recovery(s: Sys, result: RecoverOutcome): Sys {
    if s.unreachable || result.RecoverSkipped? || !s.journal.Present? then s
    else if !s.journal.phase.Commit? then s.(pendingResume := true)
    else
      match result
      case Recovered => s.(journal := Present(Cleanup), pendingResume := true)
      case RootLost => SetUnreachable(s)
      case _ => s.(pendingResume := true)
  }

  predicate Enabled(s: Sys, a: Action) {
    match a
    case Client(c) => ClientEnabled(s, c)
    case Start(c) => StartEnabled(s, c)
    case Resume(c) => ResumeEnabled(s, c)
    case Control(c) => ControlEnabled(s, c)
    case Run(c) => JobEnabled(s, c)
    case Settle(c) => SettleEnabled(s, c)
    case Boot(c) => BootEnabled(s, c)
  }

  function Apply(s: Sys, a: Action): Sys
    requires Enabled(s, a)
  {
    match a
    case Client(c) => ClientStep(s, c)
    case Start(c) => StartStep(s, c)
    case Resume(c) => ResumeStep(s, c)
    case Control(c) => ControlStep(s, c)
    case Run(c) => JobStep(s, c)
    case Settle(c) => SettledStep(s, c)
    case Boot(c) => BootStep(s, c)
  }

  // --- the three hazards ---------------------------------------------------

  /** The count reads zero after the pool read empty, and the pool is not empty
      any more: a hand-off slipped between the two reads. */
  predicate Slips(s: Sys, a: Action) {
    a == Start(StartReadCount) && s.op.PoolQuiet? && s.pool != {}
  }

  predicate Spawns(s: Sys, a: Action) {
    Enabled(s, a) && (a == Start(StartSpawn) || a == Resume(ResumeSpawn))
  }

  /** A run is spawned while the drop guard of an earlier one still has to store
      `running = false`. */
  predicate SpawnsEarly(s: Sys, a: Action) {
    Spawns(s, a) && s.clears > 0
  }

  predicate Panics(s: Sys, a: Action) {
    && Enabled(s, a)
    && (a == Run(JobPanic) || (a.Settle? && a.settle.SettlePanic?) || a == Control(OperationPanics))
  }

  /** A run panics, or an operation that has read `running` as false, with no journal and
      the gate closed behind it. */
  predicate PanicsLate(s: Sys, a: Action) {
    && Panics(s, a) && s.gate.Closed() && !s.journal.Exists() && !s.unreachable
    && (a == Control(OperationPanics) ==> PastRunningCheck(s.op))
  }

  datatype ReadOrder = PoolFirst | CountFirst

  /** Which hazards a run is assumed free of, and in which order the activity is
      read. The code reads the pool first. */
  datatype Care = Care(order: ReadOrder, noSlip: bool, noEarlySpawn: bool, noLatePanic: bool)

  predicate Allowed(c: Care, s: Sys, a: Action) {
    && (c.order.PoolFirst? ==> !(a == Start(StartReadCount) && s.op.GamesQuiet?))
    && (c.order.CountFirst? ==> !(a == Start(StartReadPool) && s.op.GamesQuiet?))
    && (c.noSlip ==> !Slips(s, a))
    && (c.noEarlySpawn ==> !SpawnsEarly(s, a))
    && (c.noLatePanic ==> !PanicsLate(s, a))
  }

  predicate ValidRun(c: Care, s: Sys, acts: seq<Action>)
    decreases |acts|
  {
    acts == [] ||
    (Enabled(s, acts[0]) && Allowed(c, s, acts[0]) && ValidRun(c, Apply(s, acts[0]), acts[1..]))
  }

  function Final(c: Care, s: Sys, acts: seq<Action>): Sys
    requires ValidRun(c, s, acts)
    decreases |acts|
  {
    if acts == [] then s else Final(c, Apply(s, acts[0]), acts[1..])
  }

  // --- what is promised ----------------------------------------------------

  /** No counted transfer past the gate, no upload in the pool, no ticket holder
      and no running game. */
  predicate NobodyInside(s: Sys) {
    s.manual == {} && s.window == {} && s.pool == {} && s.gate.tickets == 0 && s.games == 0
  }

  predicate Excluded(s: Sys) {
    s.journal.Exists() ==> NobodyInside(s)
  }

  predicate Quiescent(s: Sys) {
    s.op.Idle? && s.job.NoJob? && s.settling == map[]
  }

  predicate GateExact(s: Sys) {
    Quiescent(s) ==> (s.gate.Closed() <==> s.journal.Exists() || s.unreachable)
  }

  // --- invariants ----------------------------------------------------------

  predicate Alive(s: Sys) {
    !s.job.NoJob? || s.settling != map[]
  }

  /** An operation that has read `running` as false. */
  predicate PastRunningCheck(op: Op) {
    !(op.Startup? || op.Recovering? || op.Idle? || op.StartReached? || op.ResumeReached? || op.CancelLoaded?)
  }

  predicate HoldsRow(op: Op) {
    || op.RowTaken? || HoldsGate(op) || op.Written? || op.WriteFailed? || op.Reopening? || op.Dropping?
    || op.ResumeRow?
  }

  /** The row is taken by one operation or run at a time. */
  predicate RowInv(s: Sys) {
    && (!s.job.NoJob? ==> s.rowLive && !HoldsRow(s.op))
    && (HoldsRow(s.op) ==> s.rowLive)
    && (s.op.Startup? || s.op.Recovering? ==> s.job.NoJob?)
  }

  /** What the operation in progress knows. */
  predicate OpInv(s: Sys) {
    && (s.op.Planned? || s.op.RowTaken? || HoldsGate(s.op) || s.op.Reopening? ==> s.journal.Absent?)
    && (HoldsGate(s.op) || s.op.WriteFailed? || s.op.Reopening? ==> s.gate.Closed() && !s.unreachable)
    && (s.op.WriteFailed? ==> s.journal.Absent? || s.journal == Present(Copy))
    && (s.op.Written? ==> s.journal == Present(Copy))
    && (s.op.ResumeLoaded? || s.op.ResumeClosed? || s.op.ResumeRow? ==> s.journal.Present?)
    && (s.op.Opening? || s.op.OpeningReachable? || s.op.OpeningClear? ==> s.journal.Absent?)
    && (s.op.OpeningReachable? || s.op.OpeningClear? ==> !s.unreachable)
    && (s.op.RelocateLost? || s.op.RelocateDone? ==> s.unreachable)
    && (s.op.RelocateDone? ==> if s.op.resume then s.journal.Present? else s.journal.Absent?)
  }

  /** What the run that holds the row knows. */
  predicate JobInv(s: Sys) {
    && (!s.job.NoJob? ==> s.gate.Closed() && s.settling == map[])
    && (s.job.Spawned? ==> s.journal.Present?)
    && (s.job.Working? ==> s.journal == Present(s.job.phase))
    && (s.job.RollingBack? ==> s.journal == Present(Copy))
    && (s.job.Ended? ==> if s.job.outcome.Failed? then s.journal.Present? else s.journal.Absent?)
  }

  /** What a settling run knows. */
  predicate Knows(s: Sys, stage: Settling) {
    match stage
    case RowEnded(_) => s.journal.Present?
    case Noting => s.journal.Present?
    case Closing => s.journal.Present? && s.unreachable
    case Checking => s.journal.Absent?
    case Reachable => s.journal.Absent? && !s.unreachable
    case Clear => s.journal.Absent? && !s.unreachable
    case Decided => true
  }

  predicate SettlingInv(s: Sys) {
    && (forall i, j | i in s.settling && j in s.settling :: i == j)
    && (forall i | i in s.settling :: Knows(s, s.settling[i]))
  }

  /** `running` is true of every live run, and no drop guard's store can still fall on
      one; so no operation past its check meets a live run. */
  predicate RunningInv(s: Sys) {
    && (Alive(s) ==> s.running && s.clears == 0)
    && s.clears <= 1
    && (PastRunningCheck(s.op) ==> !s.running && !Alive(s))
    && (s.op.Startup? || s.op.Recovering? ==> !s.running && !Alive(s) && s.clears == 0)
  }

  /** The mover's own discipline: one operation, one run, and a closed gate
      wherever a journal or an unreachable root exists. */
  predicate MoverInv(s: Sys) {
    && (s.journal.Exists() || s.unreachable ==> s.gate.Closed())
    && RowInv(s) && OpInv(s) && JobInv(s) && SettlingInv(s) && RunningInv(s)
  }

  /** What each stage of a start has learned about the clients. */
  predicate ClientInv(s: Sys) {
    && CountExact(s)
    && (PastDrain(s.op) ==> s.gate.tickets == 0)
    && (PastGames(s.op) ==> s.games == 0)
    && (s.op.CountQuiet? ==> s.manual == {} && s.window == {})
    && (s.op.Quiet? || s.op.Written? ==> NobodyInside(s))
    && Excluded(s)
  }

  /** The shared counter is the number of live transfer guards. */
  predicate CountExact(s: Sys) {
    s.transfers == |s.arriving| + |s.manual| + |s.waiting| + |s.window| + |s.leaving|
  }

  predicate PastDrain(op: Op) {
    op.Drained? || PastGames(op)
  }

  predicate PastGames(op: Op) {
    op.GamesQuiet? || op.PoolQuiet? || op.CountQuiet? || op.Quiet? || op.Written?
  }

  /** A closed gate has a reason: a journal, an unreachable root, or somebody who
      is about to open it. */
  predicate NoOrphanLock(s: Sys) {
    s.gate.Closed() ==>
      || s.journal.Exists() || s.unreachable || s.job.Ended?
      || HoldsGate(s.op) || s.op.WriteFailed? || s.op.Reopening?
      || s.op.Opening? || s.op.OpeningReachable? || s.op.OpeningClear?
      || exists i :: i in s.settling && Opens(s.settling[i])
  }

  /** A settling run on its way to the gate. */
  predicate Opens(stage: Settling) {
    stage.Checking? || stage.Reachable? || stage.Clear?
  }

  lemma BootEstablishes(journal: Journal)
    ensures MoverInv(BootState(journal)) && ClientInv(BootState(journal)) && NoOrphanLock(BootState(journal))
  {
  }

  /** A crash leaves the journal and nothing else; the gate is closed again if there is
      one. */
  lemma CrashLeavesJournal(s: Sys)
    ensures var t := Apply(s, Boot(Crash));
      && t.journal == s.journal && (t.gate.Closed() <==> s.journal.Exists()) && t.op == Startup
      && NobodyInside(t) && t.transfers == 0 && t.arriving == t.waiting == t.leaving == {}
      && t.job == NoJob && t.settling == map[] && t.clears == 0
      && !t.unreachable && !t.running && !t.cancel && !t.pendingResume && !t.rowLive
  {}

  /** Through an open gate every kind of client gets in: a manual transfer, a launch under
      its ticket, and an upload up to its task. */
  lemma OpenGateAdmits(s: Sys, id: Id, key: Key)
    requires !s.gate.Closed() && id !in s.arriving + s.manual + s.waiting + s.window + s.leaving
    ensures
      var counted := ClientStep(s, ManualCount(id));
      && ClientEnabled(counted, ManualCheck(id))
      && ClientStep(counted, ManualCheck(id)) == s.(transfers := s.transfers + 1, manual := s.manual + {id})
    ensures
      var inside := ClientStep(s, TicketEnter);
      && inside.gate.tickets == s.gate.tickets + 1 && ClientEnabled(inside, LaunchRegister)
      && ClientStep(inside, LaunchRegister) == s.(gate := inside.gate, games := s.games + 1)
    ensures
      var counted := ClientStep(s, UploadCount(id));
      && ClientEnabled(counted, UploadSeesOpen(id))
      && var open := ClientStep(counted, UploadSeesOpen(id));
      && ClientEnabled(open, UploadTrigger(id, key))
      && ClientStep(open, UploadTrigger(id, key))
         == s.(transfers := s.transfers + 1, leaving := s.leaving + {id}, pool := s.pool + {key})
  {
    UploadGetsIn(s, id, key);
    assert s.arriving + {id} - {id} == s.arriving;
  }

  lemma UploadGetsIn(s: Sys, id: Id, key: Key)
    requires !s.gate.Closed() && id !in s.waiting + s.window + s.leaving
    ensures
      var counted := ClientStep(s, UploadCount(id));
      && ClientEnabled(counted, UploadSeesOpen(id))
      && var open := ClientStep(counted, UploadSeesOpen(id));
      && ClientEnabled(open, UploadTrigger(id, key))
      && ClientStep(open, UploadTrigger(id, key))
         == s.(transfers := s.transfers + 1, leaving := s.leaving + {id}, pool := s.pool + {key})
  {
    assert s.waiting + {id} - {id} == s.waiting;
    assert s.window + {id} - {id} == s.window;
  }

  predicate SameMover(s: Sys, t: Sys) {
    && t.journal == s.journal && t.gate.reason == s.gate.reason && t.unreachable == s.unreachable
    && t.running == s.running && t.rowLive == s.rowLive && t.job == s.job && t.settling == s.settling
    && t.clears == s.clears && t.op == s.op
  }

  lemma ClientLeavesMover(s: Sys, a: ClientAction)
    requires ClientEnabled(s, a)
    ensures SameMover(s, ClientStep(s, a))
  {
  }

  lemma SameMoverInv(s: Sys, t: Sys)
    requires MoverInv(s) && SameMover(s, t)
    ensures MoverInv(t)
  {
  }

  lemma ClientKeepsMover(s: Sys, a: ClientAction)
    requires MoverInv(s) && ClientEnabled(s, a)
    ensures MoverInv(ClientStep(s, a))
  {
    ClientLeavesMover(s, a);
    SameMoverInv(s, ClientStep(s, a));
  }

  /** The steps of a start that touch more than `op`. */
  predicate StartWrites(a: StartAction) {
    a.StartRow? || a.StartClose? || a.StartRefuse? || a.StartWrite? || a.StartWriteFails? || a.StartReopen?
    || a.StartDrop? || a.StartSpawn?
  }

  /** The reads of the plan. */
  predicate Plans(a: StartAction) {
    a.PlanReadGames? || a.PlanReadPool? || a.PlanReadCount? || a.PlanReadRow? || a.StartPlan?
  }

  lemma PlanKeepsMover(s: Sys, a: StartAction)
    requires MoverInv(s) && StartEnabled(s, a) && Plans(a)
    ensures MoverInv(StartStep(s, a))
  {
  }

  lemma StartReadKeepsMover(s: Sys, a: StartAction)
    requires MoverInv(s) && StartEnabled(s, a) && !StartWrites(a) && !Plans(a)
    ensures MoverInv(StartStep(s, a))
  {
  }

  lemma StartWriteKeepsMover(s: Sys, a: StartAction)
    requires MoverInv(s) && StartEnabled(s, a) && StartWrites(a)
    requires !SpawnsEarly(s, Action.Start(a))
    ensures MoverInv(StartStep(s, a))
  {
  }

  lemma StartKeepsMover(s: Sys, a: StartAction)
    requires MoverInv(s) && StartEnabled(s, a)
    requires !SpawnsEarly(s, Action.Start(a))
    ensures MoverInv(StartStep(s, a))
  {
    hide MoverInv, StartStep, StartEnabled, SpawnsEarly;
    if StartWrites(a) {
      StartWriteKeepsMover(s, a);
    } else if Plans(a) {
      PlanKeepsMover(s, a);
    } else {
      StartReadKeepsMover(s, a);
    }
  }

  lemma ResumeKeepsMover(s: Sys, a: ResumeAction)
    requires MoverInv(s) && ResumeEnabled(s, a)
    requires !SpawnsEarly(s, Action.Resume(a))
    ensures MoverInv(ResumeStep(s, a))
  {
  }

  predicate Cancels(a: ControlAction) {
    a.CancelLoad? || a.CancelFlag? || a.CancelNotRunning? || a.CancelRollback? || a.CancelAbort?
  }

  predicate OpensGate(a: ControlAction) {
    a.OpenSeesReachable? || a.OpenSeesNoJournal? || a.OpenNow?
  }

  lemma CancelKeepsMover(s: Sys, a: ControlAction)
    requires MoverInv(s) && ControlEnabled(s, a) && Cancels(a)
    ensures MoverInv(ControlStep(s, a))
  {
  }

  lemma RelocateFilesKeepsMover(s: Sys, outcome: RelocateOutcome)
    requires MoverInv(s) && ControlEnabled(s, RelocateWork(outcome))
    ensures MoverInv(ControlStep(s, RelocateWork(outcome)))
  {
  }

  lemma RelocateKeepsMover(s: Sys, a: ControlAction)
    requires MoverInv(s) && ControlEnabled(s, a) && !Cancels(a) && !OpensGate(a) && !a.OperationPanics?
    ensures MoverInv(ControlStep(s, a))
  {
    if a.RelocateWork? {
      RelocateFilesKeepsMover(s, a.outcome);
    }
  }

  lemma PanicKeepsMover(s: Sys)
    requires MoverInv(s) && ControlEnabled(s, OperationPanics)
    ensures MoverInv(ControlStep(s, OperationPanics))
  {
  }

  lemma OpenKeepsMover(s: Sys, a: ControlAction)
    requires MoverInv(s) && ControlEnabled(s, a) && OpensGate(a)
    ensures MoverInv(ControlStep(s, a))
  {
  }

  lemma ControlKeepsMover(s: Sys, a: ControlAction)
    requires MoverInv(s) && ControlEnabled(s, a)
    ensures MoverInv(ControlStep(s, a))
  {
    hide MoverInv, ControlStep, ControlEnabled;
    if Cancels(a) {
      CancelKeepsMover(s, a);
    } else if OpensGate(a) {
      OpenKeepsMover(s, a);
    } else if a.OperationPanics? {
      PanicKeepsMover(s);
    } else {
      RelocateKeepsMover(s, a);
    }
  }

  lemma RunKeepsMover(s: Sys, a: JobAction)
    requires MoverInv(s) && JobEnabled(s, a)
    ensures MoverInv(JobStep(s, a))
  {
  }

  lemma StageKeepsMover(s: Sys, id: Id)
    requires MoverInv(s) && id in s.settling
    ensures MoverInv(SettledStep(s, SettleStep(id)))
  {
    assert forall i | i in s.settling :: i == id;
    assert Knows(s, s.settling[id]);
  }

  lemma SettleKeepsMover(s: Sys, a: SettleAction)
    requires MoverInv(s) && SettleEnabled(s, a)
    ensures MoverInv(SettledStep(s, a))
  {
    if a.SettleStep? {
      StageKeepsMover(s, a.id);
    }
  }

  lemma RecoveryKeepsMover(s: Sys, result: RecoverOutcome)
    requires MoverInv(s) && BootEnabled(s, StartupRecover(result))
    ensures MoverInv(BootStep(s, StartupRecover(result)))
  {
  }

  lemma BootKeepsMover(s: Sys, a: BootAction)
    requires MoverInv(s) && BootEnabled(s, a)
    ensures MoverInv(BootStep(s, a))
  {
    match a
    case Crash => BootEstablishes(s.journal);
    case StartupCheck(_) =>
    case StartupRecover(result) => RecoveryKeepsMover(s, result);
  }

  lemma StepKeepsMover(s: Sys, a: Action)
    requires MoverInv(s) && Enabled(s, a) && !SpawnsEarly(s, a)
    ensures MoverInv(Apply(s, a))
  {
    match a
    case Client(c) => ClientKeepsMover(s, c);
    case Start(c) => StartKeepsMover(s, c);
    case Resume(c) => ResumeKeepsMover(s, c);
    case Control(c) => ControlKeepsMover(s, c);
    case Run(c) => RunKeepsMover(s, c);
    case Settle(c) => SettleKeepsMover(s, c);
    case Boot(c) => BootKeepsMover(s, c);
  }

  lemma StartKeepsRow(s: Sys, a: StartAction)
    requires RowInv(s) && StartEnabled(s, a)
    ensures RowInv(StartStep(s, a))
  {
  }

  lemma ResumeKeepsRow(s: Sys, a: ResumeAction)
    requires RowInv(s) && ResumeEnabled(s, a)
    ensures RowInv(ResumeStep(s, a))
  {
  }

  /** The operations of this kind never hold the row and leave what does. */
  predicate RowLeft(s: Sys, t: Sys) {
    t.job == s.job && t.rowLive == s.rowLive && !HoldsRow(t.op) && !t.op.Startup? && !t.op.Recovering?
  }

  lemma CancelLeavesRow(s: Sys, a: ControlAction)
    requires ControlEnabled(s, a) && Cancels(a)
    ensures RowLeft(s, ControlStep(s, a))
  {
  }

  lemma OpenLeavesRow(s: Sys, a: ControlAction)
    requires ControlEnabled(s, a) && (OpensGate(a) || a.OperationPanics?)
    ensures RowLeft(s, ControlStep(s, a))
  {
  }

  lemma RelocateLeavesRow(s: Sys, a: ControlAction)
    requires ControlEnabled(s, a) && !Cancels(a) && !OpensGate(a) && !a.OperationPanics?
    ensures RowLeft(s, ControlStep(s, a))
  {
    if a.RelocateWork? {
      var files := RelocateFiles(s.journal, a.outcome);
      assert files.1.Idle? || files.1.RelocateDone?;
    }
    hide RelocateFiles;
  }

  lemma ControlLeavesRow(s: Sys, a: ControlAction)
    requires ControlEnabled(s, a)
    ensures RowLeft(s, ControlStep(s, a))
  {
    hide ControlStep, RowLeft, ControlEnabled;
    if Cancels(a) {
      CancelLeavesRow(s, a);
    } else if OpensGate(a) || a.OperationPanics? {
      OpenLeavesRow(s, a);
    } else {
      RelocateLeavesRow(s, a);
    }
  }

  lemma ControlKeepsRow(s: Sys, a: ControlAction)
    requires RowInv(s) && ControlEnabled(s, a)
    ensures RowInv(ControlStep(s, a))
  {
    ControlLeavesRow(s, a);
    hide ControlStep, HoldsRow;
  }

  lemma RunKeepsRow(s: Sys, a: JobAction)
    requires RowInv(s) && JobEnabled(s, a)
    ensures RowInv(JobStep(s, a))
  {
  }

  lemma SettleKeepsRow(s: Sys, a: SettleAction)
    requires RowInv(s) && SettleEnabled(s, a)
    ensures RowInv(SettledStep(s, a))
  {
  }

  lemma BootKeepsRow(s: Sys, a: BootAction)
    requires RowInv(s) && BootEnabled(s, a)
    ensures RowInv(BootStep(s, a))
  {
  }

  /** The row has one holder in every run, hazards and all. */
  lemma StepKeepsRow(s: Sys, a: Action)
    requires RowInv(s) && Enabled(s, a)
    ensures RowInv(Apply(s, a))
  {
    match a
    case Client(c) => ClientLeavesMover(s, c);
    case Start(c) => StartKeepsRow(s, c);
    case Resume(c) => ResumeKeepsRow(s, c);
    case Control(c) => ControlKeepsRow(s, c);
    case Run(c) => RunKeepsRow(s, c);
    case Settle(c) => SettleKeepsRow(s, c);
    case Boot(c) => BootKeepsRow(s, c);
  }

  lemma SameMoverNoOrphan(s: Sys, t: Sys)
    requires NoOrphanLock(s) && SameMover(s, t)
    ensures NoOrphanLock(t)
  {
  }

  lemma ClientKeepsNoOrphan(s: Sys, a: ClientAction)
    requires MoverInv(s) && NoOrphanLock(s) && ClientEnabled(s, a)
    ensures NoOrphanLock(ClientStep(s, a))
  {
    ClientLeavesMover(s, a);
    SameMoverNoOrphan(s, ClientStep(s, a));
  }

  lemma StartKeepsNoOrphan(s: Sys, a: StartAction)
    requires MoverInv(s) && NoOrphanLock(s) && StartEnabled(s, a)
    ensures NoOrphanLock(StartStep(s, a))
  {
  }

  lemma ResumeKeepsNoOrphan(s: Sys, a: ResumeAction)
    requires MoverInv(s) && NoOrphanLock(s) && ResumeEnabled(s, a)
    ensures NoOrphanLock(ResumeStep(s, a))
  {
  }

  lemma ControlKeepsNoOrphan(s: Sys, a: ControlAction)
    requires MoverInv(s) && NoOrphanLock(s) && ControlEnabled(s, a)
    requires !PanicsLate(s, Action.Control(a))
    ensures NoOrphanLock(ControlStep(s, a))
  {
  }

  lemma RunKeepsNoOrphan(s: Sys, a: JobAction)
    requires MoverInv(s) && NoOrphanLock(s) && JobEnabled(s, a)
    requires !PanicsLate(s, Action.Run(a))
    ensures NoOrphanLock(JobStep(s, a))
  {
  }

  lemma SettleKeepsNoOrphan(s: Sys, a: SettleAction)
    requires MoverInv(s) && NoOrphanLock(s) && SettleEnabled(s, a)
    requires !PanicsLate(s, Action.Settle(a))
    ensures NoOrphanLock(SettledStep(s, a))
  {
    var t := SettledStep(s, a);
    if !a.ClearRunning? {
      assert forall i | i in s.settling :: i == a.id;
      assert a.SettleStep? && a.id in t.settling ==> t.settling[a.id] == StageAfter(s, s.settling[a.id]);
      assert Knows(s, s.settling[a.id]);
    }
  }

  lemma BootKeepsNoOrphan(s: Sys, a: BootAction)
    requires MoverInv(s) && NoOrphanLock(s) && BootEnabled(s, a)
    ensures NoOrphanLock(BootStep(s, a))
  {
  }

  lemma StepKeepsNoOrphan(s: Sys, a: Action)
    requires MoverInv(s) && NoOrphanLock(s) && Enabled(s, a) && !PanicsLate(s, a)
    ensures NoOrphanLock(Apply(s, a))
  {
    match a
    case Client(c) => ClientKeepsNoOrphan(s, c);
    case Start(c) => StartKeepsNoOrphan(s, c);
    case Resume(c) => ResumeKeepsNoOrphan(s, c);
    case Control(c) => ControlKeepsNoOrphan(s, c);
    case Run(c) => RunKeepsNoOrphan(s, c);
    case Settle(c) => SettleKeepsNoOrphan(s, c);
    case Boot(c) => BootKeepsNoOrphan(s, c);
  }

  predicate Manual(a: ClientAction) {
    a.ManualCount? || a.ManualCheck? || a.ManualDone? || a.DropCount?
  }

  lemma ManualKeepsCount(s: Sys, a: ClientAction)
    requires CountExact(s) && ClientEnabled(s, a) && Manual(a)
    ensures CountExact(ClientStep(s, a))
  {
  }

  lemma UploadKeepsCount(s: Sys, a: ClientAction)
    requires CountExact(s) && ClientEnabled(s, a) && !Manual(a)
    ensures CountExact(ClientStep(s, a))
  {
  }

  lemma ClientKeepsCount(s: Sys, a: ClientAction)
    requires CountExact(s) && ClientEnabled(s, a)
    ensures CountExact(ClientStep(s, a))
  {
    hide CountExact, ClientStep, ClientEnabled;
    if Manual(a) {
      ManualKeepsCount(s, a);
    } else {
      UploadKeepsCount(s, a);
    }
  }

  lemma ClientKeepsClients(s: Sys, a: ClientAction)
    requires MoverInv(s) && ClientInv(s) && ClientEnabled(s, a)
    ensures ClientInv(ClientStep(s, a))
  {
    ClientKeepsCount(s, a);
    match a
    case ManualCount(_) =>
    case ManualCheck(_) =>
    case ManualDone(_) =>
    case DropCount(_) =>
    case UploadCount(_) =>
    case UploadSeesOpen(_) =>
    case UploadAbort(_) =>
    case UploadTrigger(_, _) =>
    case TaskDone(_) =>
    case TicketEnter =>
    case TicketDrop =>
    case LaunchRegister =>
    case GameEnd =>
  }

  lemma StartKeepsClients(s: Sys, a: StartAction)
    requires MoverInv(s) && ClientInv(s) && StartEnabled(s, a)
    requires !Slips(s, Start(a))
    ensures ClientInv(StartStep(s, a))
  {
    if Plans(a) {
      PlanStaysOut(s, a);
      LeftAlone(s, StartStep(s, a));
    } else if StartWrites(a) {
      StartWriteKeepsClients(s, a);
    } else {
      StartReadKeepsClients(s, a);
    }
    hide ClientInv, StartStep, StartEnabled, MoverInv;
  }

  lemma PlanStaysOut(s: Sys, a: StartAction)
    requires StartEnabled(s, a) && Plans(a)
    ensures SameClients(s, StartStep(s, a)) && !PastDrain(StartStep(s, a).op)
    ensures StartStep(s, a).journal == s.journal
  {
  }

  lemma StartWriteKeepsClients(s: Sys, a: StartAction)
    requires MoverInv(s) && ClientInv(s) && StartEnabled(s, a) && StartWrites(a)
    ensures ClientInv(StartStep(s, a))
  {
  }

  lemma StartReadKeepsClients(s: Sys, a: StartAction)
    requires MoverInv(s) && ClientInv(s) && StartEnabled(s, a) && !StartWrites(a) && !Plans(a)
    requires !Slips(s, Start(a))
    ensures ClientInv(StartStep(s, a))
  {
  }

  /** The clients and what a start has learned about them, but for the journal and the
      gate's reason. */
  predicate SameClients(s: Sys, t: Sys) {
    && t.transfers == s.transfers && t.arriving == s.arriving && t.manual == s.manual && t.waiting == s.waiting
    && t.window == s.window && t.leaving == s.leaving && t.pool == s.pool && t.games == s.games
    && t.gate.tickets == s.gate.tickets
  }

  /** Outside a start the mover leaves the clients alone, and a journal is written only
      over one. */
  lemma ResumeLeavesClients(s: Sys, a: ResumeAction)
    requires MoverInv(s) && ResumeEnabled(s, a)
    ensures SameClients(s, ResumeStep(s, a)) && !PastDrain(ResumeStep(s, a).op)
    ensures ResumeStep(s, a).journal == s.journal
  {
  }

  lemma ControlLeavesClients(s: Sys, a: ControlAction)
    requires MoverInv(s) && ControlEnabled(s, a)
    ensures SameClients(s, ControlStep(s, a)) && !PastDrain(ControlStep(s, a).op)
    ensures ControlStep(s, a).journal.Exists() ==> s.journal.Exists()
  {
  }

  lemma RunLeavesClients(s: Sys, a: JobAction)
    requires MoverInv(s) && JobEnabled(s, a)
    ensures SameClients(s, JobStep(s, a)) && JobStep(s, a).op == s.op
    ensures JobStep(s, a).journal.Exists() ==> s.journal.Exists()
  {
  }

  lemma EffectLeavesClients(s: Sys, stage: Settling)
    ensures SameClients(s, StageEffect(s, stage)) && StageEffect(s, stage).op == s.op
    ensures StageEffect(s, stage).journal == s.journal
  {
  }

  lemma SettleLeavesClients(s: Sys, a: SettleAction)
    requires SettleEnabled(s, a)
    ensures SameClients(s, SettledStep(s, a)) && SettledStep(s, a).op == s.op
    ensures SettledStep(s, a).journal == s.journal
  {
    if a.SettleStep? {
      EffectLeavesClients(s, s.settling[a.id]);
      hide StageEffect, StageAfter;
    }
  }

  lemma LeftAlone(s: Sys, t: Sys)
    requires ClientInv(s) && SameClients(s, t) && (t.op == s.op || !PastDrain(t.op))
    requires t.journal.Exists() ==> s.journal.Exists()
    ensures ClientInv(t)
  {
  }

  lemma RecoveryStaysOut(s: Sys, result: RecoverOutcome)
    ensures SameClients(s, Recovery(s, result))
    ensures Recovery(s, result).journal.Exists() ==> s.journal.Exists()
  {
  }

  lemma BootStaysOut(s: Sys, a: BootAction)
    requires BootEnabled(s, a) && !a.Crash?
    ensures SameClients(s, BootStep(s, a)) && !PastDrain(BootStep(s, a).op)
    ensures BootStep(s, a).journal.Exists() ==> s.journal.Exists()
  {
    if a.StartupRecover? {
      RecoveryStaysOut(s, a.result);
    }
    hide Recovery;
  }

  lemma BootKeepsClients(s: Sys, a: BootAction)
    requires MoverInv(s) && ClientInv(s) && BootEnabled(s, a)
    ensures ClientInv(BootStep(s, a))
  {
    if a.Crash? {
      BootEstablishes(s.journal);
    } else {
      BootStaysOut(s, a);
      LeftAlone(s, BootStep(s, a));
    }
  }

  lemma StepKeepsClients(s: Sys, a: Action)
    requires MoverInv(s) && ClientInv(s) && Enabled(s, a) && !Slips(s, a)
    ensures ClientInv(Apply(s, a))
  {
    match a
    case Client(c) => ClientKeepsClients(s, c);
    case Start(c) => StartKeepsClients(s, c);
    case Resume(c) =>
      ResumeLeavesClients(s, c);
      LeftAlone(s, ResumeStep(s, c));
    case Control(c) =>
      ControlLeavesClients(s, c);
      LeftAlone(s, ControlStep(s, c));
    case Run(c) =>
      RunLeavesClients(s, c);
      LeftAlone(s, JobStep(s, c));
    case Settle(c) =>
      SettleLeavesClients(s, c);
      LeftAlone(s, SettledStep(s, c));
    case Boot(c) => BootKeepsClients(s, c);
  }
}
