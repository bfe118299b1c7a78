/** Collapsing refresh triggers into one pass and one rerun, and the generation
    guard on what a pass may publish. */
module UpdatePasses {
  type Id = nat

  /** The two flags of the gate. */
  datatype Flags = Flags(inFlight: bool, rerun: bool)

  /** The gate object. Each method is one critical call; its atomic operations are
      interleaved one by one in `Step` below. */
  class PassGate {
    var inFlight: bool
    var rerunRequested: bool

    ghost function View(): Flags
      reads this
    {
      Flags(inFlight, rerunRequested)
    }

    constructor ()
      ensures View() == Flags(false, false)
    {
      inFlight, rerunRequested := false, false;
    }

    /** A trigger arrives: `true` when the caller must start a pass. */
    method ShouldStart() returns (start: bool)
      modifies this
      ensures start == !old(inFlight)
      ensures View() == Flags(true, !start)
    {
      rerunRequested := true;
      var was := inFlight;
      inFlight := true;
      if was {
        return false;
      }
      rerunRequested := false;
      return true;
    }

    /** The end of a pass. Says whether its caller goes around again. */
    method ShouldRerun() returns (rerun: bool)
      modifies this
      ensures rerun == old(rerunRequested)
      ensures View() == Flags(rerun, false)
    {
      inFlight := false;
      var requested := rerunRequested;
      rerunRequested := false;
      if !requested {
        return false;
      }
      var was := inFlight;
      inFlight := true;
      return !was;
    }

    /** However many triggers land during one pass, it goes around once more. */
    method BurstDuringPass(triggers: nat) returns (first: bool, second: bool)
      requires inFlight && !rerunRequested
      modifies this
      ensures first == (triggers > 0) && !second && View() == Flags(false, false)
    {
      for i := 0 to triggers
        invariant inFlight && rerunRequested == (i > 0)
      {
        var started := ShouldStart();
        assert !started;
      }
      first := ShouldRerun();
      second := false;
      if first {
        second := ShouldRerun();
      }
    }
  }

  // --- one atomic operation at a time ---------------------------------------

  /** Every thread is in the set of the operation it does next. `outstanding` are
      the triggers no pass has begun after. */
  datatype Passes = Passes(
    inFlight: bool,
    rerun: bool,
    stored: set<Id>,      // trigger: request stored, slot not tried
    claimed: set<Id>,     // trigger: slot won, request not cleared
    ready: set<Id>,       // slot held, pass about to begin
    running: set<Id>,     // a pass
    finishing: set<Id>,   // slot released, request not swapped
    reclaiming: set<Id>,  // request taken, slot not tried
    outstanding: set<Id>)

  const INITIAL := Passes(false, false, {}, {}, {}, {}, {}, {}, {})

  datatype Action =
    | StoreRequest(id: Id)
    | TrySlot(id: Id)
    | ClearRequest(id: Id)
    | BeginPass(id: Id)
    | ReleaseSlot(id: Id)
    | SwapRequest(id: Id)
    | RetrySlot(id: Id)
    | Panic(id: Id)

  predicate Enabled(s: Passes, a: Action) {
    match a
    case StoreRequest(t) => t !in s.stored && t !in s.outstanding
    case TrySlot(t) => t in s.stored && t !in s.claimed
    case ClearRequest(t) => t in s.claimed && t !in s.ready
    case BeginPass(t) => t in s.ready && t !in s.running
    case ReleaseSlot(p) => p in s.running && p !in s.finishing
    case SwapRequest(p) => p in s.finishing && p !in s.reclaiming
    case RetrySlot(p) => p in s.reclaiming && p !in s.ready
    case Panic(p) => p in s.running
  }

  function Step(s: Passes, a: Action): Passes
    requires Enabled(s, a)
  {
    match a
    case StoreRequest(t) => s.(rerun := true, stored := s.stored + {t}, outstanding := s.outstanding + {t})
    case TrySlot(t) =>
      if s.inFlight then s.(stored := s.stored - {t})
      else s.(inFlight := true, stored := s.stored - {t}, claimed := s.claimed + {t})
    case ClearRequest(t) => s.(rerun := false, claimed := s.claimed - {t}, ready := s.ready + {t})
    case BeginPass(t) => s.(ready := s.ready - {t}, running := s.running + {t}, outstanding := {})
    case ReleaseSlot(p) => s.(inFlight := false, running := s.running - {p}, finishing := s.finishing + {p})
    case SwapRequest(p) =>
      if s.rerun then s.(rerun := false, finishing := s.finishing - {p}, reclaiming := s.reclaiming + {p})
      else s.(finishing := s.finishing - {p})
    case RetrySlot(p) =>
      if s.inFlight then s.(reclaiming := s.reclaiming - {p})
      else s.(inFlight := true, reclaiming := s.reclaiming - {p}, ready := s.ready + {p})
    case Panic(p) => s.(inFlight := false, running := s.running - {p})
  }

  /** A finisher takes a request recorded against another claimant's pass that has
      already begun. */
  predicate Steals(s: Passes, a: Action) {
    a.SwapRequest? && s.rerun && s.running != {} && s.outstanding != {}
  }

  /** A pass panics over a recorded request with no other thread in a gate method. */
  predicate Forgets(s: Passes, a: Action) {
    a.Panic? && s.outstanding != {} && s.stored == {} && s.finishing == {} && s.reclaiming == {}
  }

  predicate Careful(s: Passes, a: Action) {
    !Steals(s, a) && !Forgets(s, a)
  }

  /** A possible run; a careful one takes neither of the two steps above. */
  predicate ValidRun(careful: bool, s: Passes, acts: seq<Action>)
    decreases |acts|
  {
    acts != [] ==>
      && Enabled(s, acts[0])
      && (careful ==> Careful(s, acts[0]))
      && ValidRun(careful, Step(s, acts[0]), acts[1..])
  }

  function Final(s: Passes, acts: seq<Action>): Passes
    decreases |acts|
  {
    if acts == [] || !Enabled(s, acts[0]) then s else Final(Step(s, acts[0]), acts[1..])
  }

  /** The slot has one owner when the flag is up and none when it is down. */
  predicate OneOwner(s: Passes) {
    |s.claimed| + |s.ready| + |s.running| == if s.inFlight then 1 else 0
  }

  /** Somebody is bound to begin a pass after every outstanding trigger. */
  predicate Promised(s: Passes) {
    s.outstanding == {}
    || s.claimed != {} || s.ready != {}
    || (s.rerun && (s.running != {} || s.finishing != {} || s.stored != {}))
    || (s.reclaiming != {} && s.running == {})
  }

  predicate Quiescent(s: Passes) {
    s.stored == {} && s.claimed == {} && s.ready == {} && s.running == {} && s.finishing == {} && s.reclaiming == {}
  }

  lemma StepKeepsOwner(s: Passes, a: Action)
    requires OneOwner(s) && Enabled(s, a)
    ensures OneOwner(Step(s, a))
  {
    match a
    case StoreRequest(_) =>
    case TrySlot(_) =>
    case ClearRequest(_) =>
    case BeginPass(_) =>
    case ReleaseSlot(_) =>
    case SwapRequest(_) =>
    case RetrySlot(_) =>
    case Panic(_) =>
  }

  lemma OwnerIsAlone(s: Passes)
    requires OneOwner(s)
    ensures !s.inFlight ==> s.claimed == {} && s.ready == {} && s.running == {}
    ensures s.running != {} ==> s.inFlight && s.claimed == {} && s.ready == {} && |s.running| == 1
  {
    if s.running != {} {
      assert |s.running| > 0;
    }
  }

  lemma StepKeepsPromise(s: Passes, a: Action)
    requires OneOwner(s) && Promised(s) && Enabled(s, a) && Careful(s, a)
    ensures Promised(Step(s, a))
  {
    OwnerIsAlone(s);
    match a
    case StoreRequest(_) =>
    case TrySlot(_) =>
    case ClearRequest(_) =>
    case BeginPass(_) =>
    case ReleaseSlot(_) =>
    case SwapRequest(_) =>
    case RetrySlot(_) =>
    case Panic(p) =>
      assert |s.running - {p}| == 0;
  }

  /** At most one pass owns the slot, over every interleaving of the atomic
      operations, panicking passes included. */
  lemma {:induction false} SinglePass(s: Passes, acts: seq<Action>)
    requires OneOwner(s) && ValidRun(false, s, acts)
    ensures OneOwner(Final(s, acts)) && |Final(s, acts).running| <= 1
    decreases |acts|
  {
    if acts != [] {
      StepKeepsOwner(s, acts[0]);
      SinglePass(Step(s, acts[0]), acts[1..]);
    }
  }

  lemma {:induction false} RunKeepsPromise(s: Passes, acts: seq<Action>)
    requires OneOwner(s) && Promised(s) && ValidRun(true, s, acts)
    ensures OneOwner(Final(s, acts)) && Promised(Final(s, acts))
    decreases |acts|
  {
    if acts != [] {
      StepKeepsOwner(s, acts[0]);
      StepKeepsPromise(s, acts[0]);
      RunKeepsPromise(Step(s, acts[0]), acts[1..]);
    }
  }

  /** No lost trigger: when nothing is in progress any more, a pass has begun
      after every trigger, in every interleaving without a steal or a late panic. */
  lemma NoLostTrigger(acts: seq<Action>)
    requires ValidRun(true, INITIAL, acts)
    ensures Quiescent(Final(INITIAL, acts)) ==> Final(INITIAL, acts).outstanding == {}
  {
    RunKeepsPromise(INITIAL, acts);
  }

  // --- whole calls -----------------------------------------------------------

  /** One call of the service: a trigger, the begin of a pass, its end. */
  datatype Call = Trigger(id: Id) | Begin(id: Id) | End(id: Id)

  /** No thread is inside a gate method. */
  predicate Between(s: Passes) {
    s.stored == {} && s.claimed == {} && s.finishing == {} && s.reclaiming == {}
  }

  predicate Callable(s: Passes, call: Call) {
    match call
    case Trigger(t) => t !in s.outstanding && t !in s.ready
    case Begin(t) => t in s.ready && t !in s.running
    case End(p) => p in s.running && p !in s.ready
  }

  /** The call's atomic operations, run without interruption. */
  function Uninterrupted(s: Passes, call: Call): seq<Action> {
    match call
    case Trigger(t) =>
      [StoreRequest(t), TrySlot(t)] + if s.inFlight then [] else [ClearRequest(t)]
    case Begin(t) => [BeginPass(t)]
    case End(p) =>
      [ReleaseSlot(p), SwapRequest(p)] + if s.rerun then [RetrySlot(p)] else []
  }

  /** What the whole call does: `ShouldStart` and `ShouldRerun` on the flags. */
  function CallStep(s: Passes, call: Call): Passes {
    match call
    case Trigger(t) =>
      if s.inFlight then s.(rerun := true, outstanding := s.outstanding + {t})
      else s.(inFlight := true, rerun := false, ready := s.ready + {t}, outstanding := s.outstanding + {t})
    case Begin(t) => s.(ready := s.ready - {t}, running := s.running + {t}, outstanding := {})
    case End(p) =>
      if s.rerun then s.(inFlight := true, rerun := false, running := s.running - {p}, ready := s.ready + {p})
      else s.(inFlight := false, running := s.running - {p})
  }

  lemma CallIsItsOperations(s: Passes, call: Call)
    requires OneOwner(s) && Between(s) && Callable(s, call)
    ensures ValidRun(true, s, Uninterrupted(s, call))
    ensures Final(s, Uninterrupted(s, call)) == CallStep(s, call) && Between(CallStep(s, call))
  {
    OwnerIsAlone(s);
    match call
    case Begin(t) => RunCons(s, BeginPass(t), []);
    case Trigger(t) => TriggerIsItsOperations(s, t);
    case End(p) => EndIsItsOperations(s, p);
  }

  lemma TriggerIsItsOperations(s: Passes, t: Id)
    requires OneOwner(s) && Between(s) && Callable(s, Trigger(t))
    ensures ValidRun(true, s, Uninterrupted(s, Trigger(t)))
    ensures Final(s, Uninterrupted(s, Trigger(t))) == CallStep(s, Trigger(t))
  {
    var s1 := Step(s, StoreRequest(t));
    var s2 := Step(s1, TrySlot(t));
    var rest := if s.inFlight then [] else [ClearRequest(t)];
    if !s.inFlight {
      assert Step(s2, ClearRequest(t)).claimed == {};
      RunCons(s2, ClearRequest(t), []);
    }
    assert s2.stored == {};
    RunCons(s1, TrySlot(t), rest);
    RunCons(s, StoreRequest(t), [TrySlot(t)] + rest);
    assert [StoreRequest(t)] + ([TrySlot(t)] + rest) == Uninterrupted(s, Trigger(t));
  }

  lemma EndIsItsOperations(s: Passes, p: Id)
    requires OneOwner(s) && Between(s) && Callable(s, End(p))
    ensures ValidRun(true, s, Uninterrupted(s, End(p)))
    ensures Final(s, Uninterrupted(s, End(p))) == CallStep(s, End(p))
  {
    OwnerIsAlone(s);
    assert |s.running - {p}| == 0;
    var s1 := Step(s, ReleaseSlot(p));
    var s2 := Step(s1, SwapRequest(p));
    var rest := if s.rerun then [RetrySlot(p)] else [];
    if s.rerun {
      assert Step(s2, RetrySlot(p)).reclaiming == {};
      RunCons(s2, RetrySlot(p), []);
    }
    assert s2.finishing == {};
    RunCons(s1, SwapRequest(p), rest);
    RunCons(s, ReleaseSlot(p), [SwapRequest(p)] + rest);
    assert [ReleaseSlot(p)] + ([SwapRequest(p)] + rest) == Uninterrupted(s, End(p));
  }

  predicate CallRun(s: Passes, calls: seq<Call>)
    decreases |calls|
  {
    calls == [] || (Callable(s, calls[0]) && CallRun(CallStep(s, calls[0]), calls[1..]))
  }

  function CallFinal(s: Passes, calls: seq<Call>): Passes
    decreases |calls|
  {
    if calls == [] then s else CallFinal(CallStep(s, calls[0]), calls[1..])
  }

  /** With each gate method atomic, no trigger is ever lost: whenever no pass runs
      or waits to begin, one has begun after every trigger. */
  lemma {:induction false} NoLostTriggerAtomic(s: Passes, calls: seq<Call>)
    requires OneOwner(s) && Promised(s) && Between(s) && CallRun(s, calls)
    ensures var end := CallFinal(s, calls);
      OneOwner(end) && Between(end) && (end.ready == {} && end.running == {} ==> end.outstanding == {})
    decreases |calls|
  {
    if calls != [] {
      CallIsItsOperations(s, calls[0]);
      RunKeepsPromise(s, Uninterrupted(s, calls[0]));
      NoLostTriggerAtomic(CallStep(s, calls[0]), calls[1..]);
    }
  }

  // --- a stolen request is lost ----------------------------------------------

  lemma RunCons(s: Passes, a: Action, rest: seq<Action>)
    requires Enabled(s, a) && Careful(s, a) && ValidRun(true, Step(s, a), rest)
    ensures ValidRun(true, s, [a] + rest)
    ensures Final(s, [a] + rest) == Final(Step(s, a), rest)
  {
    assert ([a] + rest)[1..] == rest;
  }

  /** With a pass in its middle and no request on record, everything else can wind
      down and the outstanding triggers stay outstanding. */
  lemma {:induction false} Drain(s: Passes) returns (acts: seq<Action>)
    requires OneOwner(s) && s.running != {} && !s.rerun
    ensures ValidRun(true, s, acts)
    ensures Quiescent(Final(s, acts)) && Final(s, acts).outstanding == s.outstanding
    decreases |s.stored| + |s.reclaiming| + |s.finishing|
  {
    OwnerIsAlone(s);
    if s.stored != {} {
      var t :| t in s.stored;
      var rest := Drain(Step(s, TrySlot(t)));
      RunCons(s, TrySlot(t), rest);
      acts := [TrySlot(t)] + rest;
    } else if s.reclaiming != {} {
      var p :| p in s.reclaiming;
      var rest := Drain(Step(s, RetrySlot(p)));
      RunCons(s, RetrySlot(p), rest);
      acts := [RetrySlot(p)] + rest;
    } else if s.finishing != {} {
      var p :| p in s.finishing;
      var rest := Drain(Step(s, SwapRequest(p)));
      RunCons(s, SwapRequest(p), rest);
      acts := [SwapRequest(p)] + rest;
    } else {
      acts := LastPassEnds(s);
    }
  }

  lemma LastPassEnds(s: Passes) returns (acts: seq<Action>)
    requires OneOwner(s) && s.running != {} && !s.rerun
    requires s.stored == {} && s.reclaiming == {} && s.finishing == {}
    ensures ValidRun(true, s, acts)
    ensures Quiescent(Final(s, acts)) && Final(s, acts).outstanding == s.outstanding
  {
    OwnerIsAlone(s);
    var p :| p in s.running;
    assert |s.running - {p}| == 0;
    var s1 := Step(s, ReleaseSlot(p));
    RunCons(s1, SwapRequest(p), []);
    RunCons(s, ReleaseSlot(p), [SwapRequest(p)]);
    acts := [ReleaseSlot(p)] + [SwapRequest(p)];
    assert Step(s1, SwapRequest(p)).finishing == {};
  }

  /** Every careful run that comes to rest has served every trigger. */
  ghost predicate StaysServed(s: Passes) {
    forall acts | ValidRun(true, s, acts) ::
      Quiescent(Final(s, acts)) ==> Final(s, acts).outstanding == {}
  }

  lemma AlwaysServed(s: Passes)
    requires OneOwner(s) && Promised(s)
    ensures StaysServed(s)
  {
    forall acts | ValidRun(true, s, acts)
      ensures Quiescent(Final(s, acts)) ==> Final(s, acts).outstanding == {}
    {
      RunKeepsPromise(s, acts);
    }
  }

  /** A finisher may take the request without losing a trigger if and only if no
      other claimant's pass has begun, or no trigger is outstanding. */
  lemma StealIsExact(s: Passes, p: Id)
    requires OneOwner(s) && Promised(s) && Enabled(s, SwapRequest(p)) && s.rerun
    ensures StaysServed(Step(s, SwapRequest(p))) <==> s.running == {} || s.outstanding == {}
  {
    var next := Step(s, SwapRequest(p));
    StepKeepsOwner(s, SwapRequest(p));
    if s.running == {} || s.outstanding == {} {
      StepKeepsPromise(s, SwapRequest(p));
      AlwaysServed(next);
    } else {
      var acts := Drain(next);
      assert Final(next, acts).outstanding != {};
    }
  }

  /** A pass may panic without losing a trigger if and only if no trigger is
      outstanding or another thread is still inside a gate method. */
  lemma PanicIsExact(s: Passes, p: Id)
    requires OneOwner(s) && Promised(s) && Enabled(s, Panic(p))
    ensures StaysServed(Step(s, Panic(p))) <==>
      s.outstanding == {} || s.stored != {} || s.finishing != {} || s.reclaiming != {}
  {
    var next := Step(s, Panic(p));
    if Forgets(s, Panic(p)) {
      OwnerIsAlone(s);
      assert |s.running - {p}| == 0;
      var none: seq<Action> := [];
      assert ValidRun(true, next, none) && Quiescent(Final(next, none));
    } else {
      StepKeepsOwner(s, Panic(p));
      StepKeepsPromise(s, Panic(p));
      AlwaysServed(next);
    }
  }

  /** The state the steal needs: the first pass has released its slot and not
      swapped the request, the second's pass has begun, the third's request is
      recorded against it. */
  const FINISHER_IN_THE_GAP := Passes(true, true, {}, {}, {}, {2}, {1}, {}, {3})

  lemma FinisherInTheGapIsReachable()
    ensures exists acts :: ValidRun(true, INITIAL, acts) &&
                           Final(INITIAL, acts) == FINISHER_IN_THE_GAP
  {
    var first := PassOfOne();
    var second := PassOverTheGap();
    RunConcat(INITIAL, first, second);
    assert Final(INITIAL, first + second) == FINISHER_IN_THE_GAP;
  }

  lemma PassOfOne() returns (acts: seq<Action>)
    ensures ValidRun(true, INITIAL, acts)
    ensures Final(INITIAL, acts) == Passes(false, false, {}, {}, {}, {}, {1}, {}, {})
  {
    var s1 := Step(INITIAL, StoreRequest(1));
    var s2 := Step(s1, TrySlot(1));
    var s3 := Step(s2, ClearRequest(1));
    var s4 := Step(s3, BeginPass(1));
    assert s4 == Passes(true, false, {}, {}, {}, {1}, {}, {}, {});
    acts := [ReleaseSlot(1)];
    RunCons(s4, ReleaseSlot(1), []);
    RunCons(s3, BeginPass(1), acts);
    acts := [BeginPass(1)] + acts;
    RunCons(s2, ClearRequest(1), acts);
    acts := [ClearRequest(1)] + acts;
    RunCons(s1, TrySlot(1), acts);
    acts := [TrySlot(1)] + acts;
    RunCons(INITIAL, StoreRequest(1), acts);
    acts := [StoreRequest(1)] + acts;
  }

  lemma PassOverTheGap() returns (acts: seq<Action>)
    ensures var gap := Passes(false, false, {}, {}, {}, {}, {1}, {}, {});
      ValidRun(true, gap, acts) && Final(gap, acts) == FINISHER_IN_THE_GAP
  {
    var gap := Passes(false, false, {}, {}, {}, {}, {1}, {}, {});
    var s1 := Step(gap, StoreRequest(2));
    var s2 := Step(s1, TrySlot(2));
    var s3 := Step(s2, ClearRequest(2));
    var s4 := Step(s3, BeginPass(2));
    assert s4 == Passes(true, false, {}, {}, {}, {2}, {1}, {}, {});
    var s5 := Step(s4, StoreRequest(3));
    assert Step(s5, TrySlot(3)) == FINISHER_IN_THE_GAP;
    acts := [TrySlot(3)];
    RunCons(s5, TrySlot(3), []);
    RunCons(s4, StoreRequest(3), acts);
    acts := [StoreRequest(3)] + acts;
    RunCons(s3, BeginPass(2), acts);
    acts := [BeginPass(2)] + acts;
    RunCons(s2, ClearRequest(2), acts);
    acts := [ClearRequest(2)] + acts;
    RunCons(s1, TrySlot(2), acts);
    acts := [TrySlot(2)] + acts;
    RunCons(gap, StoreRequest(2), acts);
    acts := [StoreRequest(2)] + acts;
  }

  lemma {:induction false} RunConcat(s: Passes, first: seq<Action>, second: seq<Action>)
    requires ValidRun(true, s, first) && ValidRun(true, Final(s, first), second)
    ensures ValidRun(true, s, first + second)
    ensures Final(s, first + second) == Final(Final(s, first), second)
    decreases |first|
  {
    if first == [] {
      assert first + second == second;
    } else {
      RunConcat(Step(s, first[0]), first[1..], second);
      assert first + second == [first[0]] + (first[1..] + second);
      RunCons(s, first[0], first[1..] + second);
    }
  }

  /** From there the finisher's swap loses trigger 3. */
  lemma TriggerIsLost()
    ensures !StaysServed(Step(FINISHER_IN_THE_GAP, SwapRequest(1)))
  {
    assert |{2}| == 1;
    StealIsExact(FINISHER_IN_THE_GAP, 1);
  }

  /** A pass in its middle, with one request recorded against it and nobody else about. */
  const PASS_WITH_REQUEST := Passes(true, true, {}, {}, {}, {1}, {}, {}, {2})

  /** One pass begins, and a trigger arrives. */
  lemma PassWithRequestIsReachable() returns (acts: seq<Action>)
    ensures ValidRun(true, INITIAL, acts) && Final(INITIAL, acts) == PASS_WITH_REQUEST
  {
    var s1 := Step(INITIAL, StoreRequest(1));
    var s2 := Step(s1, TrySlot(1));
    var s3 := Step(s2, ClearRequest(1));
    var s4 := Step(s3, BeginPass(1));
    assert s4 == Passes(true, false, {}, {}, {}, {1}, {}, {}, {});
    var s5 := Step(s4, StoreRequest(2));
    assert Step(s5, TrySlot(2)) == PASS_WITH_REQUEST;
    acts := [TrySlot(2)];
    RunCons(s5, TrySlot(2), []);
    RunCons(s4, StoreRequest(2), acts);
    acts := [StoreRequest(2)] + acts;
    RunCons(s3, BeginPass(1), acts);
    acts := [BeginPass(1)] + acts;
    RunCons(s2, ClearRequest(1), acts);
    acts := [ClearRequest(1)] + acts;
    RunCons(s1, TrySlot(1), acts);
    acts := [TrySlot(1)] + acts;
    RunCons(INITIAL, StoreRequest(1), acts);
    acts := [StoreRequest(1)] + acts;
  }

  /** From the start, a pass that panics over a request: the trigger is forgotten. */
  lemma TriggerIsForgotten() returns (acts: seq<Action>)
    ensures ValidRun(true, INITIAL, acts) && Final(INITIAL, acts) == PASS_WITH_REQUEST
    ensures Enabled(PASS_WITH_REQUEST, Panic(1)) && Forgets(PASS_WITH_REQUEST, Panic(1))
    ensures !StaysServed(Step(PASS_WITH_REQUEST, Panic(1)))
  {
    acts := PassWithRequestIsReachable();
    assert |{1}| == 1;
    PanicIsExact(PASS_WITH_REQUEST, 1);
  }
}
