/** Image loads over the limiter: a slot is held from its grant until the backend call
    has settled, so the calls outstanding never exceed the limiter's bound. */
module ImageLoads {
  import opened LoadLimiters

  /** One load's flags. `called`: its ready callback has run; `ended`: its caller is
      done with it, or its backend call failed. */
  datatype Load = Load(called: bool, inFlight: bool, cancelled: bool, ended: bool)

  const FRESH := Load(false, false, false, false)

  datatype Loads = Loads(limiter: Limiter, loads: map<Id, Load>)

  datatype LoadAction =
    | StartLoad(id: Id)
    | Watch(id: Id, lane: Lane)
    | Ready(id: Id)
    | Resolve(id: Id)
    | Reject(id: Id)
    | Done(id: Id)
    | Cancel(id: Id)

  predicate CanStep(s: Loads, a: LoadAction) {
    match a
    case StartLoad(id) => id !in s.loads && id !in s.limiter.slots
    case Watch(id, _) => Known(s, id)
    case Ready(id) =>
      // `ready` resolves at the grant; the callback may run after a release.
      && Known(s, id) && !s.loads[id].called
      && (s.limiter.slots[id].Granted? || s.limiter.slots[id] == Released(true))
    case Resolve(id) => Known(s, id) && s.loads[id].inFlight
    case Reject(id) => Known(s, id) && s.loads[id].inFlight
    case Done(id) => Known(s, id)
    case Cancel(id) => Known(s, id)
  }

  predicate Known(s: Loads, id: Id) {
    id in s.loads && id in s.limiter.slots
  }

  function LoadStep(s: Loads, a: LoadAction): Loads
    requires CanStep(s, a)
  {
    match a
    case StartLoad(id) => Loads(Step(s.limiter, Acquire(id, Far)), s.loads[id := FRESH])
    case Watch(id, lane) => s.(limiter := Step(s.limiter, SetPriority(id, lane)))
    case Ready(id) =>
      var load := s.loads[id];
      s.(loads := s.loads[id := load.(called := true, inFlight := !load.cancelled)])
    case Resolve(id) =>
      var load := s.loads[id];
      Loads(if load.cancelled then Step(s.limiter, Release(id)) else s.limiter,
            s.loads[id := load.(inFlight := false)])
    case Reject(id) =>
      Loads(Step(s.limiter, Release(id)), s.loads[id := s.loads[id].(inFlight := false, ended := true)])
    case Done(id) => Loads(Step(s.limiter, Release(id)), s.loads[id := s.loads[id].(ended := true)])
    case Cancel(id) =>
      var load := s.loads[id];
      Loads(if load.inFlight then s.limiter else Step(s.limiter, Release(id)),
            s.loads[id := load.(cancelled := true)])
  }

  // --- the object ------------------------------------------------------------

  /** What `startImageLoad` returns: its flags and its slot of the shared limiter. */
  class ImageLoad {
    const limiter: LoadLimiter
    const id: Id
    var called: bool
    var inFlight: bool
    var cancelled: bool
    ghost var ended: bool

    ghost function Flags(): Load
      reads this
    {
      Load(called, inFlight, cancelled, ended)
    }

    /** The system with this load in it; `others` are the other loads. */
    ghost function View(others: map<Id, Load>): Loads
      reads this, limiter
    {
      Loads(limiter.View(), others[id := Flags()])
    }

    constructor (limiter: LoadLimiter, id: Id, ghost others: map<Id, Load>)
      requires LoadLimiters.Inv(limiter.View()) && id !in limiter.slots && id !in others
      modifies limiter
      ensures this.limiter == limiter && this.id == id
      ensures View(others) == LoadStep(Loads(old(limiter.View()), others), StartLoad(id))
    {
      this.limiter, this.id := limiter, id;
      called, inFlight, cancelled, ended := false, false, false, false;
      new;
      limiter.AcquireSlot(id, Far);
    }

    /** The slot was granted: ask the backend, unless the caller went away. */
    method OnReady(ghost others: map<Id, Load>) returns (callsBackend: bool)
      requires CanStep(View(others), Ready(id))
      modifies this
      ensures View(others) == LoadStep(old(View(others)), Ready(id))
      ensures callsBackend == inFlight == !cancelled
    {
      called := true;
      if cancelled {
        inFlight := false;
        return false;
      }
      inFlight := true;
      return true;
    }

    method OnResolved(ghost others: map<Id, Load>)
      requires CanStep(View(others), Resolve(id)) && LoadLimiters.Inv(limiter.View())
      modifies this, limiter
      ensures View(others) == LoadStep(old(View(others)), Resolve(id))
    {
      hide Inv, Step;
      inFlight := false;
      if cancelled {
        limiter.ReleaseSlot(id);
      }
    }

    method OnRejected(ghost others: map<Id, Load>)
      requires CanStep(View(others), Reject(id)) && LoadLimiters.Inv(limiter.View())
      modifies this, limiter
      ensures View(others) == LoadStep(old(View(others)), Reject(id))
    {
      hide Inv, Step;
      inFlight := false;
      ended := true;
      limiter.ReleaseSlot(id);
    }

    method CallerDone(ghost others: map<Id, Load>)
      requires CanStep(View(others), Done(id)) && LoadLimiters.Inv(limiter.View())
      modifies this, limiter
      ensures View(others) == LoadStep(old(View(others)), Done(id))
    {
      hide Inv, Step;
      ended := true;
      limiter.ReleaseSlot(id);
    }

    method CallerCancels(ghost others: map<Id, Load>)
      requires CanStep(View(others), Cancel(id)) && LoadLimiters.Inv(limiter.View())
      modifies this, limiter
      ensures View(others) == LoadStep(old(View(others)), Cancel(id))
    {
      hide Inv, Step;
      cancelled := true;
      if !inFlight {
        limiter.ReleaseSlot(id);
      }
    }
  }

  // --- runs ------------------------------------------------------------------

  /** The caller frees the slot while its backend call runs or is about to start. */
  predicate Premature(s: Loads, a: LoadAction) {
    && a.Done? && Known(s, a.id)
    && (s.loads[a.id].inFlight || (s.limiter.slots[a.id].Granted? && !s.loads[a.id].called))
  }

  predicate ValidRun(s: Loads, acts: seq<LoadAction>)
    decreases |acts|
  {
    acts != [] ==> CanStep(s, acts[0]) && ValidRun(LoadStep(s, acts[0]), acts[1..])
  }

  predicate PatientRun(s: Loads, acts: seq<LoadAction>)
    decreases |acts|
  {
    acts != [] ==>
      CanStep(s, acts[0]) && !Premature(s, acts[0]) && PatientRun(LoadStep(s, acts[0]), acts[1..])
  }

  function Final(s: Loads, acts: seq<LoadAction>): Loads
    decreases |acts|
  {
    if acts == [] || !CanStep(s, acts[0]) then s else Final(LoadStep(s, acts[0]), acts[1..])
  }

  function Outstanding(s: Loads): set<Id> {
    set id | id in s.loads && s.loads[id].inFlight
  }

  /** Every backend call running holds a granted slot. */
  predicate CallsHoldSlots(s: Loads) {
    forall id | id in s.loads && s.loads[id].inFlight :: id in s.limiter.slots && s.limiter.slots[id].Granted?
  }

  predicate Consistent(load: Load, slot: Slot) {
    && (load.inFlight ==> load.called && !load.ended && slot.Granted?)
    && ((load.cancelled || load.ended) && !load.inFlight ==> slot.Released?)
    && (slot == Released(true) && !load.called ==> load.cancelled)
    && (slot.Waiting? || slot == Released(false) ==> !load.called)
  }

  predicate LoadsInv(s: Loads) {
    && Inv(s.limiter) && Saturated(s.limiter) && s.loads.Keys == s.limiter.slots.Keys
    && forall id | id in s.loads :: Consistent(s.loads[id], s.limiter.slots[id])
  }

  function ReleasedFrom(slot: Slot): Slot {
    match slot
    case Released(_) => slot
    case Waiting(_) => Released(false)
    case Granted(_) => Released(true)
  }

  lemma OwnSlotAfterRelease(s: Limiter, id: Id)
    requires Inv(s) && Saturated(s) && id in s.slots
    ensures var t := Step(s, Release(id));
      t.slots.Keys == s.slots.Keys && t.slots[id] == ReleasedFrom(s.slots[id])
  {
    StepSlots(s, Release(id), id);
  }

  /** What a callback leaves of its load, and whether its slot is freed. */
  predicate Becomes(s: Loads, t: Loads, id: Id, load: Load, frees: bool)
    requires Known(s, id)
  {
    && t.loads == s.loads[id := load]
    && if frees then id in t.limiter.slots && t.limiter.slots[id] == ReleasedFrom(s.limiter.slots[id])
       else t.limiter == s.limiter
  }

  /** A load cancelled before its grant never calls; a call that settles frees its slot if
      it failed or was cancelled meanwhile; a cancel frees the slot unless a call runs; and
      a done always does. */
  lemma CallbacksMean(s: Loads, id: Id)
    requires LoadsInv(s) && Known(s, id)
    ensures var load := s.loads[id];
      && (CanStep(s, Ready(id)) ==>
            Becomes(s, LoadStep(s, Ready(id)), id, load.(called := true, inFlight := !load.cancelled), false))
      && (load.inFlight ==>
            && Becomes(s, LoadStep(s, Resolve(id)), id, load.(inFlight := false), load.cancelled)
            && Becomes(s, LoadStep(s, Reject(id)), id, load.(inFlight := false, ended := true), true))
      && Becomes(s, LoadStep(s, Cancel(id)), id, load.(cancelled := true), !load.inFlight)
      && Becomes(s, LoadStep(s, Done(id)), id, load.(ended := true), true)
  {
    OwnSlotAfterRelease(s.limiter, id);
    hide Inv, Saturated, Consistent, Step;
  }

  /** A new load waits far or is granted far, and is near or far as its card is watched. */
  lemma StartAndWatchMean(s: Loads, id: Id, lane: Lane)
    requires LoadsInv(s)
    ensures CanStep(s, StartLoad(id)) ==>
      var t := LoadStep(s, StartLoad(id));
      t.loads == s.loads[id := FRESH] && Joined(s.limiter, t.limiter, id, Far)
    ensures CanStep(s, Watch(id, lane)) ==>
      var t := LoadStep(s, Watch(id, lane));
      && t.loads == s.loads
      && match s.limiter.slots[id]
         case Waiting(other) => if other == lane then t == s else Joined(s.limiter, t.limiter, id, lane)
         case _ => t == s
  {
    JoiningMeans(s.limiter, id, lane);
    JoiningMeans(s.limiter, id, Far);
    hide Inv, Saturated, Consistent, Step, Joined;
  }

  lemma LimiterMoves(s: Loads, a: Action, loads: map<Id, Load>)
    requires LoadsInv(s) && Enabled(s.limiter, a) && loads.Keys == s.loads.Keys + {a.id}
    requires Step(s.limiter, a).slots.Keys == loads.Keys
    requires forall id | id in s.loads && id != a.id :: loads[id] == s.loads[id]
    requires Consistent(loads[a.id], Step(s.limiter, a).slots[a.id])
    ensures LoadsInv(Loads(Step(s.limiter, a), loads))
  {
    hide Inv, Saturated, Step;
    var after := Step(s.limiter, a);
    StepKeepsInv(s.limiter, a);
    forall id | id in loads ensures Consistent(loads[id], after.slots[id]) {
      if id != a.id {
        OtherSlots(s.limiter, a, id);
      }
    }
  }

  lemma ReleaseMoves(s: Loads, id: Id, load: Load)
    requires LoadsInv(s) && Known(s, id) && Consistent(load, ReleasedFrom(s.limiter.slots[id]))
    ensures LoadsInv(Loads(Step(s.limiter, Release(id)), s.loads[id := load]))
  {
    OwnSlotAfterRelease(s.limiter, id);
    LimiterMoves(s, Release(id), s.loads[id := load]);
  }

  lemma StartKeepsLoads(s: Loads, id: Id)
    requires LoadsInv(s) && CanStep(s, StartLoad(id))
    ensures LoadsInv(LoadStep(s, StartLoad(id)))
  {
    StepSlots(s.limiter, Acquire(id, Far), id);
    LimiterMoves(s, Acquire(id, Far), s.loads[id := FRESH]);
  }

  lemma WatchKeepsLoads(s: Loads, id: Id, lane: Lane)
    requires LoadsInv(s) && CanStep(s, Watch(id, lane))
    ensures LoadsInv(LoadStep(s, Watch(id, lane)))
  {
    if s.limiter.slots[id].Waiting? && s.limiter.slots[id].lane != lane {
      StepSlots(s.limiter, SetPriority(id, lane), id);
      LimiterMoves(s, SetPriority(id, lane), s.loads);
    }
  }

  lemma StepKeepsLoads(s: Loads, a: LoadAction)
    requires LoadsInv(s) && CanStep(s, a) && !Premature(s, a)
    ensures LoadsInv(LoadStep(s, a))
  {
    match a
    case StartLoad(id) => StartKeepsLoads(s, id);
    case Watch(id, lane) => WatchKeepsLoads(s, id, lane);
    case Ready(_) =>
    case Resolve(id) =>
      if s.loads[id].cancelled {
        ReleaseMoves(s, id, s.loads[id].(inFlight := false));
      }
    case Reject(id) => ReleaseMoves(s, id, s.loads[id].(inFlight := false, ended := true));
    case Done(id) => ReleaseMoves(s, id, s.loads[id].(ended := true));
    case Cancel(id) =>
      if !s.loads[id].inFlight {
        ReleaseMoves(s, id, s.loads[id].(cancelled := true));
      }
  }

  lemma BoundedBySlots(s: Loads)
    requires LoadsInv(s)
    ensures CallsHoldSlots(s) && |Outstanding(s)| <= s.limiter.active <= s.limiter.max
    ensures (forall id | id in s.loads :: (s.loads[id].cancelled || s.loads[id].ended) && !s.loads[id].inFlight)
      ==> s.limiter.active == 0
  {
    var granted := GrantedIn(s.limiter.slots);
    SubsetSize(Outstanding(s), granted);
    if forall id | id in s.loads :: (s.loads[id].cancelled || s.loads[id].ended) && !s.loads[id].inFlight {
      assert granted == {};
    }
  }

  lemma {:induction false} SubsetSize(a: set<Id>, b: set<Id>)
    requires a <= b
    ensures |a| <= |b|
  {
    assert b == a + (b - a);
  }

  lemma {:induction false} RunKeepsLoads(s: Loads, acts: seq<LoadAction>)
    requires LoadsInv(s) && PatientRun(s, acts)
    ensures LoadsInv(Final(s, acts))
    decreases |acts|
  {
    if acts != [] {
      StepKeepsLoads(s, acts[0]);
      RunKeepsLoads(LoadStep(s, acts[0]), acts[1..]);
    }
  }

  /** Over every interleaving of starts, grants, scrolls, settlements, cancels and
      patient dones: the calls outstanding never exceed the limiter's bound, each
      holds its slot until it settles, and when every load is over the limiter is
      idle. */
  lemma BoundedBackendCalls(max: nat, maxFar: nat, acts: seq<LoadAction>)
    requires PatientRun(Loads(Empty(max, maxFar), map[]), acts)
    ensures var s := Final(Loads(Empty(max, maxFar), map[]), acts);
      && CallsHoldSlots(s) && |Outstanding(s)| <= s.limiter.active <= s.limiter.max
      && ((forall id | id in s.loads :: (s.loads[id].cancelled || s.loads[id].ended) && !s.loads[id].inFlight)
            ==> s.limiter.active == 0)
  {
    EmptyIsInv(max, maxFar);
    RunKeepsLoads(Loads(Empty(max, maxFar), map[]), acts);
    BoundedBySlots(Final(Loads(Empty(max, maxFar), map[]), acts));
  }

  ghost predicate StaysHeld(s: Loads) {
    forall acts | PatientRun(s, acts) :: CallsHoldSlots(Final(s, acts))
  }

  /** A done keeps every call on a slot over everything that can follow if and only
      if the load's own call is neither running nor about to start. */
  lemma PrematureDoneIsExact(s: Loads, id: Id)
    requires LoadsInv(s) && CanStep(s, Done(id))
    ensures StaysHeld(LoadStep(s, Done(id))) <==> !Premature(s, Done(id))
  {
    var t := LoadStep(s, Done(id));
    OwnSlotAfterRelease(s.limiter, id);
    if !Premature(s, Done(id)) {
      StepKeepsLoads(s, Done(id));
      forall acts | PatientRun(t, acts) ensures CallsHoldSlots(Final(t, acts)) {
        RunKeepsLoads(t, acts);
        BoundedBySlots(Final(t, acts));
      }
    } else if s.loads[id].inFlight {
      var none: seq<LoadAction> := [];
      assert PatientRun(t, none) && !CallsHoldSlots(Final(t, none));
    } else {
      var ready := [Ready(id)];
      var u := LoadStep(t, Ready(id));
      assert ready[1..] == [] && u.loads[id].inFlight;
      assert PatientRun(t, ready) && Final(t, ready) == u;
      assert !CallsHoldSlots(u);
    }
  }

  /** A far slot waiting alone under an idle limiter is granted. */
  lemma FarAlone(s: Limiter, id: Id)
    requires s.active == 0 < s.max && s.activeFar == 0 < s.maxFar && s.near == [] && s.far == [id] && id in s.slots
    ensures var t := Pumped(s);
      && t.slots == s.slots[id := Granted(true)] && t.near == t.far == [] && t.active == t.activeFar == 1
      && t.max == s.max && t.maxFar == s.maxFar
  {
    assert NearGrants(s) == 0 && FarGrants(s) == 1;
    assert s.near[..0] == [] && s.far[..1] == [id] && s.far[1..] == [];
  }

  predicate OneIdleSlot(s: Limiter) {
    s.max == s.maxFar == 1 && s.active == s.activeFar == 0 && s.near == s.far == []
  }

  predicate OneBusySlot(s: Limiter, id: Id) {
    && s.max == s.maxFar == s.active == s.activeFar == 1 && s.near == s.far == []
    && id in s.slots && s.slots[id] == Granted(true)
  }

  /** A load started alone on an idle one-slot limiter is granted and calls. */
  lemma StartsAlone(s: Loads, id: Id)
    requires OneIdleSlot(s.limiter) && CanStep(s, StartLoad(id))
    ensures CanStep(LoadStep(s, StartLoad(id)), Ready(id))
    ensures var t := LoadStep(LoadStep(s, StartLoad(id)), Ready(id));
      OneBusySlot(t.limiter, id) && t.loads == s.loads[id := Load(true, true, false, false)]
      && t.limiter.slots == s.limiter.slots[id := Granted(true)]
  {
    FarAlone(Join(s.limiter, id, Far), id);
    var started := LoadStep(s, StartLoad(id));
    assert started.limiter == Pumped(Join(s.limiter, id, Far));
    assert started.loads[id] == FRESH;
  }

  /** Its caller is done while the call runs, and a second load starts: one slot,
      two backend calls at once. */
  lemma DoneDuringCallExceedsBound(s: Loads, first: Id, second: Id)
    requires OneBusySlot(s.limiter, first) && s.loads == map[first := Load(true, true, false, false)]
    requires s.limiter.slots == map[first := Granted(true)] && second != first
    ensures CanStep(s, Done(first)) && Premature(s, Done(first))
    ensures var freed := LoadStep(s, Done(first));
      && CanStep(freed, StartLoad(second))
      && CanStep(LoadStep(freed, StartLoad(second)), Ready(second))
      && |Outstanding(LoadStep(LoadStep(freed, StartLoad(second)), Ready(second)))| == 2 > s.limiter.max
  {
    var released := s.limiter.(active := 0, activeFar := 0, slots := s.limiter.slots[first := Released(true)]);
    GrantNone(released.slots);
    assert NearGrants(released) == FarGrants(released) == 0;
    assert Pumped(released) == released;
    var freed := LoadStep(s, Done(first));
    assert freed.limiter == released;
    StartsAlone(freed, second);
    var both := LoadStep(LoadStep(freed, StartLoad(second)), Ready(second));
    assert Outstanding(both) == {first, second};
  }

  /** From an empty limiter of one slot: a load starts and calls, its caller is done, and
      a second load calls beside it. */
  lemma TwoCallsFromOneSlot(first: Id, second: Id) returns (acts: seq<LoadAction>)
    requires first != second
    ensures ValidRun(Loads(Empty(1, 1), map[]), acts)
    ensures |Outstanding(Final(Loads(Empty(1, 1), map[]), acts))| == 2
  {
    var s := Loads(Empty(1, 1), map[]);
    StartsAlone(s, first);
    var s1 := LoadStep(s, StartLoad(first));
    var s2 := LoadStep(s1, Ready(first));
    assert s2.loads == map[first := Load(true, true, false, false)];
    assert s2.limiter.slots == map[first := Granted(true)];
    DoneDuringCallExceedsBound(s2, first, second);
    hide LoadStep, CanStep, Outstanding, OneBusySlot, ValidRun, Final;
    var s3 := LoadStep(s2, Done(first));
    var s4 := LoadStep(s3, StartLoad(second));
    acts := RunOfOne(s4, Ready(second));
    acts := RunOf(s3, StartLoad(second), acts);
    acts := RunOf(s2, Done(first), acts);
    acts := RunOf(s1, Ready(first), acts);
    acts := RunOf(s, StartLoad(first), acts);
  }

  lemma RunOfOne(s: Loads, a: LoadAction) returns (acts: seq<LoadAction>)
    requires CanStep(s, a)
    ensures ValidRun(s, acts) && Final(s, acts) == LoadStep(s, a)
  {
    acts := RunOf(s, a, []);
  }

  lemma RunOf(s: Loads, a: LoadAction, rest: seq<LoadAction>) returns (acts: seq<LoadAction>)
    requires CanStep(s, a) && ValidRun(LoadStep(s, a), rest)
    ensures ValidRun(s, acts) && Final(s, acts) == Final(LoadStep(s, a), rest)
  {
    acts := [a] + rest;
    assert acts[1..] == rest;
  }
}
