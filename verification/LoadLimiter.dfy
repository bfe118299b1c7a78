/** The two-lane image load limiter: at most `max` slots granted, at most `maxFar` of
    them far, near before far, each lane in the order its slots joined it. */
module LoadLimiters {
  import opened Numbers

  type Id = nat

  datatype Lane = Near | Far

  /** `Released(true)`: it had been granted, so its `ready` has resolved. */
  datatype Slot = Waiting(lane: Lane) | Granted(far: bool) | Released(granted: bool)

  /** Lanes in insertion order. `joined` is when a slot joined its lane and `clock`
      the time of the next join: history, read by no operation. */
  datatype Limiter = Limiter(max: nat, maxFar: nat, active: nat, activeFar: nat,
                             near: seq<Id>, far: seq<Id>, slots: map<Id, Slot>,
                             clock: nat, joined: map<Id, nat>)

  function Empty(max: nat, maxFar: nat): Limiter {
    Limiter(max, maxFar, 0, 0, [], [], map[], 0, map[])
  }

  function Left(bound: nat, used: nat): nat {
    if used < bound then bound - used else 0
  }

  function Grant(slots: map<Id, Slot>, ids: seq<Id>, far: bool): (r: map<Id, Slot>)
    ensures r.Keys == slots.Keys
  {
    map k | k in slots :: if k in ids then Granted(far) else slots[k]
  }

  /** How many near and far slots a pump grants. */
  function NearGrants(s: Limiter): nat {
    Min(Left(s.max, s.active), |s.near|)
  }

  function FarGrants(s: Limiter): nat {
    if NearGrants(s) < |s.near| then 0
    else Min(Min(Left(s.max, s.active + NearGrants(s)), Left(s.maxFar, s.activeFar)), |s.far|)
  }

  function GrantedSlots(s: Limiter, n: nat, f: nat): map<Id, Slot>
    requires n <= |s.near| && f <= |s.far|
  {
    Grant(Grant(s.slots, s.near[..n], false), s.far[..f], true)
  }

  /** Fill the free slots: a prefix of the near lane, then, only when that lane is
      empty, a prefix of the far one. */
  function Pumped(s: Limiter): Limiter {
    var n, f := NearGrants(s), FarGrants(s);
    s.(active := s.active + n + f, activeFar := s.activeFar + f, near := s.near[n..], far := s.far[f..],
       slots := GrantedSlots(s, n, f))
  }

  function Without(lane: seq<Id>, id: Id): (r: seq<Id>)
    ensures forall x :: x in r <==> x in lane && x != id
  {
    if lane == [] then []
    else if lane[0] == id then Without(lane[1..], id)
    else [lane[0]] + Without(lane[1..], id)
  }

  function Leave(s: Limiter, id: Id, lane: Lane): Limiter {
    if lane.Near? then s.(near := Without(s.near, id)) else s.(far := Without(s.far, id))
  }

  function Join(s: Limiter, id: Id, lane: Lane): Limiter {
    var stamped := s.(slots := s.slots[id := Waiting(lane)], joined := s.joined[id := s.clock], clock := s.clock + 1);
    if lane.Near? then stamped.(near := s.near + [id]) else stamped.(far := s.far + [id])
  }

  datatype Action =
    | Acquire(id: Id, lane: Lane)
    | Release(id: Id)
    | SetPriority(id: Id, lane: Lane)

  predicate Enabled(s: Limiter, a: Action) {
    match a
    case Acquire(id, _) => id !in s.slots
    case Release(id) => id in s.slots
    case SetPriority(id, _) => id in s.slots
  }

  function Step(s: Limiter, a: Action): Limiter
    requires Enabled(s, a)
  {
    match a
    case Acquire(id, lane) => Pumped(Join(s, id, lane))
    case Release(id) =>
      match s.slots[id] {
        case Released(_) => s
        case Waiting(lane) => Pumped(Leave(s, id, lane).(slots := s.slots[id := Released(false)]))
        case Granted(far) =>
          Pumped(s.(active := Pred(s.active), activeFar := if far then Pred(s.activeFar) else s.activeFar,
                    slots := s.slots[id := Released(true)]))
      }
    case SetPriority(id, lane) =>
      if s.slots[id].Waiting? && s.slots[id].lane != lane
      then Pumped(Join(Leave(s, id, s.slots[id].lane), id, lane))
      else s
  }

  lemma GrantNone(slots: map<Id, Slot>)
    ensures forall far :: Grant(slots, [], far) == slots
  {
  }

  lemma GrantedToNone(s: Limiter)
    ensures GrantedSlots(s, 0, 0) == s.slots
  {
    GrantNone(s.slots);
    assert s.near[..0] == [] && s.far[..0] == [];
  }

  lemma GrantNextNear(s: Limiter, n: nat)
    requires n < |s.near| && s.near[n] in s.slots
    ensures GrantedSlots(s, n + 1, 0) == GrantedSlots(s, n, 0)[s.near[n] := Granted(false)]
  {
    assert s.near[..n + 1] == s.near[..n] + [s.near[n]];
  }

  lemma GrantNextFar(s: Limiter, n: nat, f: nat)
    requires n <= |s.near| && f < |s.far| && s.far[f] in s.slots
    ensures GrantedSlots(s, n, f + 1) == GrantedSlots(s, n, f)[s.far[f] := Granted(true)]
  {
    assert s.far[..f + 1] == s.far[..f] + [s.far[f]];
  }

  // --- the object ------------------------------------------------------------

  class LoadLimiter {
    const max: nat
    const maxFar: nat
    var active: nat
    var activeFar: nat
    var near: seq<Id>
    var far: seq<Id>
    var slots: map<Id, Slot>
    ghost var clock: nat
    ghost var joined: map<Id, nat>

    ghost function View(): Limiter
      reads this
    {
      Limiter(max, maxFar, active, activeFar, near, far, slots, clock, joined)
    }

    constructor (max: nat, maxFar: nat)
      ensures View() == Empty(max, maxFar)
    {
      this.max, this.maxFar := max, maxFar;
      active, activeFar, near, far, slots := 0, 0, [], [], map[];
      clock, joined := 0, map[];
    }

    method Pump()
      requires forall id | id in near || id in far :: id in slots
      modifies this`active, this`activeFar, this`near, this`far, this`slots
      ensures View() == Pumped(old(View()))
    {
      ghost var s := View();
      ghost var n, f := 0, 0;
      GrantedToNone(s);
      hide Grant, GrantedSlots;
      while active < max
        invariant n <= |s.near| && f <= |s.far| && active == s.active + n + f && activeFar == s.activeFar + f
        invariant near == s.near[n..] && far == s.far[f..]
        invariant f > 0 ==> n == |s.near|
        invariant n + f > 0 ==> active <= max
        invariant f > 0 ==> activeFar <= maxFar
        invariant slots == GrantedSlots(s, n, f)
        decreases |near| + |far|
      {
        if near != [] {
          var id := near[0];
          assert near[1..] == s.near[n + 1..];
          near := near[1..];
          GrantNextNear(s, n);
          n := n + 1;
          slots := slots[id := Granted(false)];
        } else if activeFar < maxFar && far != [] {
          var id := far[0];
          assert far[1..] == s.far[f + 1..];
          far := far[1..];
          GrantNextFar(s, n, f);
          f := f + 1;
          slots := slots[id := Granted(true)];
          activeFar := activeFar + 1;
        } else {
          break;
        }
        active := active + 1;
      }
    }

    method AcquireSlot(id: Id, lane: Lane)
      requires Inv(View()) && id !in slots
      modifies this
      ensures View() == Step(old(View()), Acquire(id, lane))
    {
      AddTo(id, lane);
      Pump();
    }

    method ReleaseSlot(id: Id)
      requires Inv(View()) && id in slots
      modifies this
      ensures View() == Step(old(View()), Release(id))
    {
      ghost var s := View();
      LanesAreKnown(s);
      LeaveKeepsKnown(s, id);
      ReleaseIsPumped(s, id);
      if slots[id].Granted? {
        GrantedIsCounted(s, id);
      }
      hide Inv, Pumped, Leave, Without, Step;
      match slots[id] {
        case Released(_) =>
          return;
        case Waiting(lane) =>
          DeleteFrom(id, lane);
          slots := slots[id := Released(false)];
        case Granted(isFar) =>
          active := active - 1;
          if isFar {
            activeFar := activeFar - 1;
          }
          slots := slots[id := Released(true)];
      }
      assert View() == BeforePump(s, Release(id));
      Pump();
    }

    method SetSlotPriority(id: Id, lane: Lane)
      requires Inv(View()) && id in slots
      modifies this
      ensures View() == Step(old(View()), SetPriority(id, lane))
    {
      if !slots[id].Waiting? || slots[id].lane == lane {
        return;
      }
      DeleteFrom(id, slots[id].lane);
      AddTo(id, lane);
      Pump();
    }

    method AddTo(id: Id, lane: Lane)
      modifies this`near, this`far, this`slots, this`clock, this`joined
      ensures View() == Join(old(View()), id, lane)
    {
      slots := slots[id := Waiting(lane)];
      joined := joined[id := clock];
      clock := clock + 1;
      if lane.Near? {
        near := near + [id];
      } else {
        far := far + [id];
      }
    }

    method DeleteFrom(id: Id, lane: Lane)
      modifies this`near, this`far
      ensures View() == Leave(old(View()), id, lane)
    {
      if lane.Near? {
        near := Without(near, id);
      } else {
        far := Without(far, id);
      }
    }
  }

  // --- invariant --------------------------------------------------------------

  /** First come, first served: strictly later joins stand behind. */
  predicate ByJoinTime(s: Limiter, lane: seq<Id>) {
    && (forall id | id in lane :: id in s.joined && s.joined[id] < s.clock)
    && forall i, j | 0 <= i < j < |lane| :: s.joined[lane[i]] < s.joined[lane[j]]
  }

  /** `lane` holds exactly the slots waiting in it. */
  predicate InLane(s: Limiter, lane: seq<Id>, which: Lane) {
    && (forall id | id in lane :: id in s.slots && s.slots[id] == Waiting(which))
    && (forall id | id in s.slots && s.slots[id] == Waiting(which) :: id in lane)
  }

  function GrantedIn(slots: map<Id, Slot>): set<Id> {
    set id | id in slots && slots[id].Granted?
  }

  function FarGrantedIn(slots: map<Id, Slot>): set<Id> {
    set id | id in slots && slots[id] == Granted(true)
  }

  predicate Inv(s: Limiter) {
    && InLane(s, s.near, Near) && InLane(s, s.far, Far)
    && ByJoinTime(s, s.near) && ByJoinTime(s, s.far)
    && s.active == |GrantedIn(s.slots)| <= s.max
    && s.activeFar == |FarGrantedIn(s.slots)| <= s.maxFar
  }

  /** No slot is free while an eligible entry waits. */
  predicate Saturated(s: Limiter) {
    s.active < s.max ==> s.near == [] && (s.far == [] || s.activeFar >= s.maxFar)
  }

  function Elements(lane: seq<Id>): set<Id> {
    set id | id in lane
  }

  lemma {:induction false} CountElements(lane: seq<Id>)
    requires forall i, j | 0 <= i < j < |lane| :: lane[i] != lane[j]
    ensures |Elements(lane)| == |lane|
  {
    if lane != [] {
      CountElements(lane[1..]);
      assert Elements(lane) == {lane[0]} + Elements(lane[1..]);
      assert lane[0] !in lane[1..];
    }
  }

  lemma LanesAreKnown(s: Limiter)
    requires Inv(s)
    ensures forall id | id in s.near || id in s.far :: id in s.slots
  {
  }

  lemma ReleaseIsPumped(s: Limiter, id: Id)
    requires id in s.slots
    ensures Step(s, Release(id))
         == if s.slots[id].Released? then s else Pumped(BeforePump(s, Release(id)))
  {
    hide Pumped;
  }

  /** Whoever stays in a lane is still known. */
  lemma LeaveKeepsKnown(s: Limiter, id: Id)
    requires forall x | x in s.near || x in s.far :: x in s.slots
    ensures forall lane: Lane :: var t := Leave(s, id, lane);
      t.slots == s.slots && forall x | x in t.near || x in t.far :: x in s.slots
  {
  }

  lemma GrantedIsCounted(s: Limiter, id: Id)
    requires Inv(s) && id in s.slots && s.slots[id].Granted?
    ensures s.active > 0 && (s.slots[id].far ==> s.activeFar > 0)
  {
    assert id in GrantedIn(s.slots);
    assert s.slots[id].far ==> id in FarGrantedIn(s.slots);
  }

  lemma SplitLane(s: Limiter, lane: seq<Id>, k: nat)
    requires ByJoinTime(s, lane) && k <= |lane|
    ensures forall id | id in lane :: id in lane[..k] || id in lane[k..]
    ensures forall id | id in lane[k..] :: id in lane && id !in lane[..k]
    ensures forall id | id in lane[..k] :: id in lane
  {
    assert lane == lane[..k] + lane[k..];
    forall id | id in lane[k..] ensures id in lane && id !in lane[..k] {
      var j :| 0 <= j < |lane[k..]| && lane[k..][j] == id;
      assert id == lane[k + j];
    }
  }

  /** What a pump does to each slot. */
  lemma PumpedSlots(s: Limiter)
    requires Inv(s)
    ensures var nears, fars := Elements(s.near[..NearGrants(s)]), Elements(s.far[..FarGrants(s)]);
      && Pumped(s).slots.Keys == s.slots.Keys && nears <= s.slots.Keys && fars <= s.slots.Keys
      && (forall id | id in s.slots :: Pumped(s).slots[id] ==
            if id in fars then Granted(true) else if id in nears then Granted(false) else s.slots[id])
      && (forall id | id in nears :: s.slots[id] == Waiting(Near))
      && (forall id | id in fars :: s.slots[id] == Waiting(Far))
  {
    SplitLane(s, s.near, NearGrants(s));
    SplitLane(s, s.far, FarGrants(s));
  }

  /** A grant is far exactly if the slot waited in the far lane. */
  predicate GrantedFrom(before: Slot, after: Slot) {
    before.Waiting? && after == Granted(before.lane == Far)
  }

  /** A pump leaves a slot as it is, or grants a waiting one. */
  lemma PumpOnlyGrants(s: Limiter, id: Id)
    requires Inv(s) && id in s.slots
    ensures id in Pumped(s).slots && Pumped(s).slots.Keys == s.slots.Keys
    ensures Pumped(s).slots[id] == s.slots[id] || GrantedFrom(s.slots[id], Pumped(s).slots[id])
  {
    PumpedSlots(s);
  }

  lemma GrantedInAdds(before: map<Id, Slot>, ids: set<Id>, far: bool, after: map<Id, Slot>)
    requires after.Keys == before.Keys && ids <= before.Keys
    requires forall id | id in before :: after[id] == (if id in ids then Granted(far) else before[id])
    requires forall id | id in ids :: !before[id].Granted?
    ensures GrantedIn(after) == GrantedIn(before) + ids && GrantedIn(before) !! ids
  {
    forall id ensures id in GrantedIn(after) <==> id in GrantedIn(before) + ids {}
  }

  lemma FarGrantedInAdds(before: map<Id, Slot>, ids: set<Id>, far: bool, after: map<Id, Slot>)
    requires after.Keys == before.Keys && ids <= before.Keys
    requires forall id | id in before :: after[id] == (if id in ids then Granted(far) else before[id])
    requires forall id | id in ids :: !before[id].Granted?
    ensures FarGrantedIn(after) == FarGrantedIn(before) + (if far then ids else {}) && FarGrantedIn(before) !! ids
  {
    forall id ensures id in FarGrantedIn(after) <==> id in FarGrantedIn(before) + (if far then ids else {}) {}
  }

  /** Granting `ids`, none of which was granted, adds that many. */
  lemma GrantAdds(before: map<Id, Slot>, ids: set<Id>, far: bool, after: map<Id, Slot>)
    requires after.Keys == before.Keys && ids <= before.Keys
    requires forall id | id in before :: after[id] == (if id in ids then Granted(far) else before[id])
    requires forall id | id in ids :: !before[id].Granted?
    ensures |GrantedIn(after)| == |GrantedIn(before)| + |ids|
    ensures |FarGrantedIn(after)| == |FarGrantedIn(before)| + if far then |ids| else 0
  {
    GrantedInAdds(before, ids, far, after);
    FarGrantedInAdds(before, ids, far, after);
    hide GrantedIn, FarGrantedIn;
  }

  lemma PumpCounts(s: Limiter)
    requires Inv(s)
    ensures var t := Pumped(s);
      t.active == |GrantedIn(t.slots)| <= t.max && t.activeFar == |FarGrantedIn(t.slots)| <= t.maxFar
  {
    CountElements(s.near[..NearGrants(s)]);
    CountElements(s.far[..FarGrants(s)]);
    PumpedSlots(s);
    var nears, fars := s.near[..NearGrants(s)], s.far[..FarGrants(s)];
    GrantAdds(s.slots, Elements(nears), false, Grant(s.slots, nears, false));
    GrantAdds(Grant(s.slots, nears, false), Elements(fars), true, Pumped(s).slots);
  }

  lemma PumpKeepsLanes(s: Limiter)
    requires Inv(s)
    ensures InLane(Pumped(s), Pumped(s).near, Near) && InLane(Pumped(s), Pumped(s).far, Far)
    ensures ByJoinTime(Pumped(s), Pumped(s).near) && ByJoinTime(Pumped(s), Pumped(s).far)
  {
    PumpKeepsNear(s);
    PumpKeepsFar(s);
    hide Inv, Pumped, InLane, ByJoinTime;
  }

  lemma PumpKeepsNear(s: Limiter)
    requires Inv(s)
    ensures InLane(Pumped(s), Pumped(s).near, Near) && ByJoinTime(Pumped(s), Pumped(s).near)
  {
    PumpedSlots(s);
    SplitLane(s, s.near, NearGrants(s));
  }

  lemma PumpKeepsFar(s: Limiter)
    requires Inv(s)
    ensures InLane(Pumped(s), Pumped(s).far, Far) && ByJoinTime(Pumped(s), Pumped(s).far)
  {
    PumpedSlots(s);
    SplitLane(s, s.far, FarGrants(s));
  }

  lemma PumpKeepsInv(s: Limiter)
    requires Inv(s)
    ensures Inv(Pumped(s)) && Saturated(Pumped(s))
  {
    PumpCounts(s);
    PumpKeepsLanes(s);
  }

  lemma TailKeepsOrder(s: Limiter, lane: seq<Id>)
    requires ByJoinTime(s, lane) && lane != []
    ensures ByJoinTime(s, lane[1..]) && lane[0] in s.joined && s.joined[lane[0]] < s.clock
    ensures forall x | x in lane[1..] :: x in s.joined && s.joined[lane[0]] < s.joined[x]
  {
  }

  lemma HeadKeepsOrder(s: Limiter, head: Id, rest: seq<Id>)
    requires ByJoinTime(s, rest) && head in s.joined && s.joined[head] < s.clock
    requires forall x | x in rest :: x in s.joined && s.joined[head] < s.joined[x]
    ensures ByJoinTime(s, [head] + rest)
  {
  }

  lemma {:induction false} WithoutKeepsOrder(s: Limiter, lane: seq<Id>, id: Id)
    requires ByJoinTime(s, lane)
    ensures ByJoinTime(s, Without(lane, id))
  {
    if lane != [] {
      TailKeepsOrder(s, lane);
      hide ByJoinTime;
      WithoutKeepsOrder(s, lane[1..], id);
      if lane[0] != id {
        HeadKeepsOrder(s, lane[0], Without(lane[1..], id));
      }
    }
  }

  lemma WithdrawKeepsCounts(slots: map<Id, Slot>, id: Id)
    requires id in slots && slots[id].Waiting?
    ensures GrantedIn(slots[id := Released(false)]) == GrantedIn(slots)
    ensures FarGrantedIn(slots[id := Released(false)]) == FarGrantedIn(slots)
  {
  }

  lemma WithdrawKeepsLane(s: Limiter, lane: seq<Id>, which: Lane, id: Id, t: Limiter)
    requires InLane(s, lane, which) && ByJoinTime(s, lane)
    requires t.slots == s.slots[id := Released(false)] && t.joined == s.joined && t.clock == s.clock
    ensures InLane(t, Without(lane, id), which) && ByJoinTime(t, Without(lane, id))
    ensures id !in lane ==> InLane(t, lane, which) && ByJoinTime(t, lane)
  {
    WithoutKeepsOrder(s, lane, id);
  }

  lemma WithdrawKeepsInv(s: Limiter, id: Id)
    requires Inv(s) && id in s.slots && s.slots[id].Waiting?
    ensures Inv(Leave(s, id, s.slots[id].lane).(slots := s.slots[id := Released(false)]))
  {
    var t := Leave(s, id, s.slots[id].lane).(slots := s.slots[id := Released(false)]);
    WithdrawKeepsLane(s, s.near, Near, id, t);
    WithdrawKeepsLane(s, s.far, Far, id, t);
    WithdrawKeepsCounts(s.slots, id);
    assert s.slots[id].lane.Near? ==> id !in s.far;
    assert s.slots[id].lane.Far? ==> id !in s.near;
    hide GrantedIn, FarGrantedIn, Without, InLane, ByJoinTime;
  }

  lemma JoinKeepsInv(s: Limiter, id: Id, lane: Lane)
    requires Inv(s) && (id in s.slots ==> s.slots[id].Released?)
    ensures Inv(Join(s, id, lane))
  {
    var t := Join(s, id, lane);
    assert GrantedIn(t.slots) == GrantedIn(s.slots) && FarGrantedIn(t.slots) == FarGrantedIn(s.slots);
    assert id !in s.near && id !in s.far;
  }

  lemma FreeKeepsInv(s: Limiter, id: Id)
    requires Inv(s) && id in s.slots && s.slots[id].Granted?
    ensures Inv(s.(active := Pred(s.active), activeFar := if s.slots[id].far then Pred(s.activeFar) else s.activeFar,
                   slots := s.slots[id := Released(true)]))
  {
    var far := s.slots[id].far;
    var t := s.(active := Pred(s.active), activeFar := if far then Pred(s.activeFar) else s.activeFar,
                slots := s.slots[id := Released(true)]);
    GrantedIsCounted(s, id);
    assert GrantedIn(t.slots) == GrantedIn(s.slots) - {id};
    assert FarGrantedIn(t.slots) == if far then FarGrantedIn(s.slots) - {id} else FarGrantedIn(s.slots);
  }

  /** What an operation leaves to its pump. */
  function BeforePump(s: Limiter, a: Action): Limiter
    requires Enabled(s, a)
  {
    match a
    case Acquire(id, lane) => Join(s, id, lane)
    case Release(id) =>
      match s.slots[id] {
        case Released(_) => s
        case Waiting(lane) => Leave(s, id, lane).(slots := s.slots[id := Released(false)])
        case Granted(far) =>
          s.(active := Pred(s.active), activeFar := if far then Pred(s.activeFar) else s.activeFar,
             slots := s.slots[id := Released(true)])
      }
    case SetPriority(id, lane) =>
      if s.slots[id].Waiting? && s.slots[id].lane != lane
      then Join(Leave(s, id, s.slots[id].lane), id, lane)
      else s
  }

  lemma SaturatedPumpIsIdle(s: Limiter)
    requires Inv(s) && Saturated(s)
    ensures Pumped(s) == s
  {
    assert NearGrants(s) == 0 && FarGrants(s) == 0;
    GrantNone(s.slots);
    assert s.near[..0] == [] && s.far[..0] == [];
  }

  lemma JoinOverwrites(s: Limiter, id: Id, slot: Slot, lane: Lane)
    ensures Join(s.(slots := s.slots[id := slot]), id, lane) == Join(s, id, lane)
  {
    assert s.slots[id := slot][id := Waiting(lane)] == s.slots[id := Waiting(lane)];
  }

  lemma SwitchKeepsInv(s: Limiter, id: Id, lane: Lane)
    requires Inv(s) && id in s.slots && s.slots[id].Waiting?
    ensures Inv(Join(Leave(s, id, s.slots[id].lane), id, lane))
  {
    var left := Leave(s, id, s.slots[id].lane);
    WithdrawKeepsInv(s, id);
    JoinKeepsInv(left.(slots := s.slots[id := Released(false)]), id, lane);
    JoinOverwrites(left, id, Released(false), lane);
  }

  lemma StepIsPumped(s: Limiter, a: Action)
    requires Inv(s) && Saturated(s) && Enabled(s, a)
    ensures Inv(BeforePump(s, a)) && Step(s, a) == Pumped(BeforePump(s, a))
  {
    SaturatedPumpIsIdle(s);
    match a
    case Acquire(id, lane) => JoinKeepsInv(s, id, lane);
    case Release(id) =>
      if s.slots[id].Waiting? {
        WithdrawKeepsInv(s, id);
      } else if s.slots[id].Granted? {
        FreeKeepsInv(s, id);
      }
    case SetPriority(id, lane) =>
      if s.slots[id].Waiting? && s.slots[id].lane != lane {
        SwitchKeepsInv(s, id, lane);
      }
  }

  /** An operation touches its own slot, and at most grants another waiting one. */
  lemma StepSlots(s: Limiter, a: Action, id: Id)
    requires Inv(s) && Saturated(s) && Enabled(s, a) && id in BeforePump(s, a).slots
    ensures var before, t := BeforePump(s, a), Step(s, a);
      && id in t.slots && t.slots.Keys == before.slots.Keys
      && (t.slots[id] == before.slots[id] || GrantedFrom(before.slots[id], t.slots[id]))
  {
    StepIsPumped(s, a);
    PumpOnlyGrants(BeforePump(s, a), id);
  }

  lemma OtherSlots(s: Limiter, a: Action, id: Id)
    requires Inv(s) && Saturated(s) && Enabled(s, a) && id in s.slots && id != a.id
    ensures id in Step(s, a).slots
    ensures Step(s, a).slots[id] == s.slots[id] || GrantedFrom(s.slots[id], Step(s, a).slots[id])
  {
    assert id in BeforePump(s, a).slots && BeforePump(s, a).slots[id] == s.slots[id];
    StepSlots(s, a, id);
  }

  lemma StepKeepsInv(s: Limiter, a: Action)
    requires Inv(s) && Saturated(s) && Enabled(s, a)
    ensures Inv(Step(s, a)) && Saturated(Step(s, a))
  {
    StepIsPumped(s, a);
    PumpKeepsInv(BeforePump(s, a));
  }

  predicate ValidRun(s: Limiter, acts: seq<Action>)
    decreases |acts|
  {
    acts != [] ==> Enabled(s, acts[0]) && ValidRun(Step(s, acts[0]), acts[1..])
  }

  function Final(s: Limiter, acts: seq<Action>): Limiter
    decreases |acts|
  {
    if acts == [] || !Enabled(s, acts[0]) then s else Final(Step(s, acts[0]), acts[1..])
  }

  /** Over every sequence of acquires, releases and priority changes: the counters
      are exact and within their bounds, the lanes are in join order, and after
      each call no slot is free while an eligible entry waits. */
  lemma {:induction false} LimiterOverRuns(s: Limiter, acts: seq<Action>)
    requires Inv(s) && Saturated(s) && ValidRun(s, acts)
    ensures Inv(Final(s, acts)) && Saturated(Final(s, acts))
    decreases |acts|
  {
    if acts != [] {
      StepKeepsInv(s, acts[0]);
      LimiterOverRuns(Step(s, acts[0]), acts[1..]);
    }
  }

  lemma EmptyIsInv(max: nat, maxFar: nat)
    ensures Inv(Empty(max, maxFar)) && Saturated(Empty(max, maxFar))
  {
    assert GrantedIn(Empty(max, maxFar).slots) == {} && FarGrantedIn(Empty(max, maxFar).slots) == {};
  }

  /** Releasing twice is releasing once. */
  lemma ReleaseIsIdempotent(s: Limiter, id: Id)
    requires Inv(s) && Saturated(s) && id in s.slots
    ensures id in Step(s, Release(id)).slots && Step(s, Release(id)).slots[id].Released?
    ensures Step(Step(s, Release(id)), Release(id)) == Step(s, Release(id))
  {
    StepIsPumped(s, Release(id));
    var before := BeforePump(s, Release(id));
    assert before.slots[id].Released?;
    assert id !in before.near && id !in before.far;
  }

  /** Whoever acquires a slot, or moves to the other lane, joins that lane now, and waits
      in it or is granted from it at once. A slot already granted or released, or waiting
      in that lane, is not moved. */
  lemma JoiningMeans(s: Limiter, id: Id, lane: Lane)
    requires Inv(s) && Saturated(s)
    ensures id !in s.slots ==> Joined(s, Step(s, Acquire(id, lane)), id, lane)
    ensures id in s.slots ==>
      var t := Step(s, SetPriority(id, lane));
      match s.slots[id]
      case Waiting(other) => if other == lane then t == s else Joined(s, t, id, lane)
      case _ => t == s
  {
    if id !in s.slots {
      AcquireJoins(s, id, lane);
    } else if s.slots[id].Waiting? && s.slots[id].lane != lane {
      SwitchJoins(s, id, lane);
    }
  }

  predicate Joined(s: Limiter, t: Limiter, id: Id, lane: Lane) {
    && id in t.slots && (t.slots[id] == Waiting(lane) || t.slots[id] == Granted(lane == Far))
    && t.joined == s.joined[id := s.clock] && t.clock == s.clock + 1
    && t.slots.Keys == s.slots.Keys + {id} && t.max == s.max && t.maxFar == s.maxFar
  }

  lemma AcquireJoins(s: Limiter, id: Id, lane: Lane)
    requires Inv(s) && Saturated(s) && id !in s.slots
    ensures Joined(s, Step(s, Acquire(id, lane)), id, lane)
  {
    StepSlots(s, Acquire(id, lane), id);
    hide Inv, Saturated;
  }

  lemma SwitchJoins(s: Limiter, id: Id, lane: Lane)
    requires Inv(s) && Saturated(s) && id in s.slots && s.slots[id].Waiting? && s.slots[id].lane != lane
    ensures Joined(s, Step(s, SetPriority(id, lane)), id, lane)
  {
    StepSlots(s, SetPriority(id, lane), id);
    hide Inv, Saturated, Without;
  }

  predicate NewlyGranted(s: Limiter, a: Action, id: Id)
    requires Enabled(s, a)
  {
    && id in Step(s, a).slots && Step(s, a).slots[id].Granted?
    && !(id in s.slots && s.slots[id].Granted?)
  }

  /** Whatever an operation grants joined its lane before everyone still waiting in
      it, and a far slot is granted only with the near lane empty. */
  lemma GrantsInOrder(s: Limiter, a: Action, id: Id)
    requires Inv(s) && Saturated(s) && Enabled(s, a) && NewlyGranted(s, a, id)
    ensures var t := Step(s, a);
      && (t.slots[id].far ==> t.near == [])
      && forall w | w in (if t.slots[id].far then t.far else t.near) ::
           w in t.joined && id in t.joined && t.joined[id] < t.joined[w]
  {
    StepIsPumped(s, a);
    hide Inv, Saturated, Pumped, Step, Leave;
    PumpGrantsInOrder(BeforePump(s, a), id);
  }

  lemma PumpGrantsInOrder(s: Limiter, id: Id)
    requires Inv(s) && id in s.slots && !s.slots[id].Granted? && Pumped(s).slots[id].Granted?
    ensures var t := Pumped(s);
      && (t.slots[id].far ==> t.near == [])
      && forall w | w in (if t.slots[id].far then t.far else t.near) ::
           w in t.joined && id in t.joined && t.joined[id] < t.joined[w]
  {
    var t := Pumped(s);
    var n, f := NearGrants(s), FarGrants(s);
    if t.slots[id].far {
      assert id in s.far[..f];
      var i :| 0 <= i < f && s.far[i] == id;
      forall w | w in t.far ensures w in s.joined && s.joined[id] < s.joined[w] {
        var j :| 0 <= j < |t.far| && t.far[j] == w;
        assert s.far[f + j] == w;
      }
    } else {
      assert id in s.near[..n];
      var i :| 0 <= i < n && s.near[i] == id;
      forall w | w in t.near ensures w in s.joined && s.joined[id] < s.joined[w] {
        var j :| 0 <= j < |t.near| && t.near[j] == w;
        assert s.near[n + j] == w;
      }
    }
  }
}
