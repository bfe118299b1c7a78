/** The background prefetch queue: hovered cards before warmed ones, at most three
    builds in flight, a capped backlog that sheds its oldest warm, and eras. */
module PrefetchQueues {
  import opened Wrappers
  import opened Numbers

  type Key = string

  const CONCURRENCY := 3
  const PENDING_CAP := 24
  const MEMO_CAP := 64

  datatype Target = Target(key: Key, front: bool)

  /** One backend call; `resolved`: its path is memoised or it failed, its slot is
      not back yet. */
  datatype Build = Build(key: Key, era: nat, resolved: bool)

  /** `asked` is when a key was last queued, `clock` the time of the next one, and `sent`
      are the keys sent to the backend since the last clear: history, read by no
      operation. */
  datatype Queue = Queue(
    pending: seq<Target>,
    requested: set<Key>,
    memo: seq<Key>,
    inFlight: nat,
    generation: nat,
    scrollIdle: bool,
    builds: map<nat, Build>,
    nextBuild: nat,
    clock: nat,
    asked: map<Key, nat>,
    sent: seq<Key>)

  const INITIAL := Queue([], {}, [], 0, 0, true, map[], 0, 0, map[], [])

  // --- operations -------------------------------------------------------------

  /** The index of the first entry with `front == lane`, or the length. */
  function FirstIn(pending: seq<Target>, lane: bool): (at: nat)
    ensures at <= |pending|
    ensures at < |pending| ==> pending[at].front == lane
    ensures forall i | 0 <= i < at :: pending[i].front != lane
  {
    if pending == [] || pending[0].front == lane then 0 else 1 + FirstIn(pending[1..], lane)
  }

  function IndexOf(pending: seq<Target>, key: Key): (at: nat)
    ensures at <= |pending|
    ensures at < |pending| ==> pending[at].key == key
    ensures forall i | 0 <= i < at :: pending[i].key != key
  {
    if pending == [] || pending[0].key == key then 0 else 1 + IndexOf(pending[1..], key)
  }

  function RemoveAt(pending: seq<Target>, at: nat): (rest: seq<Target>)
    requires at < |pending|
    ensures |rest| == |pending| - 1
  {
    pending[..at] + pending[at + 1..]
  }

  /** Sheds the warm that has waited longest and forgets it was asked for. */
  function ShedOne(q: Queue): Queue
    requires FirstIn(q.pending, false) < |q.pending|
  {
    var at := FirstIn(q.pending, false);
    q.(pending := RemoveAt(q.pending, at), requested := q.requested - {q.pending[at].key})
  }

  /** Sheds warms until at most `keep` entries, or no warm, are left. */
  function Shed(q: Queue, keep: nat): Queue
    decreases |q.pending|
  {
    if |q.pending| > keep && FirstIn(q.pending, false) < |q.pending| then Shed(ShedOne(q), keep) else q
  }

  function Promoted(q: Queue, key: Key): Queue {
    var at := IndexOf(q.pending, key);
    if at == |q.pending| then q
    else
      q.(pending := [q.pending[at].(front := true)] + RemoveAt(q.pending, at))
  }

  /** Where the next entry the scroll gate lets out stands, or the length. */
  function NextAt(q: Queue): (at: nat)
    ensures at <= |q.pending|
  {
    if q.scrollIdle then 0 else FirstIn(q.pending, true)
  }

  function Send(q: Queue, key: Key): Queue {
    q.(inFlight := q.inFlight + 1, builds := q.builds[q.nextBuild := Build(key, q.generation, false)],
       nextBuild := q.nextBuild + 1, sent := q.sent + [key])
  }

  /** One turn of the drain: the next entry leaves, and is sent unless memoised. */
  function DrainOne(q: Queue): Queue
    requires NextAt(q) < |q.pending|
  {
    var at := NextAt(q);
    var rest := q.(pending := RemoveAt(q.pending, at));
    if q.pending[at].key in q.memo then rest else Send(rest, q.pending[at].key)
  }

  function Drained(q: Queue): Queue
    decreases |q.pending|
  {
    if q.inFlight < CONCURRENCY && NextAt(q) < |q.pending| then Drained(DrainOne(q)) else q
  }

  function Enqueued(q: Queue, key: Key, front: bool): Queue {
    var t := Target(key, front);
    q.(requested := q.requested + {key}, clock := q.clock + 1, asked := q.asked[key := q.clock],
       pending := if front then [t] + q.pending else q.pending + [t])
  }

  function Requested(q: Queue, subject: Option<Key>, front: bool): Queue {
    if subject.None? || subject.value in q.memo then q
    else if subject.value in q.requested then if front then Promoted(q, subject.value) else q
    else Drained(Shed(Enqueued(q, subject.value, front), PENDING_CAP))
  }

  /** The memo after one more path: the oldest entries past the cap are dropped. */
  function Remember(memo: seq<Key>, key: Key): (r: seq<Key>)
    ensures |memo| <= MEMO_CAP ==> |r| <= MEMO_CAP && key in r
    ensures forall k | k in r :: k in memo || k == key
    ensures key in memo && |memo| <= MEMO_CAP ==> r == memo
    ensures key !in memo && |memo| < MEMO_CAP ==> r == memo + [key]
    ensures key !in memo && |memo| == MEMO_CAP ==> r == memo[1..] + [key]
  {
    var all := if key in memo then memo else memo + [key];
    assert key !in memo ==> all[|memo|] == key;
    if |all| <= MEMO_CAP then all else all[|all| - MEMO_CAP..]
  }

  datatype Action =
    | Request(subject: Option<Key>, front: bool)
    | DropPendingWarms
    | SetScrollIdle(idle: bool)
    | Resolve(build: nat, ok: bool)
    | Settle(build: nat)
    /** The visible swap asks the backend by itself and memoises what it gets. */
    | SwapRemembers(key: Key)
    | Reset
    | ClearMemo

  predicate Enabled(q: Queue, a: Action) {
    match a
    case Resolve(b, _) => b in q.builds && !q.builds[b].resolved
    case Settle(b) => b in q.builds && q.builds[b].resolved
    case _ => true
  }

  function Step(q: Queue, a: Action): Queue
    requires Enabled(q, a)
  {
    match a
    case Request(subject, front) => Requested(q, subject, front)
    case DropPendingWarms => Shed(q, 0)
    case SetScrollIdle(idle) =>
      if idle == q.scrollIdle then q
      else if idle then Drained(q.(scrollIdle := true))
      else q.(scrollIdle := false)
    case Resolve(b, ok) =>
      q.(builds := q.builds[b := q.builds[b].(resolved := true)],
         memo := if ok then Remember(q.memo, q.builds[b].key) else q.memo)
    case Settle(b) =>
      var rest := q.(builds := q.builds - {b});
      if q.builds[b].era != q.generation then rest
      else Drained(rest.(inFlight := if q.inFlight == 0 then 0 else q.inFlight - 1))
    case SwapRemembers(key) => q.(memo := Remember(q.memo, key))
    case Reset =>
      q.(pending := [], inFlight := 0, generation := q.generation + 1, requested := {}, scrollIdle := true,
         sent := [])
    case ClearMemo => q.(memo := [], pending := [], requested := {}, sent := [])
  }

  // --- the module's state ------------------------------------------------------

  class PrefetchQueue {
    var pending: seq<Target>
    var requested: set<Key>
    var memo: seq<Key>
    var inFlight: nat
    var generation: nat
    var scrollIdle: bool
    var builds: map<nat, Build>
    var nextBuild: nat
    ghost var clock: nat
    ghost var asked: map<Key, nat>
    ghost var sent: seq<Key>

    ghost function View(): Queue
      reads this
    {
      Queue(pending, requested, memo, inFlight, generation, scrollIdle, builds, nextBuild, clock, asked, sent)
    }

    constructor ()
      ensures View() == INITIAL
    {
      pending, requested, memo, inFlight, generation, scrollIdle := [], {}, [], 0, 0, true;
      builds, nextBuild, clock, asked, sent := map[], 0, 0, map[], [];
    }

    method FindLane(lane: bool) returns (at: nat)
      ensures at == FirstIn(pending, lane)
    {
      at := 0;
      while at < |pending| && pending[at].front != lane
        invariant at <= |pending| && FirstIn(pending, lane) == at + FirstIn(pending[at..], lane)
      {
        assert pending[at..][1..] == pending[at + 1..];
        at := at + 1;
      }
    }

    method FindKey(key: Key) returns (at: nat)
      ensures at == IndexOf(pending, key)
    {
      at := 0;
      while at < |pending| && pending[at].key != key
        invariant at <= |pending| && IndexOf(pending, key) == at + IndexOf(pending[at..], key)
      {
        assert pending[at..][1..] == pending[at + 1..];
        at := at + 1;
      }
    }

    method DropOldestWarm() returns (dropped: bool)
      modifies this`pending, this`requested
      ensures dropped == (FirstIn(old(pending), false) < |old(pending)|)
      ensures View() == if dropped then ShedOne(old(View())) else old(View())
      ensures dropped ==> |pending| < |old(pending)|
    {
      var at := FindLane(false);
      if at == |pending| {
        return false;
      }
      requested := requested - {pending[at].key};
      pending := RemoveAt(pending, at);
      return true;
    }

    method DropAllPendingWarms()
      modifies this`pending, this`requested
      ensures View() == Step(old(View()), DropPendingWarms)
    {
      while true
        invariant Shed(View(), 0) == Shed(old(View()), 0)
        decreases |pending|
      {
        var dropped := DropOldestWarm();
        if !dropped {
          break;
        }
      }
    }

    method Promote(key: Key)
      modifies this`pending
      ensures View() == Promoted(old(View()), key)
    {
      var at := FindKey(key);
      if at == |pending| {
        return;
      }
      var entry := pending[at].(front := true);
      pending := [entry] + RemoveAt(pending, at);
    }

    /** The next entry the scroll gate lets out, removed from the queue. */
    method NextTarget() returns (next: Option<Target>)
      modifies this`pending
      ensures var at := NextAt(old(View()));
        if at == |old(pending)| then next.None? && pending == old(pending)
        else next == Some(old(pending)[at]) && pending == RemoveAt(old(pending), at)
    {
      var at := 0;
      if !scrollIdle {
        at := FindLane(true);
      }
      if at == |pending| {
        return None;
      }
      next := Some(pending[at]);
      pending := RemoveAt(pending, at);
    }

    method DrainQueue()
      modifies this
      ensures View() == Drained(old(View()))
    {
      while inFlight < CONCURRENCY
        invariant Drained(View()) == Drained(old(View()))
        decreases |pending|
      {
        ghost var before := View();
        var next := NextTarget();
        if next.None? {
          break;
        }
        if next.value.key in memo {
          assert View() == DrainOne(before);
          continue;
        }
        inFlight := inFlight + 1;
        builds := builds[nextBuild := Build(next.value.key, generation, false)];
        nextBuild := nextBuild + 1;
        sent := sent + [next.value.key];
        assert View() == DrainOne(before);
      }
    }

    method QueueBuild(subject: Option<Key>, front: bool)
      modifies this
      ensures View() == Step(old(View()), Request(subject, front))
    {
      hide Drained, FirstIn, Promoted, ShedOne;
      if subject.None? || subject.value in memo {
        return;
      }
      var key := subject.value;
      if key in requested {
        if front {
          Promote(key);
        }
        return;
      }
      requested := requested + {key};
      var target := Target(key, front);
      clock, asked := clock + 1, asked[key := clock];
      pending := if front then [target] + pending else pending + [target];
      ghost var queued := View();
      while |pending| > PENDING_CAP
        invariant Shed(View(), PENDING_CAP) == Shed(queued, PENDING_CAP)
        decreases |pending|
      {
        var dropped := DropOldestWarm();
        if !dropped {
          break;
        }
      }
      DrainQueue();
    }

    method SetIdle(idle: bool)
      modifies this
      ensures View() == Step(old(View()), SetScrollIdle(idle))
    {
      if idle == scrollIdle {
        return;
      }
      scrollIdle := idle;
      if idle {
        DrainQueue();
      }
    }

    /** Memoises a path, dropping the oldest past the cap. */
    method RememberVariant(key: Key)
      modifies this`memo
      ensures View() == Step(old(View()), SwapRemembers(key))
    {
      var all := if key in memo then memo else memo + [key];
      ghost var before := all;
      while |all| > MEMO_CAP
        invariant |all| <= |before| && all == before[|before| - |all|..]
        invariant |all| < |before| ==> |all| >= MEMO_CAP
      {
        all := all[1..];
      }
      memo := all;
    }

    /** The backend answered. */
    method OnBackendAnswer(build: nat, ok: bool)
      requires build in builds && !builds[build].resolved
      modifies this`memo, this`builds
      ensures View() == Step(old(View()), Resolve(build, ok))
    {
      var key := builds[build].key;
      builds := builds[build := builds[build].(resolved := true)];
      if ok {
        RememberVariant(key);
      }
    }

    /** The slot comes back, unless a reset has started another era. */
    method OnSettled(build: nat)
      requires build in builds && builds[build].resolved
      modifies this
      ensures View() == Step(old(View()), Settle(build))
    {
      var era := builds[build].era;
      builds := builds - {build};
      if era != generation {
        return;
      }
      inFlight := if inFlight == 0 then 0 else inFlight - 1;
      DrainQueue();
    }

    method ResetPrefetchQueue()
      modifies this
      ensures View() == Step(old(View()), Reset)
    {
      pending, inFlight, generation, requested, scrollIdle := [], 0, generation + 1, {}, true;
      sent := [];
    }

    method ClearVariantMemo()
      modifies this
      ensures View() == Step(old(View()), ClearMemo)
    {
      memo, pending, requested := [], [], {};
      sent := [];
    }
  }

  // --- invariant ---------------------------------------------------------------

  predicate HoversFirst(pending: seq<Target>) {
    forall i, j | 0 <= i < j < |pending| :: pending[j].front ==> pending[i].front
  }

  /** Hovered entries first, then warms in request order, keys distinct and all on
      record. */
  predicate Ordered(q: Queue) {
    && HoversFirst(q.pending)
    && (forall i | 0 <= i < |q.pending| ::
          Asked(q, q.pending[i]) < q.clock && q.pending[i].key in q.asked && q.pending[i].key in q.requested)
    && (forall i, j | 0 <= i < j < |q.pending| ::
          && (!q.pending[i].front && !q.pending[j].front ==> Asked(q, q.pending[i]) < Asked(q, q.pending[j]))
          && q.pending[i].key != q.pending[j].key)
  }

  function Asked(q: Queue, t: Target): nat {
    if t.key in q.asked then q.asked[t.key] else 0
  }

  /** Over the cap only hovered entries wait. */
  predicate Capped(q: Queue) {
    |q.pending| > PENDING_CAP ==> forall t | t in q.pending :: t.front
  }

  function Current(q: Queue): set<nat> {
    set b | b in q.builds && q.builds[b].era == q.generation
  }

  /** The counter counts the unsettled builds of this era; nothing sent is waiting
      or sent again. */
  predicate Accounted(q: Queue) {
    && q.inFlight == |Current(q)| <= CONCURRENCY
    && (forall b | b in q.builds :: b < q.nextBuild && q.builds[b].era <= q.generation)
    && (forall i, j | 0 <= i < j < |q.sent| :: q.sent[i] != q.sent[j])
    && (forall k | k in q.sent :: k in q.requested)
    && (forall t | t in q.pending :: t.key !in q.sent)
  }

  /** No slot idles while an entry the scroll gate lets out waits. */
  predicate Busy(q: Queue) {
    q.inFlight < CONCURRENCY ==> NextAt(q) == |q.pending|
  }

  predicate Inv(q: Queue) {
    Ordered(q) && Capped(q) && Accounted(q)
  }

  lemma RemoveKeeps(q: Queue, at: nat)
    requires at < |q.pending|
    ensures var rest := q.(pending := RemoveAt(q.pending, at));
      && (Ordered(q) ==> Ordered(rest))
      && (Capped(q) ==> Capped(rest))
      && (Accounted(q) ==> Accounted(rest))
      && (Ordered(q) ==> forall t | t in rest.pending :: t.key != q.pending[at].key)
  {
  }

  lemma SendKeeps(q: Queue, key: Key)
    requires Accounted(q) && key !in q.sent && key in q.requested && q.inFlight < CONCURRENCY
    requires forall t | t in q.pending :: t.key != key
    ensures Accounted(Send(q, key))
  {
    assert Current(Send(q, key)) == Current(q) + {q.nextBuild};
    assert q.nextBuild !in Current(q);
  }

  lemma DrainOneKeeps(q: Queue)
    requires Ordered(q) && Capped(q) && Accounted(q) && q.inFlight < CONCURRENCY && NextAt(q) < |q.pending|
    ensures Ordered(DrainOne(q)) && Capped(DrainOne(q)) && Accounted(DrainOne(q))
  {
    var at := NextAt(q);
    RemoveKeeps(q, at);
    var key := q.pending[at].key;
    assert q.pending[at] in q.pending;
    if key !in q.memo {
      SendKeeps(q.(pending := RemoveAt(q.pending, at)), key);
    }
  }

  lemma {:induction false} DrainKeeps(q: Queue)
    requires Ordered(q) && Capped(q) && Accounted(q)
    ensures Inv(Drained(q)) && Busy(Drained(q))
    decreases |q.pending|
  {
    if q.inFlight < CONCURRENCY && NextAt(q) < |q.pending| {
      DrainOneKeeps(q);
      DrainKeeps(DrainOne(q));
    }
  }

  /** The keys of these entries that are not memoised, in their order. */
  function Unknown(entries: seq<Target>, memo: seq<Key>): (keys: seq<Key>)
    ensures forall k :: k in keys <==> k !in memo && exists t :: t in entries && t.key == k
  {
    if entries == [] then []
    else
      var rest := Unknown(entries[1..], memo);
      assert forall t :: t in entries <==> t == entries[0] || t in entries[1..];
      if entries[0].key in memo then rest else [entries[0].key] + rest
  }

  /** `keys` were sent, in order, each as a new build of this era, and nothing else but
      `pending` changed. */
  ghost predicate SentAs(q: Queue, keys: seq<Key>, r: Queue) {
    && r.sent == q.sent + keys && r.inFlight == q.inFlight + |keys| && r.nextBuild == q.nextBuild + |keys|
    && (forall i | 0 <= i < |keys| :: BuildAt(r, q.nextBuild + i) == Some(Build(keys[i], q.generation, false)))
    && (forall b: nat | b < q.nextBuild || b >= r.nextBuild :: BuildAt(r, b) == BuildAt(q, b))
    && r.requested == q.requested && r.memo == q.memo && r.generation == q.generation
    && r.scrollIdle == q.scrollIdle && r.clock == q.clock && r.asked == q.asked
  }

  function BuildAt(q: Queue, b: nat): Option<Build> {
    if b in q.builds then Some(q.builds[b]) else None
  }

  /** `r` is `q` with its first `n` entries gone: each was let out by the scroll gate, and
      each that is not memoised was sent. */
  ghost predicate SendsFirst(q: Queue, n: nat, r: Queue) {
    && n <= |q.pending| && r.pending == q.pending[n..]
    && (forall i | 0 <= i < n :: q.scrollIdle || q.pending[i].front)
    && SentAs(q, Unknown(q.pending[..n], q.memo), r)
  }

  lemma HeadOnly(entries: seq<Target>, memo: seq<Key>)
    requires |entries| == 1
    ensures Unknown(entries, memo) == if entries[0].key in memo then [] else [entries[0].key]
  {
  }

  lemma UnknownSplits(entries: seq<Target>, n: nat, memo: seq<Key>)
    requires 0 < n <= |entries|
    ensures Unknown(entries[..n], memo)
         == (if entries[0].key in memo then [] else [entries[0].key]) + Unknown(entries[1..][..n - 1], memo)
  {
    assert entries[..n][0] == entries[0] && entries[..n][1..] == entries[1..][..n - 1];
  }

  lemma FirstSends(q: Queue)
    requires HoversFirst(q.pending) && NextAt(q) < |q.pending|
    ensures NextAt(q) == 0 && SendsFirst(q, 1, DrainOne(q))
  {
    assert q.pending[..1] == [q.pending[0]];
    HeadOnly(q.pending[..1], q.memo);
    assert RemoveAt(q.pending, 0) == q.pending[1..];
  }

  lemma SentTwice(q: Queue, a: seq<Key>, r: Queue, b: seq<Key>, t: Queue)
    requires SentAs(q, a, r) && SentAs(r, b, t)
    ensures SentAs(q, a + b, t)
  {
    var keys := a + b;
    forall i | 0 <= i < |keys| ensures BuildAt(t, q.nextBuild + i) == Some(Build(keys[i], q.generation, false)) {
      if i < |a| {
        assert BuildAt(r, q.nextBuild + i) == Some(Build(a[i], q.generation, false));
      } else {
        assert keys[i] == b[i - |a|] && q.nextBuild + i == r.nextBuild + (i - |a|);
      }
    }
    assert q.sent + a + b == q.sent + keys;
  }

  lemma SendsCompose(q: Queue, r: Queue, t: Queue, n: nat)
    requires q.pending != [] && SendsFirst(q, 1, r) && SendsFirst(r, n, t)
    ensures SendsFirst(q, n + 1, t)
  {
    HeadOnly(q.pending[..1], q.memo);
    UnknownSplits(q.pending, n + 1, q.memo);
    SentTwice(q, Unknown(q.pending[..1], q.memo), r, Unknown(r.pending[..n], r.memo), t);
    assert r.memo == q.memo && r.scrollIdle == q.scrollIdle;
    assert forall i | 0 < i <= n :: q.pending[i] == r.pending[i - 1];
    assert t.pending == q.pending[n + 1..];
    hide SentAs, Unknown;
  }

  /** What a drain does: it takes entries off the front as long as the gate lets them out
      and a slot is free, and sends every one that is not memoised. */
  lemma {:induction false} DrainSends(q: Queue) returns (n: nat)
    requires HoversFirst(q.pending)
    ensures SendsFirst(q, n, Drained(q))
    decreases |q.pending|
  {
    if q.inFlight < CONCURRENCY && NextAt(q) < |q.pending| {
      FirstSends(q);
      n := DrainSends(DrainOne(q));
      SendsCompose(q, DrainOne(q), Drained(q), n);
      n := n + 1;
    } else {
      n := 0;
    }
  }

  /** How many warms a shed removes. */
  function ShedCount(q: Queue, keep: nat): (k: nat)
    ensures FirstIn(q.pending, false) + k <= |q.pending|
  {
    var warms := |q.pending| - FirstIn(q.pending, false);
    if |q.pending| <= keep then 0 else if |q.pending| - keep < warms then |q.pending| - keep else warms
  }

  /** The hovered block, then the warms without their first `k`. */
  function WithoutWarms(pending: seq<Target>, k: nat): seq<Target>
    requires FirstIn(pending, false) + k <= |pending|
  {
    pending[..FirstIn(pending, false)] + pending[FirstIn(pending, false) + k..]
  }

  lemma ShedOneIsOldestWarm(pending: seq<Target>)
    requires HoversFirst(pending) && FirstIn(pending, false) < |pending|
    ensures var rest := RemoveAt(pending, FirstIn(pending, false));
      HoversFirst(rest) && FirstIn(rest, false) == FirstIn(pending, false)
  {
    var f := FirstIn(pending, false);
    var rest := RemoveAt(pending, f);
    if f < |rest| {
      assert rest[f] == pending[f + 1];
    }
    assert forall i | 0 <= i < f :: rest[i] == pending[i];
  }

  lemma RemoveAtSlices(pending: seq<Target>, at: nat, k: nat)
    requires at + k < |pending|
    ensures RemoveAt(pending, at)[..at] == pending[..at]
    ensures RemoveAt(pending, at)[at + k..] == pending[at + k + 1..]
  {
  }

  lemma ShedCountDrops(q: Queue, keep: nat)
    requires HoversFirst(q.pending) && |q.pending| > keep && FirstIn(q.pending, false) < |q.pending|
    ensures ShedCount(ShedOne(q), keep) + 1 == ShedCount(q, keep)
  {
    ShedOneIsOldestWarm(q.pending);
  }

  lemma WithoutOneMoreWarm(pending: seq<Target>, k: nat)
    requires HoversFirst(pending) && FirstIn(pending, false) + k < |pending|
    ensures var rest := RemoveAt(pending, FirstIn(pending, false));
      FirstIn(rest, false) + k <= |rest| && WithoutWarms(rest, k) == WithoutWarms(pending, k + 1)
  {
    ShedOneIsOldestWarm(pending);
    RemoveAtSlices(pending, FirstIn(pending, false), k);
    hide HoversFirst, RemoveAt, FirstIn;
  }

  lemma ShedsNothing(q: Queue, keep: nat)
    requires |q.pending| <= keep || FirstIn(q.pending, false) == |q.pending|
    ensures ShedCount(q, keep) == 0 && WithoutWarms(q.pending, 0) == q.pending
  {
    var f := FirstIn(q.pending, false);
    assert q.pending == q.pending[..f] + q.pending[f..];
  }

  /** Shedding removes the oldest warms and never a hovered entry: the hovered block
      stays whole, the warms lose a prefix. */
  lemma {:induction false} ShedIsOldestWarms(q: Queue, keep: nat)
    requires HoversFirst(q.pending)
    ensures Shed(q, keep).pending == WithoutWarms(q.pending, ShedCount(q, keep))
    decreases |q.pending|
  {
    hide WithoutWarms, ShedCount, HoversFirst, RemoveAt;
    if |q.pending| > keep && FirstIn(q.pending, false) < |q.pending| {
      ShedOneIsOldestWarm(q.pending);
      ShedCountDrops(q, keep);
      WithoutOneMoreWarm(q.pending, ShedCount(ShedOne(q), keep));
      ShedIsOldestWarms(ShedOne(q), keep);
    } else {
      ShedsNothing(q, keep);
    }
  }

  lemma {:induction false} ShedKeeps(q: Queue, keep: nat)
    requires Ordered(q) && Accounted(q)
    ensures Ordered(Shed(q, keep)) && Accounted(Shed(q, keep))
    ensures |Shed(q, keep).pending| > keep ==> forall t | t in Shed(q, keep).pending :: t.front
    ensures forall t | t in Shed(q, keep).pending :: t in q.pending
    ensures Shed(q, keep) == q.(pending := Shed(q, keep).pending, requested := Shed(q, keep).requested)
    decreases |q.pending|
  {
    var f := FirstIn(q.pending, false);
    if |q.pending| > keep && f < |q.pending| {
      RemoveKeeps(q, f);
      assert q.pending[f] in q.pending;
      ShedKeeps(ShedOne(q), keep);
    }
  }

  /** The keys of what a shed removes. */
  function ShedKeys(q: Queue, keep: nat): set<Key> {
    var f := FirstIn(q.pending, false);
    set i | f <= i < f + ShedCount(q, keep) :: q.pending[i].key
  }

  lemma {:induction false} ShedTouches(q: Queue, keep: nat)
    ensures Shed(q, keep) == q.(pending := Shed(q, keep).pending, requested := Shed(q, keep).requested)
    decreases |q.pending|
  {
    if |q.pending| > keep && FirstIn(q.pending, false) < |q.pending| {
      ShedTouches(ShedOne(q), keep);
    }
  }

  lemma MinusBoth(a: set<Key>, k: Key, b: set<Key>)
    ensures a - {k} - b == a - ({k} + b)
  {
  }

  lemma {:induction false} ShedForgetsKeys(q: Queue, keep: nat)
    requires HoversFirst(q.pending)
    ensures Shed(q, keep).requested == q.requested - ShedKeys(q, keep)
    decreases |q.pending|
  {
    hide ShedCount, ShedKeys, HoversFirst, RemoveAt;
    var f := FirstIn(q.pending, false);
    if |q.pending| > keep && f < |q.pending| {
      ShedOneIsOldestWarm(q.pending);
      ShedForgetsKeys(ShedOne(q), keep);
      ShedKeysStep(q, keep);
      MinusBoth(q.requested, q.pending[f].key, ShedKeys(ShedOne(q), keep));
    } else {
      ShedsNothing(q, keep);
      NoKeysShed(q, keep);
    }
  }

  /** A shed forgets that what it removes was asked for, and changes nothing else. */
  lemma ShedForgets(q: Queue, keep: nat)
    requires HoversFirst(q.pending)
    ensures Shed(q, keep) == q.(pending := WithoutWarms(q.pending, ShedCount(q, keep)),
                                requested := q.requested - ShedKeys(q, keep))
  {
    ShedTouches(q, keep);
    ShedIsOldestWarms(q, keep);
    ShedForgetsKeys(q, keep);
    hide Shed, WithoutWarms, ShedCount, ShedKeys, HoversFirst;
  }

  lemma NoKeysShed(q: Queue, keep: nat)
    requires ShedCount(q, keep) == 0
    ensures ShedKeys(q, keep) == {}
  {
  }

  lemma ShedKeysStep(q: Queue, keep: nat)
    requires HoversFirst(q.pending) && |q.pending| > keep && FirstIn(q.pending, false) < |q.pending|
    ensures ShedKeys(q, keep) == {q.pending[FirstIn(q.pending, false)].key} + ShedKeys(ShedOne(q), keep)
  {
    ShedOneIsOldestWarm(q.pending);
    ShedCountDrops(q, keep);
    var f, rest := FirstIn(q.pending, false), ShedOne(q);
    var k := ShedCount(rest, keep);
    assert forall i | f <= i < |rest.pending| :: rest.pending[i] == q.pending[i + 1];
    forall key | key in ShedKeys(q, keep)
      ensures key in {q.pending[f].key} + ShedKeys(rest, keep)
    {
      var i :| f <= i < f + k + 1 && q.pending[i].key == key;
      if i > f {
        assert rest.pending[i - 1].key == key;
      }
    }
    forall key | key in ShedKeys(rest, keep) ensures key in ShedKeys(q, keep) {
      var i :| f <= i < f + k && rest.pending[i].key == key;
      assert q.pending[i + 1].key == key;
    }
    assert q.pending[f].key in ShedKeys(q, keep);
  }

  // --- what each operation does -----------------------------------------------------

  /** A new request is queued, a hover first and a warm last; the oldest warms over the
      cap are shed and forgotten; and the rest is drained. */
  lemma RequestMeans(q: Queue, key: Key, front: bool) returns (n: nat)
    requires Inv(q) && key !in q.memo && key !in q.requested
    ensures
      var queued := if front then [Target(key, true)] + q.pending else q.pending + [Target(key, false)];
      var asked := q.(pending := queued, requested := q.requested + {key},
                      clock := q.clock + 1, asked := q.asked[key := q.clock]);
      var left := asked.(pending := WithoutWarms(queued, ShedCount(asked, 24)),
                         requested := asked.requested - ShedKeys(asked, 24));
      SendsFirst(left, n, Step(q, Request(Some(key), front)))
  {
    EnqueueKeepsOrder(q, key, front);
    OrderedHovers(Enqueued(q, key, front));
    EnqueuedIs(q, key, front);
    hide SendsFirst, WithoutWarms, ShedKeys, ShedCount, HoversFirst, Shed, Enqueued, Ordered, Accounted, Capped;
    var asked := Enqueued(q, key, front);
    ShedForgets(asked, PENDING_CAP);
    ShedKeepsHoversFirst(asked, PENDING_CAP);
    n := DrainSends(Shed(asked, PENDING_CAP));
  }

  lemma EnqueuedIs(q: Queue, key: Key, front: bool)
    ensures Enqueued(q, key, front)
         == q.(pending := if front then [Target(key, true)] + q.pending else q.pending + [Target(key, false)],
               requested := q.requested + {key}, clock := q.clock + 1, asked := q.asked[key := q.clock])
  {
  }

  lemma OrderedHovers(q: Queue)
    requires Ordered(q)
    ensures HoversFirst(q.pending)
  {
  }

  lemma ShedKeepsHoversFirst(q: Queue, keep: nat)
    requires HoversFirst(q.pending)
    ensures HoversFirst(Shed(q, keep).pending)
  {
    ShedIsOldestWarms(q, keep);
  }

  /** A request that is nothing new: nothing happens, but for a hover of a waiting card,
      which goes first. */
  lemma RepeatMeans(q: Queue, subject: Option<Key>, front: bool)
    requires Inv(q) && (subject.Some? ==> subject.value in q.memo || subject.value in q.requested)
    ensures
      var r := Step(q, Request(subject, front));
      if subject.Some? && subject.value !in q.memo && front && exists t :: t in q.pending && t.key == subject.value
      then exists i: nat :: i < |q.pending| && q.pending[i].key == subject.value
             && r == q.(pending := [Target(subject.value, true)] + q.pending[..i] + q.pending[i + 1..])
      else r == q
  {
    if subject.Some? && subject.value !in q.memo && front {
      var at := IndexOf(q.pending, subject.value);
      if at < |q.pending| {
        assert q.pending[at] in q.pending;
        assert [Target(subject.value, true)] + RemoveAt(q.pending, at)
            == [Target(subject.value, true)] + q.pending[..at] + q.pending[at + 1..];
      }
    }
  }

  /** A settled build gives its slot back and the queue drains, if no reset came between. */
  lemma SettleMeans(q: Queue, b: nat) returns (n: nat)
    requires Inv(q) && Enabled(q, Settle(b))
    ensures
      var gone := q.(builds := q.builds - {b});
      if q.builds[b].era == q.generation
      then q.inFlight > 0 && SendsFirst(gone.(inFlight := q.inFlight - 1), n, Step(q, Settle(b)))
      else Step(q, Settle(b)) == gone
  {
    var gone := q.(builds := q.builds - {b});
    n := 0;
    if q.builds[b].era == q.generation {
      assert b in Current(q);
      n := DrainSends(gone.(inFlight := q.inFlight - 1));
    }
  }

  /** A path the backend found, or a swap, is memoised; an error memoises nothing. Neither
      frees a slot or touches the queue. */
  lemma AnswerMeans(q: Queue, b: nat, ok: bool, key: Key)
    requires Inv(q)
    ensures Enabled(q, Resolve(b, ok)) ==>
      var t := Step(q, Resolve(b, ok));
      && t == q.(builds := q.builds[b := Build(q.builds[b].key, q.builds[b].era, true)], memo := t.memo)
      && (if ok then Memoised(q, t, q.builds[b].key) else t.memo == q.memo)
    ensures
      var t := Step(q, SwapRemembers(key));
      t == q.(memo := t.memo) && Memoised(q, t, key)
  {
    hide Remember;
  }

  /** The memo gains `key` at its end, unless it has it, and loses its oldest entry if it
      was full. */
  predicate Memoised(q: Queue, t: Queue, key: Key) {
    |q.memo| <= MEMO_CAP ==>
      && key in t.memo && |t.memo| <= MEMO_CAP
      && t.memo == if key in q.memo then q.memo
                   else (if |q.memo| < MEMO_CAP then q.memo else q.memo[1..]) + [key]
  }

  /** The end of a scroll lets the warms out; its beginning only holds them. */
  lemma ScrollMeans(q: Queue, idle: bool) returns (n: nat)
    requires Inv(q)
    ensures
      if idle && !q.scrollIdle then SendsFirst(q.(scrollIdle := true), n, Step(q, SetScrollIdle(idle)))
      else Step(q, SetScrollIdle(idle)) == q.(scrollIdle := idle)
  {
    n := 0;
    OrderedHovers(q);
    var idling := q.(scrollIdle := true);
    assert Step(q, SetScrollIdle(idle)) == if idle && !q.scrollIdle then Drained(idling) else q.(scrollIdle := idle);
    hide SendsFirst, HoversFirst, Inv, Step, Drained;
    if idle && !q.scrollIdle {
      n := DrainSends(q.(scrollIdle := true));
    }
  }

  /** Leaving a view drops every waiting warm and no hover, and forgets they were asked
      for. */
  lemma DropMeans(q: Queue)
    requires Inv(q)
    ensures var r := Step(q, DropPendingWarms);
      && r.pending == q.pending[..FirstIn(q.pending, false)] && (forall t | t in r.pending :: t.front)
      && (forall t | t in q.pending && t.front :: t in r.pending)
      && r == q.(pending := r.pending, requested := q.requested - (set t | t in q.pending && !t.front :: t.key))
  {
    var f := FirstIn(q.pending, false);
    OrderedHovers(q);
    assert Step(q, DropPendingWarms) == Shed(q, 0);
    hide Step, Shed, Inv;
    ShedForgets(q, 0);
    AllWarmsShed(q);
    hide ShedKeys, WithoutWarms, ShedCount, HoversFirst;
    assert q.pending == q.pending[..f] + q.pending[f..];
    assert forall t | t in q.pending[..f] :: t.front;
  }

  lemma AllWarmsShed(q: Queue)
    requires HoversFirst(q.pending)
    ensures WithoutWarms(q.pending, ShedCount(q, 0)) == q.pending[..FirstIn(q.pending, false)]
    ensures ShedKeys(q, 0) == (set t | t in q.pending && !t.front :: t.key)
    ensures forall t | t in q.pending && t.front :: t in q.pending[..FirstIn(q.pending, false)]
  {
    var f := FirstIn(q.pending, false);
    assert f + ShedCount(q, 0) == |q.pending|;
    assert forall i | f <= i < |q.pending| :: !q.pending[i].front;
    forall t | t in q.pending ensures if t.front then t in q.pending[..f] else t.key in ShedKeys(q, 0) {
      var i :| 0 <= i < |q.pending| && q.pending[i] == t;
      if i < f {
        assert q.pending[..f][i] == t;
      }
    }
  }

  /** A reset ends the era and forgets everything but the memo and the builds still out; a
      clear of the memo forgets what was asked and what waits. */
  lemma ClearsMean(q: Queue)
    ensures Step(q, Reset) == q.(pending := [], requested := {}, inFlight := 0, generation := q.generation + 1,
                                 scrollIdle := true, sent := [])
    ensures Step(q, ClearMemo) == q.(memo := [], pending := [], requested := {}, sent := [])
  {
  }

  lemma EnqueueKeeps(q: Queue, key: Key, front: bool)
    requires Ordered(q) && Accounted(q) && key !in q.requested
    ensures Ordered(Enqueued(q, key, front)) && Accounted(Enqueued(q, key, front))
  {
    EnqueueKeepsOrder(q, key, front);
    EnqueueKeepsAccount(q, key, front);
    hide Ordered, Accounted, Enqueued;
  }

  lemma EnqueueKeepsOrder(q: Queue, key: Key, front: bool)
    requires Ordered(q) && key !in q.requested
    ensures Ordered(Enqueued(q, key, front))
  {
    assert forall t | t in q.pending :: t.key in q.requested;
  }

  lemma EnqueueKeepsAccount(q: Queue, key: Key, front: bool)
    requires Ordered(q) && Accounted(q) && key !in q.requested
    ensures Accounted(Enqueued(q, key, front))
  {
    assert Current(Enqueued(q, key, front)) == Current(q);
    hide Current, Ordered;
  }

  lemma FrontKeeps(q: Queue, t: Target)
    requires Ordered(q) && Accounted(q)
    requires t.front && Asked(q, t) < q.clock && t.key in q.asked && t.key in q.requested && t.key !in q.sent
    requires forall u | u in q.pending :: u.key != t.key
    ensures var p := q.(pending := [t] + q.pending);
      Ordered(p) && Accounted(p)
  {
    var p := q.(pending := [t] + q.pending);
    assert forall i | 0 < i < |p.pending| :: p.pending[i] == q.pending[i - 1];
    assert Current(p) == Current(q);
  }

  lemma PromoteKeeps(q: Queue, key: Key)
    requires Inv(q)
    ensures Inv(Promoted(q, key))
  {
    var at := IndexOf(q.pending, key);
    if at < |q.pending| {
      RemoveKeeps(q, at);
      assert q.pending[at] in q.pending;
      var rest := q.(pending := RemoveAt(q.pending, at));
      assert forall t | t in rest.pending :: t in q.pending;
      FrontKeeps(rest, q.pending[at].(front := true));
      hide Ordered, Accounted;
    }
  }

  lemma RequestKeeps(q: Queue, subject: Option<Key>, front: bool)
    requires Inv(q)
    ensures Inv(Requested(q, subject, front))
  {
    if subject.Some? && subject.value !in q.memo {
      if subject.value in q.requested {
        PromoteKeeps(q, subject.value);
      } else {
        var queued := Enqueued(q, subject.value, front);
        EnqueueKeeps(q, subject.value, front);
        ShedKeeps(queued, PENDING_CAP);
        DrainKeeps(Shed(queued, PENDING_CAP));
      }
    }
  }

  lemma CurrentWithout(q: Queue, rest: Queue, b: nat)
    requires b in q.builds && rest.builds == q.builds - {b} && rest.generation == q.generation
    ensures Current(rest) == Current(q) - {b}
    ensures b in Current(q) <==> q.builds[b].era == q.generation
  {
  }

  lemma FreedIsAccounted(q: Queue, b: nat, rest: Queue)
    requires Accounted(q) && b in q.builds
    requires rest == q.(builds := q.builds - {b},
                        inFlight := if q.builds[b].era == q.generation then Pred(q.inFlight) else q.inFlight)
    ensures Accounted(rest) && (q.builds[b].era == q.generation ==> q.inFlight > 0)
  {
    CurrentWithout(q, rest, b);
    hide Current;
  }

  lemma SettleKeeps(q: Queue, b: nat)
    requires Inv(q) && Enabled(q, Settle(b))
    ensures Inv(Step(q, Settle(b)))
  {
    var rest := q.(builds := q.builds - {b},
                   inFlight := if q.builds[b].era == q.generation then Pred(q.inFlight) else q.inFlight);
    FreedIsAccounted(q, b, rest);
    assert Ordered(rest) && Capped(rest);
    hide Accounted, Ordered, Capped;
    DrainKeeps(rest);
  }

  lemma ClearsKeep(q: Queue, a: Action)
    requires Inv(q) && (a.Reset? || a.ClearMemo? || a.Resolve? || a.SwapRemembers?) && Enabled(q, a)
    ensures Inv(Step(q, a))
  {
    assert a.Reset? ==> Current(Step(q, a)) == {};
    assert !a.Reset? ==> Current(Step(q, a)) == Current(q);
  }

  lemma IdleKeeps(q: Queue, a: Action)
    requires Inv(q) && (a.SetScrollIdle? || a.DropPendingWarms?)
    ensures Inv(Step(q, a))
  {
    if a.DropPendingWarms? {
      ShedKeeps(q, 0);
      ShedIsOldestWarms(q, 0);
      assert Current(Step(q, a)) == Current(q);
    } else {
      var set_ := q.(scrollIdle := a.idle);
      assert Current(set_) == Current(q);
      if a.idle && a.idle != q.scrollIdle {
        DrainKeeps(set_);
      }
    }
  }

  lemma StepKeeps(q: Queue, a: Action)
    requires Inv(q) && Enabled(q, a)
    ensures Inv(Step(q, a))
  {
    match a
    case Request(subject, front) => RequestKeeps(q, subject, front);
    case Settle(b) => SettleKeeps(q, b);
    case SetScrollIdle(_) => IdleKeeps(q, a);
    case DropPendingWarms => IdleKeeps(q, a);
    case _ => ClearsKeep(q, a);
  }

  predicate ValidRun(q: Queue, acts: seq<Action>)
    decreases |acts|
  {
    acts != [] ==> Enabled(q, acts[0]) && ValidRun(Step(q, acts[0]), acts[1..])
  }

  function Final(q: Queue, acts: seq<Action>): Queue
    decreases |acts|
  {
    if acts == [] || !Enabled(q, acts[0]) then q else Final(Step(q, acts[0]), acts[1..])
  }

  lemma {:induction false} AlwaysInv(q: Queue, acts: seq<Action>)
    requires Inv(q) && ValidRun(q, acts)
    ensures Inv(Final(q, acts))
    decreases |acts|
  {
    if acts != [] {
      StepKeeps(q, acts[0]);
      AlwaysInv(Step(q, acts[0]), acts[1..]);
    }
  }

  /** Over every run of hovers, warms, scrolls, answers, resets and clears: hovered
      entries come first and warms keep their order, only hovered entries exceed
      the cap, at most three builds of the current era are unsettled and the counter
      is their number, and no key is sent twice between two clears. */
  lemma QueueOverRuns(acts: seq<Action>)
    requires ValidRun(INITIAL, acts)
    ensures var q := Final(INITIAL, acts); Ordered(q) && Capped(q) && Accounted(q)
  {
    assert Current(INITIAL) == {};
    AlwaysInv(INITIAL, acts);
  }

  lemma {:induction false} DrainKeepsMemo(q: Queue)
    ensures Drained(q).memo == q.memo
    decreases |q.pending|
  {
    if q.inFlight < CONCURRENCY && NextAt(q) < |q.pending| {
      DrainKeepsMemo(DrainOne(q));
    }
  }

  lemma StepBoundsMemo(q: Queue, a: Action)
    requires |q.memo| <= MEMO_CAP && Enabled(q, a)
    ensures |Step(q, a).memo| <= MEMO_CAP
  {
    hide Shed, Drained, Remember, Promoted;
    match a
    case Request(subject, front) =>
      if subject.Some? {
        var queued := Enqueued(q, subject.value, front);
        ShedTouches(queued, PENDING_CAP);
        DrainKeepsMemo(Shed(queued, PENDING_CAP));
        PromoteKeepsMemo(q, subject.value);
      }
    case DropPendingWarms => ShedTouches(q, 0);
    case SetScrollIdle(idle) => DrainKeepsMemo(q.(scrollIdle := true));
    case Settle(b) =>
      DrainKeepsMemo(q.(builds := q.builds - {b}, inFlight := if q.inFlight == 0 then 0 else q.inFlight - 1));
    case _ =>
  }

  lemma PromoteKeepsMemo(q: Queue, key: Key)
    ensures Promoted(q, key).memo == q.memo
  {}

  /** The memo never holds more than its cap. */
  lemma {:induction false} MemoOverRuns(q: Queue, acts: seq<Action>)
    requires |q.memo| <= MEMO_CAP && ValidRun(q, acts)
    ensures |Final(q, acts).memo| <= 64
    decreases |acts|
  {
    if acts != [] {
      StepBoundsMemo(q, acts[0]);
      MemoOverRuns(Step(q, acts[0]), acts[1..]);
    }
  }

  /** A hover that only promotes a waiting warm, during a scroll with a slot free. */
  predicate PromotesUndrained(q: Queue, a: Action) {
    && a.Request? && a.front && a.subject.Some? && a.subject.value !in q.memo && a.subject.value in q.requested
    && !q.scrollIdle && q.inFlight < CONCURRENCY
    && exists t :: t in q.pending && t.key == a.subject.value
  }

  /** From a state in which no slot idles, an operation leaves one idle beside an
      entry the scroll gate would let out if and only if it is such a hover. */
  lemma IdleSlotIsExact(q: Queue, a: Action)
    requires Inv(q) && Busy(q) && Enabled(q, a)
    ensures Busy(Step(q, a)) <==> !PromotesUndrained(q, a)
  {
    match a
    case Request(subject, front) => RequestBusy(q, subject, front);
    case Settle(b) => SettleBusy(q, b);
    case SetScrollIdle(idle) =>
      if idle && !q.scrollIdle {
        DrainBusy(q.(scrollIdle := true));
      }
    case DropPendingWarms =>
      ShedIsOldestWarms(q, 0);
      if q.inFlight < CONCURRENCY && q.pending != [] {
        assert !q.pending[0].front && FirstIn(q.pending, false) == 0;
        assert Shed(q, 0).pending == [];
      }
      ShedKeeps(q, 0);
    case _ =>
  }

  /** A run without such a hover. */
  predicate NeverUndrained(q: Queue, acts: seq<Action>)
    decreases |acts|
  {
    acts != [] && Enabled(q, acts[0]) ==>
      !PromotesUndrained(q, acts[0]) && NeverUndrained(Step(q, acts[0]), acts[1..])
  }

  /** Over every run without such a hover, no slot idles at the end of any operation. */
  lemma {:induction false} NeverIdle(q: Queue, acts: seq<Action>)
    requires Inv(q) && Busy(q) && ValidRun(q, acts) && NeverUndrained(q, acts)
    ensures Inv(Final(q, acts)) && Busy(Final(q, acts))
    decreases |acts|
  {
    if acts != [] {
      StepKeeps(q, acts[0]);
      IdleSlotIsExact(q, acts[0]);
      hide Inv, Busy, Step, PromotesUndrained;
      NeverIdle(Step(q, acts[0]), acts[1..]);
    }
  }

  lemma InitialIsBusy()
    ensures Inv(INITIAL) && Busy(INITIAL)
  {
    assert Current(INITIAL) == {};
  }

  lemma NeverIdleFromStart(acts: seq<Action>)
    requires ValidRun(INITIAL, acts) && NeverUndrained(INITIAL, acts)
    ensures Busy(Final(INITIAL, acts))
  {
    InitialIsBusy();
    NeverIdle(INITIAL, acts);
  }

  /** A new request, the settlement of a build of this era, the end of a scroll. */
  predicate Drains(q: Queue, a: Action)
    requires Enabled(q, a)
  {
    match a
    case Request(subject, _) => subject.Some? && subject.value !in q.memo && subject.value !in q.requested
    case Settle(b) => q.builds[b].era == q.generation
    case SetScrollIdle(idle) => idle && !q.scrollIdle
    case _ => false
  }

  /** The idle slot lasts until the next drain: after one, whatever the state before, none
      idles. */
  lemma DrainEndsIdling(q: Queue, a: Action)
    requires Enabled(q, a) && Drains(q, a)
    ensures Busy(Step(q, a))
  {
    match a
    case Request(subject, front) => DrainBusy(Shed(Enqueued(q, subject.value, front), PENDING_CAP));
    case Settle(b) =>
      var rest := q.(builds := q.builds - {b});
      DrainBusy(rest.(inFlight := if q.inFlight == 0 then 0 else q.inFlight - 1));
    case SetScrollIdle(_) => DrainBusy(q.(scrollIdle := true));
    case _ =>
  }

  /** Two operations from the start: a scroll begins and a card warms. Its hover then
      waits beside three free slots. */
  lemma UndrainedIsReachable(key: Key)
    ensures var acts := [SetScrollIdle(false), Request(Some(key), false)];
      var q, hover := Final(INITIAL, acts), Request(Some(key), true);
      && ValidRun(INITIAL, acts) && PromotesUndrained(q, hover)
      && q.inFlight == 0 && Step(q, hover).pending == [Target(key, true)] && !Busy(Step(q, hover))
  {
    var scroll, warm, hover := SetScrollIdle(false), Request(Some(key), false), Request(Some(key), true);
    var q1 := Step(INITIAL, scroll);
    var queued := Enqueued(q1, key, false);
    assert queued.pending == [Target(key, false)] && FirstIn(queued.pending, true) == 1;
    assert Step(q1, warm) == queued;
    assert [scroll, warm][1..] == [warm] && [warm][1..] == [];
    assert Final(INITIAL, [scroll, warm]) == Final(q1, [warm]) == Final(queued, []) == queued;
    assert queued.pending[0] in queued.pending;
    assert IndexOf(queued.pending, key) == 0;
    assert RemoveAt(queued.pending, 0) == [];
  }

  lemma {:induction false} DrainBusy(q: Queue)
    ensures Busy(Drained(q))
    decreases |q.pending|
  {
    if q.inFlight < CONCURRENCY && NextAt(q) < |q.pending| {
      DrainBusy(DrainOne(q));
    }
  }

  lemma RequestBusy(q: Queue, subject: Option<Key>, front: bool)
    requires Inv(q) && Busy(q)
    ensures Busy(Requested(q, subject, front)) <==> !PromotesUndrained(q, Request(subject, front))
  {
    if subject.Some? && subject.value !in q.memo {
      if subject.value !in q.requested {
        DrainBusy(Shed(Enqueued(q, subject.value, front), PENDING_CAP));
      } else if front {
        var at := IndexOf(q.pending, subject.value);
        assert at < |q.pending| ==> q.pending[at] in q.pending;
        assert at == |q.pending| ==> forall t | t in q.pending :: t.key != subject.value;
      }
    }
  }

  lemma SettleBusy(q: Queue, b: nat)
    requires Inv(q) && Busy(q) && Enabled(q, Settle(b))
    ensures Busy(Step(q, Settle(b)))
  {
    var rest := q.(builds := q.builds - {b});
    DrainBusy(rest.(inFlight := if q.inFlight == 0 then 0 else q.inFlight - 1));
  }
}
