/** The auto-upload pool: one live task per game, at most `cap` of them running. */
module UploadPools {

  type Key = string

  /** `queued` tasks wait for a permit, `running` ones hold a permit and the guard
      of their key, `releasing` ones have dropped the guard and not the permit. */
  datatype Pool = Pool(inflight: set<Key>, permits: nat, queued: set<Key>, running: set<Key>, releasing: nat,
                       accepted: nat, ended: nat)

  datatype Action =
    | Trigger(key: Key)
    | Acquire(key: Key)
    | EndTask(key: Key, panicked: bool)
    | ReleasePermit

  predicate Enabled(s: Pool, a: Action) {
    match a
    case Trigger(_) => true
    case Acquire(key) => key in s.queued && s.permits > 0
    case EndTask(key, _) => key in s.running
    case ReleasePermit => s.releasing > 0
  }

  function Step(s: Pool, a: Action): Pool
    requires Enabled(s, a)
  {
    match a
    case Trigger(key) =>
      if key in s.inflight then s
      else s.(inflight := s.inflight + {key}, queued := s.queued + {key}, accepted := s.accepted + 1)
    case Acquire(key) =>
      s.(permits := s.permits - 1, queued := s.queued - {key}, running := s.running + {key})
    case EndTask(key, _) =>
      // The key's guard drops first, then the permit; a panic unwinds the same way.
      s.(inflight := s.inflight - {key}, running := s.running - {key}, releasing := s.releasing + 1,
         ended := s.ended + 1)
    case ReleasePermit => s.(permits := s.permits + 1, releasing := s.releasing - 1)
  }

  function Initial(cap: nat): Pool {
    Pool({}, cap, {}, {}, 0, 0, 0)
  }

  class AutoUploadPool {
    var inflight: set<Key>
    var permits: nat
    // The spawned tasks, by where they are.
    var queued: set<Key>
    var running: set<Key>
    var releasing: nat
    ghost var accepted: nat
    ghost var ended: nat

    ghost function View(): Pool
      reads this
    {
      Pool(inflight, permits, queued, running, releasing, accepted, ended)
    }

    constructor (maxConcurrent: nat)
      ensures View() == Initial(maxConcurrent)
    {
      inflight, permits, queued, running, releasing := {}, maxConcurrent, {}, {}, 0;
      accepted, ended := 0, 0;
    }

    /** `false`, and no task, when the key is already in flight. */
    method TriggerUpload(key: Key) returns (spawned: bool)
      modifies this
      ensures spawned == (key !in old(inflight))
      ensures View() == Step(old(View()), Trigger(key))
      ensures inflight == old(inflight) + {key} && permits == old(permits) && running == old(running)
      ensures queued == if spawned then old(queued) + {key} else old(queued)
    {
      if key in inflight {
        return false;
      }
      inflight := inflight + {key};
      queued := queued + {key};
      accepted := accepted + 1;
      return true;
    }

    method TakePermit(key: Key)
      requires key in queued && permits > 0
      modifies this
      ensures View() == Step(old(View()), Acquire(key))
      ensures queued == old(queued) - {key} && running == old(running) + {key}
      ensures inflight == old(inflight) && permits == old(permits) - 1
    {
      permits := permits - 1;
      queued, running := queued - {key}, running + {key};
    }

    /** The end of a task's scope, by return or by unwinding. */
    method Finish(key: Key, panicked: bool)
      requires key in running
      modifies this
      ensures View() == Step(Step(old(View()), EndTask(key, panicked)), ReleasePermit)
      ensures inflight == old(inflight) - {key} && running == old(running) - {key} && queued == old(queued)
      ensures permits == old(permits) + 1
    {
      inflight, running := inflight - {key}, running - {key};
      ended := ended + 1;
      permits := permits + 1;
    }

    method IsBusy() returns (busy: bool)
      ensures busy <==> inflight != {}
    {
      busy := inflight != {};
    }
  }

  predicate ValidRun(s: Pool, acts: seq<Action>)
    decreases |acts|
  {
    acts != [] ==> Enabled(s, acts[0]) && ValidRun(Step(s, acts[0]), acts[1..])
  }

  function Final(s: Pool, acts: seq<Action>): Pool
    decreases |acts|
  {
    if acts == [] || !Enabled(s, acts[0]) then s else Final(Step(s, acts[0]), acts[1..])
  }

  /** The in-flight set is exactly the keys of live tasks, one task per key; every
      permit is free, held by a running task or on its way back. */
  predicate Inv(cap: nat, s: Pool) {
    && s.inflight == s.queued + s.running
    && s.queued !! s.running
    && |s.running| + s.releasing + s.permits == cap
    && s.accepted == s.ended + |s.queued| + |s.running|
  }

  /** A key moves from the queue to the running tasks. */
  lemma Moves(queued: set<Key>, running: set<Key>, key: Key)
    requires queued !! running && key in queued
    ensures queued - {key} !! running + {key}
    ensures (queued - {key}) + (running + {key}) == queued + running
    ensures |queued - {key}| == |queued| - 1 && |running + {key}| == |running| + 1
  {
    assert key !in running;
  }

  /** A running task's key is gone from both. */
  lemma Leaves(queued: set<Key>, running: set<Key>, key: Key)
    requires queued !! running && key in running
    ensures queued !! running - {key}
    ensures queued + (running - {key}) == (queued + running) - {key}
    ensures |running - {key}| == |running| - 1
  {
    assert key !in queued;
  }

  lemma TriggerKeepsInv(cap: nat, s: Pool, key: Key)
    requires Inv(cap, s)
    ensures Inv(cap, Step(s, Trigger(key)))
  {
    if key !in s.inflight {
      assert key !in s.queued && key !in s.running;
      assert |s.queued + {key}| == |s.queued| + 1;
    }
  }

  lemma StepKeepsInv(cap: nat, s: Pool, a: Action)
    requires Inv(cap, s) && Enabled(s, a)
    ensures Inv(cap, Step(s, a))
  {
    match a
    case Trigger(key) => TriggerKeepsInv(cap, s, key);
    case Acquire(key) =>
      Moves(s.queued, s.running, key);
      assert s.permits > 0;
    case EndTask(key, _) => Leaves(s.queued, s.running, key);
    case ReleasePermit =>
  }

  lemma {:induction false} PoolAccounting(cap: nat, s: Pool, acts: seq<Action>)
    requires Inv(cap, s) && ValidRun(s, acts)
    ensures Inv(cap, Final(s, acts)) && |Final(s, acts).running| <= cap
    decreases |acts|
  {
    if acts != [] {
      StepKeepsInv(cap, s, acts[0]);
      PoolAccounting(cap, Step(s, acts[0]), acts[1..]);
    }
  }

  /** In every reachable state a trigger is refused if and only if its key has a
      queued or running task, panicked tasks leave nothing behind, and an idle pool
      has every permit back once the last one is released. */
  lemma RefusedIffLive(cap: nat, acts: seq<Action>, key: Key)
    requires ValidRun(Initial(cap), acts)
    ensures var s := Final(Initial(cap), acts);
      && (Step(s, Trigger(key)) == s <==> key in s.queued || key in s.running)
      && (key !in s.inflight ==> key in Step(s, Trigger(key)).queued && key in Step(s, Trigger(key)).inflight)
      && (s.inflight == {} && s.releasing == 0 ==> s.permits == cap && s.accepted == s.ended)
  {
    PoolAccounting(cap, Initial(cap), acts);
  }
}
