/** What a refresh pass may publish: the generation is checked again under the map's
    lock, so nothing an older pass found comes back after a clear. */
module UpdateResults {
  import opened Wrappers

  type Id = nat

  class UpdateService {
    var available: map<int, string>
    var generation: nat

    constructor ()
      ensures available == map[] && generation == 0
    {
      available, generation := map[], 0;
    }

    /** The start of a pass: its own generation. */
    method BeginPass() returns (own: nat)
      modifies this`generation
      ensures own == generation == old(generation) + 1
    {
      generation := generation + 1;
      own := generation;
    }

    /** A clear: any pass in flight is out of date, and the set is emptied. */
    method TakeAll() returns (hadAny: bool)
      modifies this
      ensures generation == old(generation) + 1 && available == map[]
      ensures hadAny == (old(available) != map[])
    {
      generation := generation + 1;
      hadAny := available != map[];
      available := map[];
    }

    /** The end of a pass: its result, unless something overtook it. */
    method StoreIfCurrent(own: nat, next: map<int, string>) returns (stored: bool)
      modifies this`available
      ensures stored == (generation == own)
      ensures available == if stored then next else old(available)
    {
      if generation != own {
        return false;
      }
      available := next;
      return true;
    }

    /** A pass that began before a clear publishes nothing after it. */
    method ClearMidPass(next: map<int, string>)
      modifies this
      ensures available == map[]
    {
      var own := BeginPass();
      var _ := TakeAll();
      var stored := StoreIfCurrent(own, next);
      assert !stored;
    }
  }

  // --- one atomic operation at a time ---------------------------------------

  datatype Holder = Checking(id: Id) | Writing(id: Id) | Taking(id: Id)

  /** `visible` is the generation of the pass whose result the map holds;
      `returned` is the newest generation a returned clear has set. */
  datatype Results = Results(
    generation: nat,
    visible: Option<nat>,
    lock: Option<Holder>,
    passes: map<Id, nat>,
    clears: map<Id, nat>,
    returned: nat)

  const INITIAL := Results(0, None, None, map[], map[], 0)

  datatype Action =
    | BeginPass(id: Id)
    | LockForPass(id: Id)
    | CheckGeneration
    | Publish
    | BumpForClear(id: Id)
    | LockForClear(id: Id)
    | TakeAndReturn
    | PassPanics(id: Id)

  predicate Enabled(s: Results, a: Action) {
    match a
    case BeginPass(p) => p !in s.passes
    case LockForPass(p) => p in s.passes && s.lock.None?
    case CheckGeneration => s.lock.Some? && s.lock.value.Checking? && s.lock.value.id in s.passes
    case Publish => s.lock.Some? && s.lock.value.Writing? && s.lock.value.id in s.passes
    case BumpForClear(c) => c !in s.clears
    case LockForClear(c) => c in s.clears && s.lock.None?
    case TakeAndReturn => s.lock.Some? && s.lock.value.Taking? && s.lock.value.id in s.clears
    case PassPanics(p) => p in s.passes && s.lock.None?
  }

  function Step(s: Results, a: Action): Results
    requires Enabled(s, a)
  {
    match a
    case BeginPass(p) => s.(generation := s.generation + 1, passes := s.passes[p := s.generation + 1])
    case LockForPass(p) => s.(lock := Some(Checking(p)))
    case CheckGeneration =>
      var p := s.lock.value.id;
      if s.passes[p] == s.generation then s.(lock := Some(Writing(p)))
      else s.(lock := None, passes := s.passes - {p})
    case Publish =>
      var p := s.lock.value.id;
      s.(visible := Some(s.passes[p]), lock := None, passes := s.passes - {p})
    case BumpForClear(c) => s.(generation := s.generation + 1, clears := s.clears[c := s.generation + 1])
    case LockForClear(c) => s.(lock := Some(Taking(c)))
    case TakeAndReturn =>
      var c := s.lock.value.id;
      s.(visible := None, lock := None, clears := s.clears - {c},
         returned := if s.returned < s.clears[c] then s.clears[c] else s.returned)
    case PassPanics(p) => s.(passes := s.passes - {p})
  }

  predicate ValidRun(s: Results, acts: seq<Action>)
    decreases |acts|
  {
    acts != [] ==> Enabled(s, acts[0]) && ValidRun(Step(s, acts[0]), acts[1..])
  }

  function Final(s: Results, acts: seq<Action>): Results
    decreases |acts|
  {
    if acts == [] || !Enabled(s, acts[0]) then s else Final(Step(s, acts[0]), acts[1..])
  }

  /** Nothing visible is older than a clear that has returned. */
  predicate NoResurrection(s: Results) {
    s.visible.Some? ==> s.visible.value > s.returned
  }

  predicate Inv(s: Results) {
    && NoResurrection(s)
    && s.returned <= s.generation
    && (forall p | p in s.passes :: s.passes[p] <= s.generation && s.passes[p] != s.returned)
    && (forall c | c in s.clears :: s.clears[c] <= s.generation)
    && (forall p, c | p in s.passes && c in s.clears :: s.passes[p] != s.clears[c])
    && (s.lock.Some? && s.lock.value.Writing? && s.lock.value.id in s.passes ==>
          s.passes[s.lock.value.id] > s.returned)
    && (s.visible.Some? ==> s.visible.value <= s.generation)
    && (s.lock.Some? && s.lock.value.Writing? && s.lock.value.id in s.passes && s.visible.Some? ==>
          s.visible.value <= s.passes[s.lock.value.id])
  }

  /** One step keeps the invariant, and never replaces a result by an older one. */
  lemma StepKeepsInv(s: Results, a: Action)
    requires Inv(s) && Enabled(s, a)
    ensures Inv(Step(s, a))
    ensures s.visible.Some? && Step(s, a).visible.Some? ==> Step(s, a).visible.value >= s.visible.value
  {
  }

  /** Over every interleaving of passes and clears, panicking passes included, once
      a clear has returned nothing an older pass found is ever visible again. */
  lemma {:induction false} NeverResurrects(s: Results, acts: seq<Action>)
    requires Inv(s) && ValidRun(s, acts)
    ensures Inv(Final(s, acts)) && NoResurrection(Final(s, acts))
    decreases |acts|
  {
    if acts != [] {
      StepKeepsInv(s, acts[0]);
      NeverResurrects(Step(s, acts[0]), acts[1..]);
    }
  }

  /** A pass that nothing overtook is published; one that was overtaken changes nothing
      visible; and a clear empties the map. */
  lemma ResultMeans(s: Results, id: Id)
    requires s.lock == None
    ensures id in s.passes ==>
      var t := Step(Step(s, LockForPass(id)), CheckGeneration);
      && (t.lock == Some(Writing(id)) <==> s.passes[id] == s.generation)
      && t.visible == s.visible
      && (s.passes[id] != s.generation ==> t == s.(passes := s.passes - {id}))
      && (s.passes[id] == s.generation ==>
            Step(t, Publish) == s.(visible := Some(s.generation), passes := s.passes - {id}))
    ensures id in s.clears ==>
      var t := Step(Step(s, LockForClear(id)), TakeAndReturn);
      t.visible == None && t.lock == None && t.clears == s.clears - {id} && t.passes == s.passes
      && t.returned >= s.clears[id] && t.returned >= s.returned
  {}

  /** A pass and a clear each begin with a generation nothing had before. */
  lemma GenerationIsNew(s: Results, id: Id)
    requires Inv(s)
    ensures id !in s.passes ==>
      var t := Step(s, BeginPass(id));
      id in t.passes && t.passes[id] == t.generation > s.generation && t.visible == s.visible
    ensures id !in s.clears ==>
      var t := Step(s, BumpForClear(id));
      id in t.clears && t.clears[id] == t.generation > s.generation
      && forall p | p in t.passes :: t.passes[p] != t.generation
  {}

  lemma InitialInv()
    ensures Inv(INITIAL)
  {
  }
}
