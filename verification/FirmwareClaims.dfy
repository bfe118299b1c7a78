/** Firmware passes claim a directory as a whole or one platform of it: readers and
    a writer per directory, each claim released by its guard. */
module FirmwareClaims {
  import opened Wrappers

  type Dir = string

  /** `None` covers the whole directory. */
  datatype Claim = Claim(dir: Dir, platform: Option<int>)

  /** Each directory holds one whole-directory claim or any set of platform claims. */
  predicate Compatible(claims: set<Claim>) {
    forall a, b | a in claims && b in claims && a.dir == b.dir && a.platform.None? :: a == b
  }

  class FirmwareService {
    var inFlight: set<Claim>

    constructor ()
      ensures inFlight == {}
    {
      inFlight := {};
    }

    /** Claims one job; `false` changes nothing. */
    method TryBegin(dir: Dir, platform: Option<int>) returns (claimed: bool)
      modifies this
      ensures claimed == Admits(old(inFlight), Claim(dir, platform))
      ensures inFlight == if claimed then old(inFlight) + {Claim(dir, platform)} else old(inFlight)
    {
      if platform.None? && exists c :: c in inFlight && c.dir == dir {
        return false;
      }
      if platform.Some? && Claim(dir, None) in inFlight {
        return false;
      }
      claimed := Claim(dir, platform) !in inFlight;
      inFlight := inFlight + {Claim(dir, platform)};
    }

    /** Releases a claim. */
    method End(dir: Dir, platform: Option<int>)
      modifies this
      ensures inFlight == old(inFlight) - {Claim(dir, platform)}
    {
      inFlight := inFlight - {Claim(dir, platform)};
    }
  }

  /** The guard of `TryBegin`. */
  predicate Admits(claims: set<Claim>, c: Claim) {
    if c.platform.None? then forall d | d in claims :: d.dir != c.dir
    else Claim(c.dir, None) !in claims && c !in claims
  }

  /** A claim is admitted if and only if it is new and the directory stays one
      writer or many readers. */
  lemma AdmitsIffStaysCompatible(claims: set<Claim>, c: Claim)
    requires Compatible(claims)
    ensures Admits(claims, c) <==> c !in claims && Compatible(claims + {c})
  {
    var all := claims + {c};
    if c !in claims && !Admits(claims, c) {
      var other := Claim(c.dir, None);
      if c.platform.None? {
        other :| other in claims && other.dir == c.dir;
      }
      assert c in all && other in all && !Compatible(all);
    }
  }

  /** A service and the guards of its live passes; a guard owns one claim. */
  datatype Jobs = Jobs(inFlight: set<Claim>, guards: map<nat, Claim>)

  datatype Action = Begin(guard: nat, claim: Claim) | DropGuard(guard: nat)

  predicate Enabled(s: Jobs, a: Action) {
    match a
    case Begin(g, _) => g !in s.guards
    case DropGuard(g) => g in s.guards
  }

  function Step(s: Jobs, a: Action): Jobs
    requires Enabled(s, a)
  {
    match a
    case Begin(g, c) =>
      if Admits(s.inFlight, c) then Jobs(s.inFlight + {c}, s.guards[g := c]) else s
    case DropGuard(g) => Jobs(s.inFlight - {s.guards[g]}, s.guards - {g})
  }

  /** A begin claims what was asked for or changes nothing; a guard takes its own claim
      with it and no other. */
  lemma StepMeans(s: Jobs, guard: nat, claim: Claim)
    requires Compatible(s.inFlight) && OneGuardPerClaim(s)
    ensures guard !in s.guards ==>
      var t := Step(s, Begin(guard, claim));
      if claim !in s.inFlight && Compatible(s.inFlight + {claim})
      then t.inFlight == s.inFlight + {claim} && t.guards == s.guards[guard := claim]
      else t == s
    ensures guard in s.guards ==>
      var t := Step(s, DropGuard(guard));
      t.guards == s.guards - {guard} && t.inFlight == s.inFlight - {s.guards[guard]} != s.inFlight
  {
    AdmitsIffStaysCompatible(s.inFlight, claim);
  }

  predicate ValidRun(s: Jobs, acts: seq<Action>)
    decreases |acts|
  {
    acts != [] ==> Enabled(s, acts[0]) && ValidRun(Step(s, acts[0]), acts[1..])
  }

  function Final(s: Jobs, acts: seq<Action>): Jobs
    decreases |acts|
  {
    if acts == [] || !Enabled(s, acts[0]) then s else Final(Step(s, acts[0]), acts[1..])
  }

  /** Claims and live guards correspond one to one. */
  predicate OneGuardPerClaim(s: Jobs) {
    && s.inFlight == s.guards.Values
    && forall g, h | g in s.guards && h in s.guards && s.guards[g] == s.guards[h] :: g == h
  }

  lemma StepKeepsClaims(s: Jobs, a: Action)
    requires Compatible(s.inFlight) && OneGuardPerClaim(s) && Enabled(s, a)
    ensures Compatible(Step(s, a).inFlight) && OneGuardPerClaim(Step(s, a))
  {
    var t := Step(s, a);
    match a
    case Begin(g, c) =>
      if Admits(s.inFlight, c) {
        AdmitsIffStaysCompatible(s.inFlight, c);
        assert t.guards[g] == c;
        forall d | d in s.inFlight ensures d in t.guards.Values {
          var h :| h in s.guards && s.guards[h] == d;
          assert t.guards[h] == d;
        }
      }
    case DropGuard(g) =>
      forall d | d in t.inFlight ensures d in t.guards.Values {
        var h :| h in s.guards && s.guards[h] == d;
        assert t.guards[h] == d;
      }
  }

  /** Over every run of begins and guard drops, in any order and panics included:
      one writer or many readers per directory, one live guard per claim. */
  lemma {:induction false} ClaimsOverRuns(s: Jobs, acts: seq<Action>)
    requires Compatible(s.inFlight) && OneGuardPerClaim(s) && ValidRun(s, acts)
    ensures Compatible(Final(s, acts).inFlight) && OneGuardPerClaim(Final(s, acts))
    decreases |acts|
  {
    if acts != [] {
      StepKeepsClaims(s, acts[0]);
      ClaimsOverRuns(Step(s, acts[0]), acts[1..]);
    }
  }
}
