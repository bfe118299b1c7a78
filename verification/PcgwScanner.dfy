/** The PCGamingWiki save-path scan: a brace scanner finds a template block, an
    argument splitter cuts its inside. The two count braces on their own and have to
    agree. */
module PcgwScanner {
  import opened Wrappers
  import opened Texts

  predicate OpensAt(text: string, i: int) {
    0 <= i && i + 1 < |text| && text[i] == '{' && text[i + 1] == '{'
  }

  predicate ClosesAt(text: string, i: int) {
    0 <= i && i + 1 < |text| && text[i] == '}' && text[i + 1] == '}'
  }

  /** A position and the brace depth there. */
  datatype At = At(pos: nat, depth: int)

  /** One turn of the block scanner. */
  function ScanNext(text: string, at: At): At {
    if OpensAt(text, at.pos) then At(at.pos + 2, at.depth + 1)
    else if ClosesAt(text, at.pos) then At(at.pos + 2, at.depth - 1)
    else At(at.pos + 1, at.depth)
  }

  /** The end of the block whose scan has come to `at`: the first closing pair that
      brings the depth to zero. */
  function BlockEnd(text: string, at: At): (end: Option<nat>)
    ensures end.Some? ==> at.pos + 2 <= end.value <= |text|
    decreases |text| - at.pos
  {
    if at.pos + 1 >= |text| then None
    else if ClosesAt(text, at.pos) && at.depth == 1 then Some(at.pos + 2)
    else BlockEnd(text, ScanNext(text, at))
  }

  method ExtractTemplateBlock(text: string, start: nat) returns (block: Option<(string, nat)>)
    ensures block == match BlockEnd(text, At(start, 0))
                     case None => None
                     case Some(end) => Some((text[start..end], end))
  {
    var i := start;
    var depth := 0;
    while i + 1 < |text|
      invariant start <= i
      invariant BlockEnd(text, At(start, 0)) == BlockEnd(text, At(i, depth))
    {
      if text[i] == '{' && text[i + 1] == '{' {
        depth := depth + 1;
        i := i + 2;
        continue;
      }
      if text[i] == '}' && text[i + 1] == '}' {
        depth := depth - 1;
        i := i + 2;
        if depth == 0 {
          return Some((text[start..i], i));
        }
        continue;
      }
      i := i + 1;
    }
    return None;
  }

  /** One turn of the argument splitter: at depth zero a closing pair is text. */
  function SplitNext(text: string, at: At): At {
    if OpensAt(text, at.pos) then At(at.pos + 2, at.depth + 1)
    else if at.depth > 0 && ClosesAt(text, at.pos) then At(at.pos + 2, at.depth - 1)
    else At(at.pos + 1, at.depth)
  }

  /** The arguments from the one that began at `from`, the splitter being at `at`. */
  function ArgsFrom(text: string, at: At, from: nat): (args: seq<string>)
    requires from <= at.pos <= |text|
    ensures args != []
    decreases |text| - at.pos
  {
    if at.pos == |text| then [text[from..]]
    else if text[at.pos] == '|' && at.depth == 0 then
      [text[from..at.pos]] + ArgsFrom(text, At(at.pos + 1, 0), at.pos + 1)
    else ArgsFrom(text, SplitNext(text, at), from)
  }

  function SplitArgs(inner: string): seq<string> {
    ArgsFrom(inner, At(0, 0), 0)
  }

  lemma ArgGrows(text: string, from: nat, i: nat)
    requires from <= i < |text|
    ensures text[from..i + 1] == text[from..i] + [text[i]]
    ensures OpensAt(text, i) ==> text[from..i + 2] == text[from..i] + ['{', '{']
    ensures ClosesAt(text, i) ==> text[from..i + 2] == text[from..i] + ['}', '}']
  {}

  method SplitTemplateArgs(inner: string) returns (args: seq<string>)
    ensures args == SplitArgs(inner)
  {
    args := [];
    var current := "";
    var depth := 0;
    var i := 0;
    ghost var from := 0;
    while i < |inner|
      invariant 0 <= from <= i <= |inner| && current == inner[from..i]
      invariant SplitArgs(inner) == args + ArgsFrom(inner, At(i, depth), from)
    {
      ArgGrows(inner, from, i);
      if i + 1 < |inner| && inner[i] == '{' && inner[i + 1] == '{' {
        depth := depth + 1;
        current := current + ['{', '{'];
        i := i + 2;
        continue;
      }
      if depth > 0 && i + 1 < |inner| && inner[i] == '}' && inner[i + 1] == '}' {
        depth := depth - 1;
        current := current + ['}', '}'];
        i := i + 2;
        continue;
      }
      var c := inner[i];
      if c == '|' && depth == 0 {
        AppendAssoc(args, [current], ArgsFrom(inner, At(i + 1, 0), i + 1));
        args := args + [current];
        current := "";
        i := i + 1;
        from := i;
        continue;
      }
      current := current + [c];
      i := i + 1;
    }
    assert inner[from..] == inner[from..i];
    args := args + [current];
  }

  // --- the two scanners agree --------------------------------------------------

  /** What the block scanner passes through, up to the closing pair of the block. */
  function ScanTrace(text: string, at: At): (trace: seq<At>)
    ensures trace != []
    decreases |text| - at.pos
  {
    if at.pos + 1 >= |text| || (ClosesAt(text, at.pos) && at.depth == 1) then [at]
    else [at] + ScanTrace(text, ScanNext(text, at))
  }

  /** The block ends where the scan first meets a closing pair at depth one; if it meets
      none there is no block. */
  lemma {:induction false} BlockEndIsFirst(text: string, at: At)
    ensures var trace := ScanTrace(text, at);
      var last := trace[|trace| - 1];
      && (forall k | 0 <= k < |trace| - 1 :: !(ClosesAt(text, trace[k].pos) && trace[k].depth == 1))
      && (forall k | 0 <= k < |trace| - 1 :: trace[k + 1] == ScanNext(text, trace[k]))
      && trace[0] == at
      && BlockEnd(text, at) == (if ClosesAt(text, last.pos) && last.depth == 1 then Some(last.pos + 2) else None)
      && (BlockEnd(text, at).None? ==> last.pos + 1 >= |text|)
    decreases |text| - at.pos
  {
    if !(at.pos + 1 >= |text| || (ClosesAt(text, at.pos) && at.depth == 1)) {
      BlockEndIsFirst(text, ScanNext(text, at));
      hide ScanNext, ClosesAt;
    }
  }

  /** In any text, balanced or not, the splitter never goes below depth zero: a stray
      closing pair is text. */
  lemma {:induction false} SplitNeverNegative(text: string, at: At)
    requires at.depth >= 0
    ensures forall p | p in SplitTrace(text, at) :: p.depth >= 0
    decreases |text| - at.pos
  {
    if at.pos < |text| {
      SplitNeverNegative(text, SplitNext(text, at));
    }
  }

  /** What the splitter passes through, up to the end of its text. */
  function SplitTrace(text: string, at: At): seq<At>
    decreases |text| - at.pos
  {
    if at.pos >= |text| then [at] else [at] + SplitTrace(text, SplitNext(text, at))
  }

  /** `at` as the splitter of the inside that begins at `offset` sees it. */
  function Inside(at: At, offset: nat): At {
    At(if at.pos >= offset then at.pos - offset else 0, at.depth - 1)
  }

  function InsideAll(trace: seq<At>, offset: nat): seq<At> {
    seq(|trace|, i requires 0 <= i < |trace| => Inside(trace[i], offset))
  }

  lemma StepInside(text: string, at: At, offset: nat, last: nat)
    requires offset <= at.pos && at.depth >= 1 && !(ClosesAt(text, at.pos) && at.depth == 1)
    requires ScanNext(text, at).pos <= last <= |text|
    ensures SplitNext(text[offset..last], Inside(at, offset)) == Inside(ScanNext(text, at), offset)
    ensures ScanNext(text[offset..last], Inside(at, offset)) == Inside(ScanNext(text, at), offset)
  {}

  lemma {:induction false} Lockstep(text: string, at: At, offset: nat, end: nat)
    requires offset <= at.pos && at.depth >= 1 && BlockEnd(text, at) == Some(end)
    ensures at.pos <= end - 2
    ensures SplitTrace(text[offset..end - 2], Inside(at, offset)) == InsideAll(ScanTrace(text, at), offset)
    ensures forall p | p in ScanTrace(text, at) :: p.depth >= 1
    ensures ScanTrace(text, at)[|ScanTrace(text, at)| - 1] == At(end - 2, 1)
    decreases |text| - at.pos
  {
    var inner := text[offset..end - 2];
    if !(ClosesAt(text, at.pos) && at.depth == 1) {
      var next := ScanNext(text, at);
      Lockstep(text, next, offset, end);
      StepInside(text, at, offset, end - 2);
      hide OpensAt, ClosesAt;
      assert InsideAll(ScanTrace(text, at), offset)
          == [Inside(at, offset)] + InsideAll(ScanTrace(text, next), offset);
    } else {
      assert InsideAll(ScanTrace(text, at), offset) == [Inside(at, offset)];
    }
  }

  /** Scanner agreement: for every text, the inside of a block the scanner returns is
      walked by the splitter position by position as the scanner walked it, at one
      depth less, never below zero and ending at zero. */
  lemma ScannersAgree(text: string, start: nat, end: nat)
    requires OpensAt(text, start) && BlockEnd(text, At(start, 0)) == Some(end)
    ensures start + 4 <= end <= |text|
    ensures var inner := text[start + 2..end - 2];
      && SplitTrace(inner, At(0, 0)) == InsideAll(ScanTrace(text, At(start + 2, 1)), start + 2)
      && (forall p | p in SplitTrace(inner, At(0, 0)) :: p.depth >= 0)
      && SplitTrace(inner, At(0, 0))[|SplitTrace(inner, At(0, 0))| - 1] == At(|inner|, 0)
  {
    assert ScanNext(text, At(start, 0)) == At(start + 2, 1);
    Lockstep(text, At(start + 2, 1), start + 2, end);
  }

  /** Brace-balanced from `at` on, by the block scanner's own count. */
  predicate BalancedFrom(text: string, at: At)
    decreases |text| - at.pos
  {
    at.depth >= 0 &&
    if at.pos >= |text| then at.depth == 0 else BalancedFrom(text, ScanNext(text, at))
  }

  predicate Balanced(text: string) {
    BalancedFrom(text, At(0, 0))
  }

  lemma {:induction false} InsideIsBalanced(text: string, at: At, offset: nat, end: nat)
    requires offset <= at.pos && at.depth >= 1 && BlockEnd(text, at) == Some(end)
    ensures BalancedFrom(text[offset..end - 2], Inside(at, offset))
    decreases |text| - at.pos
  {
    if !(ClosesAt(text, at.pos) && at.depth == 1) {
      var next := ScanNext(text, at);
      Lockstep(text, next, offset, end);
      StepInside(text, at, offset, end - 2);
      hide ScanNext, BlockEnd, ScanTrace, OpensAt, ClosesAt;
      InsideIsBalanced(text, next, offset, end);
    }
  }

  /** In balanced text the argument being read ends where a `|` or the text does. */
  lemma {:induction false} FirstArgEnds(text: string, at: At, from: nat)
    requires from <= at.pos <= |text| && BalancedFrom(text, at)
    ensures var args := ArgsFrom(text, at, from);
      && at.pos <= from + |args[0]| <= |text| && args[0] == text[from..from + |args[0]|]
      && if |args| == 1 then from + |args[0]| == |text| else
           && from + |args[0]| < |text| && text[from + |args[0]|] == '|'
           && BalancedFrom(text, At(from + |args[0]| + 1, 0))
           && args[1..] == ArgsFrom(text, At(from + |args[0]| + 1, 0), from + |args[0]| + 1)
    decreases |text| - at.pos
  {
    if at.pos < |text| {
      if text[at.pos] == '|' && at.depth == 0 {
        assert ScanNext(text, at) == At(at.pos + 1, 0);
      } else {
        assert SplitNext(text, at) == ScanNext(text, at);
        FirstArgEnds(text, SplitNext(text, at), from);
      }
    }
  }

  /** Taken alone the argument is read as it was in place. */
  lemma {:induction false} FirstArgIsWhole(text: string, at: At, from: nat, arg: string)
    requires from <= at.pos <= |text| && BalancedFrom(text, at) && arg == ArgsFrom(text, at, from)[0]
    ensures at.pos - from <= |arg|
    ensures BalancedFrom(arg, At(at.pos - from, at.depth))
    ensures ArgsFrom(arg, At(at.pos - from, at.depth), 0) == [arg]
    decreases |text| - at.pos
  {
    FirstArgEnds(text, at, from);
    assert arg[0..] == arg;
    if at.pos < |text| && !(text[at.pos] == '|' && at.depth == 0) {
      var next := SplitNext(text, at);
      assert next == ScanNext(text, at);
      FirstArgIsWhole(text, next, from, arg);
      var inArg := At(at.pos - from, at.depth);
      assert arg[inArg.pos] == text[at.pos];
      assert SplitNext(arg, inArg) == At(next.pos - from, next.depth) == ScanNext(arg, inArg);
    }
  }

  predicate Whole(arg: string) {
    Balanced(arg) && SplitArgs(arg) == [arg]
  }

  lemma {:induction false} ArgsAreWhole(text: string, from: nat)
    requires from <= |text| && BalancedFrom(text, At(from, 0))
    ensures forall k | 0 <= k < |ArgsFrom(text, At(from, 0), from)| :: Whole(ArgsFrom(text, At(from, 0), from)[k])
    decreases |text| - from
  {
    var args := ArgsFrom(text, At(from, 0), from);
    FirstArgEnds(text, At(from, 0), from);
    FirstArgIsWhole(text, At(from, 0), from, args[0]);
    assert Whole(args[0]);
    hide Whole, BalancedFrom, ArgsFrom;
    if |args| > 1 {
      ArgsAreWhole(text, from + |args[0]| + 1);
      assert forall k | 0 < k < |args| :: args[k] == args[1..][k - 1];
    }
  }

  function Join(args: seq<string>): string
    requires args != []
  {
    if |args| == 1 then args[0] else args[0] + "|" + Join(args[1..])
  }

  lemma {:induction false} JoinGivesBack(text: string, at: At, from: nat)
    requires from <= at.pos <= |text|
    ensures Join(ArgsFrom(text, at, from)) == text[from..]
    decreases |text| - at.pos
  {
    if at.pos < |text| {
      if text[at.pos] == '|' && at.depth == 0 {
        var rest := ArgsFrom(text, At(at.pos + 1, 0), at.pos + 1);
        JoinGivesBack(text, At(at.pos + 1, 0), at.pos + 1);
        assert ([text[from..at.pos]] + rest)[1..] == rest;
        assert text[from..at.pos] + "|" + text[at.pos + 1..] == text[from..];
      } else {
        JoinGivesBack(text, SplitNext(text, at), from);
      }
    }
  }

  /** Every argument of a block is brace-balanced and splits no further, so no nested
      template is cut; joined with `|` the arguments give the inside back. */
  lemma BlockArgsAreWhole(text: string, start: nat, end: nat)
    requires OpensAt(text, start) && BlockEnd(text, At(start, 0)) == Some(end)
    ensures start + 4 <= end <= |text|
    ensures var inner := text[start + 2..end - 2];
      && (forall k | 0 <= k < |SplitArgs(inner)| :: Whole(SplitArgs(inner)[k]))
      && Join(SplitArgs(inner)) == inner
  {
    ScannersAgree(text, start, end);
    var inner := text[start + 2..end - 2];
    InsideIsBalanced(text, At(start + 2, 1), start + 2, end);
    ArgsAreWhole(inner, 0);
    JoinGivesBack(inner, At(0, 0), 0);
  }

  // --- what was written is read back --------------------------------------------

  /** Wiki text as its templates nest. */
  datatype Wiki = End | Char(c: char, rest: Wiki) | Template(inside: Wiki, rest: Wiki)

  function Write(w: Wiki): string {
    match w
    case End => ""
    case Char(c, rest) => [c] + Write(rest)
    case Template(inside, rest) => "{{" + (Write(inside) + ("}}" + Write(rest)))
  }

  /** Braces only where a template begins or ends. */
  predicate Plain(w: Wiki) {
    match w
    case End => true
    case Char(c, rest) => c != '{' && c != '}' && Plain(rest)
    case Template(inside, rest) => Plain(inside) && Plain(rest)
  }

  /** `args` with `part` before the first. */
  function Prefixed(part: string, args: seq<string>): (r: seq<string>)
    requires args != []
    ensures r != []
  {
    [part + args[0]] + args[1..]
  }

  lemma PrefixNothing(args: seq<string>)
    requires args != []
    ensures Prefixed("", args) == args
  {
    assert "" + args[0] == args[0];
  }

  lemma PrefixTwice(a: string, b: string, args: seq<string>)
    requires args != []
    ensures Prefixed(a, Prefixed(b, args)) == Prefixed(a + b, args)
  {
    AppendAssoc(a, b, args[0]);
  }

  /** What stands between the bars that are inside no template. */
  function WrittenArgs(w: Wiki): (args: seq<string>)
    ensures args != []
  {
    match w
    case End => [""]
    case Char(c, rest) => if c == '|' then [""] + WrittenArgs(rest) else Prefixed([c], WrittenArgs(rest))
    case Template(inside, rest) => Prefixed("{{" + Write(inside) + "}}", WrittenArgs(rest))
  }

  predicate StandsAt(text: string, pos: nat, part: string) {
    pos + |part| <= |text| && text[pos..pos + |part|] == part
  }

  lemma PartsStand(text: string, pos: nat, a: string, b: string)
    requires StandsAt(text, pos, a + b)
    ensures StandsAt(text, pos, a) && StandsAt(text, pos + |a|, b)
  {
    var both := text[pos..pos + |a + b|];
    assert both[..|a|] == a && both[|a|..] == b;
    assert text[pos..pos + |a|] == both[..|a|] && text[pos + |a|..pos + |a| + |b|] == both[|a|..];
  }

  lemma PairStands(text: string, pos: nat)
    ensures StandsAt(text, pos, "{{") <==> OpensAt(text, pos)
    ensures StandsAt(text, pos, "}}") <==> ClosesAt(text, pos)
  {
    if pos + 2 <= |text| {
      assert text[pos..pos + 2] == [text[pos], text[pos + 1]];
    }
  }

  lemma TemplateStands(text: string, pos: nat, w: Wiki)
    requires w.Template? && StandsAt(text, pos, Write(w))
    ensures var close := pos + 2 + |Write(w.inside)|;
      && OpensAt(text, pos) && StandsAt(text, pos + 2, Write(w.inside)) && ClosesAt(text, close)
      && StandsAt(text, close + 2, Write(w.rest)) && |Write(w)| == |Write(w.inside)| + 4 + |Write(w.rest)|
  {
    hide StandsAt, Write;
    WriteTemplate(w);
    var close := pos + 2 + |Write(w.inside)|;
    PartsStand(text, pos, "{{", Write(w.inside) + ("}}" + Write(w.rest)));
    PartsStand(text, pos + 2, Write(w.inside), "}}" + Write(w.rest));
    PartsStand(text, close, "}}", Write(w.rest));
    PairStands(text, pos);
    PairStands(text, close);
  }

  lemma WriteTemplate(w: Wiki)
    requires w.Template?
    ensures Write(w) == "{{" + (Write(w.inside) + ("}}" + Write(w.rest)))
  {}

  lemma CharStands(text: string, pos: nat, w: Wiki)
    requires w.Char? && Plain(w) && StandsAt(text, pos, Write(w))
    ensures pos < |text| && text[pos] == w.c && !OpensAt(text, pos) && !ClosesAt(text, pos)
    ensures StandsAt(text, pos + 1, Write(w.rest)) && |Write(w)| == 1 + |Write(w.rest)|
  {
    PartsStand(text, pos, [w.c], Write(w.rest));
    assert text[pos..pos + 1] == [w.c];
  }

  lemma ScanStep(text: string, at: At)
    requires at.pos < |text| && !(ClosesAt(text, at.pos) && at.depth == 1)
    ensures BlockEnd(text, at) == BlockEnd(text, ScanNext(text, at))
  {}

  lemma SplitStep(text: string, at: At, from: nat)
    requires from <= at.pos < |text| && !(text[at.pos] == '|' && at.depth == 0)
    ensures ArgsFrom(text, at, from) == ArgsFrom(text, SplitNext(text, at), from)
  {}

  /** The block scanner walks over what is written at its depth. */
  lemma {:induction false} ScanPasses(text: string, at: At, w: Wiki)
    requires Plain(w) && at.depth >= 1 && StandsAt(text, at.pos, Write(w))
    ensures BlockEnd(text, at) == BlockEnd(text, At(at.pos + |Write(w)|, at.depth))
    decreases w, 1
  {
    hide BlockEnd;
    match w
    case End =>
    case Char(_, rest) =>
      CharStands(text, at.pos, w);
      ScanStep(text, at);
      hide StandsAt, Write;
      ScanPasses(text, At(at.pos + 1, at.depth), rest);
    case Template(inside, rest) =>
      TemplateStands(text, at.pos, w);
      hide StandsAt, Write;
      ScanPassesTemplate(text, at, w);
      ScanPasses(text, At(at.pos + 4 + |Write(inside)|, at.depth), rest);
  }

  lemma {:induction false} ScanPassesTemplate(text: string, at: At, w: Wiki)
    requires w.Template? && Plain(w.inside) && at.depth >= 1
    requires var close := at.pos + 2 + |Write(w.inside)|;
      OpensAt(text, at.pos) && StandsAt(text, at.pos + 2, Write(w.inside)) && ClosesAt(text, close)
    ensures BlockEnd(text, at) == BlockEnd(text, At(at.pos + 4 + |Write(w.inside)|, at.depth))
    decreases w, 0
  {
    var close := at.pos + 2 + |Write(w.inside)|;
    assert ScanNext(text, at) == At(at.pos + 2, at.depth + 1);
    assert ScanNext(text, At(close, at.depth + 1)) == At(close + 2, at.depth);
    assert !(ClosesAt(text, at.pos) && at.depth == 1);
    hide BlockEnd, Write, StandsAt, ScanNext;
    ScanStep(text, at);
    ScanPasses(text, At(at.pos + 2, at.depth + 1), w.inside);
    ScanStep(text, At(close, at.depth + 1));
  }

  /** So does the splitter inside a template. */
  lemma {:induction false} SplitPasses(text: string, at: At, from: nat, w: Wiki)
    requires Plain(w) && at.depth >= 1 && StandsAt(text, at.pos, Write(w)) && from <= at.pos
    ensures at.pos + |Write(w)| <= |text|
    ensures ArgsFrom(text, at, from) == ArgsFrom(text, At(at.pos + |Write(w)|, at.depth), from)
    decreases w, 1
  {
    hide ArgsFrom;
    match w
    case End =>
    case Char(_, rest) =>
      CharStands(text, at.pos, w);
      SplitStep(text, at, from);
      hide StandsAt, Write;
      SplitPasses(text, At(at.pos + 1, at.depth), from, rest);
    case Template(inside, rest) =>
      TemplateStands(text, at.pos, w);
      hide StandsAt, Write;
      SplitPassesTemplate(text, at, from, w);
      SplitPasses(text, At(at.pos + 4 + |Write(inside)|, at.depth), from, rest);
  }

  /** The splitter walks over a template at any depth. */
  lemma {:induction false} SplitPassesTemplate(text: string, at: At, from: nat, w: Wiki)
    requires w.Template? && Plain(w.inside) && at.depth >= 0 && from <= at.pos
    requires var close := at.pos + 2 + |Write(w.inside)|;
      OpensAt(text, at.pos) && StandsAt(text, at.pos + 2, Write(w.inside)) && ClosesAt(text, close)
    ensures ArgsFrom(text, at, from) == ArgsFrom(text, At(at.pos + 4 + |Write(w.inside)|, at.depth), from)
    decreases w, 0
  {
    var close := at.pos + 2 + |Write(w.inside)|;
    assert SplitNext(text, at) == At(at.pos + 2, at.depth + 1);
    assert SplitNext(text, At(close, at.depth + 1)) == At(close + 2, at.depth);
    hide ArgsFrom, SplitNext, Write, StandsAt;
    SplitStep(text, at, from);
    SplitPasses(text, At(at.pos + 2, at.depth + 1), from, w.inside);
    SplitStep(text, At(close, at.depth + 1), from);
  }

  /** At depth zero, with `w` up to the end of the text, it reads the written arguments. */
  lemma {:induction false} SplitReads(text: string, pos: nat, from: nat, w: Wiki)
    requires Plain(w) && StandsAt(text, pos, Write(w)) && pos + |Write(w)| == |text| && from <= pos
    ensures ArgsFrom(text, At(pos, 0), from) == Prefixed(text[from..pos], WrittenArgs(w))
    decreases w, 1
  {
    match w
    case End =>
      assert text[from..pos] + "" == text[from..];
    case Char('|', _) => SplitReadsBar(text, pos, from, w);
    case Char(_, _) => SplitReadsChar(text, pos, from, w);
    case Template(_, _) => SplitReadsTemplate(text, pos, from, w);
  }

  lemma {:induction false} SplitReadsBar(text: string, pos: nat, from: nat, w: Wiki)
    requires w.Char? && w.c == '|'
    requires Plain(w) && StandsAt(text, pos, Write(w)) && pos + |Write(w)| == |text| && from <= pos
    ensures ArgsFrom(text, At(pos, 0), from) == Prefixed(text[from..pos], WrittenArgs(w))
    decreases w, 0
  {
    CharStands(text, pos, w);
    var args := WrittenArgs(w.rest);
    assert WrittenArgs(w) == [""] + args;
    var after := ArgsFrom(text, At(pos + 1, 0), pos + 1);
    assert ArgsFrom(text, At(pos, 0), from) == [text[from..pos]] + after;
    assert text[pos + 1..pos + 1] == "";
    hide StandsAt, Write, ArgsFrom, WrittenArgs;
    SplitReads(text, pos + 1, pos + 1, w.rest);
    PrefixNothing(args);
    assert ([""] + args)[1..] == args && text[from..pos] + "" == text[from..pos];
  }

  lemma {:induction false} SplitReadsChar(text: string, pos: nat, from: nat, w: Wiki)
    requires w.Char? && w.c != '|'
    requires Plain(w) && StandsAt(text, pos, Write(w)) && pos + |Write(w)| == |text| && from <= pos
    ensures ArgsFrom(text, At(pos, 0), from) == Prefixed(text[from..pos], WrittenArgs(w))
    decreases w, 0
  {
    CharStands(text, pos, w);
    SplitStep(text, At(pos, 0), from);
    assert WrittenArgs(w) == Prefixed([w.c], WrittenArgs(w.rest));
    PartsStand(text, pos, [w.c], Write(w.rest));
    hide StandsAt, Write, Prefixed, ArgsFrom, WrittenArgs;
    SplitReads(text, pos + 1, from, w.rest);
    PrefixMore(text, from, pos, [w.c], WrittenArgs(w.rest));
  }

  lemma PrefixMore(text: string, from: nat, pos: nat, part: string, args: seq<string>)
    requires from <= pos && StandsAt(text, pos, part) && args != []
    ensures Prefixed(text[from..pos + |part|], args) == Prefixed(text[from..pos], Prefixed(part, args))
  {
    assert text[from..pos + |part|] == text[from..pos] + text[pos..pos + |part|];
    PrefixTwice(text[from..pos], part, args);
  }

  lemma {:induction false} SplitReadsTemplate(text: string, pos: nat, from: nat, w: Wiki)
    requires w.Template?
    requires Plain(w) && StandsAt(text, pos, Write(w)) && pos + |Write(w)| == |text| && from <= pos
    ensures ArgsFrom(text, At(pos, 0), from) == Prefixed(text[from..pos], WrittenArgs(w))
    decreases w, 0
  {
    TemplateStands(text, pos, w);
    var close := pos + 2 + |Write(w.inside)|;
    var part := "{{" + Write(w.inside) + "}}";
    TemplateText(text, pos, Write(w.inside));
    assert WrittenArgs(w) == Prefixed(part, WrittenArgs(w.rest));
    SplitPassesTemplate(text, At(pos, 0), from, w);
    hide StandsAt, Write, Prefixed, ArgsFrom, WrittenArgs, OpensAt, ClosesAt;
    SplitReads(text, close + 2, from, w.rest);
    PrefixMore(text, from, pos, part, WrittenArgs(w.rest));
  }

  lemma TemplateText(text: string, pos: nat, inside: string)
    requires OpensAt(text, pos) && StandsAt(text, pos + 2, inside) && ClosesAt(text, pos + 2 + |inside|)
    ensures StandsAt(text, pos, "{{" + inside + "}}")
  {
    var close := pos + 2 + |inside|;
    PairStands(text, pos);
    PairStands(text, close);
    assert text[pos..close + 2] == text[pos..pos + 2] + text[pos + 2..close] + text[close..close + 2];
  }

  /** Wherever it stands, a template that was written is found to its end, and its
      arguments are what stood between its own bars. */
  lemma WrittenIsRead(text: string, open: nat, w: Wiki)
    requires Plain(w) && StandsAt(text, open, "{{" + (Write(w) + "}}"))
    ensures BlockEnd(text, At(open, 0)) == Some(open + |Write(w)| + 4)
    ensures text[open + 2..open + 2 + |Write(w)|] == Write(w) && SplitArgs(Write(w)) == WrittenArgs(w)
  {
    BlockIsFound(text, open, w);
    var inner := Write(w);
    assert inner[0..|inner|] == inner && inner[0..0] == "";
    SplitReads(inner, 0, 0, w);
    PrefixNothing(WrittenArgs(w));
  }

  lemma BlockIsFound(text: string, open: nat, w: Wiki)
    requires Plain(w) && StandsAt(text, open, "{{" + (Write(w) + "}}"))
    ensures BlockEnd(text, At(open, 0)) == Some(open + |Write(w)| + 4)
    ensures StandsAt(text, open + 2, Write(w))
  {
    hide StandsAt, BlockEnd, Write;
    var close := open + 2 + |Write(w)|;
    PartsStand(text, open, "{{", Write(w) + "}}");
    PartsStand(text, open + 2, Write(w), "}}");
    PairStands(text, open);
    PairStands(text, close);
    ScanStep(text, At(open, 0));
    ScanPasses(text, At(open + 2, 1), w);
    BlockEndsHere(text, close);
  }

  lemma BlockEndsHere(text: string, close: nat)
    requires ClosesAt(text, close)
    ensures BlockEnd(text, At(close, 1)) == Some(close + 2)
  {}

  // --- the scan of a page ------------------------------------------------------

  function SkipSpace(text: string, i: nat): (j: nat)
    ensures i <= j
    decreases |text| - i
  {
    if i < |text| && IsSpace(text[i]) then SkipSpace(text, i + 1) else i
  }

  /** How the search folds a letter of its words: the long s is the one letter outside
      ASCII that folds to one of them. */
  function FoldChar(c: char): char {
    if c == '\U{17F}' then 's' else LowerChar(c)
  }

  predicate WordAt(text: string, i: nat, word: string) {
    i + |word| <= |text| && forall k | 0 <= k < |word| :: FoldChar(text[i + k]) == word[k]
  }

  /** The words from `i` on, white space allowed before each. */
  predicate WordsAt(text: string, i: nat, words: seq<string>)
    decreases |words|
  {
    words == [] ||
    (var at := SkipSpace(text, i);
     WordAt(text, at, words[0]) && WordsAt(text, at + |words[0]|, words[1..]))
  }

  /** The opening of a `{{Game data/saves|` template, in any case and with white space
      between its tokens. */
  predicate SavesAt(text: string, i: nat) {
    OpensAt(text, i) && WordsAt(text, i + 2, ["game", "data", "/", "saves", "|"])
  }

  /** The opening as the wiki's own pages spell it. */
  lemma SavesOpening(text: string, i: nat)
    requires StandsAt(text, i, "{{" + ("Game" + (" data" + ("/" + ("saves" + "|")))))
    ensures SavesAt(text, i)
  {
    hide StandsAt, WordsAt, WordAt, SkipSpace;
    PartsStand(text, i, "{{", "Game" + (" data" + ("/" + ("saves" + "|"))));
    PairStands(text, i);
    PartsStand(text, i + 2, "Game", " data" + ("/" + ("saves" + "|")));
    PartsStand(text, i + 6, " data", "/" + ("saves" + "|"));
    PartsStand(text, i + 11, "/", "saves" + "|");
    PartsStand(text, i + 12, "saves", "|");
    OpeningWords(text, i + 2);
  }

  lemma OpeningWords(text: string, i: nat)
    requires StandsAt(text, i, "Game") && StandsAt(text, i + 4, " data") && StandsAt(text, i + 9, "/")
    requires StandsAt(text, i + 10, "saves") && StandsAt(text, i + 15, "|")
    ensures WordsAt(text, i, ["game", "data", "/", "saves", "|"])
  {
    var words := ["game", "data", "/", "saves", "|"];
    assert WordsAt(text, i + 16, []);
    WordsSpelled();
    hide StandsAt, WordsAt, SkipSpace, Spells;
    WordAdds(text, i + 15, "|", words[4..]);
    WordAdds(text, i + 10, "saves", words[3..]);
    WordAdds(text, i + 9, "/", words[2..]);
    WordAdds(text, i + 4, " data", words[1..]);
    WordAdds(text, i, "Game", words);
  }

  predicate Spells(spelled: string, word: string) {
    var gap := |spelled| - |word|;
    && word != "" && 0 <= gap <= 1 && (gap == 1 ==> spelled[0] == ' ') && !IsSpace(spelled[gap])
    && forall k | 0 <= k < |word| :: FoldChar(spelled[gap + k]) == word[k]
  }

  lemma WordsSpelled()
    ensures Spells("Game", "game") && Spells(" data", "data") && Spells("/", "/")
    ensures Spells("saves", "saves") && Spells("|", "|")
  {}

  /** A word as it is spelled, with or without a space before it. */
  lemma WordAdds(text: string, i: nat, spelled: string, words: seq<string>)
    requires StandsAt(text, i, spelled) && words != [] && Spells(spelled, words[0])
    requires WordsAt(text, i + |spelled|, words[1..])
    ensures WordsAt(text, i, words)
  {
    var gap := |spelled| - |words[0]|;
    var part := text[i..i + |spelled|];
    assert forall k | 0 <= k < |spelled| :: part[k] == text[i + k];
    assert text[i + gap] == spelled[gap];
    assert SkipSpace(text, i + gap) == i + gap && SkipSpace(text, i) == i + gap;
  }

  predicate NoSavesBetween(text: string, from: nat, to: nat) {
    forall i: nat :: from <= i < to ==> !SavesAt(text, i)
  }

  function FindSaves(text: string, pos: nat): (start: Option<nat>)
    ensures start.Some? ==> pos <= start.value < |text|
    decreases |text| - pos
  {
    if pos >= |text| then None
    else if SavesAt(text, pos) then Some(pos)
    else FindSaves(text, pos + 1)
  }

  lemma {:induction false} FindSavesIsFirst(text: string, pos: nat)
    ensures match FindSaves(text, pos)
            case None => NoSavesBetween(text, pos, |text|)
            case Some(start) => SavesAt(text, start) && NoSavesBetween(text, pos, start)
    decreases |text| - pos
  {
    hide SavesAt;
    if pos < |text| && !SavesAt(text, pos) {
      FindSavesIsFirst(text, pos + 1);
    }
  }

  datatype Span = Span(start: nat, end: nat)

  /** The blocks from `pos` on: each search starts past the block before, and an
      unbalanced block ends the scan. */
  function Spans(text: string, pos: nat): (spans: seq<Span>)
    decreases |text| - pos
  {
    match FindSaves(text, pos)
    case None => []
    case Some(start) =>
      match BlockEnd(text, At(start, 0))
      case None => []
      case Some(end) => [Span(start, end)] + Spans(text, end)
  }

  function EndBefore(spans: seq<Span>, k: nat, pos: nat): nat
    requires k <= |spans|
  {
    if k == 0 then pos else spans[k - 1].end
  }

  /** `span` is the next whole template: the first to open from `from` on. */
  predicate NextBlock(text: string, from: nat, span: Span) {
    && from <= span.start && SavesAt(text, span.start) && NoSavesBetween(text, from, span.start)
    && BlockEnd(text, At(span.start, 0)) == Some(span.end)
  }

  /** Whatever opens next is unbalanced. */
  ghost predicate ScanStops(text: string, from: nat) {
    forall i: nat | from <= i && SavesAt(text, i) && NoSavesBetween(text, from, i) ::
      BlockEnd(text, At(i, 0)).None?
  }

  /** The scan, said of the blocks instead of the search: whole templates, in order and
      apart, with no opening passed over, up to an unbalanced one or the end. */
  ghost predicate IsScan(text: string, pos: nat, spans: seq<Span>) {
    && (forall k | 0 <= k < |spans| :: NextBlock(text, EndBefore(spans, k, pos), spans[k]))
    && ScanStops(text, EndBefore(spans, |spans|, pos))
  }

  lemma NextBlockIsFound(text: string, pos: nat, span: Span)
    ensures NextBlock(text, pos, span)
        <==> FindSaves(text, pos) == Some(span.start) && BlockEnd(text, At(span.start, 0)) == Some(span.end)
  {
    hide SavesAt;
    FindSavesIsFirst(text, pos);
    if NextBlock(text, pos, span) {
      match FindSaves(text, pos)
      case None => SavesWithin(text, span.start);
      case Some(start) =>
    }
  }

  lemma SavesWithin(text: string, i: nat)
    requires SavesAt(text, i)
    ensures i < |text|
  {}

  lemma ScanStopsWhenNoneFound(text: string, pos: nat)
    ensures ScanStops(text, pos) <==> Spans(text, pos) == []
  {
    hide SavesAt;
    FindSavesIsFirst(text, pos);
    match FindSaves(text, pos)
    case None =>
      forall i: nat | pos <= i && SavesAt(text, i) ensures false {
        SavesWithin(text, i);
      }
    case Some(start) =>
      forall i: nat | pos <= i && SavesAt(text, i) && NoSavesBetween(text, pos, i)
        ensures i == start
      {}
  }

  lemma {:induction false} ScanFrom(text: string, pos: nat, spans: seq<Span>)
    requires spans != []
    ensures IsScan(text, pos, spans) <==> NextBlock(text, pos, spans[0]) && IsScan(text, spans[0].end, spans[1..])
  {
    hide NextBlock, ScanStops;
    var end, rest := spans[0].end, spans[1..];
    forall k | 0 <= k <= |rest|
      ensures EndBefore(rest, k, end) == EndBefore(spans, k + 1, pos)
    {}
    if IsScan(text, pos, spans) {
      assert NextBlock(text, EndBefore(spans, 0, pos), spans[0]);
      forall k | 0 <= k < |rest|
        ensures NextBlock(text, EndBefore(rest, k, end), rest[k])
      {
        assert NextBlock(text, EndBefore(spans, k + 1, pos), spans[k + 1]);
      }
    }
    if NextBlock(text, pos, spans[0]) && IsScan(text, end, rest) {
      forall k | 0 <= k < |spans|
        ensures NextBlock(text, EndBefore(spans, k, pos), spans[k])
      {
        if k > 0 {
          assert NextBlock(text, EndBefore(rest, k - 1, end), rest[k - 1]);
        }
      }
    }
  }

  /** The search finds exactly the blocks `IsScan` describes. */
  lemma {:induction false} SpansAreTheScan(text: string, pos: nat, spans: seq<Span>)
    ensures spans == Spans(text, pos) <==> IsScan(text, pos, spans)
    decreases |spans|
  {
    hide SavesAt, NextBlock, BlockEnd, ScanStops;
    ScanStopsWhenNoneFound(text, pos);
    if spans != [] {
      ScanFrom(text, pos, spans);
      NextBlockIsFound(text, pos, spans[0]);
      SpansAreTheScan(text, spans[0].end, spans[1..]);
      assert spans == [spans[0]] + spans[1..];
    }
  }

  function TrimAll(parts: seq<string>): (r: seq<string>)
    ensures |r| == |parts|
    ensures forall k | 0 <= k < |parts| :: r[k] == Trim(parts[k])
  {
    seq(|parts|, k requires 0 <= k < |parts| => Trim(parts[k]))
  }

  /** The arguments that expand, expanded. `expand` is the path expansion. */
  function Expanded(args: seq<string>, expand: string -> Option<string>): seq<string> {
    if args == [] then []
    else
      var before := Expanded(args[..|args| - 1], expand);
      match expand(args[|args| - 1])
      case None => before
      case Some(path) => before + [path]
  }

  /** The paths of one template: those of a Windows row, none of any other. */
  function RowPaths(inner: string, expand: string -> Option<string>): seq<string> {
    var parts := TrimAll(SplitArgs(inner));
    if |parts| >= 3 && Lower(parts[1]) == "windows" then Expanded(parts[2..], expand) else []
  }

  /** Every path of the blocks from `pos` on, repeats included. */
  function PagePaths(text: string, pos: nat, expand: string -> Option<string>): seq<string> {
    BlockPaths(text, Spans(text, pos), expand)
  }

  function BlockPaths(text: string, spans: seq<Span>, expand: string -> Option<string>): seq<string> {
    if spans == [] then []
    else if spans[0].start + 4 <= spans[0].end <= |text| then
      RowPaths(text[spans[0].start + 2..spans[0].end - 2], expand) + BlockPaths(text, spans[1..], expand)
    else BlockPaths(text, spans[1..], expand)
  }

  function Dedup(paths: seq<string>): (r: seq<string>)
    ensures forall p :: p in r <==> p in paths
  {
    if paths == [] then []
    else
      var before, last := Dedup(paths[..|paths| - 1]), paths[|paths| - 1];
      assert paths == paths[..|paths| - 1] + [last];
      if last in before then before else before + [last]
  }

  function FirstAt(paths: seq<string>, path: string): (i: nat)
    requires path in paths
    ensures i < |paths| && paths[i] == path && forall k | 0 <= k < i :: paths[k] != path
  {
    if paths[0] == path then 0 else FirstAt(paths[1..], path) + 1
  }

  lemma DedupSnoc(before: seq<string>, last: string)
    ensures Dedup(before + [last]) == if last in before then Dedup(before) else Dedup(before) + [last]
    ensures forall p | p in before :: FirstAt(before + [last], p) == FirstAt(before, p)
    ensures last !in before ==> FirstAt(before + [last], last) == |before|
  {
    var paths := before + [last];
    assert paths[..|before|] == before;
    forall p | p in before ensures FirstAt(paths, p) == FirstAt(before, p) {
      assert paths[FirstAt(before, p)] == p && p in paths;
    }
    if last !in before {
      assert forall k | 0 <= k < |before| :: paths[k] == before[k] && paths[k] != last;
    }
  }

  /** No duplicates, nothing lost or added, in the order of first occurrence. */
  lemma {:induction false} DedupKeepsFirsts(paths: seq<string>)
    ensures forall p :: p in Dedup(paths) <==> p in paths
    ensures var r := Dedup(paths);
      forall i, j | 0 <= i < j < |r| :: r[i] != r[j] && FirstAt(paths, r[i]) < FirstAt(paths, r[j])
  {
    if paths != [] {
      var before, last := paths[..|paths| - 1], paths[|paths| - 1];
      assert paths == before + [last];
      DedupKeepsFirsts(before);
      DedupSnoc(before, last);
      var r, head := Dedup(paths), Dedup(before);
      assert r == head || r == head + [last];
      forall i, j | 0 <= i < j < |r|
        ensures r[i] != r[j] && FirstAt(paths, r[i]) < FirstAt(paths, r[j])
      {
        assert r[i] == head[i] && head[i] in before;
        if j < |head| {
          assert r[j] == head[j] && head[j] in before;
        }
      }
    }
  }

  lemma BlockBounds(text: string, pos: nat, start: nat, next: nat)
    requires FindSaves(text, pos) == Some(start) && BlockEnd(text, At(start, 0)) == Some(next)
    ensures pos <= start && start + 4 <= next <= |text|
  {
    hide BlockEnd, WordsAt;
    FindSavesIsFirst(text, pos);
    ScannersAgree(text, start, next);
  }

  lemma PageStep(text: string, pos: nat, start: nat, next: nat, expand: string -> Option<string>)
    requires FindSaves(text, pos) == Some(start) && BlockEnd(text, At(start, 0)) == Some(next)
    ensures pos <= start && start + 4 <= next <= |text|
    ensures text[start..next][2..next - start - 2] == text[start + 2..next - 2]
    ensures PagePaths(text, pos, expand)
         == RowPaths(text[start + 2..next - 2], expand) + PagePaths(text, next, expand)
  {
    hide BlockEnd, FindSaves, RowPaths;
    BlockBounds(text, pos, start, next);
    var spans := Spans(text, pos);
    assert spans[0] == Span(start, next) && spans[1..] == Spans(text, next);
  }

  lemma RowMeans(inner: string, expand: string -> Option<string>)
    ensures var parts := TrimAll(SplitArgs(inner));
      RowPaths(inner, expand)
      == if |parts| >= 3 && Lower(Trim(parts[1])) == "windows" then Expanded(parts[2..], expand) else []
  {
    var args := SplitArgs(inner);
    if |args| > 1 {
      TrimTwice(args[1]);
    }
  }

  /** A row that was written is read back from the page: the expansions of what stands
      after its second bar, if it is a Windows row, and then those of the rest. */
  lemma RowIsRead(text: string, pos: nat, open: nat, w: Wiki, expand: string -> Option<string>)
    requires Plain(w) && StandsAt(text, open, "{{" + (Write(w) + "}}"))
    requires pos <= open && SavesAt(text, open) && NoSavesBetween(text, pos, open)
    ensures var args := TrimAll(WrittenArgs(w));
      PagePaths(text, pos, expand)
      == (if |args| >= 3 && Lower(args[1]) == "windows" then Expanded(args[2..], expand) else [])
         + PagePaths(text, open + |Write(w)| + 4, expand)
  {
    hide *;
    WrittenIsRead(text, open, w);
    var end := open + |Write(w)| + 4;
    NextBlockIs(text, pos, open, end);
    PageStep(text, pos, open, end, expand);
    assert open + 2 + |Write(w)| == end - 2;
    RowOfArgs(Write(w), expand);
  }

  lemma NextBlockIs(text: string, pos: nat, start: nat, end: nat)
    requires pos <= start && SavesAt(text, start) && NoSavesBetween(text, pos, start)
    requires BlockEnd(text, At(start, 0)) == Some(end)
    ensures FindSaves(text, pos) == Some(start)
  {
    hide SavesAt, NoSavesBetween, BlockEnd, FindSaves;
    NextBlockIsFound(text, pos, Span(start, end));
  }

  lemma RowOfArgs(inner: string, expand: string -> Option<string>)
    ensures var args := TrimAll(SplitArgs(inner));
      RowPaths(inner, expand) == if |args| >= 3 && Lower(args[1]) == "windows" then Expanded(args[2..], expand) else []
  {}

  lemma ExpandedStep(args: seq<string>, k: nat, expand: string -> Option<string>)
    requires k < |args|
    ensures Expanded(args[..k + 1], expand)
         == Expanded(args[..k], expand) + match expand(args[k]) case None => [] case Some(path) => [path]
  {
    assert args[..k + 1][..k] == args[..k];
  }

  method AddPaths(args: seq<string>, expand: string -> Option<string>,
                  known: seq<string>, knownSet: set<string>, ghost before: seq<string>)
      returns (found: seq<string>, seen: set<string>)
    requires known == Dedup(before) && forall p :: p in knownSet <==> p in known
    ensures found == Dedup(before + Expanded(args, expand)) && forall p :: p in seen <==> p in found
  {
    hide Dedup;
    found, seen := known, knownSet;
    ghost var done := before;
    assert before + [] == before;
    for k := 0 to |args|
      invariant done == before + Expanded(args[..k], expand)
      invariant found == Dedup(done) && (forall p :: p in seen <==> p in found)
    {
      ExpandedStep(args, k, expand);
      match expand(args[k]) {
        case None =>
        case Some(path) =>
          DedupSnoc(done, path);
          done := done + [path];
          if path !in seen {
            seen := seen + {path};
            found := found + [path];
          }
      }
    }
    assert args[..|args|] == args;
  }

  /** One block of the scan: its row's new paths are added. */
  method AddRow(inner: string, expand: string -> Option<string>,
                known: seq<string>, knownSet: set<string>, ghost before: seq<string>)
      returns (found: seq<string>, seen: set<string>)
    requires known == Dedup(before) && forall p :: p in knownSet <==> p in known
    ensures found == Dedup(before + RowPaths(inner, expand)) && forall p :: p in seen <==> p in found
  {
    hide *;
    RowMeans(inner, expand);
    found, seen := known, knownSet;
    var args := SplitTemplateArgs(inner);
    var parts := TrimAll(args);
    assert before + [] == before;
    if |parts| < 3 {
      return;
    }
    if Lower(Trim(parts[1])) != "windows" {
      return;
    }
    found, seen := AddPaths(parts[2..], expand, found, seen, before);
  }

  /** The scan of a page is its first occurrences of the paths of its blocks, and each
      search starts further on. */
  method ParseWindowsSavePaths(text: string, expand: string -> Option<string>) returns (found: seq<string>)
    ensures found == Dedup(PagePaths(text, 0, expand))
  {
    found := [];
    var seen: set<string> := {};
    var pos := 0;
    ghost var done: seq<string> := [];
    assert Dedup([]) == [];
    hide *;
    while true
      invariant found == Dedup(done) && (forall p :: p in seen <==> p in found)
      invariant PagePaths(text, 0, expand) == done + PagePaths(text, pos, expand)
      decreases |text| - pos
    {
      var start := FindSaves(text, pos);
      if start == None {
        PageEnds(text, pos, expand);
        break;
      }
      var block := ExtractTemplateBlock(text, start.value);
      if block == None {
        PageEnds(text, pos, expand);
        break;
      }
      var body, next := block.value.0, block.value.1;
      PageStep(text, pos, start.value, next, expand);
      var inner := body[2..|body| - 2];
      ghost var row, rest := RowPaths(inner, expand), PagePaths(text, next, expand);
      AppendAssoc(done, row, rest);
      found, seen := AddRow(inner, expand, found, seen, done);
      done := done + row;
      pos := next;
    }
    assert done + [] == done;
  }

  lemma PageEnds(text: string, pos: nat, expand: string -> Option<string>)
    requires match FindSaves(text, pos) case None => true case Some(start) => BlockEnd(text, At(start, 0)).None?
    ensures PagePaths(text, pos, expand) == []
  {}
}
