/** The local media server: which bytes a range request names, how they are streamed,
    and how a request head is read off the socket. */
module RangeServer {
  import opened Wrappers
  import opened Texts
  import opened Numbers

  type Byte = b: int | 0 <= b < 256

  const U64: nat := 0x1_0000_0000_0000_0000

  // --- numbers -------------------------------------------------------------------

  predicate IsDigit(c: char) {
    '0' <= c <= '9'
  }

  predicate AllDigits(s: string) {
    forall i | 0 <= i < |s| :: IsDigit(s[i])
  }

  predicate Number(s: string) {
    s != "" && AllDigits(s)
  }

  function Value(digits: string): nat
    requires AllDigits(digits)
  {
    if digits == "" then 0 else 10 * Value(digits[..|digits| - 1]) + (digits[|digits| - 1] - '0') as nat
  }

  /** An unsigned 64-bit number: a plus sign is allowed, an overflow is an error. */
  function ParseU64(s: string): Option<nat> {
    var digits := if s != "" && s[0] == '+' then s[1..] else s;
    if digits != "" && AllDigits(digits) && Value(digits) < U64 then Some(Value(digits)) else None
  }

  /** What the parser takes for a number: digits, or a plus sign and digits, below the
      bound. */
  lemma ParseU64Means(s: string, digits: string)
    ensures Number(digits) && (s == digits || s == "+" + digits) ==>
      ParseU64(s) == if Value(digits) < 0x1_0000_0000_0000_0000 then Some(Value(digits)) else None
    ensures !Number(s) && !("+" <= s && Number(s[1..])) ==> ParseU64(s) == None
  {
    if Number(digits) {
      assert IsDigit(digits[0]);
      assert ("+" + digits)[1..] == digits;
    }
    hide Value;
  }

  /** A number in decimal digits, the value of which is that number. */
  function Decimal(n: nat): string {
    (if n < 10 then "" else Decimal(n / 10)) + ["0123456789"[n % 10]]
  }

  lemma {:induction false} DecimalIsRead(n: nat)
    ensures Number(Decimal(n)) && Value(Decimal(n)) == n
  {
    var high := if n < 10 then "" else Decimal(n / 10);
    if n >= 10 {
      DecimalIsRead(n / 10);
    }
    assert AllDigits(high) && Value(high) == n / 10;
    DigitIsRead(high, n % 10);
  }

  lemma DigitIsRead(high: string, d: nat)
    requires AllDigits(high) && d < 10
    ensures AllDigits(high + ["0123456789"[d]]) && Value(high + ["0123456789"[d]]) == 10 * Value(high) + d
  {
    var s := high + ["0123456789"[d]];
    assert s[..|s| - 1] == high;
    assert "0123456789"[d] as int == '0' as int + d;
    assert forall k | 0 <= k < |high| :: s[k] == high[k];
  }

  function IndexOf(s: string, c: char): (i: Option<nat>)
    ensures i.Some? ==> i.value < |s| && s[i.value] == c && forall k | 0 <= k < i.value :: s[k] != c
    ensures i.None? ==> forall k | 0 <= k < |s| :: s[k] != c
  {
    if s == "" then None
    else if s[0] == c then Some(0)
    else match IndexOf(s[1..], c)
      case None => None
      case Some(i) => Some(i + 1)
  }

  // --- parse_range -----------------------------------------------------------------

  datatype RangeSpec = Whole | Unsatisfiable | Slice(first: nat, last: nat)

  /** Whatever the header says, a slice lies in the file and is not empty. */
  function ParseRange(header: Option<string>, len: nat): (r: RangeSpec)
    ensures r.Slice? ==> r.first <= r.last < len
  {
    match header
    case None => Whole
    case Some(h) =>
      var trimmed := Trim(h);
      if !("bytes=" <= trimmed) then Whole
      else
        var spec := Trim(trimmed[6..]);
        if ',' in spec then Whole
        else
          match IndexOf(spec, '-')
          case None => Whole
          case Some(dash) => ParseSpec(Trim(spec[..dash]), Trim(spec[dash + 1..]), len)
  }

  function ParseSpec(first: string, last: string, len: nat): (r: RangeSpec)
    ensures r.Slice? ==> r.first <= r.last < len
  {
    if first == "" then
      match ParseU64(last)
      case None => Whole
      case Some(n) =>
        if n == 0 || len == 0 then Unsatisfiable
        else Slice(if n <= len then len - n else 0, len - 1)
    else
      match ParseU64(first)
      case None => Whole
      case Some(start) =>
        if start >= len then Unsatisfiable
        else if last == "" then Slice(start, len - 1)
        else
          match ParseU64(last)
          case None => Whole
          case Some(end) =>
            if end < start then Whole else Slice(start, if end <= len - 1 then end else len - 1)
  }

  // --- what any header is answered with ---------------------------------------------

  lemma NoRangeIsWhole(len: nat)
    ensures ParseRange(None, len) == Whole
  {}

  /** Without the unit, with a comma or with no dash the range is ignored. */
  lemma RangeIsIgnored(header: string, len: nat)
    ensures !("bytes=" <= Trim(header)) ==> ParseRange(Some(header), len) == Whole
    ensures "bytes=" <= Trim(header) && (',' in Trim(header) || '-' !in Trim(header)) ==>
      ParseRange(Some(header), len) == Whole
  {
    var trimmed := Trim(header);
    if "bytes=" <= trimmed {
      var i, j := TrimMeans(trimmed[6..]);
      var spec := Trim(trimmed[6..]);
      hide Trim, ParseSpec;
      assert spec == trimmed[6 + i..6 + j];
      forall k | 0 <= k < |trimmed| && trimmed[k] == ','
        ensures ',' in spec
      {
        assert trimmed[6..][k - 6] == ',' && spec[k - 6 - i] == ',';
      }
      assert forall k | 0 <= k < |spec| :: spec[k] == trimmed[6 + i + k];
    }
  }

  /** `a` and `b` are what stands before and after the first dash of the range. */
  predicate Parts(header: string, a: string, b: string) {
    && "bytes=" <= Trim(header) && Trim(Trim(header)[6..]) == a + "-" + b
    && '-' !in a && ',' !in a && ',' !in b
  }

  lemma PartsAreParsed(header: string, a: string, b: string, len: nat)
    requires Parts(header, a, b)
    ensures ParseRange(Some(header), len) == ParseSpec(Trim(a), Trim(b), len)
  {
    hide Trim, ParseSpec, IndexOf;
    FirstDash(a, b);
  }

  lemma FirstDash(a: string, b: string)
    requires '-' !in a && ',' !in a && ',' !in b
    ensures var spec := a + "-" + b;
      ',' !in spec && IndexOf(spec, '-') == Some(|a|) && spec[..|a|] == a && spec[|a| + 1..] == b
  {
    var spec := a + "-" + b;
    assert spec[|a|] == '-';
    assert forall k | 0 <= k < |a| :: spec[k] == a[k];
    hide IndexOf;
  }

  /** Every other header, by the texts before and after its first dash: ignored exactly if
      a position it looks at is no number or the last is before the first, refused exactly
      for an empty suffix, an empty file or a first past the end; otherwise the slice from
      the first to the last, cut to the file. */
  lemma RangeIsDecided(header: string, a: string, b: string, len: nat)
    requires Parts(header, a, b)
    ensures var first, last := Trim(a), Trim(b);
      var from, to := ParseU64(first), ParseU64(last);
      match ParseRange(Some(header), len)
      case Whole =>
        if first == "" then to == None
        else from == None || (from.value < len && last != "" && (to == None || to.value < from.value))
      case Unsatisfiable =>
        if first == "" then to.Some? && (to.value == 0 || len == 0) else from.Some? && len <= from.value
      case Slice(lo, hi) =>
        if first == "" then to.Some? && hi == len - 1 && lo == (if to.value < len then len - to.value else 0)
        else from == Some(lo) && (if last == "" then hi == len - 1
                                  else to.Some? && hi == if to.value < len then to.value else len - 1)
  {
    hide Trim, ParseU64, ParseRange;
    PartsAreParsed(header, a, b, len);
  }

  // --- what a well-formed range asks for (RFC 9110, section 14.1.2) -----------------

  /** The positions as the digits a client sends. */
  datatype Request = FromTo(first: string, last: string) | From(first: string) | Suffix(length: string)

  predicate WellFormed(q: Request) {
    match q
    case FromTo(a, b) => Number(a) && Number(b) && Value(a) <= Value(b)
    case From(a) => Number(a)
    case Suffix(n) => Number(n)
  }

  function Written(q: Request): string {
    match q
    case FromTo(a, b) => a + "-" + b
    case From(a) => a + "-"
    case Suffix(n) => "-" + n
  }

  /** Byte `i` of a file of `len` bytes is among those asked for. */
  predicate Asks(q: Request, len: nat, i: nat)
    requires WellFormed(q)
  {
    i < len &&
    match q
    case FromTo(a, b) => Value(a) <= i <= Value(b)
    case From(a) => Value(a) <= i
    case Suffix(n) => len - Value(n) <= i
  }

  /** The answer names exactly the bytes asked for, and refuses exactly when there are
      none. */
  ghost predicate Answers(r: RangeSpec, q: Request, len: nat)
    requires WellFormed(q)
  {
    match r
    case Whole => false
    case Unsatisfiable => forall i: nat :: !Asks(q, len, i)
    case Slice(first, last) => first <= last && forall i: nat :: first <= i <= last <==> Asks(q, len, i)
  }

  /** Every number the parser gets to look at fits in 64 bits. */
  predicate Fits(q: Request, len: nat)
    requires WellFormed(q)
  {
    match q
    case FromTo(a, b) => Value(a) < U64 && (Value(a) < len ==> Value(b) < U64)
    case From(a) => Value(a) < U64
    case Suffix(n) => Value(n) < U64
  }

  /** The two positions come back out of the text between them. */
  lemma SplitAtDash(first: string, last: string)
    requires AllDigits(first) && AllDigits(last)
    ensures var spec := first + "-" + last;
      Trim(spec) == spec && ',' !in spec && IndexOf(spec, '-') == Some(|first|)
      && Trim(spec[..|first|]) == first && Trim(spec[|first| + 1..]) == last
  {
    var spec := first + "-" + last;
    assert spec[|first|] == '-' && spec[..|first|] == first && spec[|first| + 1..] == last;
    assert forall k | 0 <= k < |first| :: spec[k] == first[k];
    assert forall k | |first| < k < |spec| :: spec[k] == last[k - |first| - 1];
    assert forall k | 0 <= k < |spec| && k != |first| :: IsDigit(spec[k]);
    TrimKeeps(spec);
    TrimKeeps(first);
    TrimKeeps(last);
  }

  lemma ParseWritten(first: string, last: string, header: string, len: nat)
    requires AllDigits(first) && AllDigits(last) && Trim(header) == "bytes=" + (first + "-" + last)
    ensures ParseRange(Some(header), len) == ParseSpec(first, last, len)
  {
    SplitAtDash(first, last);
    hide ParseSpec, Trim, IndexOf, AllDigits;
    assert ("bytes=" + (first + "-" + last))[6..] == first + "-" + last;
  }

  lemma ParseDigits(s: string)
    requires Number(s)
    ensures ParseU64(s) == if Value(s) < U64 then Some(Value(s)) else None
  {
    assert IsDigit(s[0]);
  }

  lemma FromToIsIntersection(a: string, b: string, len: nat)
    requires WellFormed(FromTo(a, b)) && len < U64
    ensures Answers(ParseSpec(a, b, len), FromTo(a, b), len) <==> Fits(FromTo(a, b), len)
    ensures !Fits(FromTo(a, b), len) ==> ParseSpec(a, b, len) == Whole
  {
    ParseDigits(a);
    ParseDigits(b);
    hide ParseU64, Value;
    if Value(a) < len {
      assert Asks(FromTo(a, b), len, Value(a));
    }
  }

  lemma FromIsIntersection(a: string, len: nat)
    requires WellFormed(From(a)) && len < U64
    ensures Answers(ParseSpec(a, "", len), From(a), len) <==> Fits(From(a), len)
    ensures !Fits(From(a), len) ==> ParseSpec(a, "", len) == Whole
  {
    ParseDigits(a);
    hide ParseU64, Value;
    if Value(a) < len {
      assert Asks(From(a), len, Value(a));
    }
  }

  lemma SuffixIsIntersection(n: string, len: nat)
    requires WellFormed(Suffix(n)) && len < U64
    ensures Answers(ParseSpec("", n, len), Suffix(n), len) <==> Fits(Suffix(n), len)
    ensures !Fits(Suffix(n), len) ==> ParseSpec("", n, len) == Whole
  {
    ParseDigits(n);
    hide ParseU64, Value;
    if len > 0 && Value(n) > 0 {
      assert Asks(Suffix(n), len, len - 1);
    }
  }

  /** A well-formed range is answered with the requested range cut to the file, and
      refused when that is empty, if and only if the numbers looked at fit in 64 bits;
      if they do not, the range is ignored. */
  lemma RangeIsIntersection(q: Request, header: string, len: nat)
    requires WellFormed(q) && Trim(header) == "bytes=" + Written(q) && len < U64
    ensures Answers(ParseRange(Some(header), len), q, len) <==> Fits(q, len)
    ensures !Fits(q, len) ==> ParseRange(Some(header), len) == Whole
  {
    hide ParseSpec, ParseRange, Answers, Fits, Trim;
    match q
    case FromTo(a, b) =>
      ParseWritten(a, b, header, len);
      FromToIsIntersection(a, b, len);
    case From(a) =>
      assert Written(q) == a + "-" + "";
      ParseWritten(a, "", header, len);
      FromIsIntersection(a, len);
    case Suffix(n) =>
      assert Written(q) == "" + "-" + n;
      ParseWritten("", n, header, len);
      SuffixIsIntersection(n, len);
  }

  // --- stream_body -----------------------------------------------------------------

  const CHUNK_BYTES: nat := 65536

  type Most = n: int | 1 <= n witness 1

  /** What one read meets: how long the file is by then and the most the system hands
      over at once. */
  datatype Turn = Turn(size: nat, most: Most)

  /** A read of the file into `buf[..want]`, from `pos`. */
  method ReadInto(file: seq<Byte>, turn: Turn, pos: nat, buf: array<Byte>, want: nat) returns (n: nat)
    requires want <= buf.Length
    modifies buf
    ensures n == Min(Min(want, turn.most), if pos < Min(turn.size, |file|) then Min(turn.size, |file|) - pos else 0)
    ensures pos + n <= |file| || n == 0
    ensures n > 0 ==> buf[..n] == file[pos..pos + n]
  {
    var size := Min(turn.size, |file|);
    n := Min(Min(want, turn.most), if pos < size then size - pos else 0);
    for i := 0 to n
      invariant n > 0 ==> buf[..i] == file[pos..pos + i]
    {
      buf[i] := file[pos + i];
    }
  }

  /** For every schedule of short reads the bytes written are exactly the slice, as long
      as no read finds the file cut short of its end; if one does, they are a prefix of
      the slice, up to where that read found the end. */
  method StreamBody(file: seq<Byte>, start: nat, count: nat, turns: nat -> Turn) returns (sent: seq<Byte>)
    requires start + count <= |file|
    ensures |sent| <= count && sent == file[start..start + |sent|]
    ensures (forall k: nat :: start + count <= turns(k).size) ==> sent == file[start..start + count]
    ensures |sent| < count ==> exists k: nat :: k <= |sent| && turns(k).size <= start + |sent|
  {
    sent := [];
    var remaining := count;
    var buf := new Byte[CHUNK_BYTES](_ => 0);
    var turn := 0;
    while remaining > 0
      invariant |sent| + remaining == count && sent == file[start..start + |sent|]
      invariant turn <= |sent|
      decreases remaining
    {
      var want := Min(remaining, CHUNK_BYTES);
      var n := ReadInto(file, turns(turn), start + |sent|, buf, want);
      if n == 0 {
        assert turns(turn).size <= start + |sent|;
        break;
      }
      assert file[start..start + |sent|] + file[start + |sent|..start + |sent| + n]
          == file[start..start + |sent| + n];
      sent := sent + buf[..n];
      remaining := remaining - n;
      turn := turn + 1;
    }
  }

  /** What goes out for a `GET`: the status, the declared length and the body. */
  datatype Reply = Reply(status: nat, declared: nat, body: seq<Byte>)

  /** The three answers of `serve`. The inclusive count is a 64-bit number and is the
      length of the body, unless the file shrinks while it is streamed. */
  method Serve(header: Option<string>, bodyWanted: bool, file: seq<Byte>, turns: nat -> Turn) returns (r: Reply)
    requires |file| < U64
    ensures r.declared < U64
    ensures bodyWanted && (forall k: nat :: |file| <= turns(k).size) ==> |r.body| == r.declared
    ensures !bodyWanted ==> r.body == []
    ensures header.None? ==> r.status == 200 && r.declared == |file| && (|r.body| == r.declared ==> r.body == file)
    ensures match ParseRange(header, |file|)
            case Unsatisfiable => r == Reply(416, 0, [])
            case Whole => r.status == 200 && r.declared == |file| && r.body <= file
            case Slice(first, last) =>
              && r.status == 206 && r.declared == |file[first..last + 1]| && r.body <= file[first..last + 1]
  {
    NoRangeIsWhole(|file|);
    hide ParseRange;
    match ParseRange(header, |file|)
    case Unsatisfiable =>
      r := Reply(416, 0, []);
    case Whole =>
      var body := [];
      if bodyWanted && |file| > 0 {
        body := StreamBody(file, 0, |file|, turns);
      }
      assert file[0..|file|] == file;
      r := Reply(200, |file|, body);
    case Slice(first, last) =>
      r := ServeSlice(first, last, bodyWanted, file, turns);
  }

  method ServeSlice(first: nat, last: nat, bodyWanted: bool, file: seq<Byte>, turns: nat -> Turn) returns (r: Reply)
    requires first <= last < |file|
    ensures r.status == 206 && r.declared == |file[first..last + 1]| && r.body <= file[first..last + 1]
    ensures bodyWanted && (forall k: nat :: |file| <= turns(k).size) ==> |r.body| == r.declared
    ensures !bodyWanted ==> r.body == []
  {
    var count := last - first + 1;
    var body := [];
    if bodyWanted {
      body := StreamBody(file, first, count, turns);
    }
    r := Reply(206, count, body);
  }

  // --- read_head -------------------------------------------------------------------

  const MAX_HEAD_BYTES: nat := 8192
  const READ_BYTES: nat := 2048

  /** CR LF CR LF. */
  predicate EmptyLineAt(s: seq<Byte>, k: nat) {
    k + 4 <= |s| && s[k] == 13 && s[k + 1] == 10 && s[k + 2] == 13 && s[k + 3] == 10
  }

  /** Where the first empty line of `s` begins. */
  function FindEnd(s: seq<Byte>, from: nat): (p: Option<nat>)
    ensures p.Some? ==> from <= p.value && EmptyLineAt(s, p.value)
    ensures forall k: nat | from <= k && (p.Some? ==> k < p.value) :: !EmptyLineAt(s, k)
    decreases |s| - from
  {
    if from + 4 > |s| then None
    else if EmptyLineAt(s, from) then Some(from)
    else FindEnd(s, from + 1)
  }

  /** It is where CR LF CR LF first stands. */
  lemma FindEndMeans(s: seq<Byte>, k: nat)
    requires k + 4 <= |s| && s[k..k + 4] == [13, 10, 13, 10]
    ensures FindEnd(s, 0).Some? && FindEnd(s, 0).value <= k
    ensures var p := FindEnd(s, 0).value; p + 4 <= |s| && s[p..p + 4] == [13, 10, 13, 10]
  {
    assert s[k] == s[k..k + 4][0] && s[k + 1] == s[k..k + 4][1] && s[k + 2] == s[k..k + 4][2];
    assert s[k + 3] == s[k..k + 4][3];
    assert EmptyLineAt(s, k);
  }

  function Received(parts: seq<seq<Byte>>): seq<Byte> {
    if parts == [] then [] else Received(parts[..|parts| - 1]) + parts[|parts| - 1]
  }

  /** A way the stream can arrive: no read is empty or longer than the read buffer. */
  predicate Segments(parts: seq<seq<Byte>>) {
    forall k | 0 <= k < |parts| :: 1 <= |parts[k]| <= READ_BYTES
  }

  /** Where the `k`-th read ended. */
  function Cut(parts: seq<seq<Byte>>, k: nat): nat
    requires k <= |parts|
  {
    |Received(parts[..k])|
  }

  /** Every read that ended before `end` ended below the cap. */
  predicate StaysUnderCap(parts: seq<seq<Byte>>, end: nat) {
    forall k | 0 <= k <= |parts| && Cut(parts, k) < end :: Cut(parts, k) < MAX_HEAD_BYTES
  }

  /** The head, said of the whole stream: what precedes its first empty line, if no read
      before the end of that line stopped at the cap or past it. */
  function Head(parts: seq<seq<Byte>>): Option<seq<Byte>> {
    match FindEnd(Received(parts), 0)
    case None => None
    case Some(p) => if StaysUnderCap(parts, p + 4) then Some(Received(parts)[..p]) else None
  }

  lemma {:induction false} ReceivedPrefix(parts: seq<seq<Byte>>, j: nat, k: nat)
    requires j <= k <= |parts|
    ensures Received(parts[..j]) <= Received(parts[..k])
    decreases k - j
  {
    if j < k {
      ReceivedPrefix(parts, j, k - 1);
      assert parts[..k][..k - 1] == parts[..k - 1];
    }
  }

  lemma EndInPrefix(part: seq<Byte>, whole: seq<Byte>)
    requires part <= whole
    ensures match FindEnd(part, 0)
            case Some(p) => FindEnd(whole, 0) == Some(p) && whole[..p] == part[..p]
            case None => match FindEnd(whole, 0) case None => true case Some(p) => |part| < p + 4
  {
    var inPart, inWhole := FindEnd(part, 0), FindEnd(whole, 0);
    assert forall k: nat | k + 4 <= |part| :: EmptyLineAt(part, k) == EmptyLineAt(whole, k);
  }

  /** The loop returns that head, and its buffer never grows past
      `MAX_HEAD_BYTES - 1 + READ_BYTES`. The end of `parts` is the end of the stream;
      `decode` is the text of the bytes, if they are one. */
  method ReadHead(parts: seq<seq<Byte>>, decode: seq<Byte> -> Option<string>)
      returns (result: Option<string>, ghost held: nat)
    requires Segments(parts)
    ensures result == match Head(parts) case None => None case Some(bytes) => decode(bytes)
    ensures held <= MAX_HEAD_BYTES - 1 + READ_BYTES
  {
    var head: seq<Byte> := [];
    var k := 0;
    held := 0;
    assert parts[..|parts|] == parts;
    while true
      invariant k <= |parts| && head == Received(parts[..k]) && held == |head| <= MAX_HEAD_BYTES - 1 + READ_BYTES
      invariant forall j | 0 <= j < k :: Cut(parts, j) < MAX_HEAD_BYTES
      decreases |parts| - k
    {
      ReceivedPrefix(parts, k, |parts|);
      EndInPrefix(head, Received(parts));
      var end := FindEnd(head, 0);
      if end.Some? {
        forall j | 0 <= j <= |parts| && Cut(parts, j) < end.value + 4
          ensures Cut(parts, j) < MAX_HEAD_BYTES
        {
          if k <= j {
            ReceivedPrefix(parts, k, j);
          }
        }
        result := decode(head[..end.value]);
        return;
      }
      if |head| >= MAX_HEAD_BYTES {
        assert Cut(parts, k) >= MAX_HEAD_BYTES;
        result := None;
        return;
      }
      if k == |parts| {
        result := None;
        return;
      }
      assert parts[..k + 1][..k] == parts[..k];
      head := head + parts[k];
      held := |head|;
      k := k + 1;
    }
  }

  /** The read under way when the first `n` bytes are complete began less than a buffer
      before. */
  lemma {:induction false} LastCutBefore(parts: seq<seq<Byte>>, n: nat) returns (k: nat)
    requires Segments(parts) && 0 < n <= |Received(parts)|
    ensures k <= |parts| && Cut(parts, k) < n <= Cut(parts, k) + READ_BYTES
    decreases |parts|
  {
    var init := parts[..|parts| - 1];
    if |Received(init)| < n {
      k := |init|;
      assert parts[..k] == init;
    } else {
      k := LastCutBefore(init, n);
      assert init[..k] == parts[..k];
    }
  }

  /** Between the bounds it is the reads that decide: there is a head if and only if no read
      ended from the cap on to just before the end of the first empty line. */
  lemma HeadIsExact(parts: seq<seq<Byte>>, p: nat)
    requires FindEnd(Received(parts), 0) == Some(p)
    ensures p + 4 <= |Received(parts)|
    ensures Head(parts) == Some(Received(parts)[..p]) || Head(parts) == None
    ensures Head(parts) == None
       <==> exists k :: 0 <= k <= |parts| && 8192 <= |Received(parts[..k])| < p + 4
  {
    assert forall k | 0 <= k <= |parts| :: Cut(parts, k) == |Received(parts[..k])|;
    if !StaysUnderCap(parts, p + 4) {
      var k :| 0 <= k <= |parts| && Cut(parts, k) < p + 4 && Cut(parts, k) >= MAX_HEAD_BYTES;
      assert 8192 <= |Received(parts[..k])| < p + 4;
    }
  }

  /** Segmentation independence: a head that ends within the cap is returned the same
      however the stream was split; one that ends past the cap and a read is always
      refused; and without an empty line there is no head. */
  lemma SegmentationIndependence(parts: seq<seq<Byte>>)
    requires Segments(parts)
    ensures var stream := Received(parts);
      match FindEnd(stream, 0)
      case None => Head(parts) == None
      case Some(p) =>
        && (p + 4 <= 8192 ==> Head(parts) == Some(stream[..p]))
        && (p + 4 > 8191 + 2048 ==> Head(parts) == None)
  {
    match FindEnd(Received(parts), 0)
    case None =>
    case Some(p) =>
      if p + 4 > MAX_HEAD_BYTES - 1 + READ_BYTES {
        var k := LastCutBefore(parts, p + 4);
        assert Cut(parts, k) >= MAX_HEAD_BYTES;
      }
  }
}
