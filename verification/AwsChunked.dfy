/** Decoding an aws-chunked body, whatever sizes it is read in and wherever it is
    cut short. */
module AwsChunked {
  import opened Bytes
  import opened Wrappers

  const MAX_LINE := 8192
  const MAX_SIZE_DIGITS := 16
  const MAX_CHUNK := 1073741824
  const MAX_TRAILERS := 16
  const MAX_TRAILER_LINES := MAX_TRAILERS + 1
  const MAX_TRAILER_BYTES := 8192

  const CR: byte := 13
  const LF: byte := 10
  const SEMICOLON: byte := 59
  const COLON: byte := 58
  const CRLF: seq<byte> := [13, 10]
  /** "x-amz-trailer-signature" */
  const TRAILER_SIGNATURE: seq<byte> :=
    [120, 45, 97, 109, 122, 45, 116, 114, 97, 105, 108, 101, 114, 45, 115, 105, 103, 110, 97, 116, 117, 114, 101]

  // ---------------------------------------------------------------------
  // Lines
  // ---------------------------------------------------------------------

  function TrimEnd(s: seq<byte>): seq<byte> {
    if s != [] && (s[|s| - 1] == CR || s[|s| - 1] == LF) then TrimEnd(s[..|s| - 1]) else s
  }

  lemma {:induction false} TrimEndTrims(s: seq<byte>)
    ensures IsPrefix(TrimEnd(s), s) && forall i :: |TrimEnd(s)| <= i < |s| ==> s[i] == 13 || s[i] == 10
    ensures TrimEnd(s) != [] ==> TrimEnd(s)[|TrimEnd(s)| - 1] != 13 && TrimEnd(s)[|TrimEnd(s)| - 1] != 10
  {
    if s != [] && (s[|s| - 1] == 13 || s[|s| - 1] == 10) {
      TrimEndTrims(s[..|s| - 1]);
    }
  }

  predicate IsSpace(b: byte) {
    b == 32 || 9 <= b <= 13
  }

  function TrimSpace(s: seq<byte>): seq<byte> {
    if s != [] && IsSpace(s[0]) then TrimSpace(s[1..])
    else if s != [] && IsSpace(s[|s| - 1]) then TrimSpace(s[..|s| - 1])
    else s
  }

  /** t is s without the blank bytes it begins and ends with. */
  ghost predicate Trimmed(s: seq<byte>, t: seq<byte>) {
    exists a: nat, b: nat :: TrimmedAt(s, t, a, b)
  }

  predicate TrimmedAt(s: seq<byte>, t: seq<byte>, a: nat, b: nat) {
    && a <= b <= |s| && t == s[a..b]
    && (forall i :: 0 <= i < |s| && !(a <= i < b) ==> s[i] == 32 || 9 <= s[i] <= 13)
    && (a < b ==> s[a] != 32 && !(9 <= s[a] <= 13) && s[b - 1] != 32 && !(9 <= s[b - 1] <= 13))
  }

  lemma TrimmedFront(s: seq<byte>, t: seq<byte>, a: nat, b: nat)
    requires s != [] && IsSpace(s[0]) && TrimmedAt(s[1..], t, a, b)
    ensures TrimmedAt(s, t, a + 1, b + 1)
  {
    assert s[1..][a..b] == s[a + 1..b + 1];
    assert forall i :: 1 <= i < |s| ==> s[i] == s[1..][i - 1];
  }

  lemma TrimmedBack(s: seq<byte>, t: seq<byte>, a: nat, b: nat)
    requires s != [] && IsSpace(s[|s| - 1]) && TrimmedAt(s[..|s| - 1], t, a, b)
    ensures TrimmedAt(s, t, a, b)
  {
    assert s[..|s| - 1][a..b] == s[a..b];
    assert forall i :: 0 <= i < |s| - 1 ==> s[i] == s[..|s| - 1][i];
  }

  lemma {:induction false} TrimSpaceTrims(s: seq<byte>)
    ensures Trimmed(s, TrimSpace(s))
  {
    if s != [] && IsSpace(s[0]) {
      TrimSpaceTrims(s[1..]);
      var a: nat, b: nat :| TrimmedAt(s[1..], TrimSpace(s[1..]), a, b);
      TrimmedFront(s, TrimSpace(s[1..]), a, b);
    } else if s != [] && IsSpace(s[|s| - 1]) {
      TrimSpaceTrims(s[..|s| - 1]);
      var a: nat, b: nat :| TrimmedAt(s[..|s| - 1], TrimSpace(s[..|s| - 1]), a, b);
      TrimmedBack(s, TrimSpace(s[..|s| - 1]), a, b);
    } else {
      assert TrimmedAt(s, s, 0, |s|);
    }
  }

  /** Trimming is what TrimSpace does, and only that. */
  lemma TrimSpaceIffTrimmed(s: seq<byte>, t: seq<byte>)
    ensures Trimmed(s, t) <==> t == TrimSpace(s)
  {
    TrimSpaceTrims(s);
    if Trimmed(s, t) {
      var a: nat, b: nat :| TrimmedAt(s, t, a, b);
      var c: nat, d: nat :| TrimmedAt(s, TrimSpace(s), c, d);
      TrimmedOnce(s, t, a, b, TrimSpace(s), c, d);
    }
  }

  lemma TrimmedOnce(s: seq<byte>, t: seq<byte>, a: nat, b: nat, u: seq<byte>, c: nat, d: nat)
    requires TrimmedAt(s, t, a, b) && TrimmedAt(s, u, c, d)
    ensures t == u
  {
    assert a < b ==> c <= a && b <= d;
    assert c < d ==> a <= c && d <= b;
  }

  /** What reading a line finds: nothing left, a line that fills the buffer, or a
      line, without its terminator, and how many bytes it took. */
  datatype Line = AtEnd | TooLong | Line(text: seq<byte>, taken: nat)

  /** One line of s. A last line without its terminator is still a line. */
  function LineOf(s: seq<byte>): (l: Line)
    ensures l.Line? ==> 0 < l.taken <= |s|
    ensures l.AtEnd? <==> s == []
  {
    var k := Index(s, LF);
    if s == [] then AtEnd
    else if k < |s| && k < MAX_LINE then Line(TrimEnd(s[..k + 1]), k + 1)
    else if |s| >= MAX_LINE then TooLong
    else Line(TrimEnd(s), |s|)
  }

  /** What a reader that cuts its source into lines in place sees: it looks no further
      than its buffer. */
  method ReadLine(s: seq<byte>) returns (l: Line)
    ensures l == LineOf(s)
    ensures l.AtEnd? <==> s == []
    ensures l.TooLong? <==> |s| >= 8192 && forall j :: 0 <= j < 8192 ==> s[j] != 10
    ensures l.Line? ==>
      && 0 < l.taken <= |s| && l.text == TrimEnd(s[..l.taken])
      && (forall j :: 0 <= j < l.taken - 1 ==> s[j] != 10) && (s[l.taken - 1] != 10 ==> l.taken == |s|)
  {
    if |s| == 0 { return AtEnd; }
    var n := if |s| < MAX_LINE then |s| else MAX_LINE;
    for i := 0 to n
      invariant forall j :: 0 <= j < i ==> s[j] != LF
    {
      if s[i] == LF {
        return Line(TrimEnd(s[..i + 1]), i + 1);
      }
    }
    if n == MAX_LINE { return TooLong; }
    assert s[..|s|] == s;
    l := Line(TrimEnd(s), |s|);
  }

  // ---------------------------------------------------------------------
  // Chunk headers
  // ---------------------------------------------------------------------

  function HexValue(b: byte): (r: Option<int>)
    ensures r.Some? <==> 48 <= b <= 57 || 65 <= b <= 70 || 97 <= b <= 102
  {
    if 48 <= b <= 57 then Some(b - 48)
    else if 97 <= b <= 102 then Some(b - 87)
    else if 65 <= b <= 70 then Some(b - 55)
    else None
  }

  function HexNumber(s: seq<byte>): (r: Option<nat>) {
    if s == [] then Some(0)
    else
      match (HexNumber(s[..|s| - 1]), HexValue(s[|s| - 1]))
      case (Some(high), Some(low)) => Some(16 * high + low)
      case _ => None
  }

  /** The number a signed hexadecimal numeral spells, if it is one. */
  function SignedHex(s: seq<byte>): Option<int> {
    if s == [] then None
    else if s[0] == 43 || s[0] == 45 then
      if |s| == 1 || HexNumber(s[1..]).None? then None
      else Some(if s[0] == 45 then 0 - HexNumber(s[1..]).value as int else HexNumber(s[1..]).value as int)
    else if HexNumber(s).None? then None else Some(HexNumber(s).value)
  }

  /** The chunk size a header line declares, before any extension, if it is in bounds. */
  function HeaderSize(line: seq<byte>): (r: Option<nat>)
    ensures r.Some? ==> r.value <= MAX_CHUNK
  {
    var field := TrimSpace(line[..Index(line, SEMICOLON)]);
    if field == [] || |field| > MAX_SIZE_DIGITS then None
    else
      match SignedHex(field)
      case None => None
      case Some(n) => if 0 <= n <= MAX_CHUNK then Some(n) else None
  }

  function HexDigit(d: nat, upper: bool): byte
    requires d < 16
  {
    if d < 10 then 48 + d else if upper then 55 + d else 87 + d
  }

  /** How a chunk size is written, in digits of either case. */
  function HexOf(n: nat, upper: bool): (s: seq<byte>)
    ensures s != [] && forall i :: 0 <= i < |s| ==> HexValue(s[i]).Some? && s[i] >= 48
  {
    if n < 16 then [HexDigit(n, upper)] else HexOf(n / 16, upper) + [HexDigit(n % 16, upper)]
  }

  lemma {:induction false} HexReads(n: nat, upper: bool)
    ensures HexNumber(HexOf(n, upper)) == Some(n)
  {
    DigitReads(n % 16, upper);
    if n < 16 {
      assert HexOf(n, upper)[..0] == [];
    } else {
      HexReads(n / 16, upper);
      HexNumberSnoc(HexOf(n / 16, upper), HexDigit(n % 16, upper));
    }
  }

  lemma HexNumberSnoc(s: seq<byte>, b: byte)
    requires HexNumber(s).Some? && HexValue(b).Some?
    ensures HexNumber(s + [b]) == Some(16 * HexNumber(s).value + HexValue(b).value)
  {
    assert (s + [b])[..|s|] == s;
  }

  lemma DigitReads(d: nat, upper: bool)
    requires d < 16
    ensures HexValue(HexDigit(d, upper)) == Some(d)
  {
  }

  lemma {:induction false} HexLength(n: nat, upper: bool, digits: nat, limit: nat)
    requires 0 < digits && n < limit && limit == Power16(digits)
    ensures |HexOf(n, upper)| <= digits
  {
    if n >= 16 {
      HexLength(n / 16, upper, digits - 1, Power16(digits - 1));
    }
  }

  function Power16(k: nat): nat {
    if k == 0 then 1 else 16 * Power16(k - 1)
  }

  lemma EightDigits(n: nat, upper: bool)
    requires n <= 1073741824
    ensures |HexOf(n, upper)| <= 8
  {
    assert Power16(4) == 65536;
    assert Power16(8) == 16 * (16 * (16 * (16 * Power16(4))));
    HexLength(n, upper, 8, Power16(8));
  }

  /** What a header line with this size field is read as. */
  lemma FieldReads(line: seq<byte>, field: seq<byte>)
    requires field == line[..Index(line, SEMICOLON)] && field != []
    requires !IsSpace(field[0]) && !IsSpace(field[|field| - 1])
    ensures HeaderSize(line) ==
      match SignedHex(field)
      case None => None
      case Some(n) => if |field| <= 16 && 0 <= n <= 1073741824 then Some(n) else None
  {
    assert TrimSpace(field) == field;
  }

  /** Hexadecimal digits, perhaps after a sign, are the number they spell. */
  lemma SignedReads(sign: seq<byte>, digits: seq<byte>, n: nat)
    requires sign == [] || sign == [43] || sign == [45]
    requires digits != [] && digits[0] >= 48 && HexNumber(digits) == Some(n)
    ensures SignedHex(sign + digits) == Some(if sign == [45] then 0 - n as int else n as int)
  {
    if sign == [] {
      assert sign + digits == digits;
    } else {
      assert (sign + digits)[1..] == digits;
    }
  }

  lemma FieldOf(digits: seq<byte>, extension: seq<byte>)
    requires SEMICOLON !in digits
    ensures digits == digits[..Index(digits, SEMICOLON)]
    ensures var line := digits + [SEMICOLON] + extension; digits == line[..Index(line, SEMICOLON)]
  {
    var line := digits + [SEMICOLON] + extension;
    assert forall j :: 0 <= j < |digits| ==> line[j] == digits[j];
    IndexIs(line, SEMICOLON, 0, |digits|);
  }

  /** A size written in hexadecimal, in either case, with an extension or without, is
      what its header is read as, up to 2^30; a larger one is refused. */
  lemma SizeReads(n: nat, upper: bool, extension: seq<byte>)
    ensures HeaderSize(HexOf(n, upper)) == if n <= 1073741824 then Some(n) else None
    ensures HeaderSize(HexOf(n, upper) + [59] + extension) == if n <= 1073741824 then Some(n) else None
  {
    var digits := HexOf(n, upper);
    assert HexValue(SEMICOLON).None?;
    FieldOf(digits, extension);
    HexReads(n, upper);
    if n <= 1073741824 {
      EightDigits(n, upper);
    }
    SignedReads([], digits, n);
    assert [] + digits == digits;
    FieldReads(digits, digits);
    FieldReads(digits + [SEMICOLON] + extension, digits);
  }

  /** A sign is read, and only zero may be negative. */
  lemma SignedSizeReads(n: nat, upper: bool)
    requires n <= 1073741824
    ensures HeaderSize([43] + HexOf(n, upper)) == Some(n)
    ensures HeaderSize([45] + HexOf(n, upper)) == if n == 0 then Some(0) else None
  {
    var digits := HexOf(n, upper);
    assert HexValue(SEMICOLON).None?;
    FieldOf([43] + digits, []);
    FieldOf([45] + digits, []);
    HexReads(n, upper);
    EightDigits(n, upper);
    SignedReads([43], digits, n);
    SignedReads([45], digits, n);
    FieldReads([43] + digits, [43] + digits);
    FieldReads([45] + digits, [45] + digits);
  }

  /** Zeros before the digits change nothing, as long as there are 16 digits at most. */
  lemma {:induction false} LeadingZeros(digits: seq<byte>, n: nat, zeros: nat)
    requires HexNumber(digits) == Some(n)
    ensures HexNumber(seq(zeros, _ => 48) + digits) == Some(n)
    decreases |digits| + zeros
  {
    var s := seq(zeros, _ => 48) + digits;
    if digits != [] {
      assert s[..|s| - 1] == seq(zeros, _ => 48) + digits[..|digits| - 1];
      LeadingZeros(digits[..|digits| - 1], HexNumber(digits[..|digits| - 1]).value, zeros);
    } else if zeros > 0 {
      assert s[..|s| - 1] == seq(zeros - 1, _ => 48) + digits;
      LeadingZeros(digits, 0, zeros - 1);
    }
  }

  /** So padded, a size is read up to 16 digits in all. */
  lemma PaddedSizeReads(n: nat, upper: bool, zeros: nat)
    ensures HeaderSize(seq(zeros, _ => 48) + HexOf(n, upper)) ==
      if zeros + |HexOf(n, upper)| <= 16 && n <= 1073741824 then Some(n) else None
  {
    var digits := seq(zeros, _ => 48 as byte) + HexOf(n, upper);
    HexReads(n, upper);
    LeadingZeros(HexOf(n, upper), n, zeros);
    DigitsRead(digits, n);
  }

  lemma DigitsRead(digits: seq<byte>, n: nat)
    requires digits != [] && (forall i :: 0 <= i < |digits| ==> digits[i] >= 48 && HexValue(digits[i]).Some?)
    requires HexNumber(digits) == Some(n)
    ensures HeaderSize(digits) == if |digits| <= 16 && n <= 1073741824 then Some(n) else None
  {
    assert HexValue(SEMICOLON).None?;
    FieldOf(digits, []);
    SignedReads([], digits, n);
    assert [] + digits == digits;
    FieldReads(digits, digits);
  }

  // ---------------------------------------------------------------------
  // Trailers
  // ---------------------------------------------------------------------

  function LowerByte(b: byte): byte {
    if 65 <= b <= 90 then b + 32 else b
  }

  function Lower(s: seq<byte>): (r: seq<byte>)
    ensures |r| == |s| && forall i :: 0 <= i < |s| ==> r[i] == if 65 <= s[i] <= 90 then s[i] + 32 else s[i]
  {
    seq(|s|, i requires 0 <= i < |s| => LowerByte(s[i]))
  }

  type TrailerMap = map<seq<byte>, seq<byte>>

  /** Trailers as far as they have been read. */
  datatype Trailers = Trailers(found: TrailerMap, lines: nat, size: nat)

  /** The trailers with one more line, unless the line may not be there. */
  function AddTrailer(t: Trailers, line: seq<byte>, allowed: bool): Option<Trailers> {
    var lines, size := t.lines + 1, t.size + |line|;
    var k := Index(line, COLON);
    if !allowed || lines > MAX_TRAILER_LINES || size > MAX_TRAILER_BYTES || k == |line| then None
    else
      var name := Lower(TrimSpace(line[..k]));
      if name == TRAILER_SIGNATURE then Some(Trailers(t.found, lines, size))
      else if |t.found| == MAX_TRAILERS then None
      else Some(Trailers(t.found[name := TrimSpace(line[k + 1..])], lines, size))
  }

  /** The trailers in s, up to a blank line or the end, and what follows. */
  function TrailersOf(s: seq<byte>, t: Trailers, allowed: bool): (r: Option<TrailerMap>)
    decreases |s|
  {
    match LineOf(s)
    case AtEnd => Some(t.found)
    case TooLong => None
    case Line(text, taken) =>
      if TrimSpace(text) == [] then Some(t.found)
      else
        match AddTrailer(t, text, allowed)
        case None => None
        case Some(more) => TrailersOf(s[taken..], more, allowed)
  }

  const NO_TRAILERS := Trailers(map[], 0, 0)

  /** At most 16 trailers are kept, never the signature, and none where none may be. */
  predicate Bounded(found: TrailerMap, allowed: bool) {
    |found| <= MAX_TRAILERS && TRAILER_SIGNATURE !in found && (!allowed ==> found == map[])
  }

  /** However many trailers a body announces, what is kept of them is bounded. */
  lemma {:induction false} TrailersAreBounded(s: seq<byte>, t: Trailers, allowed: bool)
    requires Bounded(t.found, allowed)
    ensures TrailersOf(s, t, allowed).Some? ==> Bounded(TrailersOf(s, t, allowed).value, allowed)
    decreases |s|
  {
    match LineOf(s)
    case AtEnd =>
    case TooLong =>
    case Line(text, taken) =>
      if TrimSpace(text) != [] {
        var more := AddTrailer(t, text, allowed);
        if more.Some? {
          AddedIsBounded(t, text, allowed);
          TrailersAreBounded(s[taken..], more.value, allowed);
        }
      }
  }

  lemma AddedIsBounded(t: Trailers, line: seq<byte>, allowed: bool)
    requires Bounded(t.found, allowed) && AddTrailer(t, line, allowed).Some?
    ensures Bounded(AddTrailer(t, line, allowed).value.found, allowed)
  {
    var found := AddTrailer(t, line, allowed).value.found;
    if found != t.found {
      var name :| name in found && found == t.found[name := found[name]];
      assert found.Keys == t.found.Keys + {name};
      assert |t.found| == |t.found.Keys| && |found| == |found.Keys|;
    }
  }

  // ---------------------------------------------------------------------
  // The body as a whole
  // ---------------------------------------------------------------------

  datatype End = Eof(trailers: TrailerMap) | Failed

  /** All that a body decodes to, and how it ends. */
  datatype Decoded = Decoded(out: seq<byte>, end: End)

  /** What the body holds. An end between a chunk's data and its CRLF looks like a
      clean one. */
  function Decode(s: seq<byte>, allowed: bool): (d: Decoded)
    decreases |s|, 0
  {
    match LineOf(s)
    case AtEnd => Decoded([], Failed)
    case TooLong => Decoded([], Failed)
    case Line(text, taken) =>
      match HeaderSize(text)
      case None => Decoded([], Failed)
      case Some(n) =>
        if n > 0 then DecodeData(s[taken..], n, allowed)
        else
          match TrailersOf(s[taken..], NO_TRAILERS, allowed)
          case None => Decoded([], Failed)
          case Some(trailers) => Decoded([], Eof(trailers))
  }

  /** What is left of the body when n bytes of a chunk's data come next. */
  function DecodeData(s: seq<byte>, n: nat, allowed: bool): (d: Decoded)
    decreases |s|, 1
  {
    if |s| < n then Decoded(s, Failed)
    else
      var after := DecodeAfter(s[n..], allowed);
      Decoded(s[..n] + after.out, after.end)
  }

  /** What is left of the body when the CRLF after a chunk's data comes next. */
  function DecodeAfter(s: seq<byte>, allowed: bool): (d: Decoded)
    decreases |s|, 0
  {
    match LineOf(s)
    case AtEnd => Decoded([], Eof(map[]))
    case TooLong => Decoded([], Failed)
    case Line(text, taken) => if text != [] then Decoded([], Failed) else Decode(s[taken..], allowed)
  }

  /** What is decoded in all, with what was served before. */
  function After(served: seq<byte>, d: Decoded): Decoded {
    Decoded(served + d.out, d.end)
  }

  /** Reading part of a chunk's data leaves the rest of it to come. */
  lemma DataSplits(s: seq<byte>, n: nat, k: nat, allowed: bool)
    requires k <= n && k <= |s|
    ensures DecodeData(s, n, allowed).out == s[..k] + DecodeData(s[k..], n - k, allowed).out
    ensures DecodeData(s, n, allowed).end == DecodeData(s[k..], n - k, allowed).end
  {
    if |s| < n {
      assert s == s[..k] + s[k..];
    } else {
      assert s[k..][..n - k] == s[k..n] && s[k..][n - k..] == s[n..];
      AppendAssoc(s[..k], s[k..n], DecodeAfter(s[n..], allowed).out);
      assert s[..n] == s[..k] + s[k..n];
    }
  }

  lemma TakesData(served: seq<byte>, s: seq<byte>, n: nat, k: nat, allowed: bool)
    requires k <= n && k <= |s|
    ensures served + DecodeData(s, n, allowed).out == served + s[..k] + DecodeData(s[k..], n - k, allowed).out
    ensures DecodeData(s, n, allowed).end == DecodeData(s[k..], n - k, allowed).end
  {
    DataSplits(s, n, k, allowed);
    AppendAssoc(served, s[..k], DecodeData(s[k..], n - k, allowed).out);
  }

  // ---------------------------------------------------------------------
  // Reading it a piece at a time
  // ---------------------------------------------------------------------

  method ReadHeaderSize(line: seq<byte>) returns (size: Option<nat>)
    ensures size == HeaderSize(line)
  {
    var field := TrimSpace(line[..Index(line, SEMICOLON)]);
    if field == [] { return None; }
    if |field| > MAX_SIZE_DIGITS { return None; }
    var parsed := SignedHex(field);
    if parsed.None? { return None; }
    if parsed.value < 0 || parsed.value > MAX_CHUNK { return None; }
    return Some(parsed.value);
  }

  method ConsumeTrailers(s: seq<byte>, allowed: bool) returns (found: Option<TrailerMap>)
    ensures found == TrailersOf(s, NO_TRAILERS, allowed)
    ensures found.Some? ==> Bounded(found.value, allowed)
  {
    TrailersAreBounded(s, NO_TRAILERS, allowed);
    var rest, t := s, NO_TRAILERS;
    while true
      invariant TrailersOf(s, NO_TRAILERS, allowed) == TrailersOf(rest, t, allowed)
      decreases |rest|
    {
      var line := ReadLine(rest);
      match line
      case AtEnd => return Some(t.found);
      case TooLong => return None;
      case Line(text, taken) =>
        if TrimSpace(text) == [] { return Some(t.found); }
        var more := AddTrailer(t, text, allowed);
        if more.None? { return None; }
        rest, t := rest[taken..], more.value;
    }
  }

  datatype ReadError = Clean | Broken

  predicate EmptyLine(s: seq<byte>) {
    LineOf(s).Line? && LineOf(s).text == []
  }

  class ChunkedReader {
    const allowed: bool
    ghost const body: seq<byte>
    var rest: seq<byte>
    var remaining: nat
    var trailers: TrailerMap
    var done: bool
    var err: Option<ReadError>
    ghost var served: seq<byte>

    /** What is still to come. */
    ghost function Pending(): Decoded
      reads this
    {
      match err
      case Some(Clean) => Decoded([], Eof(map[]))
      case Some(Broken) => Decoded([], Failed)
      case None =>
        if done then Decoded([], Eof(trailers))
        else if remaining > 0 then DecodeData(rest, remaining, allowed)
        else Decode(rest, allowed)
    }

    /** What was served and what is to come is what the whole body decodes to. */
    ghost predicate Valid()
      reads this
    {
      (done ==> err.None?) && Decode(body, allowed) == After(served, Pending())
    }

    constructor (body: seq<byte>, allowed: bool)
      ensures Valid() && served == [] && this.body == body && this.allowed == allowed
    {
      this.allowed, this.body, this.rest, this.remaining := allowed, body, body, 0;
      this.trailers, this.done, this.err, this.served := map[], false, None, [];
      new;
      assert [] + Decode(body, allowed).out == Decode(body, allowed).out;
    }

    /** Reads a chunk's header, or the end of the body. */
    method StartChunk() returns (e: Option<ReadError>)
      requires Valid() && err.None? && !done && remaining == 0
      modifies this`rest, this`remaining, this`trailers, this`done, this`err
      ensures Valid()
      ensures e.None? ==> err.None? && !done && remaining > 0
      ensures e.Some? ==> Pending().out == [] && (e == Some(Clean) <==> Pending().end.Eof?)
    {
      var line := ReadLine(rest);
      if !line.Line? {
        err := Some(Broken);
        return err;
      }
      var size := ReadHeaderSize(line.text);
      if size.None? {
        err := Some(Broken);
        return err;
      }
      rest := rest[line.taken..];
      if size.value == 0 {
        var found := ConsumeTrailers(rest, allowed);
        if found.None? {
          err := Some(Broken);
          return err;
        }
        trailers, done := found.value, true;
        return Some(Clean);
      }
      remaining := size.value;
      return None;
    }

    /** Consumes the CRLF after a chunk's data. A body that ends right before it is
        passed on as a clean end. */
    method ExpectCrlf() returns (e: Option<ReadError>)
      requires AtCrlf()
      modifies this`rest, this`err
      ensures Valid() && e == err
      ensures e == Some(Clean) <==> old(rest) == []
      ensures e.None? <==> EmptyLine(old(rest))
      ensures e.None? ==> rest == old(rest)[LineOf(old(rest)).taken..]
    {
      var line := ReadLine(rest);
      if line.AtEnd? {
        err := Some(Clean);
      } else if line.TooLong? || line.text != [] {
        err := Some(Broken);
      } else {
        rest := rest[line.taken..];
      }
      assert served + [] == served;
      e := err;
    }

    /** Serves up to n bytes. Data and an end can come together, as they do from the
        last read of a chunk that is followed by the wrong bytes. */
    method Read(n: nat) returns (data: seq<byte>, e: Option<ReadError>)
      requires Valid()
      modifies this
      ensures Valid() && |data| <= n && served == old(served) + data
      ensures e == Some(Clean) ==> served == Decode(body, allowed).out && Decode(body, allowed).end.Eof?
      ensures e == Some(Broken) ==> served == Decode(body, allowed).out && Decode(body, allowed).end.Failed?
      ensures e.None? && n > 0 ==> data != []
      ensures done ==> Decode(body, allowed).end == Eof(trailers)
    {
      assert served + [] == served;
      if err.Some? { return [], err; }
      if done { return [], Some(Clean); }
      if remaining == 0 {
        e := StartChunk();
        if e.Some? { return [], e; }
      }
      data, e := TakeData(n);
    }

    /** The chunk's data is all served, and its CRLF comes next. */
    ghost predicate AtCrlf()
      reads this
    {
      err.None? && !done && remaining == 0 && Decode(body, allowed) == After(served, DecodeAfter(rest, allowed))
    }

    method TakeData(n: nat) returns (data: seq<byte>, e: Option<ReadError>)
      requires Valid() && err.None? && !done && remaining > 0
      modifies this`rest, this`remaining, this`err, this`served
      ensures Valid() && |data| <= n && served == old(served) + data && e == err
      ensures e.None? && n > 0 ==> data != []
    {
      data := TakeBytes(n);
      if err.None? && remaining == 0 {
        var _ := ExpectCrlf();
      }
      e := err;
    }

    method TakeBytes(n: nat) returns (data: seq<byte>)
      requires Valid() && err.None? && !done && remaining > 0
      modifies this`rest, this`remaining, this`err, this`served
      ensures if err.None? && remaining == 0 then AtCrlf() else Valid()
      ensures |data| <= n && served == old(served) + data && (err.None? && n > 0 ==> data != [])
    {
      var want := if n < remaining then n else remaining;
      var k := if want < |rest| then want else |rest|;
      data := rest[..k];
      Advance(k);
      if k < want {
        NoneLeft(served, remaining, allowed);
        err := Some(Broken);
      }
    }

    /** Moves past k bytes of the chunk's data, which are served. */
    method Advance(k: nat)
      requires Valid() && err.None? && !done && remaining > 0 && k <= remaining && k <= |rest|
      modifies this`rest, this`remaining, this`served
      ensures rest == old(rest)[k..] && remaining == old(remaining) - k && served == old(served) + old(rest)[..k]
      ensures if remaining == 0 then AtCrlf() else Valid()
    {
      if k < remaining {
        TakesData(served, rest, remaining, k, allowed);
      } else {
        TakesAll(served, rest, remaining, allowed);
      }
      rest, remaining, served := rest[k..], remaining - k, served + rest[..k];
    }
  }

  lemma NoneLeft(served: seq<byte>, n: nat, allowed: bool)
    requires n > 0
    ensures After(served, DecodeData([], n, allowed)) == After(served, Decoded([], Failed))
  {
  }

  lemma TakesAll(served: seq<byte>, s: seq<byte>, n: nat, allowed: bool)
    requires n <= |s|
    ensures served + DecodeData(s, n, allowed).out == served + s[..n] + DecodeAfter(s[n..], allowed).out
    ensures DecodeData(s, n, allowed).end == DecodeAfter(s[n..], allowed).end
  {
    AppendAssoc(served, s[..n], DecodeAfter(s[n..], allowed).out);
  }

  // ---------------------------------------------------------------------
  // The declared length
  // ---------------------------------------------------------------------

  /** Fails unless its source yields exactly the declared number of bytes. */
  class LengthCheckedReader {
    const r: ChunkedReader
    ghost const declared: int
    var remaining: int

    ghost predicate Valid()
      reads this, r
    {
      r.Valid() && remaining == declared - |r.served|
    }

    constructor (r: ChunkedReader, declared: int)
      requires r.Valid() && r.served == []
      ensures Valid() && this.r == r && this.declared == declared
    {
      this.r, this.declared, this.remaining := r, declared, declared;
    }

    /** The end is clean only when the body's framing ended and it held exactly the
        declared number of bytes; and an error means one of the two is not so. */
    method Read(n: nat) returns (data: seq<byte>, e: Option<ReadError>)
      requires Valid()
      modifies this, r
      ensures Valid() && |data| <= n && r.served == old(r.served) + data
      ensures e == Some(Clean) ==> r.served == Decode(r.body, r.allowed).out && |r.served| == declared
      ensures e == Some(Broken) ==> Decode(r.body, r.allowed).end.Failed? || |Decode(r.body, r.allowed).out| != declared
      ensures e.None? && n > 0 ==> data != []
    {
      data, e := r.Read(n);
      remaining := remaining - |data|;
      assert IsPrefix(r.served, Decode(r.body, r.allowed).out);
      if remaining < 0 || (e == Some(Clean) && remaining > 0) {
        e := Some(Broken);
      }
    }
  }

  // ---------------------------------------------------------------------
  // Well-formed bodies, whole and cut short
  // ---------------------------------------------------------------------

  /** A chunk: its header line, with any extension, and its data. */
  datatype Frame = Frame(header: seq<byte>, data: seq<byte>)

  /** A body: its chunks, the header of the empty one that ends it, and what follows. */
  datatype Framing = Framing(frames: seq<Frame>, last: seq<byte>, trailers: seq<byte>)

  predicate GoodHeader(header: seq<byte>, size: nat) {
    LF !in header && |header| + 2 <= MAX_LINE && HeaderSize(TrimEnd(header)) == Some(size)
  }

  predicate Framed(b: Framing) {
    && (forall i :: 0 <= i < |b.frames| ==>
          b.frames[i].data != [] && GoodHeader(b.frames[i].header, |b.frames[i].data|))
    && GoodHeader(b.last, 0)
  }

  predicate WellFormed(b: Framing, allowed: bool) {
    Framed(b) && TrailersOf(b.trailers, NO_TRAILERS, allowed).Some?
  }

  function Tail(b: Framing): Framing
    requires b.frames != []
  {
    b.(frames := b.frames[1..])
  }

  function BodyOf(b: Framing): seq<byte>
    decreases |b.frames|
  {
    if b.frames == [] then b.last + CRLF + b.trailers
    else b.frames[0].header + CRLF + (b.frames[0].data + (CRLF + BodyOf(Tail(b))))
  }

  function PayloadOf(b: Framing): seq<byte>
    decreases |b.frames|
  {
    if b.frames == [] then [] else b.frames[0].data + PayloadOf(Tail(b))
  }

  lemma TrimTerminator(h: seq<byte>)
    ensures TrimEnd(h + CRLF) == TrimEnd(h)
  {
    assert (h + CRLF)[..|h| + 1] == h + [CR];
    assert (h + [CR])[..|h|] == h;
  }

  lemma EndOfLine(h: seq<byte>, rest: seq<byte>)
    requires LF !in h
    ensures var s := h + CRLF + rest;
      && s[|h| + 1] == LF && (forall j :: 0 <= j < |h| + 1 ==> s[j] != LF)
      && s[..|h| + 2] == h + CRLF && s[|h| + 2..] == rest
  {
    var s := h + CRLF + rest;
    forall j | 0 <= j < |h| + 1 ensures s[j] != LF {
      assert j < |h| ==> s[j] == h[j];
    }
  }

  lemma WholeLine(h: seq<byte>, rest: seq<byte>)
    requires LF !in h && |h| + 2 <= MAX_LINE
    ensures LineOf(h + CRLF + rest) == Line(TrimEnd(h), |h| + 2)
    ensures (h + CRLF + rest)[|h| + 2..] == rest
  {
    var s := h + CRLF + rest;
    EndOfLine(h, rest);
    IndexIs(s, LF, 0, |h| + 1);
    TrimTerminator(h);
  }

  /** Part of a line that did not end is a line of its own, with nothing after it. */
  lemma PartLine(p: seq<byte>)
    requires LF !in p && 0 < |p| < MAX_LINE
    ensures LineOf(p) == Line(TrimEnd(p), |p|)
  {
  }

  lemma NothingAfter(p: seq<byte>, allowed: bool)
    requires LF !in p && |p| < MAX_LINE
    ensures Decode(p, allowed).out == [] && DecodeAfter(p, allowed).out == []
  {
    if p != [] {
      PartLine(p);
      assert p[|p|..] == [];
      assert Decode([], allowed) == Decoded([], Failed);
    }
  }

  lemma HeaderThenData(header: seq<byte>, n: nat, rest: seq<byte>, allowed: bool)
    requires GoodHeader(header, n) && n > 0
    ensures Decode(header + CRLF + rest, allowed) == DecodeData(rest, n, allowed)
  {
    WholeLine(header, rest);
  }

  /** Chunks decode to their data, and end as the trailers after them do. */
  lemma {:induction false} FramesDecode(b: Framing, allowed: bool)
    requires Framed(b)
    ensures Decode(BodyOf(b), allowed) ==
      match TrailersOf(b.trailers, NO_TRAILERS, allowed)
      case None => Decoded(Decode(BodyOf(b), allowed).out, Failed)
      case Some(trailers) => Decoded(PayloadOf(b), Eof(trailers))
    decreases |b.frames|
  {
    if b.frames == [] {
      WholeLine(b.last, b.trailers);
    } else {
      var f, next := b.frames[0], BodyOf(Tail(b));
      HeaderThenData(f.header, |f.data|, f.data + (CRLF + next), allowed);
      DataThenCrlf(f.data, next, allowed);
      FramesDecode(Tail(b), allowed);
    }
  }

  /** A well-formed body decodes to its payload, and ends clean. */
  lemma WholeBodyDecodes(b: Framing, allowed: bool)
    requires WellFormed(b, allowed)
    ensures Decode(BodyOf(b), allowed)
      == Decoded(PayloadOf(b), Eof(TrailersOf(b.trailers, NO_TRAILERS, allowed).value))
  {
    FramesDecode(b, allowed);
  }

  lemma DataThenCrlf(data: seq<byte>, next: seq<byte>, allowed: bool)
    ensures DecodeData(data + (CRLF + next), |data|, allowed)
      == Decoded(data + Decode(next, allowed).out, Decode(next, allowed).end)
  {
    var s := data + (CRLF + next);
    assert s[..|data|] == data && s[|data|..] == CRLF + next;
    WholeLine([], next);
    assert [] + CRLF + next == CRLF + next;
    assert TrimEnd([]) == [];
  }

  /** Cut a well-formed body short anywhere: what it decodes to is a prefix of the
      payload. */
  lemma {:induction false} PrefixDecodesToPrefix(b: Framing, p: seq<byte>, allowed: bool)
    requires WellFormed(b, allowed) && IsPrefix(p, BodyOf(b))
    ensures IsPrefix(Decode(p, allowed).out, PayloadOf(b))
    decreases |b.frames|, 1
  {
    var header := if b.frames == [] then b.last else b.frames[0].header;
    var after := if b.frames == [] then b.trailers else b.frames[0].data + (CRLF + BodyOf(Tail(b)));
    assert BodyOf(b) == header + CRLF + after;
    if |p| < |header| + 2 {
      CutLine(header, after, p);
      NothingAfter(p, allowed);
    } else {
      var rest := p[|header| + 2..];
      CutAfter(header + CRLF, after, p);
      assert p == header + CRLF + rest;
      if b.frames != [] {
        HeaderThenData(header, |b.frames[0].data|, rest, allowed);
        CutData(b, rest, allowed);
      } else {
        WholeLine(header, rest);
      }
    }
  }

  lemma CutLine(h: seq<byte>, after: seq<byte>, p: seq<byte>)
    requires LF !in h && IsPrefix(p, h + CRLF + after) && |p| < |h| + 2
    ensures LF !in p
  {
    forall j | 0 <= j < |p| ensures p[j] != LF {
      assert p[j] == (h + CRLF + after)[j];
      if j < |h| {
        assert p[j] == h[j];
      }
    }
  }

  lemma CutAfter(front: seq<byte>, after: seq<byte>, p: seq<byte>)
    requires IsPrefix(p, front + after) && |p| >= |front|
    ensures p == front + p[|front|..] && IsPrefix(p[|front|..], after)
  {
    assert forall j :: 0 <= j < |p| ==> p[j] == (front + after)[j];
  }

  /** The same from a chunk's data on. */
  lemma {:induction false} CutData(b: Framing, p: seq<byte>, allowed: bool)
    requires WellFormed(b, allowed) && b.frames != [] && IsPrefix(p, b.frames[0].data + (CRLF + BodyOf(Tail(b))))
    ensures IsPrefix(DecodeData(p, |b.frames[0].data|, allowed).out, PayloadOf(b))
    decreases |b.frames|, 0
  {
    var data, next := b.frames[0].data, BodyOf(Tail(b));
    if |p| < |data| {
      assert p == (data + (CRLF + next))[..|p|] == data[..|p|];
      assert PayloadOf(b)[..|p|] == data[..|p|];
    } else {
      CutAfter(data, CRLF + next, p);
      var rest := p[|data|..];
      assert p[..|data|] == data;
      if |rest| < 2 {
        assert LF !in rest by {
          assert [] + CRLF + next == CRLF + next;
          CutLine([], next, rest);
        }
        NothingAfter(rest, allowed);
      } else {
        CutAfter(CRLF, next, rest);
        PrefixDecodesToPrefix(Tail(b), rest[2..], allowed);
        DataThenCrlf(data, rest[2..], allowed);
        LongerPrefix(data, Decode(rest[2..], allowed).out, PayloadOf(Tail(b)));
      }
    }
  }

  /** Where a well-formed body can be cut and still end like a whole one: in a header
      line, if what is left of it declares no data; right after a chunk's data; and
      anywhere among the trailers that leaves trailers. */
  predicate CleanCut(b: Framing, p: seq<byte>, allowed: bool)
    decreases |b.frames|
  {
    var header := if b.frames == [] then b.last else b.frames[0].header;
    if |p| < |header| + 2 then p != [] && HeaderSize(TrimEnd(p)) == Some(0)
    else
      var rest := p[|header| + 2..];
      if b.frames == [] then TrailersOf(rest, NO_TRAILERS, allowed).Some?
      else CleanCutData(b, rest, allowed)
  }

  /** The same from the first chunk's data on. */
  predicate CleanCutData(b: Framing, rest: seq<byte>, allowed: bool)
    requires b.frames != []
    decreases |b.frames|, 0
  {
    var n := |b.frames[0].data|;
    |rest| == n || (|rest| >= n + 2 && CleanCut(Tail(b), rest[n + 2..], allowed))
  }

  lemma CutHeaderEnds(p: seq<byte>, allowed: bool)
    requires LF !in p && |p| < MAX_LINE
    ensures Decode(p, allowed).end.Eof? <==> p != [] && HeaderSize(TrimEnd(p)) == Some(0)
  {
    if p != [] {
      PartLine(p);
      assert p[|p|..] == [];
    }
  }

  /** A well-formed body cut short ends clean, as far as its framing tells, exactly at
      a clean cut. */
  lemma {:induction false} EndsCleanIff(b: Framing, p: seq<byte>, allowed: bool)
    requires WellFormed(b, allowed) && IsPrefix(p, BodyOf(b))
    ensures Decode(p, allowed).end.Eof? <==> CleanCut(b, p, allowed)
    decreases |b.frames|, 1
  {
    var header := if b.frames == [] then b.last else b.frames[0].header;
    var after := if b.frames == [] then b.trailers else b.frames[0].data + (CRLF + BodyOf(Tail(b)));
    assert BodyOf(b) == header + CRLF + after;
    if |p| < |header| + 2 {
      CutLine(header, after, p);
      CutHeaderEnds(p, allowed);
    } else {
      var rest := p[|header| + 2..];
      CutAfter(header + CRLF, after, p);
      assert p == header + CRLF + rest;
      if b.frames != [] {
        HeaderThenData(header, |b.frames[0].data|, rest, allowed);
        DataEndsCleanIff(b, rest, allowed);
      } else {
        WholeLine(header, rest);
      }
    }
  }

  lemma {:induction false} DataEndsCleanIff(b: Framing, p: seq<byte>, allowed: bool)
    requires WellFormed(b, allowed) && b.frames != [] && IsPrefix(p, b.frames[0].data + (CRLF + BodyOf(Tail(b))))
    ensures DecodeData(p, |b.frames[0].data|, allowed).end.Eof? <==> CleanCutData(b, p, allowed)
    decreases |b.frames|, 0
  {
    var data, next := b.frames[0].data, BodyOf(Tail(b));
    if |p| >= |data| {
      CutAfter(data, CRLF + next, p);
      var rest := p[|data|..];
      if |rest| == 1 {
        assert rest == [CR];
        LoneCrEnds(allowed);
      } else if |rest| >= 2 {
        CutAfter(CRLF, next, rest);
        assert p[|data| + 2..] == rest[2..];
        EndsCleanIff(Tail(b), rest[2..], allowed);
        DataThenCrlf(data, rest[2..], allowed);
      }
    }
  }

  lemma LoneCrEnds(allowed: bool)
    ensures DecodeAfter([CR], allowed).end.Failed?
  {
    PartLine([CR]);
    assert [CR][1..] == [];
  }

  lemma ReadsAs(digits: seq<byte>, n: nat)
    requires n <= 1 && (digits == [48 + n] || digits == [48, 48 + n])
    ensures GoodHeader(digits, n)
  {
    assert HexNumber([]) == Some(0);
    assert [48 + n][..0] == [] && HexNumber([48 + n]) == Some(n);
    assert [48, 48 + n][..1] == [48] && [48][..0] == [] && HexNumber([48]) == Some(0);
    FieldOf(digits, []);
    assert !IsSpace(digits[0]) && !IsSpace(digits[|digits| - 1]);
    SignedReads([], digits, n);
    assert [] + digits == digits;
    FieldReads(digits, digits);
  }

  /** The chunks "A" and "B", the second with a leading zero in its size. */
  const TWO_CHUNKS := Framing([Frame([49], [65]), Frame([48, 49], [66])], [48], [])

  lemma TwoChunks()
    ensures WellFormed(TWO_CHUNKS, false)
    ensures Tail(TWO_CHUNKS).frames == [Frame([48, 49], [66])]
  {
    ReadsAs([49], 1);
    ReadsAs([48, 49], 1);
    ReadsAs([48], 0);
  }

  /** One chunk, and what there is of the next header. */
  function CutAt(f: Frame, part: seq<byte>): seq<byte> {
    f.header + CRLF + (f.data + (CRLF + part))
  }

  lemma CutInHeader(b: Framing, part: seq<byte>, allowed: bool)
    requires WellFormed(b, allowed) && |b.frames| > 1 && IsPrefix(part, b.frames[1].header)
    ensures var p := CutAt(b.frames[0], part);
      IsPrefix(p, BodyOf(b)) && Decode(p, allowed).out == b.frames[0].data
  {
    var f, g := b.frames[0], Tail(b).frames[0];
    assert g == b.frames[1];
    var next := CRLF + (g.data + (CRLF + BodyOf(Tail(Tail(b)))));
    assert BodyOf(Tail(b)) == g.header + next by {
      AppendAssoc(g.header, CRLF, g.data + (CRLF + BodyOf(Tail(Tail(b)))));
    }
    assert IsPrefix(part, g.header + next);
    LongerPrefix(CRLF, part, BodyOf(Tail(b)));
    LongerPrefix(f.data, CRLF + part, CRLF + BodyOf(Tail(b)));
    LongerPrefix(f.header + CRLF, f.data + (CRLF + part), f.data + (CRLF + BodyOf(Tail(b))));
    HeaderThenData(f.header, |f.data|, f.data + (CRLF + part), allowed);
    DataThenCrlf(f.data, part, allowed);
    assert forall i :: 0 <= i < |part| ==> part[i] == g.header[i];
    NothingAfter(part, allowed);
  }

  /** Cut inside the second chunk's header, where a zero is left of its size, the body
      ends clean having served half of what it holds. */
  lemma CutBodyEndsClean()
    ensures var p := CutAt(TWO_CHUNKS.frames[0], [48]);
      && WellFormed(TWO_CHUNKS, false) && IsPrefix(p, BodyOf(TWO_CHUNKS))
      && Decode(p, false).end.Eof? && Decode(p, false).out == [65] != PayloadOf(TWO_CHUNKS)
  {
    TwoChunks();
    ReadsAs([48], 0);
    var f := TWO_CHUNKS.frames[0];
    var rest := f.data + (CRLF + [48]);
    CutInHeader(TWO_CHUNKS, [48], false);
    EndsCleanIff(TWO_CHUNKS, CutAt(f, [48]), false);
    assert CutAt(f, [48])[3..] == rest && rest[3..] == [48];
    assert CleanCut(Tail(TWO_CHUNKS), [48], false);
    assert PayloadOf(Tail(TWO_CHUNKS)) == [66] + PayloadOf(Tail(Tail(TWO_CHUNKS)));
  }

  /** Read with any sizes: from a well-formed body, whole or cut short, under its
      declared length, a clean end means exactly the payload was served. */
  lemma CleanEndMeansWhole(b: Framing, p: seq<byte>, allowed: bool)
    requires WellFormed(b, allowed) && IsPrefix(p, BodyOf(b))
    ensures |Decode(p, allowed).out| == |PayloadOf(b)| ==> Decode(p, allowed).out == PayloadOf(b)
    ensures p == BodyOf(b) ==> Decode(p, allowed).end.Eof? && |Decode(p, allowed).out| == |PayloadOf(b)|
  {
    PrefixDecodesToPrefix(b, p, allowed);
    WholeBodyDecodes(b, allowed);
  }

  // ---------------------------------------------------------------------
  // Trailers as they are written
  // ---------------------------------------------------------------------

  datatype Trailer = Trailer(name: seq<byte>, value: seq<byte>)

  function TextOf(p: Trailer): seq<byte> {
    p.name + [58] + p.value
  }

  predicate Writable(p: Trailer) {
    10 !in p.name && 10 !in p.value && 58 !in p.name && |p.name| + |p.value| + 3 <= 8192
  }

  /** The lines of the trailers from i on, and what comes after them. */
  function LinesFrom(pairs: seq<Trailer>, i: nat, ending: seq<byte>): seq<byte>
    requires i <= |pairs|
    decreases |pairs| - i
  {
    if i == |pairs| then ending else TextOf(pairs[i]) + CRLF + LinesFrom(pairs, i + 1, ending)
  }

  /** Nothing more, or a blank line and anything. */
  ghost predicate Ending(s: seq<byte>) {
    s == [] || exists blank, rest :: BeginsBlank(s, blank, rest)
  }

  predicate BeginsBlank(s: seq<byte>, blank: seq<byte>, rest: seq<byte>) {
    BlankLine(blank) && s == blank + [13, 10] + rest
  }

  predicate BlankLine(s: seq<byte>) {
    |s| <= 8190 && forall i :: 0 <= i < |s| ==> s[i] == 32 || s[i] == 9 || 11 <= s[i] <= 13
  }

  /** The name a trailer is kept under. */
  function NameOf(p: Trailer): seq<byte> {
    Lower(TrimSpace(p.name))
  }

  /** The names of the first n trailers, but for the signature's. */
  function NamesOf(pairs: seq<Trailer>, n: nat): set<seq<byte>>
    requires n <= |pairs|
  {
    set i | 0 <= i < n && NameOf(pairs[i]) != TRAILER_SIGNATURE :: NameOf(pairs[i])
  }

  /** How long the first n lines are, without their terminators. */
  function LinesSize(pairs: seq<Trailer>, n: nat): nat
    requires n <= |pairs|
  {
    if n == 0 then 0 else LinesSize(pairs, n - 1) + |pairs[n - 1].name| + 1 + |TrimEnd(pairs[n - 1].value)|
  }

  /** No more than there may be: 17 lines of 8192 bytes in all, and 16 names when another comes. */
  predicate WithinBounds(pairs: seq<Trailer>, allowed: bool) {
    pairs == [] ||
    (allowed && |pairs| <= 17 && LinesSize(pairs, |pairs|) <= 8192
     && forall i :: 0 <= i < |pairs| && NameOf(pairs[i]) != TRAILER_SIGNATURE ==> |NamesOf(pairs, i)| < 16)
  }

  /** The value is that of the last of the first n trailers with the name, trimmed. */
  predicate LastValue(pairs: seq<Trailer>, n: nat, name: seq<byte>, value: seq<byte>)
    requires n <= |pairs|
  {
    exists i :: 0 <= i < n && IsLast(pairs, n, i, name) && value == TrimSpace(pairs[i].value)
  }

  predicate IsLast(pairs: seq<Trailer>, n: nat, i: nat, name: seq<byte>)
    requires i < n <= |pairs|
  {
    NameOf(pairs[i]) == name && forall j :: i < j < n ==> NameOf(pairs[j]) != name
  }

  /** found holds exactly the names of the first n trailers but the signature's,
      each with its last value. */
  predicate Holds(found: TrailerMap, pairs: seq<Trailer>, n: nat)
    requires n <= |pairs|
  {
    found.Keys == NamesOf(pairs, n) && forall name :: name in found ==> LastValue(pairs, n, name, found[name])
  }

  lemma {:induction false} TrimEndOfText(name: seq<byte>, value: seq<byte>)
    ensures TrimEnd(name + [COLON] + value) == name + [COLON] + TrimEnd(value)
  {
    var s := name + [COLON] + value;
    if value != [] {
      assert s[..|s| - 1] == name + [COLON] + value[..|value| - 1];
      TrimEndOfText(name, value[..|value| - 1]);
    }
  }

  /** Line ends are blank, so trimming blanks takes them too. */
  lemma TrimSpaceOfTrimEnd(s: seq<byte>)
    ensures TrimSpace(TrimEnd(s)) == TrimSpace(s)
  {
    var t := TrimEnd(s);
    TrimEndTrims(s);
    TrimSpaceTrims(t);
    var a: nat, b: nat :| TrimmedAt(t, TrimSpace(t), a, b);
    assert forall i :: 0 <= i < |t| ==> s[i] == t[i];
    assert s[a..b] == t[a..b];
    assert TrimmedAt(s, TrimSpace(t), a, b);
    TrimSpaceIffTrimmed(s, TrimSpace(t));
  }

  /** A trailer's line as it is read. */
  function LineRead(p: Trailer): seq<byte> {
    p.name + [COLON] + TrimEnd(p.value)
  }

  lemma TextReads(p: Trailer, rest: seq<byte>)
    requires Writable(p)
    ensures var s, text := TextOf(p) + CRLF + rest, LineRead(p);
      LineOf(s) == Line(text, |TextOf(p)| + 2) && s[|TextOf(p)| + 2..] == rest && TrimSpace(text) != []
  {
    var text := LineRead(p);
    WholeLine(TextOf(p), rest);
    TrimEndOfText(p.name, p.value);
    assert text[|p.name|] == COLON;
    TrimSpaceTrims(text);
  }

  lemma TrailerAdds(t: Trailers, p: Trailer, allowed: bool)
    requires Writable(p)
    ensures AddTrailer(t, LineRead(p), allowed) ==
      var size := t.size + |p.name| + 1 + |TrimEnd(p.value)|;
      if !allowed || t.lines + 1 > 17 || size > 8192 then None
      else if NameOf(p) == TRAILER_SIGNATURE then Some(Trailers(t.found, t.lines + 1, size))
      else if |t.found| == 16 then None
      else Some(Trailers(t.found[NameOf(p) := TrimSpace(p.value)], t.lines + 1, size))
  {
    var text := LineRead(p);
    assert forall j :: 0 <= j < |p.name| ==> text[j] == p.name[j];
    IndexIs(text, COLON, 0, |p.name|);
    assert text[..|p.name|] == p.name && text[|p.name| + 1..] == TrimEnd(p.value);
    TrimSpaceOfTrimEnd(p.value);
  }

  lemma StillLast(pairs: seq<Trailer>, i: nat, name: seq<byte>, value: seq<byte>)
    requires i < |pairs| && LastValue(pairs, i, name, value) && NameOf(pairs[i]) != name
    ensures LastValue(pairs, i + 1, name, value)
  {
    var k :| 0 <= k < i && IsLast(pairs, i, k, name) && value == TrimSpace(pairs[k].value);
    assert IsLast(pairs, i + 1, k, name);
  }

  lemma HoldsPast(found: TrailerMap, pairs: seq<Trailer>, i: nat)
    requires i < |pairs| && Holds(found, pairs, i) && NameOf(pairs[i]) == TRAILER_SIGNATURE
    ensures Holds(found, pairs, i + 1)
  {
    NamesSnoc(pairs, i);
    forall name | name in found
      ensures LastValue(pairs, i + 1, name, found[name])
    {
      StillLast(pairs, i, name, found[name]);
    }
  }

  lemma HoldsMore(found: TrailerMap, pairs: seq<Trailer>, i: nat)
    requires i < |pairs| && Holds(found, pairs, i) && NameOf(pairs[i]) != TRAILER_SIGNATURE
    ensures Holds(found[NameOf(pairs[i]) := TrimSpace(pairs[i].value)], pairs, i + 1)
  {
    var key := NameOf(pairs[i]);
    NamesSnoc(pairs, i);
    var more := found[key := TrimSpace(pairs[i].value)];
    forall name | name in more
      ensures LastValue(pairs, i + 1, name, more[name])
    {
      if name == key {
        NowLast(pairs, i);
      } else {
        StillLast(pairs, i, name, found[name]);
      }
    }
  }

  lemma NowLast(pairs: seq<Trailer>, i: nat)
    requires i < |pairs|
    ensures LastValue(pairs, i + 1, NameOf(pairs[i]), TrimSpace(pairs[i].value))
  {
    assert IsLast(pairs, i + 1, i, NameOf(pairs[i]));
  }

  lemma {:induction false} LinesSizeGrows(pairs: seq<Trailer>, i: nat, n: nat)
    requires i <= n <= |pairs|
    ensures LinesSize(pairs, i) <= LinesSize(pairs, n)
  {
    if i < n {
      LinesSizeGrows(pairs, i, n - 1);
    }
  }

  /** The first i trailers are within bounds, and t is what was read of them. */
  predicate ReadSoFar(pairs: seq<Trailer>, i: nat, t: Trailers, allowed: bool)
    requires i <= |pairs|
  {
    && Holds(t.found, pairs, i) && t.lines == i && t.size == LinesSize(pairs, i)
    && (i > 0 ==> allowed && i <= 17 && t.size <= 8192)
    && forall j :: 0 <= j < i && NameOf(pairs[j]) != TRAILER_SIGNATURE ==> |NamesOf(pairs, j)| < 16
  }

  /** What reading the trailers ends with: all of them, or a failure. */
  predicate ReadOrRefused(pairs: seq<Trailer>, allowed: bool, r: Option<TrailerMap>) {
    if WithinBounds(pairs, allowed) then r.Some? && Holds(r.value, pairs, |pairs|) else r.None?
  }

  lemma EndingReads(pairs: seq<Trailer>, t: Trailers, allowed: bool, ending: seq<byte>)
    requires Ending(ending) && ReadSoFar(pairs, |pairs|, t, allowed)
    ensures ReadOrRefused(pairs, allowed, TrailersOf(ending, t, allowed))
  {
    if ending != [] {
      var blank, rest :| BeginsBlank(ending, blank, rest);
      WholeLine(blank, rest);
      assert TrimmedAt(blank, [], |blank|, |blank|);
      TrimSpaceIffTrimmed(blank, []);
      TrimSpaceOfTrimEnd(blank);
    }
  }

  lemma TrailerRefused(pairs: seq<Trailer>, i: nat, t: Trailers, allowed: bool)
    requires i < |pairs| && Writable(pairs[i]) && ReadSoFar(pairs, i, t, allowed)
    requires AddTrailer(t, LineRead(pairs[i]), allowed).None?
    ensures !WithinBounds(pairs, allowed)
  {
    TrailerAdds(t, pairs[i], allowed);
    assert LinesSize(pairs, i + 1) == t.size + |pairs[i].name| + 1 + |TrimEnd(pairs[i].value)|;
    LinesSizeGrows(pairs, i + 1, |pairs|);
    FoundNames(pairs, i, t, allowed);
  }

  lemma FoundNames(pairs: seq<Trailer>, i: nat, t: Trailers, allowed: bool)
    requires i <= |pairs| && ReadSoFar(pairs, i, t, allowed)
    ensures |t.found| == |NamesOf(pairs, i)|
  {
    assert |t.found| == |t.found.Keys|;
  }

  lemma NameKept(pairs: seq<Trailer>, i: nat, t: Trailers, allowed: bool)
    requires i < |pairs| && Writable(pairs[i]) && ReadSoFar(pairs, i, t, allowed)
    requires AddTrailer(t, LineRead(pairs[i]), allowed).Some? && NameOf(pairs[i]) != TRAILER_SIGNATURE
    ensures |NamesOf(pairs, i)| != 16
  {
    TrailerAdds(t, pairs[i], allowed);
    FoundNames(pairs, i, t, allowed);
  }

  lemma {:induction false} NamesBounded(pairs: seq<Trailer>, i: nat)
    requires i <= |pairs|
    requires forall j :: 0 <= j < i && NameOf(pairs[j]) != TRAILER_SIGNATURE ==> |NamesOf(pairs, j)| < 16
    ensures |NamesOf(pairs, i)| <= 16
  {
    if i == 0 {
      assert NamesOf(pairs, 0) == {};
    } else {
      NamesBounded(pairs, i - 1);
      NamesSnoc(pairs, i - 1);
      OneMoreName(NamesOf(pairs, i - 1), NameOf(pairs[i - 1]));
    }
  }

  lemma OneMoreName(names: set<seq<byte>>, name: seq<byte>)
    ensures |names + {name}| <= |names| + 1
  {
  }

  lemma NamesSnoc(pairs: seq<Trailer>, i: nat)
    requires i < |pairs|
    ensures NamesOf(pairs, i + 1) ==
      if NameOf(pairs[i]) == TRAILER_SIGNATURE then NamesOf(pairs, i) else NamesOf(pairs, i) + {NameOf(pairs[i])}
  {
  }

  lemma TrailerKept(pairs: seq<Trailer>, i: nat, t: Trailers, allowed: bool)
    requires i < |pairs| && Writable(pairs[i]) && ReadSoFar(pairs, i, t, allowed)
    requires AddTrailer(t, LineRead(pairs[i]), allowed).Some?
    ensures ReadSoFar(pairs, i + 1, AddTrailer(t, LineRead(pairs[i]), allowed).value, allowed)
  {
    NamesBounded(pairs, i);
    TrailerAdds(t, pairs[i], allowed);
    if NameOf(pairs[i]) == TRAILER_SIGNATURE {
      HoldsPast(t.found, pairs, i);
    } else {
      NameKept(pairs, i, t, allowed);
      HoldsMore(t.found, pairs, i);
    }
    assert LinesSize(pairs, i + 1) == t.size + |pairs[i].name| + 1 + |TrimEnd(pairs[i].value)|;
  }

  lemma TrailerLine(pairs: seq<Trailer>, i: nat, ending: seq<byte>, t: Trailers, allowed: bool)
    requires i < |pairs| && Writable(pairs[i])
    ensures TrailersOf(LinesFrom(pairs, i, ending), t, allowed) ==
      match AddTrailer(t, LineRead(pairs[i]), allowed)
      case None => None
      case Some(more) => TrailersOf(LinesFrom(pairs, i + 1, ending), more, allowed)
  {
    TextReads(pairs[i], LinesFrom(pairs, i + 1, ending));
  }

  predicate AllWritable(pairs: seq<Trailer>) {
    forall j :: 0 <= j < |pairs| ==> Writable(pairs[j])
  }

  lemma {:induction false} TrailersRead(
      pairs: seq<Trailer>, i: nat, t: Trailers, allowed: bool, ending: seq<byte>, r: Option<TrailerMap>)
    requires i <= |pairs| && AllWritable(pairs) && Ending(ending) && ReadSoFar(pairs, i, t, allowed)
    requires r == TrailersOf(LinesFrom(pairs, i, ending), t, allowed)
    ensures ReadOrRefused(pairs, allowed, r)
    decreases |pairs| - i
  {
    if i == |pairs| {
      EndingReads(pairs, t, allowed, ending);
    } else {
      TrailerLine(pairs, i, ending, t, allowed);
      match AddTrailer(t, LineRead(pairs[i]), allowed)
      case None => TrailerRefused(pairs, i, t, allowed);
      case Some(more) =>
        TrailerKept(pairs, i, t, allowed);
        TrailersRead(pairs, i + 1, more, allowed, ending, r);
    }
  }

  /** Trailers written a line each after a well-framed body are read back: each name
      but the signature's, trimmed and in lower case, with the trimmed value of its
      last line. Exactly those out of bounds, or where none may be, fail the body. */
  lemma TrailersRoundTrip(b: Framing, pairs: seq<Trailer>, allowed: bool, ending: seq<byte>)
    requires Framed(b) && b.trailers == LinesFrom(pairs, 0, ending)
    requires AllWritable(pairs) && Ending(ending)
    ensures var d := Decode(BodyOf(b), allowed);
      if WithinBounds(pairs, allowed) then
        d.out == PayloadOf(b) && d.end.Eof? && Holds(d.end.trailers, pairs, |pairs|)
      else d.end.Failed?
  {
    FramesDecode(b, allowed);
    assert NamesOf(pairs, 0) == {};
    TrailersRead(pairs, 0, NO_TRAILERS, allowed, ending, TrailersOf(b.trailers, NO_TRAILERS, allowed));
  }

  /** The signature's name, as text. */
  lemma SignatureName()
    ensures TRAILER_SIGNATURE == Ascii("x-amz-trailer-signature")
  {
  }

  function Ascii(s: string): seq<byte>
    requires forall i :: 0 <= i < |s| ==> s[i] < 128 as char
  {
    seq(|s|, i requires 0 <= i < |s| => s[i] as int)
  }
}
