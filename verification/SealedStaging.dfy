/** Sealed staging files: content cut into segments, each sealed under its number
    and whether it is the last, so that only the whole file reads to a clean end. */
module SealedStaging {
  import opened Arith
  import opened Bytes
  import opened Wrappers

  const SEGMENT := 65536
  const TAG := 16
  const SALT := 32
  const MAX_KEY_ID := 32
  const FORMAT_VERSION := 1

  /** What a staging file's key is derived from. */
  datatype Key = Key(id: seq<byte>, name: string, salt: seq<byte>)

  /** AES-GCM under derived keys, as functions of the key, the nonce and the data. */
  datatype Aead = Aead(
    seal: (Key, seq<byte>, seq<byte>) -> seq<byte>,
    open: (Key, seq<byte>, seq<byte>) -> Option<seq<byte>>)

  /** Sealing adds a tag. */
  ghost predicate AddsTag(a: Aead) {
    forall k, nonce, data :: |a.seal(k, nonce, data)| == |data| + 16
  }

  // ---------------------------------------------------------------------
  // Nonces
  // ---------------------------------------------------------------------

  /** The low n bytes of x, big-endian. */
  function BigEndian(x: nat, n: nat): (b: seq<byte>)
    ensures |b| == n
  {
    if n == 0 then [] else BigEndian(x / 256, n - 1) + [x % 256]
  }

  function Power(n: nat): (p: nat)
    ensures p > 0
  {
    if n == 0 then 1 else 256 * Power(n - 1)
  }

  lemma {:induction false} BigEndianInjective(x: nat, y: nat, n: nat)
    requires BigEndian(x, n) == BigEndian(y, n) && x < Power(n) && y < Power(n)
    ensures x == y
  {
    if n > 0 {
      var a, b := BigEndian(x, n), BigEndian(y, n);
      assert a[..n - 1] == BigEndian(x / 256, n - 1) && b[..n - 1] == BigEndian(y / 256, n - 1);
      assert a[n - 1] == x % 256 && b[n - 1] == y % 256;
      QuotientFits(x, Power(n - 1));
      QuotientFits(y, Power(n - 1));
      BigEndianInjective(x / 256, y / 256, n - 1);
    }
  }

  lemma QuotientFits(x: nat, p: nat)
    requires x < 256 * p
    ensures x / 256 < p
  {
  }

  lemma EightBytes()
    ensures Power(8) == WORD
  {
    assert Power(2) == 65536;
    assert Power(4) == 256 * (256 * Power(2));
    assert Power(6) == 256 * (256 * Power(4));
    assert Power(8) == 256 * (256 * Power(6));
  }

  /** The nonce of segment n of a file. */
  function SegmentNonce(n: nat, last: bool): (nonce: seq<byte>)
    ensures |nonce| == 12
  {
    [0, 0, 0] + BigEndian(n, 8) + [if last then 1 else 0]
  }

  function FromBigEndian(b: seq<byte>): nat {
    if b == [] then 0 else 256 * FromBigEndian(b[..|b| - 1]) + b[|b| - 1]
  }

  lemma {:induction false} BigEndianReads(x: nat, n: nat)
    requires x < Power(n)
    ensures FromBigEndian(BigEndian(x, n)) == x
  {
    if n > 0 {
      QuotientFits(x, Power(n - 1));
      BigEndianReads(x / 256, n - 1);
      assert BigEndian(x, n)[..n - 1] == BigEndian(x / 256, n - 1);
    }
  }

  /** A nonce is three zeros, the segment's number, big-endian, and whether it is the last. */
  lemma NonceFormat(n: nat, last: bool)
    requires n < WORD
    ensures var nonce := SegmentNonce(n, last);
      && |nonce| == 12 && nonce[..3] == [0, 0, 0] && FromBigEndian(nonce[3..11]) == n
      && nonce[11] == if last then 1 else 0
  {
    EightBytes();
    BigEndianReads(n, 8);
    assert SegmentNonce(n, last)[3..11] == BigEndian(n, 8);
  }

  /** No two segments of a file share a nonce, nor does a segment sealed as last
      share one with itself sealed as not. */
  lemma NoncesDiffer(m: nat, n: nat, mLast: bool, nLast: bool)
    requires m < WORD && n < WORD
    ensures SegmentNonce(m, mLast) == SegmentNonce(n, nLast) ==> m == n && mLast == nLast
  {
    var a, b := SegmentNonce(m, mLast), SegmentNonce(n, nLast);
    if a == b {
      assert a[3..11] == BigEndian(m, 8) && b[3..11] == BigEndian(n, 8);
      assert a[11] == b[11];
      EightBytes();
      BigEndianInjective(m, n, 8);
    }
  }

  // ---------------------------------------------------------------------
  // Segments
  // ---------------------------------------------------------------------

  /** How many segments a content has: at least one, which may be empty. */
  function Segments(content: seq<byte>): (n: nat)
    ensures n > 0 && (n - 1) * SEGMENT <= |content| <= n * SEGMENT
  {
    if content == [] then 1 else (|content| - 1) / SEGMENT + 1
  }

  function Segment(content: seq<byte>, i: nat): seq<byte> {
    content[Min(i * SEGMENT, |content|)..Min((i + 1) * SEGMENT, |content|)]
  }

  /** The content of the first i segments. */
  function Upto(content: seq<byte>, i: nat): seq<byte> {
    if i == 0 then [] else Upto(content, i - 1) + Segment(content, i - 1)
  }

  lemma {:induction false} UptoIsPrefix(content: seq<byte>, i: nat)
    ensures Upto(content, i) == content[..Min(i * SEGMENT, |content|)]
  {
    if i > 0 {
      UptoIsPrefix(content, i - 1);
    }
  }

  /** The first i segments, none sealed as last. */
  function SealedTo(a: Aead, k: Key, content: seq<byte>, i: nat): seq<byte> {
    if i == 0 then []
    else SealedTo(a, k, content, i - 1) + a.seal(k, SegmentNonce(i - 1, false), Segment(content, i - 1))
  }

  /** What a sealed file holds after its header. */
  function Sealed(a: Aead, k: Key, content: seq<byte>): seq<byte> {
    var n := Segments(content) - 1;
    SealedTo(a, k, content, n) + a.seal(k, SegmentNonce(n, true), Segment(content, n))
  }

  function Header(k: Key): seq<byte>
    requires |k.id| <= MAX_KEY_ID
  {
    [FORMAT_VERSION, |k.id|] + k.id + k.salt
  }

  /** Segments are 64 KiB, but for the last, which is what is left, perhaps nothing. */
  lemma SegmentFormat(content: seq<byte>, i: nat)
    requires i < Segments(content)
    ensures Segments(content) == if content == [] then 1 else (|content| + 65535) / 65536
    ensures i < Segments(content) - 1 ==>
      65536 * (i + 1) < |content| && Segment(content, i) == content[65536 * i..65536 * (i + 1)]
    ensures i == Segments(content) - 1 ==>
      65536 * i <= |content| <= 65536 * (i + 1) && Segment(content, i) == content[65536 * i..]
  {
    RoundUp(|content|);
  }

  lemma RoundUp(n: nat)
    ensures n > 0 ==> (n - 1) / 65536 + 1 == (n + 65535) / 65536
  {
  }

  /** The segments of a file as they are sealed, each under its number and whether it is the last. */
  function SealedSegments(a: Aead, k: Key, content: seq<byte>, n: nat): (r: seq<seq<byte>>)
    ensures |r| == n
  {
    seq(n, i requires 0 <= i => a.seal(k, SegmentNonce(i, i == Segments(content) - 1), Segment(content, i)))
  }

  lemma {:induction false} SealedToFormat(a: Aead, k: Key, content: seq<byte>, n: nat)
    requires n < Segments(content)
    ensures SealedTo(a, k, content, n) == Flatten(SealedSegments(a, k, content, n))
  {
    if n > 0 {
      SealedToFormat(a, k, content, n - 1);
      SegmentsSnoc(a, k, content, n - 1);
    }
  }

  lemma SegmentsSnoc(a: Aead, k: Key, content: seq<byte>, n: nat)
    ensures Flatten(SealedSegments(a, k, content, n + 1)) == Flatten(SealedSegments(a, k, content, n))
      + a.seal(k, SegmentNonce(n, n == Segments(content) - 1), Segment(content, n))
  {
    var front, segments := SealedSegments(a, k, content, n), SealedSegments(a, k, content, n + 1);
    assert segments == front + [segments[n]];
    FlattenSnoc(front, segments[n]);
  }

  /** A sealed file is its format's version, its key's name after its length, its salt,
      and its sealed segments one after another. */
  lemma FileFormat(a: Aead, k: Key, content: seq<byte>)
    requires |k.id| <= 32
    ensures Header(k) + Sealed(a, k, content)
      == [1, |k.id|] + k.id + k.salt + Flatten(SealedSegments(a, k, content, Segments(content)))
  {
    var n := Segments(content);
    SealedToFormat(a, k, content, n - 1);
    SegmentsSnoc(a, k, content, n - 1);
  }

  lemma {:induction false} SealedToPrefix(a: Aead, k: Key, content: seq<byte>, more: seq<byte>, i: nat)
    requires i * SEGMENT <= |content|
    ensures SealedTo(a, k, content + more, i) == SealedTo(a, k, content, i)
  {
    if i > 0 {
      SealedToPrefix(a, k, content, more, i - 1);
      assert Segment(content + more, i - 1) == Segment(content, i - 1);
    }
  }

  // ---------------------------------------------------------------------
  // Writing
  // ---------------------------------------------------------------------

  class SealedWriter {
    const a: Aead
    const key: Key
    var out: seq<byte>
    var n: nat
    var buf: seq<byte>
    ghost var content: seq<byte>

    /** What was written is the sealed full segments and the one being filled, which
        is empty only before anything was written. */
    ghost predicate Valid()
      reads this
    {
      Filling() && (n > 0 ==> buf != [])
    }

    ghost predicate Filling()
      reads this
    {
      && |key.id| <= MAX_KEY_ID && |buf| <= SEGMENT
      && |content| == n * SEGMENT + |buf| && content[n * SEGMENT..] == buf
      && out == Header(key) + SealedTo(a, key, content, n)
    }

    constructor (a: Aead, key: Key)
      requires |key.id| <= MAX_KEY_ID
      ensures Valid() && content == [] && this.a == a && this.key == key
    {
      this.a, this.key := a, key;
      this.out := [FORMAT_VERSION, |key.id|] + key.id + key.salt;
      this.n, this.buf := 0, [];
      this.content := [];
    }

    method Seal(last: bool)
      modifies this`out, this`n, this`buf
      ensures out == old(out) + a.seal(key, SegmentNonce(old(n), last), old(buf))
      ensures n == old(n) + 1 && buf == []
    {
      out := out + a.seal(key, SegmentNonce(n, last), buf);
      n := n + 1;
      buf := [];
    }

    method Write(p: seq<byte>)
      requires Valid()
      modifies this
      ensures Valid() && content == old(content) + p
    {
      var rest := p;
      while |rest| > 0
        invariant Valid() && content + rest == old(content) + p
        decreases |rest|
      {
        rest := Fill(rest);
      }
      assert content + [] == content;
    }

    /** Takes what fits of the bytes, sealing a full segment first now that more follows it. */
    method Fill(p: seq<byte>) returns (rest: seq<byte>)
      requires Valid() && p != []
      modifies this
      ensures Valid() && |rest| < |p| && content + rest == old(content) + p
    {
      if |buf| == SEGMENT {
        FullSegment(content, n, buf);
        AppendAssoc(Header(key), SealedTo(a, key, content, n), a.seal(key, SegmentNonce(n, false), buf));
        Seal(false);
      }
      var k := Min(SEGMENT - |buf|, |p|);
      Append(p[..k]);
      rest := p[k..];
      AppendAssoc(old(content), p[..k], p[k..]);
      assert p == p[..k] + p[k..];
    }

    method Append(p: seq<byte>)
      requires Filling() && p != [] && |buf| + |p| <= SEGMENT
      modifies this`buf, this`content
      ensures Valid() && content == old(content) + p
    {
      SealedToPrefix(a, key, content, p, n);
      buf := buf + p;
      content := content + p;
    }

    method Close()
      requires Valid()
      modifies this
      ensures out == Header(key) + Sealed(a, key, content) && content == old(content)
    {
      LastSegment(content, n, buf);
      AppendAssoc(Header(key), SealedTo(a, key, content, n), a.seal(key, SegmentNonce(n, true), buf));
      Seal(true);
    }
  }

  lemma FullSegment(content: seq<byte>, n: nat, buf: seq<byte>)
    requires |content| == n * SEGMENT + |buf| && content[n * SEGMENT..] == buf && |buf| == SEGMENT
    ensures Segment(content, n) == buf && |content| == (n + 1) * SEGMENT
  {
  }

  lemma LastSegment(content: seq<byte>, n: nat, buf: seq<byte>)
    requires |content| == n * SEGMENT + |buf| && content[n * SEGMENT..] == buf && |buf| <= SEGMENT
    requires (n > 0 ==> buf != [])
    ensures Segments(content) == n + 1 && Segment(content, n) == buf
  {
    if buf != [] {
      assert (|content| - 1) / SEGMENT == n;
    }
  }

  // ---------------------------------------------------------------------
  // Reading
  // ---------------------------------------------------------------------

  /** What was written under each key, if anything was. Salts are drawn at random,
      so no key is used for two files. */
  type Log = Key -> Option<seq<byte>>

  ghost predicate WasSealed(a: Aead, k: Key, content: seq<byte>, nonce: seq<byte>, sealed: seq<byte>) {
    exists i: nat :: i < Segments(content) && SealedAs(a, k, content, i, nonce, sealed)
  }

  predicate SealedAs(a: Aead, k: Key, content: seq<byte>, i: nat, nonce: seq<byte>, sealed: seq<byte>) {
    && nonce == SegmentNonce(i, i == Segments(content) - 1)
    && sealed == a.seal(k, nonce, Segment(content, i))
  }

  /** Segment i of what was written opens to itself where it was sealed. */
  predicate Opens(a: Aead, k: Key, content: seq<byte>, i: nat) {
    var nonce := SegmentNonce(i, i == Segments(content) - 1);
    a.open(k, nonce, a.seal(k, nonce, Segment(content, i))) == Some(Segment(content, i))
  }

  /** No file has more segments than there are numbers for them. */
  ghost predicate Countable(log: Log) {
    forall k :: log(k).Some? ==> Segments(log(k).value) <= WORD
  }

  /** The segments of the files written open, and nothing else does under any key. */
  ghost predicate Ideal(a: Aead, log: Log) {
    && AddsTag(a) && Countable(log)
    && (forall k, i: nat :: log(k).Some? && i < Segments(log(k).value) ==> Opens(a, k, log(k).value, i))
    && (forall k, nonce, sealed :: a.open(k, nonce, sealed).Some? ==>
          log(k).Some? && WasSealed(a, k, log(k).value, nonce, sealed))
  }

  /** Whatever files are written, there is a cipher ideal for them. */
  lemma IdealIsPossible(log: Log)
    requires Countable(log)
    ensures exists a :: Ideal(a, log)
  {
    var seal := (k: Key, nonce: seq<byte>, data: seq<byte>) => data + seq(TAG, _ => 0 as byte);
    var blind := Aead(seal, (k, nonce, sealed) => None);
    var a := Aead(seal, (k: Key, nonce: seq<byte>, sealed: seq<byte>) =>
      if log(k).Some? && |sealed| >= TAG && WasSealed(blind, k, log(k).value, nonce, sealed)
      then Some(sealed[..|sealed| - TAG]) else None);
    forall k, nonce, sealed | a.open(k, nonce, sealed).Some?
      ensures WasSealed(a, k, log(k).value, nonce, sealed)
    {
      var i: nat :| i < Segments(log(k).value) && SealedAs(blind, k, log(k).value, i, nonce, sealed);
      assert SealedAs(a, k, log(k).value, i, nonce, sealed);
    }
    forall k, i: nat | log(k).Some? && i < Segments(log(k).value) ensures Opens(a, k, log(k).value, i) {
      var segment, nonce := Segment(log(k).value, i), SegmentNonce(i, i == Segments(log(k).value) - 1);
      var sealed := a.seal(k, nonce, segment);
      assert SealedAs(blind, k, log(k).value, i, nonce, sealed);
      assert sealed[..|sealed| - TAG] == segment;
    }
    assert Ideal(a, log);
  }

  /** A segment that opens as number i is segment i of what was written, and is the
      last exactly when it was opened as the last. */
  lemma OpensOnlyAsWritten(a: Aead, log: Log, k: Key, i: nat, last: bool, sealed: seq<byte>)
    requires Ideal(a, log) && i < WORD && a.open(k, SegmentNonce(i, last), sealed).Some?
    ensures log(k).Some? && i < Segments(log(k).value) && (last <==> i == Segments(log(k).value) - 1)
    ensures sealed == a.seal(k, SegmentNonce(i, last), Segment(log(k).value, i))
    ensures a.open(k, SegmentNonce(i, last), sealed) == Some(Segment(log(k).value, i))
  {
    var content, nonce := log(k).value, SegmentNonce(i, last);
    assert WasSealed(a, k, content, nonce, sealed);
    var j: nat :| j < Segments(content) && SealedAs(a, k, content, j, nonce, sealed);
    NoncesDiffer(i, j, last, j == Segments(content) - 1);
    assert Opens(a, k, content, i);
  }

  /** The segments from i on, the last one sealed as last. */
  function SealedFrom(a: Aead, k: Key, content: seq<byte>, i: nat): seq<byte>
    requires i < Segments(content)
    decreases Segments(content) - i
  {
    var last := i == Segments(content) - 1;
    a.seal(k, SegmentNonce(i, last), Segment(content, i)) + if last then [] else SealedFrom(a, k, content, i + 1)
  }

  lemma {:induction false} SealedSplits(a: Aead, k: Key, content: seq<byte>, i: nat)
    requires i < Segments(content)
    ensures Sealed(a, k, content) == SealedTo(a, k, content, i) + SealedFrom(a, k, content, i)
    decreases Segments(content) - i
  {
    var sealed := a.seal(k, SegmentNonce(i, i == Segments(content) - 1), Segment(content, i));
    if i < Segments(content) - 1 {
      SealedSplits(a, k, content, i + 1);
      AppendAssoc(SealedTo(a, k, content, i), sealed, SealedFrom(a, k, content, i + 1));
    } else {
      assert sealed + [] == sealed;
    }
  }

  /** How much of what is left one segment takes, and whether it is the last. */
  function TakeOf(rest: seq<byte>): (n: nat)
    ensures n <= |rest|
  {
    if |rest| < SEGMENT + TAG then |rest| else SEGMENT + TAG
  }

  predicate IsLast(rest: seq<byte>) {
    |rest| <= SEGMENT + TAG
  }

  /** In the file as written, the next bytes taken are the next segment. */
  lemma NextSegment(a: Aead, k: Key, content: seq<byte>, i: nat, rest: seq<byte>)
    requires AddsTag(a) && i < Segments(content) && Sealed(a, k, content) == SealedTo(a, k, content, i) + rest
    ensures rest != [] && (IsLast(rest) <==> i == Segments(content) - 1)
    ensures rest[..TakeOf(rest)] == a.seal(k, SegmentNonce(i, IsLast(rest)), Segment(content, i))
  {
    SealedSplits(a, k, content, i);
    var from, front := SealedFrom(a, k, content, i), SealedTo(a, k, content, i);
    assert rest == (front + rest)[|front|..] == (front + from)[|front|..] == from;
    if i < Segments(content) - 1 {
      assert |Segment(content, i)| == SEGMENT;
      assert |SealedFrom(a, k, content, i + 1)| >= TAG;
    }
  }

  lemma IntactOpens(a: Aead, log: Log, k: Key, content: seq<byte>, i: nat, rest: seq<byte>)
    requires Ideal(a, log) && log(k) == Some(content)
    requires i < Segments(content) && Sealed(a, k, content) == SealedTo(a, k, content, i) + rest
    ensures rest != [] && a.open(k, SegmentNonce(i, IsLast(rest)), rest[..TakeOf(rest)]).Some?
  {
    NextSegment(a, k, content, i, rest);
    assert Opens(a, k, content, i);
  }

  /** A segment that opens where segment i of what was written is due is that segment. */
  lemma OpenedIsNext(a: Aead, log: Log, k: Key, body: seq<byte>, i: nat, rest: seq<byte>)
    requires Ideal(a, log) && i < WORD
    requires a.open(k, SegmentNonce(i, IsLast(rest)), rest[..TakeOf(rest)]).Some?
    requires log(k).Some? ==> body == SealedTo(a, k, log(k).value, i) + rest
    ensures log(k).Some? && i < Segments(log(k).value) && (IsLast(rest) <==> i + 1 == Segments(log(k).value))
    ensures a.open(k, SegmentNonce(i, IsLast(rest)), rest[..TakeOf(rest)]) == Some(Segment(log(k).value, i))
    ensures IsLast(rest) ==> body == Sealed(a, k, log(k).value)
    ensures !IsLast(rest) ==> body == SealedTo(a, k, log(k).value, i + 1) + rest[TakeOf(rest)..]
  {
    var take, last := TakeOf(rest), IsLast(rest);
    OpensOnlyAsWritten(a, log, k, i, last, rest[..take]);
    var front := SealedTo(a, k, log(k).value, i);
    if last {
      assert rest[..take] == rest;
    } else {
      AppendAssoc(front, rest[..take], rest[take..]);
      assert rest == rest[..take] + rest[take..];
    }
  }

  /** The first n segments of the content were opened, and out is what they held; what
      is left of the file is what follows them. */
  predicate Following(a: Aead, k: Key, body: seq<byte>, content: seq<byte>, out: seq<byte>, n: nat, done: bool,
                  rest: seq<byte>, whole: bool) {
    && n <= Segments(content) <= WORD && (done <==> n == Segments(content))
    && out == Upto(content, n)
    && (done ==> body == Sealed(a, k, content))
    && (!done && whole ==> body == SealedTo(a, k, content, n) + rest)
  }

  lemma FollowsOn(a: Aead, log: Log, k: Key, body: seq<byte>, out: seq<byte>, n: nat, rest: seq<byte>)
    requires Ideal(a, log)
    requires a.open(k, SegmentNonce(n, IsLast(rest)), rest[..TakeOf(rest)]).Some?
    requires log(k).None? ==> n == 0
    requires log(k).Some? ==> Following(a, k, body, log(k).value, out, n, false, rest, true)
    ensures log(k).Some?
    ensures var plain := a.open(k, SegmentNonce(n, IsLast(rest)), rest[..TakeOf(rest)]).value;
      Following(a, k, body, log(k).value, out + plain, n + 1, IsLast(rest), rest[TakeOf(rest)..], true)
  {
    OpenedIsNext(a, log, k, body, n, rest);
  }

  /** Opens the segment due next. It fails only if the file is not as written. */
  method TryOpen(a: Aead, ghost log: Log, k: Key, ghost body: seq<byte>, ghost out: seq<byte>, n: nat, rest: seq<byte>)
    returns (plain: Option<seq<byte>>, last: bool)
    requires Ideal(a, log) && (log(k).None? ==> n == 0)
    requires log(k).Some? ==> Following(a, k, body, log(k).value, out, n, false, rest, true)
    ensures plain.Some? ==> log(k).Some?
    ensures plain.Some? ==>
      Following(a, k, body, log(k).value, out + plain.value, n + 1, last, rest[TakeOf(rest)..], true)
    ensures plain.Some? ==> rest != [] && (last <==> IsLast(rest))
    ensures plain.None? && log(k).Some? ==> body != Sealed(a, k, log(k).value)
  {
    last := IsLast(rest);
    plain := if rest == [] then None else a.open(k, SegmentNonce(n, last), rest[..TakeOf(rest)]);
    if plain.Some? {
      FollowsOn(a, log, k, body, out, n, rest);
    } else if log(k).Some? && body == Sealed(a, k, log(k).value) {
      IntactOpens(a, log, k, log(k).value, n, rest);
    }
  }

  datatype ReadError = Eof | Bad

  class SealedReader {
    const a: Aead
    const key: Key
    ghost const log: Log
    ghost const body: seq<byte>
    var rest: seq<byte>
    var n: nat
    var cur: seq<byte>
    var done: bool
    var err: Option<ReadError>
    ghost var served: seq<byte>

    /** The file is, byte for byte, what was written under its key. */
    ghost predicate Intact()
    {
      log(key).Some? && body == Sealed(a, key, log(key).value)
    }

    ghost predicate Valid()
      reads this
    {
      && Ideal(a, log)
      && (log(key).None? ==> n == 0 && served == [] && cur == [] && !done)
      && (log(key).Some? ==> Following(a, key, body, log(key).value, served + cur, n, done, rest, err.None?))
      && (err == Some(Bad) ==> !Intact())
      && (err == Some(Eof) ==> done && cur == [])
    }

    constructor (a: Aead, key: Key, body: seq<byte>, ghost log: Log)
      requires Ideal(a, log)
      ensures Valid() && served == [] && this.body == body && this.key == key && this.a == a && this.log == log
    {
      this.a, this.key, this.rest := a, key, body;
      this.log, this.body, this.served := log, body, [];
      this.n, this.cur, this.done, this.err := 0, [], false, None;
      new;
      assert [] + body == body;
    }

    /** Opens the next segment. */
    method Next() returns (e: Option<ReadError>)
      requires Valid() && err.None? && cur == [] && !done
      modifies this`rest, this`n, this`cur, this`done
      ensures e.None? ==> Valid()
      ensures e.Some? ==> e == Some(Bad) && !Intact() && n == old(n) && cur == [] && !done
      ensures |rest| <= |old(rest)| && (e.None? && !done ==> |rest| < |old(rest)|)
    {
      assert served + cur == served;
      var plain, last := TryOpen(a, log, key, body, served, n, rest);
      var after := rest[TakeOf(rest)..];
      rest := after;
      if plain.None? { return Some(Bad); }
      Advance(plain.value, last);
      return None;
    }

    /** The next segment held plain. */
    method Advance(plain: seq<byte>, last: bool)
      requires Ideal(a, log) && log(key).Some? && err.None?
      requires Following(a, key, body, log(key).value, served + plain, n + 1, last, rest, true)
      modifies this`n, this`cur, this`done
      ensures Valid() && n == old(n) + 1 && cur == plain && done == last
    {
      n, cur, done := n + 1, plain, last;
    }

    /** Serves up to k bytes. What is served is a prefix of what was written under the
        file's key; the end is clean only for the file as written, all of it served;
        and any other file ends in an error. */
    method Read(k: nat) returns (data: seq<byte>, e: Option<ReadError>)
      requires Valid()
      modifies this
      ensures Valid() && |data| <= k && served == old(served) + data
      ensures log(key).Some? ==> IsPrefix(served, log(key).value)
      ensures e.Some? ==> data == []
      ensures e == Some(Eof) ==> Intact() && served == log(key).value
      ensures e == Some(Bad) ==> !Intact()
      ensures e.None? && k > 0 ==> data != []
    {
      while cur == []
        invariant Valid() && served == old(served)
        decreases |rest|, if err.None? && !done then 1 else 0
      {
        if err.Some? || done {
          Ended();
          return [], if err.Some? then err else Some(Eof);
        }
        err := Next();
      }
      data := Serve(k);
      e := None;
    }

    /** What has been served when there is no more. */
    lemma Ended()
      requires Valid() && cur == []
      ensures served == served + [] && (log(key).Some? ==> IsPrefix(served, log(key).value))
      ensures done ==> Intact() && served == log(key).value
    {
      if log(key).Some? {
        UptoIsPrefix(log(key).value, n);
        assert served + cur == served;
      }
    }

    method Serve(k: nat) returns (data: seq<byte>)
      requires Valid() && cur != []
      modifies this`cur, this`served
      ensures Valid() && |data| <= k && served == old(served) + data && (k > 0 ==> data != [])
      ensures log(key).Some? ==> IsPrefix(served, log(key).value)
    {
      var m := Min(k, |cur|);
      data := cur[..m];
      var after := cur[m..];
      AppendAssoc(served, data, after);
      assert cur == data + after;
      cur := after;
      served := served + data;
      if log(key).Some? {
        UptoIsPrefix(log(key).value, n);
        PrefixOfWhole(served, cur, log(key).value);
      }
    }
  }

  datatype OpenError = Short | UnknownFormat | MissingKey(id: seq<byte>)

  /** Reads a file's header and derives its key from it and the file's name. */
  method OpenStaging(a: Aead, file: seq<byte>, name: string, keys: set<seq<byte>>, ghost log: Log)
    returns (r: Result<SealedReader, OpenError>)
    requires Ideal(a, log)
    ensures r.Ok? ==> fresh(r.value) && r.value.Valid() && r.value.served == [] && r.value.log == log && r.value.a == a
    ensures r.Ok? ==> r.value.key.id in keys && IsFile(r.value.key, r.value.body, name, file)
    ensures r.Err? ==> forall k, body :: IsFile(k, body, name, file) ==> k.id !in keys && r.error == MissingKey(k.id)
    ensures r.Err? && r.error.MissingKey? ==> exists k, body :: IsFile(k, body, name, file)
    ensures r == Err(UnknownFormat) <==> |file| >= 2 && (file[0] != 1 || file[1] > 32)
  {
    if |file| < 2 { return Err(Short); }
    if file[0] != FORMAT_VERSION || file[1] > MAX_KEY_ID { return Err(UnknownFormat); }
    var idEnd := 2 + file[1] as int;
    if |file| < idEnd + SALT { return Err(Short); }
    var id, salt := file[2..idEnd], file[idEnd..idEnd + SALT];
    var key, body := Key(id, name, salt), file[idEnd + SALT..];
    assert file == Header(key) + body;
    assert IsFile(key, body, name, file);
    if id !in keys {
      forall k: Key, other | IsFile(k, other, name, file) ensures k.id == id {
        assert (Header(k) + other)[2..2 + |k.id|] == k.id;
      }
      return Err(MissingKey(id));
    }
    var reader := new SealedReader(a, key, body, log);
    return Ok(reader);
  }

  /** A file of this name with the header of key k. */
  predicate IsFile(k: Key, body: seq<byte>, name: string, file: seq<byte>) {
    && |k.id| <= 32 && |k.salt| == 32 && k.name == name
    && file == [1, |k.id|] + k.id + k.salt + body
  }
}
