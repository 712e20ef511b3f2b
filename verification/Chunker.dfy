/** Content-defined chunking: a gear hash rolls over the bytes, and the chunker
    that skips most of each chunk cuts where hashing every byte would. */
module Chunker {
  import opened Arith
  import opened Bytes
  import opened Limits
  import opened Wrappers

  const GEAR_WINDOW := 64
  /** No byte before this one of a chunk is hashed. */
  const SKIPPED := MIN_CHUNK - GEAR_WINDOW - 1

  /** A hash whose top 16 bits are zero is below this. */
  const CUT_BELOW := 0x1_0000_0000_0000

  type Gear = byte -> word

  /** The mask test is a comparison. */
  lemma MaskedIsBelow(fp: bv64)
    ensures fp & 0xffff_0000_0000_0000 == 0 <==> fp as int < CUT_BELOW
  {
    assert fp & 0xffff_0000_0000_0000 == 0 <==> fp < 0x1_0000_0000_0000;
  }

  // ---------------------------------------------------------------------
  // The rolling hash
  // ---------------------------------------------------------------------

  function Shift(gear: Gear, fp: word, b: byte): word {
    (2 * fp + gear(b)) % WORD
  }

  /** The hash fp rolled over bytes[from..upto]. */
  function Roll(gear: Gear, fp: word, bytes: seq<byte>, from: nat, upto: nat): word
    requires upto <= |bytes|
    decreases upto
  {
    if upto <= from then fp else Shift(gear, Roll(gear, fp, bytes, from, upto - 1), bytes[upto - 1])
  }

  function Pow2(n: nat): nat {
    if n == 0 then 1 else 2 * Pow2(n - 1)
  }

  /** The hash without its wrap-around. */
  function Sum(gear: Gear, bytes: seq<byte>, from: nat, upto: nat): nat
    requires upto <= |bytes|
    decreases upto
  {
    if upto <= from then 0 else 2 * Sum(gear, bytes, from, upto - 1) + gear(bytes[upto - 1])
  }

  lemma DoubleMod(x: nat, y: nat, g: nat)
    requires x % WORD == y % WORD
    ensures (2 * x + g) % WORD == (2 * y + g) % WORD
  {
    var d := x / WORD - y / WORD;
    assert 2 * x + g == 2 * y + g + 2 * d * WORD;
    ModShift(2 * y + g, 2 * d);
  }

  /** The hash fp rolled on, without its wrap-around. */
  function Unwrapped(gear: Gear, fp: nat, bytes: seq<byte>, from: nat, upto: nat): nat
    requires upto <= |bytes|
    decreases upto
  {
    if upto <= from then fp else 2 * Unwrapped(gear, fp, bytes, from, upto - 1) + gear(bytes[upto - 1])
  }

  lemma {:induction false} RollWraps(gear: Gear, fp: word, bytes: seq<byte>, from: nat, upto: nat)
    requires upto <= |bytes|
    ensures Roll(gear, fp, bytes, from, upto) == Unwrapped(gear, fp, bytes, from, upto) % WORD
    decreases upto
  {
    if from < upto {
      RollWraps(gear, fp, bytes, from, upto - 1);
      var rolled, unwrapped := Roll(gear, fp, bytes, from, upto - 1), Unwrapped(gear, fp, bytes, from, upto - 1);
      DoubleMod(rolled, unwrapped, gear(bytes[upto - 1]));
    }
  }

  lemma {:induction false} UnwrappedIsSum(gear: Gear, fp: nat, bytes: seq<byte>, from: nat, upto: nat)
    requires from <= upto <= |bytes|
    ensures Unwrapped(gear, fp, bytes, from, upto) == fp * Pow2(upto - from) + Sum(gear, bytes, from, upto)
    decreases upto
  {
    if from < upto {
      UnwrappedIsSum(gear, fp, bytes, from, upto - 1);
      DoubleSum(fp, Pow2(upto - 1 - from), Sum(gear, bytes, from, upto - 1), gear(bytes[upto - 1]));
    }
  }

  lemma RollIsSum(gear: Gear, fp: word, bytes: seq<byte>, from: nat, upto: nat)
    requires from <= upto <= |bytes|
    ensures Roll(gear, fp, bytes, from, upto) == (fp * Pow2(upto - from) + Sum(gear, bytes, from, upto)) % WORD
  {
    RollWraps(gear, fp, bytes, from, upto);
    UnwrappedIsSum(gear, fp, bytes, from, upto);
  }

  lemma DoubleSum(a: nat, p: nat, s: nat, g: nat)
    ensures 2 * (a * p + s) + g == a * (2 * p) + (2 * s + g)
  {
  }

  lemma {:induction false} Pow2Adds(a: nat, b: nat)
    ensures Pow2(a + b) == Pow2(a) * Pow2(b)
  {
    if a > 0 {
      Pow2Adds(a - 1, b);
      TwiceProduct(Pow2(a - 1), Pow2(b));
      assert Pow2(a + b) == 2 * Pow2(a - 1 + b);
    }
  }

  lemma TwiceProduct(x: nat, y: nat)
    ensures 2 * (x * y) == (2 * x) * y
  {
  }

  lemma Pow2Word()
    ensures Pow2(64) == WORD
  {
    assert Pow2(8) == 256;
    Pow2Adds(8, 8);
    Pow2Adds(16, 16);
    Pow2Adds(32, 32);
  }

  /** Once it has rolled over a window's worth of bytes, the hash depends on
      nothing before them. */
  lemma WindowForgets(gear: Gear, a: word, b: word, bytes: seq<byte>, from: nat, upto: nat)
    requires from + GEAR_WINDOW <= upto <= |bytes|
    ensures Roll(gear, a, bytes, from, upto) == Roll(gear, b, bytes, from, upto)
  {
    RollIsSum(gear, a, bytes, from, upto);
    RollIsSum(gear, b, bytes, from, upto);
    Pow2Adds(64, upto - from - 64);
    Pow2Word();
    ShiftedOut(a, Pow2(upto - from - 64), Sum(gear, bytes, from, upto));
    ShiftedOut(b, Pow2(upto - from - 64), Sum(gear, bytes, from, upto));
  }

  lemma ShiftedOut(a: nat, k: nat, s: nat)
    ensures (a * (WORD * k) + s) % WORD == s % WORD
  {
    ModShift(s, a * k);
    assert a * (WORD * k) == (a * k) * WORD;
  }

  lemma {:induction false} RollSplits(gear: Gear, fp: word, bytes: seq<byte>, from: nat, mid: nat, upto: nat)
    requires from <= mid <= upto <= |bytes|
    ensures Roll(gear, fp, bytes, from, upto) == Roll(gear, Roll(gear, fp, bytes, from, mid), bytes, mid, upto)
    decreases upto
  {
    if mid < upto {
      RollSplits(gear, fp, bytes, from, mid, upto - 1);
    }
  }

  lemma {:induction false} RollExtends(gear: Gear, fp: word, bytes: seq<byte>, more: seq<byte>, from: nat, upto: nat)
    requires upto <= |bytes|
    ensures Roll(gear, fp, bytes + more, from, upto) == Roll(gear, fp, bytes, from, upto)
    decreases upto
  {
    if from < upto {
      RollExtends(gear, fp, bytes, more, from, upto - 1);
    }
  }

  /** Skipping a chunk's first bytes leaves the hash as it was, a window later. */
  lemma SkipForgets(gear: Gear, bytes: seq<byte>, skipped: nat, upto: nat)
    requires skipped + GEAR_WINDOW <= upto <= |bytes|
    ensures Roll(gear, 0, bytes, 0, upto) == Roll(gear, 0, bytes, skipped, upto)
  {
    RollSplits(gear, 0, bytes, 0, skipped, upto);
    WindowForgets(gear, Roll(gear, 0, bytes, 0, skipped), 0, bytes, skipped, upto);
  }

  // ---------------------------------------------------------------------
  // The simple chunker: hash every byte of each chunk from its start
  // ---------------------------------------------------------------------

  /** A chunk whose first n bytes are bytes[..n] ends there. */
  predicate CutsAt(gear: Gear, bytes: seq<byte>, n: nat)
    requires n <= |bytes|
  {
    n >= MAX_CHUNK || (n >= MIN_CHUNK && Roll(gear, 0, bytes, 0, n) < CUT_BELOW)
  }

  predicate NoCut(gear: Gear, bytes: seq<byte>, after: nat, upto: nat)
    requires upto <= |bytes|
  {
    forall n :: after < n <= upto ==> !CutsAt(gear, bytes, n)
  }

  /** The first cut longer than after. */
  function FirstCut(gear: Gear, bytes: seq<byte>, after: nat): (r: Option<nat>)
    requires after <= |bytes|
    ensures r.Some? ==>
      after < r.value <= |bytes| && CutsAt(gear, bytes, r.value) && NoCut(gear, bytes, after, r.value - 1)
    ensures r.None? ==> NoCut(gear, bytes, after, |bytes|)
    decreases |bytes| - after
  {
    if after == |bytes| then None
    else if CutsAt(gear, bytes, after + 1) then Some(after + 1)
    else FirstCut(gear, bytes, after + 1)
  }

  function Cuts(gear: Gear, bytes: seq<byte>): seq<seq<byte>>
    decreases |bytes|
  {
    if bytes == [] then []
    else match FirstCut(gear, bytes, 0)
      case None => [bytes]
      case Some(n) => [bytes[..n]] + Cuts(gear, bytes[n..])
  }

  /** The chunks cover the content with no gap. */
  lemma {:induction false} CutsCover(gear: Gear, bytes: seq<byte>)
    ensures Flatten(Cuts(gear, bytes)) == bytes
    decreases |bytes|
  {
    if bytes != [] && FirstCut(gear, bytes, 0).Some? {
      var n := FirstCut(gear, bytes, 0).value;
      CutsCover(gear, bytes[n..]);
      assert bytes == bytes[..n] + bytes[n..];
    }
  }

  /** Every chunk is at most MAX_CHUNK long, and every one but the last at least MIN_CHUNK. */
  lemma {:induction false} CutSizes(gear: Gear, bytes: seq<byte>, k: nat)
    requires k < |Cuts(gear, bytes)|
    ensures 0 < |Cuts(gear, bytes)[k]| <= MAX_CHUNK
    ensures k < |Cuts(gear, bytes)| - 1 ==> |Cuts(gear, bytes)[k]| >= MIN_CHUNK
    decreases |bytes|
  {
    match FirstCut(gear, bytes, 0)
    case None =>
      assert |bytes| > MAX_CHUNK ==> CutsAt(gear, bytes, MAX_CHUNK);
    case Some(n) =>
      assert n > MAX_CHUNK ==> CutsAt(gear, bytes, MAX_CHUNK);
      if k > 0 {
        CutSizes(gear, bytes[n..], k - 1);
      }
  }

  /** From any cut on, the chunks are those of the bytes from there on. */
  lemma {:induction false} CutsResume(gear: Gear, bytes: seq<byte>, k: nat)
    requires k <= |Cuts(gear, bytes)|
    ensures |Flatten(Cuts(gear, bytes)[..k])| <= |bytes|
    ensures Cuts(gear, bytes)[k..] == Cuts(gear, bytes[|Flatten(Cuts(gear, bytes)[..k])|..])
    decreases |bytes|
  {
    var cuts := Cuts(gear, bytes);
    if k == 0 {
      assert cuts[..0] == [] && bytes[0..] == bytes;
    } else if FirstCut(gear, bytes, 0).None? {
      assert cuts[..k] == [bytes] && cuts[k..] == [] && bytes[|bytes|..] == [];
      assert Flatten([bytes]) == bytes;
    } else {
      var n := FirstCut(gear, bytes, 0).value;
      var rest := Cuts(gear, bytes[n..]);
      CutsResume(gear, bytes[n..], k - 1);
      AfterFirst(cuts, bytes[..n], rest, k);
      assert bytes[n..][|Flatten(rest[..k - 1])|..] == bytes[n + |Flatten(rest[..k - 1])|..];
    }
  }

  lemma AfterFirst<T>(cuts: seq<seq<T>>, first: seq<T>, rest: seq<seq<T>>, k: nat)
    requires cuts == [first] + rest && 0 < k <= |cuts|
    ensures |Flatten(cuts[..k])| == |first| + |Flatten(rest[..k - 1])| && cuts[k..] == rest[k - 1..]
  {
    assert cuts[..k][1..] == rest[..k - 1];
  }

  /** Two contents that end alike, and are both cut where the common end begins,
      are cut alike from there on. */
  lemma CutsResynchronise(gear: Gear, a: seq<byte>, b: seq<byte>, i: nat, j: nat)
    requires i <= |Cuts(gear, a)| && j <= |Cuts(gear, b)|
    requires var p, q := |Flatten(Cuts(gear, a)[..i])|, |Flatten(Cuts(gear, b)[..j])|;
      p <= |a| && q <= |b| && a[p..] == b[q..]
    ensures Cuts(gear, a)[i..] == Cuts(gear, b)[j..]
  {
    CutsResume(gear, a, i);
    CutsResume(gear, b, j);
  }

  // ---------------------------------------------------------------------
  // The rule, and that it fixes the cuts
  // ---------------------------------------------------------------------

  /** The top 16 of the hash's 64 bits after a chunk's first m bytes, the hash being
      the sum of their gears, each doubled once for every byte after it. */
  function TopBits(gear: Gear, chunk: seq<byte>, m: nat): nat
    requires m <= |chunk|
  {
    Sum(gear, chunk, 0, m) % 0x1_0000_0000_0000_0000 / 0x1_0000_0000_0000
  }

  /** A chunk as Xet cuts it: it ends where its top bits are first zero with at least
      8 KiB, or else at 128 KiB; the last one may end before. */
  predicate IsChunk(gear: Gear, chunk: seq<byte>, last: bool) {
    && 0 < |chunk| <= 131072
    && (forall m: nat :: 8192 <= m < |chunk| ==> TopBits(gear, chunk, m) != 0)
    && (!last ==> |chunk| == 131072 || (|chunk| >= 8192 && TopBits(gear, chunk, |chunk|) == 0))
  }

  predicate ByRule(gear: Gear, pieces: seq<seq<byte>>) {
    forall k :: 0 <= k < |pieces| ==> IsChunk(gear, pieces[k], k == |pieces| - 1)
  }

  lemma CutTest(gear: Gear, bytes: seq<byte>, n: nat)
    requires n <= |bytes|
    ensures CutsAt(gear, bytes, n) <==> n >= 131072 || (n >= 8192 && TopBits(gear, bytes, n) == 0)
  {
    RollIsSum(gear, 0, bytes, 0, n);
    TopOf(Sum(gear, bytes, 0, n) % WORD);
  }

  lemma TopOf(x: nat)
    ensures x < CUT_BELOW <==> x / 0x1_0000_0000_0000 == 0
  {
  }

  lemma IsChunkIffCut(gear: Gear, chunk: seq<byte>, last: bool)
    requires chunk != []
    ensures IsChunk(gear, chunk, last) <==>
      NoCut(gear, chunk, 0, |chunk| - 1) && (last || CutsAt(gear, chunk, |chunk|))
  {
    forall m: nat | m <= |chunk|
      ensures CutsAt(gear, chunk, m) <==> m >= 131072 || (m >= 8192 && TopBits(gear, chunk, m) == 0)
    {
      CutTest(gear, chunk, m);
    }
    if NoCut(gear, chunk, 0, |chunk| - 1) {
      LongIsCut(gear, chunk);
      forall m: nat | 8192 <= m < |chunk|
        ensures TopBits(gear, chunk, m) != 0
      {
        assert !CutsAt(gear, chunk, m);
      }
    }
  }

  lemma LongIsCut(gear: Gear, chunk: seq<byte>)
    ensures |chunk| > 131072 ==> !NoCut(gear, chunk, 0, |chunk| - 1)
  {
    if |chunk| > 131072 {
      assert CutsAt(gear, chunk, 131072);
    }
  }

  lemma RuleOfRest(gear: Gear, first: seq<byte>, rest: seq<seq<byte>>)
    ensures ByRule(gear, [first] + rest) <==> IsChunk(gear, first, rest == []) && ByRule(gear, rest)
  {
    var pieces := [first] + rest;
    if ByRule(gear, pieces) {
      assert IsChunk(gear, pieces[0], rest == []);
      forall k | 0 <= k < |rest| ensures IsChunk(gear, rest[k], k == |rest| - 1) {
        assert IsChunk(gear, pieces[k + 1], k + 1 == |pieces| - 1);
      }
    }
  }

  lemma CutsOfLast(gear: Gear, chunk: seq<byte>)
    requires chunk != [] && NoCut(gear, chunk, 0, |chunk| - 1)
    ensures Cuts(gear, chunk) == [chunk]
  {
    if CutsAt(gear, chunk, |chunk|) {
      CutsOfChunk(gear, chunk, []);
      assert chunk + [] == chunk;
    } else {
      NoFirstCut(gear, chunk, 0);
    }
  }

  lemma FirstPiece(gear: Gear, bytes: seq<byte>, n: nat)
    requires n <= |bytes| && FirstCut(gear, bytes, 0) == Some(n)
    ensures IsChunk(gear, bytes[..n], false) && IsChunk(gear, bytes[..n], true)
  {
    assert bytes == bytes[..n] + bytes[n..];
    NoCutExtends(gear, bytes[..n], bytes[n..], 0, n - 1);
    RollExtends(gear, 0, bytes[..n], bytes[n..], 0, n);
    IsChunkIffCut(gear, bytes[..n], false);
    IsChunkIffCut(gear, bytes[..n], true);
  }

  lemma {:induction false} CutsByRule(gear: Gear, bytes: seq<byte>)
    ensures ByRule(gear, Cuts(gear, bytes))
    decreases |bytes|
  {
    if bytes != [] {
      match FirstCut(gear, bytes, 0)
      case None => IsChunkIffCut(gear, bytes, true);
      case Some(n) =>
        CutsByRule(gear, bytes[n..]);
        FirstPiece(gear, bytes, n);
        RuleOfRest(gear, bytes[..n], Cuts(gear, bytes[n..]));
    }
  }

  lemma {:induction false} RuleIsCuts(gear: Gear, pieces: seq<seq<byte>>)
    requires ByRule(gear, pieces)
    ensures Cuts(gear, Flatten(pieces)) == pieces
  {
    if pieces != [] {
      var first, rest := pieces[0], pieces[1..];
      assert pieces == [first] + rest;
      RuleOfRest(gear, first, rest);
      IsChunkIffCut(gear, first, rest == []);
      RuleIsCuts(gear, rest);
      if rest == [] {
        assert Flatten(pieces) == first;
        CutsOfLast(gear, first);
      } else {
        CutsOfChunk(gear, first, Flatten(rest));
      }
    }
  }

  /** Content has one division into chunks by the rule, and it is the one cut. */
  lemma CutsIffByRule(gear: Gear, bytes: seq<byte>, pieces: seq<seq<byte>>)
    ensures Flatten(pieces) == bytes && ByRule(gear, pieces) <==> pieces == Cuts(gear, bytes)
  {
    CutsCover(gear, bytes);
    CutsByRule(gear, bytes);
    if ByRule(gear, pieces) {
      RuleIsCuts(gear, pieces);
    }
  }

  // ---------------------------------------------------------------------
  // The chunker
  // ---------------------------------------------------------------------

  datatype ChunkRef = ChunkRef(hash: string, pos: nat, size: nat)

  /** Chunks as recorded, each where the pieces before it end. */
  function Refs(hash: seq<byte> -> string, pieces: seq<seq<byte>>): (r: seq<ChunkRef>)
    ensures |r| == |pieces|
    ensures forall i :: 0 <= i < |pieces| ==> r[i] == ChunkRef(hash(pieces[i]), |Flatten(pieces[..i])|, |pieces[i]|)
  {
    seq(|pieces|, i requires 0 <= i < |pieces| => ChunkRef(hash(pieces[i]), |Flatten(pieces[..i])|, |pieces[i]|))
  }

  lemma RecordsNext(hash: seq<byte> -> string, pieces: seq<seq<byte>>, piece: seq<byte>)
    ensures Refs(hash, pieces + [piece]) == Refs(hash, pieces) + [ChunkRef(hash(piece), |Flatten(pieces)|, |piece|)]
    ensures |Flatten(pieces + [piece])| == |Flatten(pieces)| + |piece|
  {
    var more := pieces + [piece];
    FlattenSnoc(pieces, piece);
    forall i | 0 <= i < |more| ensures more[..i] == if i < |pieces| then pieces[..i] else pieces {
    }
  }

  /** The chunks emitted so far and the bytes of the current one are a state the
      simple chunker passes through. */
  ghost predicate InStep(gear: Gear, written: seq<byte>, pieces: seq<seq<byte>>, cur: seq<byte>) {
    && written == Flatten(pieces) + cur
    && NoCut(gear, cur, 0, |cur|)
    && forall rest :: Cuts(gear, written + rest) == pieces + Cuts(gear, cur + rest)
  }

  lemma {:induction false} FirstCutExtends(gear: Gear, bytes: seq<byte>, after: nat, n: nat)
    requires after < n <= |bytes| && NoCut(gear, bytes, after, n - 1) && CutsAt(gear, bytes, n)
    ensures FirstCut(gear, bytes, after) == Some(n)
    decreases n - after
  {
    if after + 1 < n {
      assert !CutsAt(gear, bytes, after + 1);
      FirstCutExtends(gear, bytes, after + 1, n);
    }
  }

  lemma NoCutExtends(gear: Gear, bytes: seq<byte>, more: seq<byte>, after: nat, upto: nat)
    requires upto <= |bytes|
    ensures NoCut(gear, bytes, after, upto) <==> NoCut(gear, bytes + more, after, upto)
  {
    forall n: nat | after < n <= upto
      ensures CutsAt(gear, bytes, n) <==> CutsAt(gear, bytes + more, n)
    {
      RollExtends(gear, 0, bytes, more, 0, n);
    }
    if NoCut(gear, bytes, after, upto) {
      forall n | after < n <= upto ensures !CutsAt(gear, bytes + more, n) { assert !CutsAt(gear, bytes, n); }
    }
    if NoCut(gear, bytes + more, after, upto) {
      forall n | after < n <= upto ensures !CutsAt(gear, bytes, n) { assert !CutsAt(gear, bytes + more, n); }
    }
  }

  lemma CutsOfChunk(gear: Gear, chunk: seq<byte>, rest: seq<byte>)
    requires chunk != [] && NoCut(gear, chunk, 0, |chunk| - 1) && CutsAt(gear, chunk, |chunk|)
    ensures Cuts(gear, chunk + rest) == [chunk] + Cuts(gear, rest)
  {
    NoCutExtends(gear, chunk, rest, 0, |chunk| - 1);
    RollExtends(gear, 0, chunk, rest, 0, |chunk|);
    assert (chunk + rest)[..|chunk|] == chunk;
    FirstCutExtends(gear, chunk + rest, 0, |chunk|);
    assert (chunk + rest)[|chunk|..] == rest;
  }

  lemma NoFirstCut(gear: Gear, bytes: seq<byte>, after: nat)
    requires after <= |bytes| && NoCut(gear, bytes, after, |bytes|)
    ensures FirstCut(gear, bytes, after).None?
    decreases |bytes| - after
  {
    if after < |bytes| {
      assert !CutsAt(gear, bytes, after + 1);
      NoFirstCut(gear, bytes, after + 1);
    }
  }

  /** more is the rest of a chunk that begins with cur. */
  predicate Completes(gear: Gear, cur: seq<byte>, more: seq<byte>) {
    && more != []
    && NoCut(gear, cur + more, |cur|, |cur + more| - 1)
    && CutsAt(gear, cur + more, |cur + more|)
  }

  lemma CutsWhenComplete(gear: Gear, written: seq<byte>, pieces: seq<seq<byte>>, cur: seq<byte>, more: seq<byte>,
                  rest: seq<byte>)
    requires InStep(gear, written, pieces, cur) && Completes(gear, cur, more)
    ensures Cuts(gear, written + more + rest) == pieces + [cur + more] + Cuts(gear, rest)
  {
    AppendAssoc(written, more, rest);
    AppendAssoc(cur, more, rest);
    NoCutExtends(gear, cur, more, 0, |cur|);
    CutsOfChunk(gear, cur + more, rest);
    assert Cuts(gear, written + (more + rest)) == pieces + Cuts(gear, cur + (more + rest));
    AppendAssoc(pieces, [cur + more], Cuts(gear, rest));
  }

  /** Emitting the current chunk where the simple chunker cuts stays in step. */
  lemma EmitInStep(gear: Gear, written: seq<byte>, pieces: seq<seq<byte>>, cur: seq<byte>, more: seq<byte>)
    requires InStep(gear, written, pieces, cur) && Completes(gear, cur, more)
    ensures InStep(gear, written + more, pieces + [cur + more], [])
  {
    EmittedContent(pieces, cur, more);
    forall rest
      ensures Cuts(gear, written + more + rest) == pieces + [cur + more] + Cuts(gear, [] + rest)
    {
      CutsWhenComplete(gear, written, pieces, cur, more, rest);
      NothingBefore(rest);
    }
  }

  lemma EmittedContent(pieces: seq<seq<byte>>, cur: seq<byte>, more: seq<byte>)
    ensures Flatten(pieces) + cur + more == Flatten(pieces + [cur + more]) + []
  {
    FlattenSnoc(pieces, cur + more);
    AppendAssoc(Flatten(pieces), cur, more);
    assert Flatten(pieces + [cur + more]) + [] == Flatten(pieces + [cur + more]);
  }

  lemma NothingBefore(rest: seq<byte>)
    ensures [] + rest == rest
  {
  }

  lemma GrowInStep(gear: Gear, written: seq<byte>, pieces: seq<seq<byte>>, cur: seq<byte>, more: seq<byte>)
    requires InStep(gear, written, pieces, cur)
    requires NoCut(gear, cur + more, |cur|, |cur + more|)
    ensures InStep(gear, written + more, pieces, cur + more)
  {
    NoCutExtends(gear, cur, more, 0, |cur|);
    AppendAssoc(Flatten(pieces), cur, more);
    forall rest
      ensures Cuts(gear, written + more + rest) == pieces + Cuts(gear, cur + more + rest)
    {
      CutsWhenGrown(gear, written, pieces, cur, more, rest);
    }
  }

  lemma CutsWhenGrown(gear: Gear, written: seq<byte>, pieces: seq<seq<byte>>, cur: seq<byte>, more: seq<byte>,
                  rest: seq<byte>)
    requires InStep(gear, written, pieces, cur)
    ensures Cuts(gear, written + more + rest) == pieces + Cuts(gear, cur + more + rest)
  {
    AppendAssoc(written, more, rest);
    AppendAssoc(cur, more, rest);
    assert Cuts(gear, written + (more + rest)) == pieces + Cuts(gear, cur + (more + rest));
  }

  class Chunker {
    const gear: Gear
    const hash: seq<byte> -> string
    var fp: word
    var n: nat
    var pos: nat
    /** The bytes the chunk hasher has been fed since its reset. */
    var hashed: seq<byte>
    var chunks: seq<ChunkRef>
    ghost var written: seq<byte>
    ghost var pieces: seq<seq<byte>>

    ghost predicate Valid()
      reads this
    {
      && InStep(gear, written, pieces, hashed)
      && chunks == Refs(hash, pieces)
      && pos == |Flatten(pieces)|
      && n == |hashed|
      && fp == Roll(gear, 0, hashed, SKIPPED, n)
    }

    constructor (gear: Gear, hash: seq<byte> -> string)
      ensures Valid() && written == [] && this.gear == gear && this.hash == hash
    {
      this.gear := gear;
      this.hash := hash;
      fp, n, pos, hashed, chunks, written, pieces := 0, 0, 0, [], [], [], [];
      new;
      forall rest: seq<byte>
        ensures Cuts(gear, [] + rest) == [] + Cuts(gear, [] + rest)
      {
      }
    }

    /** How many bytes of p complete the current chunk, if any do. The rolling
        hash is advanced over what is scanned. */
    method Boundary(p: seq<byte>) returns (cut: Option<nat>)
      requires Valid() && p != []
      modifies this`fp
      ensures cut.Some? ==> 0 < cut.value <= |p| && fp == 0
      ensures cut.Some? ==> Completes(gear, hashed, p[..cut.value])
      ensures cut.None? ==> NoCut(gear, hashed + p, |hashed|, |hashed + p|)
      ensures cut.None? ==> fp == Roll(gear, 0, hashed + p, SKIPPED, |hashed + p|)
    {
      ghost var all := hashed + p;
      var i := 0;
      CurrentIsShort();
      ShortHasNoCut(all);
      var skip := MIN_CHUNK - GEAR_WINDOW - 1 - n;
      if skip > 0 {
        if skip >= |p| {
          return None;
        }
        i := skip;
      }
      RollExtends(gear, 0, hashed, p, SKIPPED, n);
      cut := Scan(p, i);
    }

    /** The loop of Boundary: rolls the hash over p[start..end] until it cuts.
        cur is the current chunk's bytes before p. */
    static method RollUntilCut(gear: Gear, ghost cur: seq<byte>, n: nat, p: seq<byte>, start: nat, end: nat, fp: word)
      returns (i: nat, h: word, hit: bool)
      requires n == |cur| && start <= end <= |p| && SKIPPED <= n + start
      requires fp == Roll(gear, 0, cur + p, SKIPPED, n + start)
      ensures start <= i <= end && (!hit ==> i == end)
      ensures h == Roll(gear, 0, cur + p, SKIPPED, n + i)
      ensures hit ==> i > start && n + i >= MIN_CHUNK && Roll(gear, 0, cur + p, 0, n + i) < CUT_BELOW
      ensures forall m :: n + start < m <= n + i && !(hit && m == n + i) && m >= MIN_CHUNK ==>
        Roll(gear, 0, cur + p, 0, m) >= CUT_BELOW
    {
      ghost var all := cur + p;
      i, h, hit := start, fp, false;
      while i < end
        invariant start <= i <= end
        invariant h == Roll(gear, 0, all, SKIPPED, n + i)
        invariant forall m :: n + start < m <= n + i && m >= MIN_CHUNK ==> Roll(gear, 0, all, 0, m) >= CUT_BELOW
      {
        RollOn(gear, all, n + i, h);
        h := Shift(gear, h, p[i]);
        i := i + 1;
        if h < CUT_BELOW && n + i >= MIN_CHUNK {
          return i, h, true;
        }
      }
    }

    /** Boundary from byte start of p on. */
    method Scan(p: seq<byte>, start: nat) returns (cut: Option<nat>)
      requires n == |hashed| < MAX_CHUNK && start <= |p| && SKIPPED <= n + start
      requires start <= MAX_CHUNK - n
      requires fp == Roll(gear, 0, hashed + p, SKIPPED, n + start)
      requires NoCutShort(hashed + p, n + start) && p != []
      modifies this`fp
      ensures cut.Some? ==> 0 < cut.value <= |p| && fp == 0
      ensures cut.Some? ==> Completes(gear, hashed, p[..cut.value])
      ensures cut.None? ==> NoCut(gear, hashed + p, |hashed|, |hashed + p|)
      ensures cut.None? ==> fp == Roll(gear, 0, hashed + p, SKIPPED, |hashed + p|)
    {
      var end := if |p| < MAX_CHUNK - n then |p| else MAX_CHUNK - n;
      var i, h, hit := RollUntilCut(gear, hashed, n, p, start, end, fp);
      if hit || n + i >= MAX_CHUNK {
        CutHere(p, i);
        fp := 0;
        return Some(i);
      }
      fp := h;
      return None;
    }

    /** No cut in the current chunk so far but for the one at the maximum length. */
    ghost predicate NoCutShort(all: seq<byte>, upto: nat)
      requires upto <= |all|
      reads this
    {
      forall m :: n < m <= upto && m < MAX_CHUNK ==> !CutsAt(gear, all, m)
    }

    lemma ShortHasNoCut(all: seq<byte>)
      requires n == |hashed| && n <= |all|
      ensures forall upto :: n <= upto <= |all| && upto < MIN_CHUNK ==>
        NoCutShort(all, upto) && NoCut(gear, all, n, upto)
    {
    }

    /** One more byte rolled in, and what the hash without the skipped bytes says. */
    static lemma RollOn(gear: Gear, all: seq<byte>, m: nat, h: word)
      requires SKIPPED <= m < |all| && h == Roll(gear, 0, all, SKIPPED, m)
      ensures Shift(gear, h, all[m]) == Roll(gear, 0, all, SKIPPED, m + 1)
      ensures m + 1 >= MIN_CHUNK ==> Shift(gear, h, all[m]) == Roll(gear, 0, all, 0, m + 1)
    {
      if m + 1 >= MIN_CHUNK {
        SkipForgets(gear, all, SKIPPED, m + 1);
      }
    }

    lemma CurrentIsShort()
      requires Valid()
      ensures n < MAX_CHUNK
    {
      assert n >= MAX_CHUNK ==> CutsAt(gear, hashed, n);
    }

    lemma CutHere(p: seq<byte>, k: nat)
      requires 0 < k <= |p|
      requires n == |hashed| && n + k - 1 < MAX_CHUNK
      requires NoCutShort(hashed + p, n + k - 1) && CutsAt(gear, hashed + p, n + k)
      ensures Completes(gear, hashed, p[..k])
    {
      var all, head := hashed + p, hashed + p[..k];
      assert all == head + p[k..];
      NoCutExtends(gear, head, p[k..], |hashed|, |hashed| + k - 1);
      RollExtends(gear, 0, head, p[k..], 0, |hashed| + k);
    }

    /** more ends the current chunk, which is emitted. */
    method Complete(more: seq<byte>)
      requires InStep(gear, written, pieces, hashed) && Completes(gear, hashed, more)
      requires chunks == Refs(hash, pieces) && pos == |Flatten(pieces)| && n == |hashed|
      modifies this
      ensures Valid() && written == old(written) + more
    {
      EmitInStep(gear, written, pieces, hashed, more);
      var whole := hashed + more;
      RecordsNext(hash, pieces, whole);
      assert n + |more| == |whole|;
      chunks := chunks + [ChunkRef(hash(whole), pos, n + |more|)];
      pos := pos + n + |more|;
      written, pieces := written + more, pieces + [whole];
      n, fp, hashed := 0, 0, [];
    }

    /** All of p belongs to the current chunk. */
    method Keep(p: seq<byte>)
      requires InStep(gear, written, pieces, hashed) && NoCut(gear, hashed + p, |hashed|, |hashed + p|)
      requires chunks == Refs(hash, pieces) && pos == |Flatten(pieces)| && n == |hashed|
      requires fp == Roll(gear, 0, hashed + p, SKIPPED, |hashed + p|)
      modifies this
      ensures Valid() && written == old(written) + p
    {
      GrowInStep(gear, written, pieces, hashed, p);
      hashed := hashed + p;
      n := n + |p|;
      written := written + p;
    }

    /** One turn of Write's loop: the rest of the current chunk, or all there is of it. */
    method Feed(p: seq<byte>) returns (used: nat)
      requires Valid() && p != []
      modifies this
      ensures 0 < used <= |p|
      ensures Valid() && written == old(written) + p[..used]
    {
      var cut := Boundary(p);
      if cut.None? {
        Keep(p);
        assert p[..|p|] == p;
        return |p|;
      }
      Complete(p[..cut.value]);
      return cut.value;
    }

    /** Feeds p to the chunker. */
    method Write(p: seq<byte>)
      requires Valid()
      modifies this
      ensures Valid() && written == old(written) + p
    {
      ghost var before := written;
      var at := 0;
      while at < |p|
        invariant 0 <= at <= |p|
        invariant Valid() && written == before + p[..at]
      {
        var used := Feed(p[at..]);
        TakeMore(before, p, at, used);
        at := at + used;
      }
      assert p[..at] == p;
    }

    static lemma TakeMore(before: seq<byte>, p: seq<byte>, at: nat, used: nat)
      requires at + used <= |p|
      ensures before + p[..at] + p[at..][..used] == before + p[..at + used]
    {
    }

    /** Ends the last chunk, and returns them all. */
    method Finish() returns (all: seq<ChunkRef>)
      requires Valid()
      modifies this
      ensures all == Refs(hash, Cuts(gear, old(written)))
    {
      assert Cuts(gear, written + []) == pieces + Cuts(gear, hashed + []);
      assert written + [] == written && hashed + [] == hashed;
      if n > 0 {
        LastIsWhole();
        RecordsNext(hash, pieces, hashed);
        chunks := chunks + [ChunkRef(hash(hashed), pos, n)];
        pos := pos + n;
        n, fp := 0, 0;
        hashed := [];
      } else {
        assert pieces + [] == pieces;
      }
      return chunks;
    }

    lemma LastIsWhole()
      requires Valid() && hashed != []
      ensures Cuts(gear, hashed) == [hashed]
    {
      NoFirstCut(gear, hashed, 0);
    }
  }

  /** The chunks recorded are those of the content divided by the rule. */
  predicate DividedInto(gear: Gear, hash: seq<byte> -> string, content: seq<byte>, pieces: seq<seq<byte>>,
                        chunks: seq<ChunkRef>) {
    Flatten(pieces) == content && ByRule(gear, pieces) && chunks == Refs(hash, pieces)
  }

  lemma CutsDivide(gear: Gear, hash: seq<byte> -> string, content: seq<byte>)
    ensures DividedInto(gear, hash, content, Cuts(gear, content), Refs(hash, Cuts(gear, content)))
  {
    CutsIffByRule(gear, content, Cuts(gear, content));
  }

  /** Chunking content handed over in any parts cuts it where the simple chunker
      cuts the whole: part boundaries never move a cut. */
  method ChunkParts(gear: Gear, hash: seq<byte> -> string, parts: seq<seq<byte>>) returns (chunks: seq<ChunkRef>)
    ensures chunks == Refs(hash, Cuts(gear, Flatten(parts)))
    ensures exists pieces: seq<seq<byte>> :: DividedInto(gear, hash, Flatten(parts), pieces, chunks)
  {
    CutsDivide(gear, hash, Flatten(parts));
    var c := new Chunker(gear, hash);
    for i := 0 to |parts|
      invariant c.Valid() && fresh(c) && c.gear == gear && c.hash == hash
      invariant c.written == Flatten(parts[..i])
    {
      FlattenSnoc(parts[..i], parts[i]);
      assert parts[..i + 1] == parts[..i] + [parts[i]];
      c.Write(parts[i]);
    }
    assert parts[..|parts|] == parts;
    chunks := c.Finish();
  }
}
