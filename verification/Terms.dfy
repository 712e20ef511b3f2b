/** Chunks, xorbs and terms, and what a list of terms means. */
module Terms {
  import opened Bytes

  /** A chunk as its Xet hash names it, with its length once decompressed. */
  datatype Chunk = Chunk(hash: string, size: nat)

  /** A xorb. It is named by the Merkle root of its chunk list, which binds the
      list (Merkle.RootBindsLeaves), so it is identified with that list. */
  datatype Xorb = Xorb(chunks: seq<Chunk>)

  /** The bytes [pos, pos+size) of a blob, held by the chunks [start, end) of xorb. */
  datatype Term = Term(pos: int, xorb: Xorb, start: int, end: int, size: int)

  function TotalSize(chunks: seq<Chunk>): nat {
    if chunks == [] then 0 else chunks[0].size + TotalSize(chunks[1..])
  }

  lemma {:induction false} TotalSizeConcat(a: seq<Chunk>, b: seq<Chunk>)
    ensures TotalSize(a + b) == TotalSize(a) + TotalSize(b)
  {
    if a == [] {
      assert a + b == b;
    } else {
      assert (a + b)[1..] == a[1..] + b;
      TotalSizeConcat(a[1..], b);
    }
  }

  lemma SizeSnoc(chunks: seq<Chunk>, n: nat)
    requires n < |chunks|
    ensures TotalSize(chunks[..n + 1]) == TotalSize(chunks[..n]) + chunks[n].size
  {
    assert chunks[..n + 1] == chunks[..n] + [chunks[n]];
    TotalSizeConcat(chunks[..n], [chunks[n]]);
    assert TotalSize([chunks[n]]) == chunks[n].size + TotalSize([chunks[n]][1..]);
  }

  /** A term names a non-empty run of its xorb's chunks and has their size. */
  predicate Sound(t: Term) {
    && 0 <= t.start < t.end <= |t.xorb.chunks|
    && t.size == TotalSize(t.xorb.chunks[t.start..t.end])
  }

  /** The chunks a term stands for. A term outside its xorb stands for none. */
  function Slice(t: Term): seq<Chunk> {
    if 0 <= t.start <= t.end <= |t.xorb.chunks| then t.xorb.chunks[t.start..t.end] else []
  }

  function Denote(terms: seq<Term>): seq<Chunk> {
    if terms == [] then [] else Slice(terms[0]) + Denote(terms[1..])
  }

  /** The terms are sound and follow each other with no gap, the first at pos. */
  predicate Tiles(terms: seq<Term>, pos: int) {
    terms == [] || (Sound(terms[0]) && terms[0].pos == pos && Tiles(terms[1..], pos + terms[0].size))
  }

  /** The term list a blob row holds stands for exactly the content's chunks. */
  predicate Denotes(terms: seq<Term>, content: seq<Chunk>) {
    Tiles(terms, 0) && Denote(terms) == content
  }

  /** The xorbs a term list names. */
  function Uses(terms: seq<Term>): set<Xorb> {
    set t | t in terms :: t.xorb
  }

  lemma {:induction false} DenoteConcat(a: seq<Term>, b: seq<Term>)
    ensures Denote(a + b) == Denote(a) + Denote(b)
  {
    if a == [] {
      assert a + b == b;
    } else {
      assert (a + b)[1..] == a[1..] + b;
      DenoteConcat(a[1..], b);
      AppendAssoc(Slice(a[0]), Denote(a[1..]), Denote(b));
      assert (a + b)[0] == a[0];
    }
  }

  /** Contiguous sound terms cover as many bytes as the chunks they stand for. */
  lemma {:induction false} TilesConcat(a: seq<Term>, b: seq<Term>, pos: int)
    requires Tiles(a, pos)
    ensures Tiles(a + b, pos) <==> Tiles(b, pos + TotalSize(Denote(a)))
  {
    if a == [] {
      assert a + b == b;
    } else {
      assert (a + b)[1..] == a[1..] + b;
      TotalSizeConcat(Slice(a[0]), Denote(a[1..]));
      TilesConcat(a[1..], b, pos + a[0].size);
    }
  }

  /** A tiling splits anywhere into two, the second starting where the first ends. */
  lemma TilesSplit(terms: seq<Term>, pos: int, i: nat)
    requires Tiles(terms, pos) && i <= |terms|
    ensures Tiles(terms[..i], pos)
    ensures Tiles(terms[i..], pos + TotalSize(Denote(terms[..i])))
    ensures Denote(terms) == Denote(terms[..i]) + Denote(terms[i..])
  {
    assert terms == terms[..i] + terms[i..];
    TilesPrefix(terms, pos, i);
    TilesTogether(terms[..i], terms[i..], pos);
  }

  lemma TilesTogether(front: seq<Term>, rest: seq<Term>, pos: int)
    requires Tiles(front, pos) && Tiles(front + rest, pos)
    ensures Tiles(rest, pos + TotalSize(Denote(front)))
    ensures Denote(front + rest) == Denote(front) + Denote(rest)
  {
    TilesConcat(front, rest, pos);
    DenoteConcat(front, rest);
  }

  lemma TilesHead(terms: seq<Term>, pos: int)
    requires terms != [] && Tiles(terms, pos)
    ensures Sound(terms[0]) && terms[0].pos == pos && Tiles(terms[1..], pos + terms[0].size)
    ensures Denote(terms) == Slice(terms[0]) + Denote(terms[1..])
  {
  }

  lemma {:induction false} TilesPrefix(terms: seq<Term>, pos: int, i: nat)
    requires Tiles(terms, pos) && i <= |terms|
    ensures Tiles(terms[..i], pos)
  {
    if i > 0 {
      TilesPrefix(terms[1..], pos + terms[0].size, i - 1);
      assert terms[..i][1..] == terms[1..][..i - 1];
    }
  }

  lemma DenoteOne(t: Term)
    ensures Denote([t]) == Slice(t)
  {
    assert [t][1..] == [] && Slice(t) + [] == Slice(t);
  }

  /** Every term of a tiling is sound, and starts where those before it end. */
  lemma TileAt(terms: seq<Term>, pos: int, i: nat)
    requires Tiles(terms, pos) && i < |terms|
    ensures Sound(terms[i]) && terms[i].pos == pos + TotalSize(Denote(terms[..i]))
  {
    TilesSplit(terms, pos, i);
    TilesHead(terms[i..], pos + TotalSize(Denote(terms[..i])));
  }
}
