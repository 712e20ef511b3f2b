/** Compaction: which chunks of a xorb are in use, where they go in the xorb
    rewritten without the others, and the move of every term onto it. */
module Compaction {
  import opened Terms

  // ---------------------------------------------------------------------
  // What a move does to terms
  // ---------------------------------------------------------------------

  /** The new xorb holds the run [start, end) of the old one, as one run. */
  predicate Covered(start: int, end: int, index: seq<int>) {
    && 0 <= start < end <= |index|
    && index[start] >= 0
    && forall i :: start <= i < end ==> index[i] == index[start] + (i - start)
  }

  /** index says, for each chunk of from, where to holds it, or -1 if it does not. */
  predicate Relocates(from: Xorb, to: Xorb, index: seq<int>) {
    && |index| == |from.chunks|
    && forall i :: 0 <= i < |index| ==>
         index[i] == -1 || (0 <= index[i] < |to.chunks| && to.chunks[index[i]] == from.chunks[i])
  }

  /** The effect of the move on one term. */
  function MoveTerm(t: Term, from: Xorb, to: Xorb, index: seq<int>): Term {
    if t.xorb == from && 0 <= t.start < |index| && index[t.start] >= 0 then
      t.(xorb := to, start := index[t.start], end := index[t.start] + (t.end - t.start))
    else t
  }

  function MoveList(terms: seq<Term>, from: Xorb, to: Xorb, index: seq<int>): (r: seq<Term>)
    ensures |r| == |terms|
    ensures forall i :: 0 <= i < |terms| ==> r[i] == MoveTerm(terms[i], from, to, index)
  {
    if terms == [] then []
    else [MoveTerm(terms[0], from, to, index)] + MoveList(terms[1..], from, to, index)
  }

  /** Every term on from can be moved: what MoveTerms checks before it writes. */
  predicate Movable(terms: seq<Term>, from: Xorb, index: seq<int>) {
    forall t :: t in terms && t.xorb == from ==> Covered(t.start, t.end, index)
  }

  lemma MoveTermKeepsMeaning(t: Term, from: Xorb, to: Xorb, index: seq<int>)
    requires Sound(t) && Relocates(from, to, index)
    requires t.xorb == from ==> Covered(t.start, t.end, index)
    ensures var m := MoveTerm(t, from, to, index);
      Sound(m) && Slice(m) == Slice(t) && m.pos == t.pos && m.size == t.size
  {
    if t.xorb == from {
      var m := MoveTerm(t, from, to, index);
      assert index[t.end - 1] == m.end - 1 < |to.chunks|;
      assert Slice(m) == Slice(t) by {
        forall k | 0 <= k < t.end - t.start
          ensures Slice(m)[k] == Slice(t)[k]
        {
          assert index[t.start + k] == m.start + k;
        }
      }
    }
  }

  lemma {:induction false} MoveListKeepsTiling(terms: seq<Term>, pos: int, from: Xorb, to: Xorb, index: seq<int>)
    requires Tiles(terms, pos) && Relocates(from, to, index) && Movable(terms, from, index)
    ensures Tiles(MoveList(terms, from, to, index), pos)
    ensures Denote(MoveList(terms, from, to, index)) == Denote(terms)
  {
    if terms != [] {
      MoveTermKeepsMeaning(terms[0], from, to, index);
      MoveListKeepsTiling(terms[1..], pos + terms[0].size, from, to, index);
      assert MoveList(terms, from, to, index)[1..] == MoveList(terms[1..], from, to, index);
    }
  }

  /** A move leaves what a blob's terms stand for as it was, chunk for chunk. */
  lemma MoveKeepsMeaning(terms: seq<Term>, content: seq<Chunk>, from: Xorb, to: Xorb, index: seq<int>)
    requires Denotes(terms, content) && Relocates(from, to, index) && Movable(terms, from, index)
    ensures Denotes(MoveList(terms, from, to, index), content)
  {
    MoveListKeepsTiling(terms, 0, from, to, index);
  }

  /** A move takes every term off the old xorb, and touches no other xorb. */
  lemma MoveChangesUses(terms: seq<Term>, from: Xorb, to: Xorb, index: seq<int>)
    requires from != to && Movable(terms, from, index)
    ensures Uses(MoveList(terms, from, to, index))
         == if from in Uses(terms) then Uses(terms) - {from} + {to} else Uses(terms)
  {
    var moved := MoveList(terms, from, to, index);
    forall x | x in Uses(terms) && x != from
      ensures x in Uses(moved)
    {
      var i :| 0 <= i < |terms| && terms[i].xorb == x;
      assert moved[i].xorb == x;
    }
    forall x | x in Uses(moved)
      ensures x in (if from in Uses(terms) then Uses(terms) - {from} + {to} else Uses(terms))
    {
      var i :| 0 <= i < |moved| && moved[i].xorb == x;
      assert terms[i] in terms;
    }
    if from in Uses(terms) {
      var i :| 0 <= i < |terms| && terms[i].xorb == from;
      assert terms[i] in terms && moved[i].xorb == to;
    }
  }

  // ---------------------------------------------------------------------
  // Which chunks are live, and their ranks
  // ---------------------------------------------------------------------

  datatype Range = Range(start: int, end: int)

  /** Marks the chunks some term's range covers. Ranges outside the xorb are clamped to it. */
  method LiveChunks(n: nat, ranges: seq<Range>) returns (live: seq<bool>)
    ensures |live| == n
    ensures forall i :: 0 <= i < n ==> (live[i] <==> exists r :: r in ranges && r.start <= i < r.end)
  {
    live := seq(n, _ => false);
    for k := 0 to |ranges|
      invariant |live| == n
      invariant forall i :: 0 <= i < n ==> (live[i] <==> exists r :: r in ranges[..k] && r.start <= i < r.end)
    {
      ghost var before := live;
      var i := if ranges[k].start > 0 then ranges[k].start else 0;
      var stop := if ranges[k].end < n then ranges[k].end else n;
      ghost var first := i;
      while i < stop
        invariant |live| == n && 0 <= first <= i
        invariant i <= stop || i == first
        invariant forall j :: 0 <= j < n ==> (live[j] <==> (before[j] || first <= j < i))
      {
        live := live[i := true];
        i := i + 1;
      }
      assert ranges[..k + 1] == ranges[..k] + [ranges[k]];
    }
    assert ranges[..|ranges|] == ranges;
  }

  /** How many live chunks come before chunk i. */
  function Rank(live: seq<bool>, i: nat): (r: nat)
    requires i <= |live|
    ensures r <= i
  {
    if i == 0 then 0 else Rank(live, i - 1) + if live[i - 1] then 1 else 0
  }

  /** The chunks that are live, in order. */
  function Kept<T>(chunks: seq<T>, live: seq<bool>): (r: seq<T>)
    requires |chunks| == |live|
    ensures |r| == Rank(live, |live|)
    decreases |chunks|
  {
    if chunks == [] then []
    else
      var n := |chunks| - 1;
      RankOfPrefix(live, n, n);
      Kept(chunks[..n], live[..n]) + if live[n] then [chunks[n]] else []
  }

  lemma {:induction false} RankOfPrefix(live: seq<bool>, n: nat, i: nat)
    requires i <= n <= |live|
    ensures Rank(live[..n], i) == Rank(live, i)
  {
    if i > 0 {
      RankOfPrefix(live, n, i - 1);
    }
  }

  function RankIndex(live: seq<bool>): (r: seq<int>)
    ensures |r| == |live|
    ensures forall i :: 0 <= i < |live| ==> r[i] == if live[i] then Rank(live, i) else -1
  {
    seq(|live|, i requires 0 <= i < |live| => if live[i] then Rank(live, i) else -1)
  }

  /** A live chunk is kept at its rank. */
  lemma {:induction false} KeptAtRank<T>(chunks: seq<T>, live: seq<bool>, i: nat)
    requires |chunks| == |live| && i < |live| && live[i]
    ensures Rank(live, i) < |Kept(chunks, live)|
    ensures Kept(chunks, live)[Rank(live, i)] == chunks[i]
  {
    var n := |chunks| - 1;
    RankOfPrefix(live, n, i);
    RankOfPrefix(live, n, n);
    if i < n {
      KeptAtRank(chunks[..n], live[..n], i);
    }
  }

  /** The ranks say where the rewritten xorb holds each live chunk. */
  lemma RanksRelocate(from: Xorb, live: seq<bool>)
    requires |live| == |from.chunks|
    ensures Relocates(from, Xorb(Kept(from.chunks, live)), RankIndex(live))
  {
    forall i | 0 <= i < |live| && live[i]
      ensures 0 <= Rank(live, i) < |Kept(from.chunks, live)|
      ensures Kept(from.chunks, live)[Rank(live, i)] == from.chunks[i]
    {
      KeptAtRank(from.chunks, live, i);
    }
  }

  lemma {:induction false} RanksRunOn(live: seq<bool>, start: nat, i: nat)
    requires start <= i <= |live|
    requires forall j :: start <= j < i ==> live[j]
    ensures Rank(live, i) == Rank(live, start) + (i - start)
  {
    if start < i {
      RanksRunOn(live, start, i - 1);
    }
  }

  /** A run of the old xorb is covered by the ranks exactly when all of it is
      live; so every term the live chunks were read from is accepted, and a term
      added since is refused as soon as it needs a chunk that was dropped. */
  lemma CoveredIffLive(live: seq<bool>, start: int, end: int)
    requires 0 <= start < end <= |live|
    ensures Covered(start, end, RankIndex(live)) <==> forall i :: start <= i < end ==> live[i]
  {
    var index := RankIndex(live);
    if forall i :: start <= i < end ==> live[i] {
      forall i | start <= i < end
        ensures index[i] == index[start] + (i - start)
      {
        RanksRunOn(live, start, i);
      }
    }
    if Covered(start, end, index) {
      forall i | start <= i < end
        ensures live[i]
      {
        assert index[i] == index[start] + (i - start);
      }
    }
  }

  lemma LiveIsMovable(terms: seq<Term>, content: seq<Chunk>, from: Xorb, live: seq<bool>)
    requires Denotes(terms, content) && |live| == |from.chunks|
    requires forall t, i :: t in terms && t.xorb == from && t.start <= i < t.end && 0 <= i < |live| ==> live[i]
    ensures Movable(terms, from, RankIndex(live))
  {
    forall t | t in terms && t.xorb == from
      ensures Covered(t.start, t.end, RankIndex(live))
    {
      var i :| 0 <= i < |terms| && terms[i] == t;
      TileAt(terms, 0, i);
      CoveredIffLive(live, t.start, t.end);
    }
  }

  /** The end of a compaction: with the live chunks read off the very terms
      being moved, the move is accepted, keeps their meaning and empties the
      old xorb. */
  lemma CompactionKeepsMeaning(terms: seq<Term>, content: seq<Chunk>, from: Xorb, live: seq<bool>)
    requires Denotes(terms, content) && |live| == |from.chunks|
    requires forall t, i :: t in terms && t.xorb == from && t.start <= i < t.end && 0 <= i < |live| ==> live[i]
    requires !(forall i :: 0 <= i < |live| ==> live[i])
    ensures var to := Xorb(Kept(from.chunks, live));
      && from != to
      && Movable(terms, from, RankIndex(live))
      && Denotes(MoveList(terms, from, to, RankIndex(live)), content)
      && from !in Uses(MoveList(terms, from, to, RankIndex(live)))
  {
    var to := Xorb(Kept(from.chunks, live));
    DeadChunkShortens(live);
    LiveIsMovable(terms, content, from, live);
    RanksRelocate(from, live);
    MoveKeepsMeaning(terms, content, from, to, RankIndex(live));
    MoveChangesUses(terms, from, to, RankIndex(live));
  }

  lemma DeadChunkShortens(live: seq<bool>)
    requires !(forall i :: 0 <= i < |live| ==> live[i])
    ensures Rank(live, |live|) < |live|
  {
    var i :| 0 <= i < |live| && !live[i];
    RankGrowsByOne(live, i + 1, |live|);
  }

  lemma {:induction false} RankGrowsByOne(live: seq<bool>, i: nat, j: nat)
    requires i <= j <= |live|
    ensures Rank(live, j) <= Rank(live, i) + (j - i)
  {
    if i < j {
      RankGrowsByOne(live, i, j - 1);
    }
  }
}
