/** Planning a commit: which chunks are reused from stored xorbs, how the rest
    are grouped into new ones, and the term list that results. */
module Plan {
  import opened Bytes
  import opened Limits
  import opened Terms

  const MIN_DEDUP_RUN := 8

  /** A chunk of the staged content and where it starts. */
  datatype Ref = Ref(chunk: Chunk, pos: int)

  function Contents(refs: seq<Ref>): (r: seq<Chunk>)
    ensures |r| == |refs| && forall i :: 0 <= i < |refs| ==> r[i] == refs[i].chunk
  {
    seq(|refs|, i requires 0 <= i < |refs| => refs[i].chunk)
  }

  /** Each chunk starts where the one before it ends. */
  predicate Placed(refs: seq<Ref>) {
    forall i :: 0 <= i < |refs| ==> refs[i].pos == TotalSize(Contents(refs)[..i])
  }

  datatype Loc = Loc(xorb: Xorb, index: int)

  predicate Holds(l: Loc, c: Chunk) {
    0 <= l.index < |l.xorb.chunks| && l.xorb.chunks[l.index] == c
  }

  /** Where stored xorbs hold chunks, by chunk hash. */
  type Found = map<string, seq<Loc>>

  function At(found: Found, c: Chunk): (locs: seq<Loc>)
    ensures forall l :: l in locs <==> c.hash in found && l in found[c.hash]
  {
    if c.hash in found then found[c.hash] else []
  }

  /** The lookup is right: each place holds the chunk it is listed under. */
  predicate Accurate(found: Found, refs: seq<Ref>) {
    forall i, l :: 0 <= i < |refs| && l in At(found, refs[i].chunk) ==> Holds(l, refs[i].chunk)
  }

  // ---------------------------------------------------------------------
  // Runs to reuse
  // ---------------------------------------------------------------------

  /** The chunks [start, end) of the content, held in a stored xorb from loc on. */
  datatype Run = Run(start: nat, end: nat, loc: Loc)

  function Follows(r: Run, c: int): Loc {
    Loc(r.loc.xorb, r.loc.index + (c - r.start))
  }

  predicate RunHeld(r: Run, refs: seq<Ref>) {
    && r.start < r.end <= |refs|
    && forall c :: r.start <= c < r.end ==> Holds(Follows(r, c), refs[c].chunk)
  }

  predicate LongEnough(r: Run, n: nat) {
    r.end - r.start >= MIN_DEDUP_RUN || r.end - r.start == n
  }

  predicate InOrder(runs: seq<Run>) {
    forall i, j :: 0 <= i < j < |runs| ==> runs[i].end <= runs[j].start
  }

  predicate RunsOk(runs: seq<Run>, refs: seq<Ref>) {
    && (forall i :: 0 <= i < |runs| ==> RunHeld(runs[i], refs) && LongEnough(runs[i], |refs|))
    && InOrder(runs)
  }

  predicate InRun(r: Run, c: int) {
    r.start <= c < r.end
  }

  /** One of the first n runs covers chunk c. */
  predicate InSomeRun(runs: seq<Run>, n: nat, c: int)
    requires n <= |runs|
  {
    exists i :: 0 <= i < n && InRun(runs[i], c)
  }

  function EndOf(runs: seq<Run>, n: nat): nat
    requires n <= |runs|
  {
    if n == 0 then 0 else runs[n - 1].end
  }

  method ContainsLoc(locs: seq<Loc>, l: Loc) returns (r: bool)
    ensures r <==> l in locs
  {
    for i := 0 to |locs|
      invariant l !in locs[..i]
    {
      if locs[i] == l { return true; }
    }
    assert locs[..|locs|] == locs;
    return false;
  }

  /** Some place of chunk i is followed by one of the next chunk. */
  predicate CanGoOn(refs: seq<Ref>, found: Found, i: nat)
    requires i < |refs|
  {
    && i + 1 < |refs|
    && exists l :: l in At(found, refs[i].chunk) && Loc(l.xorb, l.index + 1) in At(found, refs[i + 1].chunk)
  }

  /** The place to start a run at chunk i: one the next chunk follows, if any. */
  method StartOf(refs: seq<Ref>, found: Found, i: nat) returns (start: Loc)
    requires i < |refs| && At(found, refs[i].chunk) != []
    ensures start in At(found, refs[i].chunk)
    ensures CanGoOn(refs, found, i) ==> Loc(start.xorb, start.index + 1) in At(found, refs[i + 1].chunk)
  {
    var locs := At(found, refs[i].chunk);
    start := locs[0];
    if i + 1 < |refs| {
      var after := At(found, refs[i + 1].chunk);
      for k := 0 to |locs|
        invariant forall j :: 0 <= j < k ==> Loc(locs[j].xorb, locs[j].index + 1) !in after
      {
        var follows := ContainsLoc(after, Loc(locs[k].xorb, locs[k].index + 1));
        if follows { return locs[k]; }
      }
    }
  }

  /** The run's chunks are found at consecutive places of one xorb. */
  predicate RunFound(r: Run, refs: seq<Ref>, found: Found) {
    && r.start < r.end <= |refs|
    && (forall c :: r.start <= c < r.end ==> Follows(r, c) in At(found, refs[c].chunk))
  }

  /** The run ends only where the next chunk is not at the next place. */
  predicate Ended(r: Run, refs: seq<Ref>, found: Found) {
    && RunFound(r, refs, found)
    && (r.end < |refs| ==> Follows(r, r.end) !in At(found, refs[r.end].chunk))
    && (CanGoOn(refs, found, r.start) ==> r.start + 1 < r.end)
  }

  /** No chunk below n that is held anywhere is in none of the runs. */
  predicate Covered(all: seq<Run>, refs: seq<Ref>, found: Found, n: nat)
    requires n <= |refs|
  {
    forall c :: 0 <= c < n && At(found, refs[c].chunk) != [] ==> InSomeRun(all, |all|, c)
  }

  predicate AllEnded(all: seq<Run>, refs: seq<Ref>, found: Found) {
    forall i :: 0 <= i < |all| ==> Ended(all[i], refs, found)
  }

  /** The runs follow each other, each as long as it can be, and leave out no chunk
      below n that is held anywhere. */
  predicate Segmented(all: seq<Run>, refs: seq<Ref>, found: Found, n: nat)
    requires n <= |refs|
  {
    AllEnded(all, refs, found) && InOrder(all) && Covered(all, refs, found, n)
  }

  /** The runs long enough to keep, in order. */
  function Kept(all: seq<Run>, n: nat): seq<Run> {
    if all == [] then []
    else
      var last := all[|all| - 1];
      Kept(all[..|all| - 1], n) + if LongEnough(last, n) then [last] else []
  }

  /** The runs are the long ones of all the runs there are. */
  ghost predicate Reusable(runs: seq<Run>, refs: seq<Ref>, found: Found) {
    exists all :: Segmented(all, refs, found, |refs|) && runs == Kept(all, |refs|)
  }

  lemma KeptWith(all: seq<Run>, r: Run, n: nat)
    ensures Kept(all + [r], n) == if LongEnough(r, n) then Kept(all, n) + [r] else Kept(all, n)
  {
    assert (all + [r])[..|all|] == all;
  }

  /** Every kept run is one of all, and every long one of all is kept. */
  lemma {:induction false} KeptAre(all: seq<Run>, n: nat, r: Run)
    ensures r in Kept(all, n) <==> r in all && LongEnough(r, n)
  {
    if all != [] {
      KeptAre(all[..|all| - 1], n, r);
      assert all == all[..|all| - 1] + [all[|all| - 1]];
    }
  }

  lemma InOrderWith(runs: seq<Run>, r: Run)
    requires InOrder(runs) && EndOf(runs, |runs|) <= r.start
    requires runs != [] ==> runs[|runs| - 1].start <= runs[|runs| - 1].end
    ensures InOrder(runs + [r])
  {
    ghost var more := runs + [r];
    forall i, j | 0 <= i < j < |more| ensures more[i].end <= more[j].start {
      assert i < |runs| - 1 ==> runs[i].end <= runs[|runs| - 1].start;
    }
  }

  lemma CoveredWith(all: seq<Run>, r: Run, refs: seq<Ref>, found: Found)
    requires r.start <= r.end <= |refs| && Covered(all, refs, found, r.start)
    ensures Covered(all + [r], refs, found, r.end)
  {
    ghost var more := all + [r];
    forall c | 0 <= c < r.end && At(found, refs[c].chunk) != [] ensures InSomeRun(more, |more|, c) {
      if c < r.start {
        var i :| 0 <= i < |all| && InRun(all[i], c);
        assert InRun(more[i], c);
      } else {
        assert InRun(more[|all|], c);
      }
    }
  }

  lemma EndedWith(all: seq<Run>, r: Run, refs: seq<Ref>, found: Found)
    requires AllEnded(all, refs, found) && Ended(r, refs, found)
    ensures AllEnded(all + [r], refs, found)
  {
  }

  method Keep(refs: seq<Ref>, runs: seq<Run>, r: Run) returns (kept: seq<Run>)
    requires RunsOk(runs, refs) && RunHeld(r, refs) && EndOf(runs, |runs|) <= r.start
    ensures kept == if LongEnough(r, |refs|) then runs + [r] else runs
    ensures RunsOk(kept, refs) && EndOf(kept, |kept|) <= r.end
  {
    kept := runs;
    if LongEnough(r, |refs|) {
      kept := runs + [r];
      InOrderWith(runs, r);
    }
  }

  /** The open run covers the chunks up to i, and goes on there if it is bound to. */
  predicate GoingOn(r: Run, refs: seq<Ref>, found: Found, i: nat) {
    && RunFound(r, refs, found) && r.end == i
    && (CanGoOn(refs, found, r.start) && i == r.start + 1 ==> Follows(r, i) in At(found, refs[i].chunk))
  }

  /** All runs that start below n are closed, and the long ones kept. */
  ghost predicate AllUpTo(all: seq<Run>, runs: seq<Run>, refs: seq<Ref>, found: Found, n: nat) {
    && n <= |refs| && Segmented(all, refs, found, n) && EndOf(all, |all|) <= n
    && RunsOk(runs, refs) && EndOf(runs, |runs|) <= n && runs == Kept(all, |refs|)
  }

  lemma GoesOn(r: Run, refs: seq<Ref>, found: Found, i: nat)
    requires i < |refs| && GoingOn(r, refs, found, i) && Follows(r, i) in At(found, refs[i].chunk)
    ensures GoingOn(r.(end := i + 1), refs, found, i + 1)
  {
    var longer := r.(end := i + 1);
    forall c | r.start <= c < i + 1 ensures Follows(longer, c) in At(found, refs[c].chunk) {
      assert Follows(longer, c) == Follows(r, c);
    }
  }

  lemma SegmentedWith(all: seq<Run>, r: Run, refs: seq<Ref>, found: Found)
    requires Ended(r, refs, found) && Segmented(all, refs, found, r.start) && EndOf(all, |all|) <= r.start
    ensures Segmented(all + [r], refs, found, r.end)
  {
    EndedWith(all, r, refs, found);
    if all != [] {
      assert Ended(all[|all| - 1], refs, found);
    }
    InOrderWith(all, r);
    CoveredWith(all, r, refs, found);
  }

  method Close(refs: seq<Ref>, found: Found, runs: seq<Run>, r: Run, ghost all: seq<Run>)
    returns (kept: seq<Run>, ghost more: seq<Run>)
    requires Accurate(found, refs) && Ended(r, refs, found) && AllUpTo(all, runs, refs, found, r.start)
    ensures AllUpTo(more, kept, refs, found, r.end)
  {
    RunHolds(r, refs, found);
    kept := Keep(refs, runs, r);
    more := all + [r];
    SegmentedWith(all, r, refs, found);
    KeptWith(all, r, |refs|);
  }

  method Start(refs: seq<Ref>, found: Found, i: nat) returns (r: Run)
    requires i < |refs| && At(found, refs[i].chunk) != []
    ensures r.start == i && GoingOn(r, refs, found, i + 1)
  {
    var start := StartOf(refs, found, i);
    r := Run(i, i + 1, start);
    assert Follows(r, i) == start;
    assert Follows(r, i + 1) == Loc(start.xorb, start.index + 1);
  }

  lemma NothingHeld(all: seq<Run>, runs: seq<Run>, refs: seq<Ref>, found: Found, i: nat)
    requires i < |refs| && AllUpTo(all, runs, refs, found, i) && At(found, refs[i].chunk) == []
    ensures AllUpTo(all, runs, refs, found, i + 1)
  {
  }

  lemma RunHolds(r: Run, refs: seq<Ref>, found: Found)
    requires RunFound(r, refs, found) && Accurate(found, refs)
    ensures RunHeld(r, refs)
  {
  }

  /** Chunks below i are seen to: the open run, if any, reaches up to i. */
  ghost predicate Scanned(cur: seq<Run>, all: seq<Run>, runs: seq<Run>, refs: seq<Ref>, found: Found, i: nat) {
    && |cur| <= 1 && (cur != [] ==> GoingOn(cur[0], refs, found, i))
    && AllUpTo(all, runs, refs, found, if cur != [] then cur[0].start else i)
  }

  /** Chunk i goes on the open run, or ends it and perhaps opens another. */
  method NextRun(refs: seq<Ref>, found: Found, cur0: seq<Run>, runs0: seq<Run>, i: nat, ghost all0: seq<Run>)
    returns (cur: seq<Run>, runs: seq<Run>, ghost all: seq<Run>)
    requires Accurate(found, refs) && i < |refs| && Scanned(cur0, all0, runs0, refs, found, i)
    ensures Scanned(cur, all, runs, refs, found, i + 1)
  {
    cur, runs, all := cur0, runs0, all0;
    var locs := At(found, refs[i].chunk);
    if cur != [] {
      var goesOn := ContainsLoc(locs, Follows(cur[0], i));
      if goesOn {
        GoesOn(cur[0], refs, found, i);
        return [cur[0].(end := i + 1)], runs, all;
      }
      runs, all := Close(refs, found, runs, cur[0], all);
    }
    if |locs| == 0 {
      NothingHeld(all, runs, refs, found, i);
      return [], runs, all;
    }
    var r := Start(refs, found, i);
    cur := [r];
  }

  /** Runs of chunks stored xorbs already hold, long enough to reuse. */
  method ReusableRuns(refs: seq<Ref>, found: Found) returns (runs: seq<Run>)
    requires Accurate(found, refs)
    ensures RunsOk(runs, refs) && Reusable(runs, refs, found)
  {
    runs := [];
    ghost var all: seq<Run> := [];
    var cur: seq<Run> := [];
    for i := 0 to |refs|
      invariant Scanned(cur, all, runs, refs, found, i)
    {
      cur, runs, all := NextRun(refs, found, cur, runs, i, all);
    }
    if cur != [] {
      runs, all := Close(refs, found, runs, cur[0], all);
    }
  }

  predicate OnlyAt(refs: seq<Ref>, found: Found, l: Loc, a: nat, c: int)
    requires 0 <= c < |refs|
  {
    refs[c].chunk.hash in found && found[refs[c].chunk.hash] == [Loc(l.xorb, l.index + (c - a))]
  }

  /** The run takes in the stretch [a, b), at the places from l on. */
  predicate TakesIn(r: Run, l: Loc, a: nat, b: nat) {
    r.start <= a && b <= r.end && r.loc == Loc(l.xorb, l.index - (a - r.start))
  }

  lemma EndsAfter(r: Run, refs: seq<Ref>, found: Found, l: Loc, a: nat, b: nat)
    requires a < b <= |refs| && Ended(r, refs, found) && InRun(r, a)
    requires forall c :: a <= c < b ==> OnlyAt(refs, found, l, a, c)
    ensures TakesIn(r, l, a, b)
  {
    assert OnlyAt(refs, found, l, a, a);
    assert Follows(r, a) in At(found, refs[a].chunk);
    forall c | a <= c < b ensures Follows(r, c) in At(found, refs[c].chunk) {
      assert OnlyAt(refs, found, l, a, c);
      assert Follows(r, c) == Loc(l.xorb, l.index + (c - a));
    }
  }

  lemma SomeRunTakesIn(all: seq<Run>, refs: seq<Ref>, found: Found, l: Loc, a: nat, b: nat) returns (r: Run)
    requires Segmented(all, refs, found, |refs|) && a < b <= |refs|
    requires forall c :: a <= c < b ==> OnlyAt(refs, found, l, a, c)
    ensures r in all && TakesIn(r, l, a, b)
  {
    assert OnlyAt(refs, found, l, a, a);
    assert InSomeRun(all, |all|, a);
    var i :| 0 <= i < |all| && InRun(all[i], a);
    EndsAfter(all[i], refs, found, l, a, b);
    r := all[i];
  }

  /** A stretch of 8 chunks or more that one stored xorb holds together, and no
      other place holds, is reused whole. */
  lemma StoredStretchIsReused(runs: seq<Run>, refs: seq<Ref>, found: Found, l: Loc, a: nat, b: nat)
    requires Reusable(runs, refs, found) && a < b <= |refs| && (b - a >= 8 || b - a == |refs|)
    requires forall c :: a <= c < b ==> OnlyAt(refs, found, l, a, c)
    ensures exists r :: r in runs && TakesIn(r, l, a, b)
  {
    var all :| Segmented(all, refs, found, |refs|) && runs == Kept(all, |refs|);
    var r := SomeRunTakesIn(all, refs, found, l, a, b);
    var i :| 0 <= i < |all| && all[i] == r;
    assert Ended(all[i], refs, found);
    KeptAre(all, |refs|, r);
  }

  // ---------------------------------------------------------------------
  // Grouping
  // ---------------------------------------------------------------------

  function WorstCaseStored(raw: int, chunks: int, overhead: int): int {
    raw + chunks * overhead
  }

  predicate Indexes(group: seq<nat>, n: nat) {
    forall i :: 0 <= i < |group| ==> group[i] < n
  }

  function ChunksAt(refs: seq<Ref>, indexes: seq<nat>): (r: seq<Chunk>)
    requires Indexes(indexes, |refs|)
    ensures |r| == |indexes| && forall i :: 0 <= i < |indexes| ==> r[i] == refs[indexes[i]].chunk
  {
    seq(|indexes|, i requires 0 <= i < |indexes| => refs[indexes[i]].chunk)
  }

  function RawSize(refs: seq<Ref>, indexes: seq<nat>): nat
    requires Indexes(indexes, |refs|)
  {
    TotalSize(ChunksAt(refs, indexes))
  }

  lemma RawSizeSnoc(refs: seq<Ref>, indexes: seq<nat>, c: nat)
    requires Indexes(indexes, |refs|) && c < |refs|
    ensures RawSize(refs, indexes + [c]) == RawSize(refs, indexes) + refs[c].chunk.size
  {
    assert ChunksAt(refs, indexes + [c]) == ChunksAt(refs, indexes) + [refs[c].chunk];
    TotalSizeConcat(ChunksAt(refs, indexes), [refs[c].chunk]);
    assert TotalSize([refs[c].chunk]) == refs[c].chunk.size + TotalSize([refs[c].chunk][1..]);
  }

  /** What a group may hold: anything on its own, else no more than one xorb. */
  predicate Fits(refs: seq<Ref>, group: seq<nat>, overhead: nat) {
    && Indexes(group, |refs|)
    && 0 < |group| <= MAX_XORB_CHUNKS
    && (|group| == 1 || WorstCaseStored(RawSize(refs, group), |group|, overhead) <= MAX_XORB_BYTES)
  }

  predicate AllFit(refs: seq<Ref>, groups: seq<seq<nat>>, overhead: nat) {
    forall g :: 0 <= g < |groups| ==> Fits(refs, groups[g], overhead)
  }

  /** No group could take the first chunk of the next: groups are as full as order allows. */
  predicate Packed(refs: seq<Ref>, groups: seq<seq<nat>>, overhead: nat)
    requires AllFit(refs, groups, overhead)
  {
    forall g :: 0 <= g < |groups| - 1 ==> !Fits(refs, groups[g] + [groups[g + 1][0]], overhead)
  }

  /** Indexes split in order into non-empty groups that each fit one xorb. */
  predicate Grouped(refs: seq<Ref>, groups: seq<seq<nat>>, indexes: seq<nat>, overhead: nat) {
    Flatten(groups) == indexes && AllFit(refs, groups, overhead) && Packed(refs, groups, overhead)
  }

  /** The groups are closed, cur is the one being filled, and c is still to come. */
  predicate Filling(refs: seq<Ref>, groups: seq<seq<nat>>, cur: seq<nat>, overhead: nat) {
    && AllFit(refs, groups, overhead) && Packed(refs, groups, overhead)
    && Indexes(cur, |refs|)
    && (cur != [] ==> Fits(refs, cur, overhead))
    && (groups != [] ==> cur != [] && !Fits(refs, groups[|groups| - 1] + [cur[0]], overhead))
  }

  predicate NoRoom(refs: seq<Ref>, cur: seq<nat>, c: nat, overhead: nat)
    requires Indexes(cur, |refs|) && c < |refs|
  {
    || |cur| == MAX_XORB_CHUNKS
    || WorstCaseStored(RawSize(refs, cur) + refs[c].chunk.size, |cur| + 1, overhead) > MAX_XORB_BYTES
  }

  lemma StartGroup(refs: seq<Ref>, groups: seq<seq<nat>>, cur: seq<nat>, c: nat, overhead: nat)
    requires Filling(refs, groups, cur, overhead) && cur != [] && c < |refs| && NoRoom(refs, cur, c, overhead)
    ensures Filling(refs, groups + [cur], [c], overhead)
  {
    RawSizeSnoc(refs, cur, c);
    assert !Fits(refs, cur + [c], overhead);
    ghost var more := groups + [cur];
    assert AllFit(refs, more, overhead);
    forall g | 0 <= g < |more| - 1 ensures !Fits(refs, more[g] + [more[g + 1][0]], overhead) {
      assert more[g] == groups[g];
    }
  }

  lemma GrowGroup(refs: seq<Ref>, groups: seq<seq<nat>>, cur: seq<nat>, c: nat, overhead: nat)
    requires Filling(refs, groups, cur, overhead) && cur != [] && c < |refs| && !NoRoom(refs, cur, c, overhead)
    ensures Filling(refs, groups, cur + [c], overhead)
  {
    RawSizeSnoc(refs, cur, c);
    assert groups != [] ==> (cur + [c])[0] == cur[0];
  }

  lemma LastGroup(refs: seq<Ref>, groups: seq<seq<nat>>, cur: seq<nat>, overhead: nat)
    requires Filling(refs, groups, cur, overhead) && cur != []
    ensures AllFit(refs, groups + [cur], overhead) && Packed(refs, groups + [cur], overhead)
  {
    ghost var more := groups + [cur];
    assert AllFit(refs, more, overhead);
    forall g | 0 <= g < |more| - 1 ensures !Fits(refs, more[g] + [more[g + 1][0]], overhead) {
      assert more[g] == groups[g];
    }
  }

  lemma TookNext(groups: seq<seq<nat>>, cur: seq<nat>, indexes: seq<nat>, i: nat)
    requires i < |indexes| && Flatten(groups) + cur == indexes[..i]
    ensures Flatten(groups) + (cur + [indexes[i]]) == indexes[..i + 1]
    ensures Flatten(groups + [cur]) == indexes[..i]
    ensures Flatten(groups + [cur]) + [indexes[i]] == indexes[..i + 1]
  {
    FlattenSnoc(groups, cur);
    AppendAssoc(Flatten(groups), cur, [indexes[i]]);
    assert indexes[..i + 1] == indexes[..i] + [indexes[i]];
  }

  /** The first i indexes are grouped, the last of them in the group being filled. */
  predicate Grouping(refs: seq<Ref>, groups: seq<seq<nat>>, cur: seq<nat>, indexes: seq<nat>, i: nat, overhead: nat) {
    && i <= |indexes| && Flatten(groups) + cur == indexes[..i] && (i > 0 ==> cur != [])
    && Filling(refs, groups, cur, overhead)
  }

  lemma NextInGroup(refs: seq<Ref>, groups: seq<seq<nat>>, cur: seq<nat>, indexes: seq<nat>, i: nat, overhead: nat)
    requires Indexes(indexes, |refs|) && i < |indexes| && Grouping(refs, groups, cur, indexes, i, overhead)
    ensures var c := indexes[i];
      if cur != [] && NoRoom(refs, cur, c, overhead) then
        Grouping(refs, groups + [cur], [] + [c], indexes, i + 1, overhead)
        && RawSize(refs, [] + [c]) == refs[c].chunk.size
      else
        Grouping(refs, groups, cur + [c], indexes, i + 1, overhead)
        && RawSize(refs, cur + [c]) == RawSize(refs, cur) + refs[c].chunk.size
  {
    var c := indexes[i];
    TookNext(groups, cur, indexes, i);
    RawSizeSnoc(refs, cur, c);
    RawSizeSnoc(refs, [], c);
    assert [] + [c] == [c];
    if cur != [] && NoRoom(refs, cur, c, overhead) {
      StartGroup(refs, groups, cur, c, overhead);
    } else if cur != [] {
      GrowGroup(refs, groups, cur, c, overhead);
    }
  }

  method GroupForXorbs(refs: seq<Ref>, indexes: seq<nat>, overhead: nat) returns (groups: seq<seq<nat>>)
    requires Indexes(indexes, |refs|)
    ensures Grouped(refs, groups, indexes, overhead)
  {
    groups := [];
    var cur: seq<nat> := [];
    var raw := 0;
    for i := 0 to |indexes|
      invariant Grouping(refs, groups, cur, indexes, i, overhead) && raw == RawSize(refs, cur)
    {
      var c := indexes[i];
      var size := refs[c].chunk.size;
      NextInGroup(refs, groups, cur, indexes, i, overhead);
      if |cur| > 0 && (|cur| == MAX_XORB_CHUNKS || WorstCaseStored(raw + size, |cur| + 1, overhead) > MAX_XORB_BYTES) {
        groups := groups + [cur];
        cur, raw := [], 0;
      }
      cur := cur + [c];
      raw := raw + size;
    }
    assert indexes[..|indexes|] == indexes;
    if |cur| > 0 {
      FlattenSnoc(groups, cur);
      LastGroup(refs, groups, cur, overhead);
      groups := groups + [cur];
    }
  }

  const MAX_OVERHEAD := 69

  /** With chunks of the size the chunker cuts, every group fits in a xorb. */
  lemma GroupFits(refs: seq<Ref>, group: seq<nat>, overhead: nat)
    requires forall i :: 0 <= i < |refs| ==> refs[i].chunk.size <= MAX_CHUNK
    requires Fits(refs, group, overhead) && overhead <= MAX_OVERHEAD
    ensures 0 < |group| <= 8192
    ensures RawSize(refs, group) + |group| * overhead <= 67108864
  {
    if |group| == 1 {
      RawSizeSnoc(refs, [], group[0]);
      assert [] + [group[0]] == group;
    }
  }

  /** A group is ended only once it is full: by count, or by the bytes it and the next
      chunk could take in 64 MiB. */
  lemma GroupsAreFull(refs: seq<Ref>, groups: seq<seq<nat>>, indexes: seq<nat>, overhead: nat, g: nat)
    requires Grouped(refs, groups, indexes, overhead) && g + 1 < |groups|
    ensures Fits(refs, groups[g], overhead) && groups[g + 1] != [] && groups[g + 1][0] < |refs|
    ensures |groups[g]| == 8192
      || RawSize(refs, groups[g]) + refs[groups[g + 1][0]].chunk.size + (|groups[g]| + 1) * overhead > 67108864
  {
    assert Fits(refs, groups[g], overhead) && Fits(refs, groups[g + 1], overhead);
    RawSizeSnoc(refs, groups[g], groups[g + 1][0]);
  }

  // ---------------------------------------------------------------------
  // Terms
  // ---------------------------------------------------------------------

  predicate LocsHold(locs: seq<Loc>, refs: seq<Ref>) {
    |locs| == |refs| && forall c :: 0 <= c < |refs| ==> Holds(locs[c], refs[c].chunk)
  }

  lemma OneChunkTerm(pos: int, l: Loc, c: Chunk)
    requires Holds(l, c)
    ensures var t := Term(pos, l.xorb, l.index, l.index + 1, c.size);
      Sound(t) && Slice(t) == [c] && Tiles([t], pos) && Denote([t]) == [c]
  {
    var t := Term(pos, l.xorb, l.index, l.index + 1, c.size);
    assert l.xorb.chunks[l.index..l.index + 1] == [c];
    assert TotalSize([c]) == c.size + TotalSize([c][1..]);
    assert [t][1..] == [] && [c] + Denote([t][1..]) == [c];
  }

  /** A term grown by the chunk that follows it in its xorb. */
  lemma GrownTerm(front: seq<Term>, t: Term, pos: int, l: Loc, c: Chunk)
    requires Tiles(front + [t], pos) && t.xorb == l.xorb && t.end == l.index && Holds(l, c)
    ensures var grown := t.(end := t.end + 1, size := t.size + c.size);
      && Tiles(front + [grown], pos)
      && Denote(front + [grown]) == Denote(front + [t]) + [c]
  {
    var grown := t.(end := t.end + 1, size := t.size + c.size);
    var at := pos + TotalSize(Denote(front));
    TilesSplit(front + [t], pos, |front|);
    assert (front + [t])[..|front|] == front && (front + [t])[|front|..] == [t];
    TilesHead([t], at);
    SlicesGrow(t, l, c);
    LoneTerm(grown, at);
    LoneTerm(t, at);
    TilesConcat(front, [grown], pos);
    DenoteConcat(front, [grown]);
    assert Denote(front) + (Slice(t) + [c]) == Denote(front) + Slice(t) + [c];
  }

  lemma SlicesGrow(t: Term, l: Loc, c: Chunk)
    requires Sound(t) && t.xorb == l.xorb && t.end == l.index && Holds(l, c)
    ensures var grown := t.(end := t.end + 1, size := t.size + c.size);
      Sound(grown) && Slice(grown) == Slice(t) + [c]
  {
    assert t.xorb.chunks[t.start..t.end + 1] == t.xorb.chunks[t.start..t.end] + [c];
    TotalSizeConcat(Slice(t), [c]);
    assert TotalSize([c]) == c.size + TotalSize([c][1..]);
  }

  lemma LoneTerm(t: Term, pos: int)
    requires Sound(t) && t.pos == pos
    ensures Tiles([t], pos) && Denote([t]) == Slice(t)
  {
    assert [t][1..] == [] && Slice(t) + Denote([t][1..]) == Slice(t);
  }

  lemma NewTerm(terms: seq<Term>, pos: int, l: Loc, c: Chunk)
    requires Tiles(terms, 0) && pos == TotalSize(Denote(terms)) && Holds(l, c)
    ensures var t := Term(pos, l.xorb, l.index, l.index + 1, c.size);
      Tiles(terms + [t], 0) && Denote(terms + [t]) == Denote(terms) + [c]
  {
    var t := Term(pos, l.xorb, l.index, l.index + 1, c.size);
    OneChunkTerm(pos, l, c);
    TilesConcat(terms, [t], 0);
    DenoteConcat(terms, [t]);
  }

  predicate NamedBy(locs: seq<Loc>, xorb: Xorb) {
    exists c :: 0 <= c < |locs| && locs[c].xorb == xorb
  }

  predicate FromLocs(terms: seq<Term>, locs: seq<Loc>) {
    forall i :: 0 <= i < |terms| ==> NamedBy(locs, terms[i].xorb)
  }

  /** No term goes on where the one before it ends: there are as few as there can be. */
  predicate Merged(terms: seq<Term>) {
    forall i :: 0 < i < |terms| ==> !(terms[i - 1].xorb == terms[i].xorb && terms[i - 1].end == terms[i].start)
  }

  lemma MergedGrows(terms: seq<Term>, grown: Term)
    requires terms != [] && Merged(terms)
    requires grown.xorb == terms[|terms| - 1].xorb && grown.start == terms[|terms| - 1].start
    ensures Merged(terms[..|terms| - 1] + [grown])
  {
    var after := terms[..|terms| - 1] + [grown];
    forall i | 0 < i < |after|
      ensures !(after[i - 1].xorb == after[i].xorb && after[i - 1].end == after[i].start)
    {
      assert after[i - 1] == terms[i - 1];
    }
  }

  lemma MergedMore(terms: seq<Term>, t: Term)
    requires Merged(terms)
    requires terms != [] ==> !(terms[|terms| - 1].xorb == t.xorb && terms[|terms| - 1].end == t.start)
    ensures Merged(terms + [t])
  {
  }

  /** The term list with chunk c at loc added: its last term grown, or a new one. */
  method AddChunk(terms: seq<Term>, pos: int, l: Loc, c: Chunk) returns (r: seq<Term>)
    requires Tiles(terms, 0) && pos == TotalSize(Denote(terms)) && Holds(l, c)
    ensures Tiles(r, 0) && Denote(r) == Denote(terms) + [c]
    ensures Merged(terms) ==> Merged(r)
    ensures forall i :: 0 <= i < |r| ==> r[i].xorb == l.xorb || (i < |terms| && r[i].xorb == terms[i].xorb)
    ensures |r| == |terms| <==> terms != [] && terms[|terms| - 1].xorb == l.xorb && terms[|terms| - 1].end == l.index
  {
    var n := |terms|;
    if n > 0 && terms[n - 1].xorb == l.xorb && terms[n - 1].end == l.index {
      var t := terms[n - 1];
      assert terms == terms[..n - 1] + [t];
      GrownTerm(terms[..n - 1], t, 0, l, c);
      if Merged(terms) {
        MergedGrows(terms, t.(end := t.end + 1, size := t.size + c.size));
      }
      return terms[..n - 1] + [t.(end := t.end + 1, size := t.size + c.size)];
    }
    NewTerm(terms, pos, l, c);
    if Merged(terms) {
      MergedMore(terms, Term(pos, l.xorb, l.index, l.index + 1, c.size));
    }
    return terms + [Term(pos, l.xorb, l.index, l.index + 1, c.size)];
  }

  lemma StillFromLocs(before: seq<Term>, terms: seq<Term>, locs: seq<Loc>, c: nat)
    requires FromLocs(before, locs) && c < |locs|
    requires forall i :: 0 <= i < |terms| ==>
      terms[i].xorb == locs[c].xorb || (i < |before| && terms[i].xorb == before[i].xorb)
    ensures FromLocs(terms, locs)
  {
    assert NamedBy(locs, locs[c].xorb);
  }

  /** Consecutive chunks at consecutive places in one xorb make one term. */
  method BuildTerms(refs: seq<Ref>, locs: seq<Loc>) returns (terms: seq<Term>)
    requires Placed(refs) && LocsHold(locs, refs)
    ensures Denotes(terms, Contents(refs)) && FromLocs(terms, locs) && Merged(terms)
  {
    terms := [];
    ghost var all := Contents(refs);
    for c := 0 to |refs|
      invariant Tiles(terms, 0) && Denote(terms) == all[..c]
      invariant FromLocs(terms, locs) && Merged(terms)
    {
      ghost var before := terms;
      terms := AddChunk(terms, refs[c].pos, locs[c], refs[c].chunk);
      StillFromLocs(before, terms, locs, c);
      TakeNext(all, c);
    }
    assert all[..|refs|] == all;
  }

  // ---------------------------------------------------------------------
  // The plan
  // ---------------------------------------------------------------------

  datatype Route = New | Reuse | Decoy

  datatype PlannedXorb = PlannedXorb(xorb: Xorb, chunks: seq<nat>, raw: nat)

  datatype CommitPlan = CommitPlan(
    attach: bool,
    routes: seq<Route>,
    xorbOf: seq<nat>,
    indexIn: seq<nat>,
    xorbs: seq<PlannedXorb>,
    terms: seq<Term>,
    decoys: seq<seq<nat>>)

  const NO_PLAN := CommitPlan(false, [], [], [], [], [], [])

  predicate Increasing(s: seq<nat>) {
    forall i, j :: 0 <= i < j < |s| ==> s[i] < s[j]
  }

  /** s is the indexes below n with the given route, in order. */
  predicate Routed(routes: seq<Route>, route: Route, s: seq<nat>, n: nat)
    requires n <= |routes|
  {
    && Increasing(s)
    && (forall i :: 0 <= i < |s| ==> s[i] < n && routes[s[i]] == route)
    && (forall c :: 0 <= c < n && routes[c] == route ==> c in s)
  }

  /** A run's chunks are reused if the namespace holds the run, and written to a
      decoy if it does not. */
  function RunRoute(held: Run -> bool, r: Run): Route {
    if held(r) then Reuse else Decoy
  }

  /** Chunks in none of the first n runs are new; those in one take its route. */
  predicate RoutedByRuns(routes: seq<Route>, runs: seq<Run>, n: nat, held: Run -> bool)
    requires n <= |runs|
  {
    && (forall c :: 0 <= c < |routes| ==> (routes[c] == New <==> !InSomeRun(runs, n, c)))
    && (forall i, c :: 0 <= i < n && 0 <= c < |routes| && InRun(runs[i], c) ==> routes[c] == RunRoute(held, runs[i]))
  }

  /** Chunk c is the i-th of group x. */
  predicate IsAt(groups: seq<seq<nat>>, x: int, i: int, c: nat) {
    0 <= x < |groups| && 0 <= i < |groups[x]| && groups[x][i] == c
  }

  lemma {:induction false} FlattenHas(groups: seq<seq<nat>>, c: nat)
    ensures c in Flatten(groups) <==> exists x, i :: IsAt(groups, x, i, c)
  {
    if groups != [] {
      FlattenHas(groups[1..], c);
      if c in groups[0] {
        var i :| 0 <= i < |groups[0]| && groups[0][i] == c;
        assert IsAt(groups, 0, i, c);
      } else if c in Flatten(groups[1..]) {
        var x, i :| IsAt(groups[1..], x, i, c);
        assert IsAt(groups, x + 1, i, c);
      }
      if exists x, i :: IsAt(groups, x, i, c) {
        var x, i :| IsAt(groups, x, i, c);
        if x > 0 {
          assert IsAt(groups[1..], x - 1, i, c);
        }
      }
    }
  }

  /** Groups that follow content order do not overlap, and are in order themselves. */
  lemma {:induction false} GroupsInOrder(groups: seq<seq<nat>>, x: nat, i: nat, y: nat, j: nat)
    requires Increasing(Flatten(groups))
    requires x <= y < |groups| && i < |groups[x]| && j < |groups[y]| && (x == y ==> i < j)
    ensures groups[x][i] < groups[y][j]
  {
    var flat, rest := Flatten(groups), Flatten(groups[1..]);
    assert flat == groups[0] + rest;
    if x > 0 {
      assert forall a :: 0 <= a < |rest| ==> rest[a] == flat[|groups[0]| + a];
      GroupsInOrder(groups[1..], x - 1, i, y - 1, j);
    } else if y > 0 {
      FlattenHas(groups[1..], groups[y][j]);
      assert IsAt(groups[1..], y - 1, j, groups[y][j]);
      var a :| 0 <= a < |rest| && rest[a] == groups[y][j];
      assert flat[|groups[0]| + a] == groups[y][j] && flat[i] == groups[0][i];
    } else {
      assert flat[i] == groups[0][i] && flat[j] == groups[0][j];
    }
  }

  lemma OnePlaceEach(groups: seq<seq<nat>>, x: int, i: int, y: int, j: int, c: nat)
    requires Increasing(Flatten(groups)) && IsAt(groups, x, i, c) && IsAt(groups, y, j, c)
    ensures x == y && i == j
  {
    if x < y || (x == y && i < j) {
      GroupsInOrder(groups, x, i, y, j);
    } else if y < x || j < i {
      GroupsInOrder(groups, y, j, x, i);
    }
  }

  function XorbFor(refs: seq<Ref>, group: seq<nat>): Xorb
    requires Indexes(group, |refs|)
  {
    Xorb(ChunksAt(refs, group))
  }

  /** Chunk c is written to, and read from, place i of the new xorb x. */
  predicate PlacedAt(refs: seq<Ref>, groups: seq<seq<nat>>, xorbOf: seq<nat>, indexIn: seq<nat>, locs: seq<Loc>,
                  x: nat, i: nat)
    requires |xorbOf| == |indexIn| == |locs| == |refs|
    requires x < |groups| && Indexes(groups[x], |refs|) && i < |groups[x]|
  {
    var c := groups[x][i];
    xorbOf[c] == x && indexIn[c] == i && locs[c] == Loc(XorbFor(refs, groups[x]), i)
  }

  lemma PlacedHolds(refs: seq<Ref>, group: seq<nat>, i: nat)
    requires Indexes(group, |refs|) && i < |group|
    ensures Holds(Loc(XorbFor(refs, group), i), refs[group[i]].chunk)
  {
  }

  /** Gives every chunk of the groups its place in the xorb planned for its group. */
  method PlaceNew(refs: seq<Ref>, groups: seq<seq<nat>>, locs0: seq<Loc>)
    returns (xorbOf: seq<nat>, indexIn: seq<nat>, locs: seq<Loc>, xorbs: seq<PlannedXorb>)
    requires |locs0| == |refs| && Increasing(Flatten(groups))
    requires forall x :: 0 <= x < |groups| ==> Indexes(groups[x], |refs|)
    ensures |xorbOf| == |indexIn| == |locs| == |refs| && |xorbs| == |groups|
    ensures forall x :: 0 <= x < |groups| ==>
      xorbs[x] == PlannedXorb(XorbFor(refs, groups[x]), groups[x], RawSize(refs, groups[x]))
    ensures forall x, i :: 0 <= x < |groups| && 0 <= i < |groups[x]| ==>
      PlacedAt(refs, groups, xorbOf, indexIn, locs, x, i)
    ensures forall c :: 0 <= c < |refs| ==> locs[c] == locs0[c] || exists x, i :: IsAt(groups, x, i, c)
  {
    xorbOf, indexIn, locs, xorbs := seq(|refs|, _ => 0), seq(|refs|, _ => 0), locs0, [];
    for x := 0 to |groups|
      invariant |xorbOf| == |indexIn| == |locs| == |refs| && |xorbs| == x
      invariant forall y :: 0 <= y < x ==>
        xorbs[y] == PlannedXorb(XorbFor(refs, groups[y]), groups[y], RawSize(refs, groups[y]))
      invariant forall y, i :: 0 <= y < x && 0 <= i < |groups[y]| ==>
        PlacedAt(refs, groups, xorbOf, indexIn, locs, y, i)
      invariant forall c :: 0 <= c < |refs| ==> locs[c] == locs0[c] || exists x, i :: IsAt(groups, x, i, c)
    {
      var xorb := XorbFor(refs, groups[x]);
      xorbOf, indexIn, locs := PlaceGroup(refs, groups, x, xorbOf, indexIn, locs);
      xorbs := xorbs + [PlannedXorb(xorb, groups[x], RawSize(refs, groups[x]))];
    }
  }

  method PlaceGroup(refs: seq<Ref>, groups: seq<seq<nat>>, x: nat, xorbOf0: seq<nat>, indexIn0: seq<nat>,
                  locs0: seq<Loc>)
    returns (xorbOf: seq<nat>, indexIn: seq<nat>, locs: seq<Loc>)
    requires |xorbOf0| == |indexIn0| == |locs0| == |refs| && x < |groups| && Increasing(Flatten(groups))
    requires forall y :: 0 <= y < |groups| ==> Indexes(groups[y], |refs|)
    requires forall y, i :: 0 <= y < x && 0 <= i < |groups[y]| ==>
      PlacedAt(refs, groups, xorbOf0, indexIn0, locs0, y, i)
    ensures |xorbOf| == |indexIn| == |locs| == |refs|
    ensures forall y, i :: 0 <= y <= x && 0 <= i < |groups[y]| ==> PlacedAt(refs, groups, xorbOf, indexIn, locs, y, i)
    ensures forall c :: 0 <= c < |refs| ==> locs[c] == locs0[c] || exists x, i :: IsAt(groups, x, i, c)
  {
    var xorb := XorbFor(refs, groups[x]);
    xorbOf, indexIn, locs := xorbOf0, indexIn0, locs0;
    for i := 0 to |groups[x]|
      invariant |xorbOf| == |indexIn| == |locs| == |refs|
      invariant forall y, j :: 0 <= y < x && 0 <= j < |groups[y]| ==>
        PlacedAt(refs, groups, xorbOf, indexIn, locs, y, j)
      invariant forall j :: 0 <= j < i ==> PlacedAt(refs, groups, xorbOf, indexIn, locs, x, j)
      invariant forall c :: 0 <= c < |refs| ==> locs[c] == locs0[c] || exists x, i :: IsAt(groups, x, i, c)
    {
      var c := groups[x][i];
      forall y, j | 0 <= y <= x && 0 <= j < |groups[y]| && (y == x ==> j < i) ensures groups[y][j] != c {
        GroupsInOrder(groups, y, j, x, i);
      }
      ghost var xorbOf1, indexIn1, locs1 := xorbOf, indexIn, locs;
      xorbOf, indexIn, locs := xorbOf[c := x], indexIn[c := i], locs[c := Loc(xorb, i)];
      assert IsAt(groups, x, i, c);
      forall y, j | 0 <= y <= x && 0 <= j < |groups[y]| && (y == x ==> j < i)
        ensures PlacedAt(refs, groups, xorbOf, indexIn, locs, y, j)
      {
        assert PlacedAt(refs, groups, xorbOf1, indexIn1, locs1, y, j) && groups[y][j] != c;
      }
      assert PlacedAt(refs, groups, xorbOf, indexIn, locs, x, i);
    }
  }

  lemma AddRun(before: seq<Route>, routes: seq<Route>, runs: seq<Run>, held: Run -> bool, n: nat)
    requires n < |runs| && |before| == |routes| && RoutedByRuns(before, runs, n, held)
    requires forall i, j :: 0 <= i < j < |runs| ==> runs[i].end <= runs[j].start
    requires forall c :: 0 <= c < |routes| ==>
      routes[c] == if InRun(runs[n], c) then RunRoute(held, runs[n]) else before[c]
    ensures RoutedByRuns(routes, runs, n + 1, held)
  {
    forall c | 0 <= c < |routes|
      ensures routes[c] == New <==> !InSomeRun(runs, n + 1, c)
    {
      if InRun(runs[n], c) {
        assert InSomeRun(runs, n + 1, c);
      } else if InSomeRun(runs, n + 1, c) {
        var i :| 0 <= i < n + 1 && InRun(runs[i], c);
        assert InSomeRun(runs, n, c);
      } else {
        assert InSomeRun(runs, n, c) ==> InSomeRun(runs, n + 1, c);
      }
    }
  }

  /** A chunk in a run is where the run says, in a xorb the run names. */
  predicate InRunsXorb(refs: seq<Ref>, runs: seq<Run>, locs: seq<Loc>, c: int)
    requires |locs| == |refs| && 0 <= c < |refs|
  {
    Holds(locs[c], refs[c].chunk) && exists i :: 0 <= i < |runs| && runs[i].loc.xorb == locs[c].xorb
  }

  /** The routes and places of the chunks in runs, and which go to decoys. */
  method RouteRuns(refs: seq<Ref>, runs: seq<Run>, held: Run -> bool)
    returns (routes: seq<Route>, locs: seq<Loc>, decoyChunks: seq<nat>)
    requires RunsOk(runs, refs)
    ensures |routes| == |locs| == |refs| && RoutedByRuns(routes, runs, |runs|, held)
    ensures Routed(routes, Decoy, decoyChunks, |refs|)
    ensures forall c :: 0 <= c < |refs| && routes[c] != New ==> InRunsXorb(refs, runs, locs, c)
  {
    routes, locs, decoyChunks := seq(|refs|, _ => New), seq(|refs|, _ => Loc(Xorb([]), 0)), [];
    for i := 0 to |runs|
      invariant |routes| == |locs| == |refs| && RoutedByRuns(routes, runs, i, held)
      invariant forall k :: 0 <= k < |decoyChunks| ==> decoyChunks[k] < EndOf(runs, i)
      invariant Routed(routes, Decoy, decoyChunks, |refs|)
      invariant forall c :: 0 <= c < |refs| && routes[c] != New ==> InRunsXorb(refs, runs, locs, c)
    {
      ghost var before := routes;
      routes, locs, decoyChunks := RouteRun(refs, runs, i, held, routes, locs, decoyChunks);
      AddRun(before, routes, runs, held, i);
    }
  }

  method RouteRun(refs: seq<Ref>, runs: seq<Run>, n: nat, held: Run -> bool, routes0: seq<Route>, locs0: seq<Loc>,
                  decoys0: seq<nat>)
    returns (routes: seq<Route>, locs: seq<Loc>, decoyChunks: seq<nat>)
    requires RunsOk(runs, refs) && n < |runs| && |routes0| == |locs0| == |refs|
    requires RoutedByRuns(routes0, runs, n, held) && Routed(routes0, Decoy, decoys0, |refs|)
    requires forall k :: 0 <= k < |decoys0| ==> decoys0[k] < EndOf(runs, n)
    requires forall c :: 0 <= c < |refs| && routes0[c] != New ==> InRunsXorb(refs, runs, locs0, c)
    ensures |routes| == |locs| == |refs|
    ensures forall c :: 0 <= c < |refs| ==>
      routes[c] == if InRun(runs[n], c) then RunRoute(held, runs[n]) else routes0[c]
    ensures Routed(routes, Decoy, decoyChunks, |refs|)
    ensures forall k :: 0 <= k < |decoyChunks| ==> decoyChunks[k] < EndOf(runs, n + 1)
    ensures forall c :: 0 <= c < |refs| && routes[c] != New ==> InRunsXorb(refs, runs, locs, c)
  {
    var r := runs[n];
    var route := RunRoute(held, r);
    routes, locs, decoyChunks := routes0, locs0, decoys0;
    assert n > 0 ==> runs[n - 1].end <= r.start;
    assert forall c :: r.start <= c < r.end ==> routes0[c] == New by {
      forall c | r.start <= c < r.end ensures !InSomeRun(runs, n, c) {
        assert forall i :: 0 <= i < n ==> runs[i].end <= r.start;
      }
    }
    for c := r.start to r.end
      invariant |routes| == |locs| == |refs|
      invariant forall k :: 0 <= k < |refs| ==> routes[k] == if r.start <= k < c then route else routes0[k]
      invariant forall k :: 0 <= k < |decoyChunks| ==> decoyChunks[k] < c
      invariant Routed(routes, Decoy, decoyChunks, |refs|)
      invariant forall k :: 0 <= k < |refs| && routes[k] != New ==> InRunsXorb(refs, runs, locs, k)
    {
      ghost var routes1, locs1, decoys1 := routes, locs, decoyChunks;
      routes, locs := routes[c := route], locs[c := Follows(r, c)];
      if route == Decoy {
        decoyChunks := decoyChunks + [c];
      }
      RouteOne(routes1, routes, c, decoys1, decoyChunks);
      assert InRunsXorb(refs, runs, locs, c) by {
        assert runs[n].loc.xorb == locs[c].xorb;
      }
      forall k | 0 <= k < |refs| && routes[k] != New ensures InRunsXorb(refs, runs, locs, k) {
        assert k != c ==> InRunsXorb(refs, runs, locs1, k);
      }
    }
  }

  lemma RouteOne(before: seq<Route>, routes: seq<Route>, c: nat, had: seq<nat>, has: seq<nat>)
    requires c < |before| == |routes| && before[c] == New && routes[c := New] == before
    requires Routed(before, Decoy, had, |before|) && forall k :: 0 <= k < |had| ==> had[k] < c
    requires has == if routes[c] == Decoy then had + [c] else had
    ensures Routed(routes, Decoy, has, |routes|)
  {
    forall k | 0 <= k < |routes| && routes[k] == Decoy ensures k in has {
      assert k != c ==> before[k] == Decoy;
    }
    forall i | 0 <= i < |has| ensures has[i] < |routes| && routes[has[i]] == Decoy {
      if i < |had| {
        assert before[had[i]] == Decoy;
      }
    }
  }

  /** The chunks no run covers, in order. */
  method NewChunks(routes: seq<Route>) returns (newChunks: seq<nat>)
    ensures Routed(routes, New, newChunks, |routes|)
  {
    newChunks := [];
    for c := 0 to |routes|
      invariant Routed(routes, New, newChunks, c)
    {
      if routes[c] == New {
        newChunks := newChunks + [c];
      }
    }
  }

  function GroupsOf(xorbs: seq<PlannedXorb>): (r: seq<seq<nat>>)
    ensures |r| == |xorbs| && forall x :: 0 <= x < |xorbs| ==> r[x] == xorbs[x].chunks
  {
    seq(|xorbs|, x requires 0 <= x < |xorbs| => xorbs[x].chunks)
  }

  /** Planned xorbs are named by the chunks they hold, and every new chunk is
      where the plan says it is. */
  predicate XorbsPlanned(refs: seq<Ref>, p: CommitPlan) {
    && |p.routes| == |p.xorbOf| == |p.indexIn| == |refs|
    && XorbsNamed(refs, p.xorbs)
    && (forall c :: 0 <= c < |refs| && p.routes[c] == New ==> IsAt(GroupsOf(p.xorbs), p.xorbOf[c], p.indexIn[c], c))
  }

  /** Groups hold the chunks with the given route, in content order, each full. */
  predicate GroupedRoute(refs: seq<Ref>, routes: seq<Route>, route: Route, groups: seq<seq<nat>>, overhead: nat)
    requires |routes| == |refs|
  {
    Routed(routes, route, Flatten(groups), |refs|) && Grouped(refs, groups, Flatten(groups), overhead)
  }

  /** The term's xorb is a reused run's or one of the plan's. */
  predicate TermFrom(t: Term, xorbs: seq<PlannedXorb>, runs: seq<Run>) {
    || (exists i :: 0 <= i < |runs| && runs[i].loc.xorb == t.xorb)
    || (exists x :: 0 <= x < |xorbs| && xorbs[x].xorb == t.xorb)
  }

  predicate TermsFrom(p: CommitPlan, runs: seq<Run>) {
    forall t :: 0 <= t < |p.terms| ==> TermFrom(p.terms[t], p.xorbs, runs)
  }

  /** Each planned xorb is the one its chunks name, with their size. */
  predicate XorbsNamed(refs: seq<Ref>, xorbs: seq<PlannedXorb>) {
    forall x :: 0 <= x < |xorbs| ==>
      && Indexes(xorbs[x].chunks, |refs|)
      && xorbs[x] == PlannedXorb(XorbFor(refs, xorbs[x].chunks), xorbs[x].chunks, RawSize(refs, xorbs[x].chunks))
  }

  /** What a plan that attaches terms says. */
  predicate PlanOk(refs: seq<Ref>, p: CommitPlan, runs: seq<Run>, held: Run -> bool, overhead: nat) {
    && p.attach && RunsOk(runs, refs)
    && XorbsPlanned(refs, p)
    && RoutedByRuns(p.routes, runs, |runs|, held)
    && GroupedRoute(refs, p.routes, New, GroupsOf(p.xorbs), overhead)
    && GroupedRoute(refs, p.routes, Decoy, p.decoys, overhead)
    && Denotes(p.terms, Contents(refs)) && TermsFrom(p, runs) && Merged(p.terms)
  }

  /** The plan for content stored for someone else: all of it is written, and thrown away. */
  predicate DecoysOnly(refs: seq<Ref>, p: CommitPlan, overhead: nat) {
    && p == CommitPlan(false, [], [], [], [], [], p.decoys)
    && Grouped(refs, p.decoys, seq(|refs|, i requires 0 <= i => i), overhead)
  }

  method AllIndexes(n: nat) returns (indexes: seq<nat>)
    ensures |indexes| == n && forall i :: 0 <= i < n ==> indexes[i] == i
  {
    indexes := [];
    for i := 0 to n
      invariant |indexes| == i && forall k :: 0 <= k < i ==> indexes[k] == k
    {
      indexes := indexes + [i];
    }
  }

  /** Plans a commit. exists says the content is stored for someone, held that
      this namespace holds it, and heldRuns which runs the namespace holds. */
  method MakePlan(refs: seq<Ref>, stored: bool, held: bool, found: Found, heldRuns: Run -> bool, overhead: nat)
    returns (p: CommitPlan, ghost runs: seq<Run>)
    requires Placed(refs) && Accurate(found, refs)
    ensures refs == [] ==> p == CommitPlan(true, [], [], [], [], [], [])
    ensures refs != [] && held ==> p == CommitPlan(false, [], [], [], [], [], [])
    ensures refs != [] && !held && stored ==> DecoysOnly(refs, p, overhead)
    ensures refs == [] || (!held && !stored) ==>
      PlanOk(refs, p, runs, heldRuns, overhead) && Reusable(runs, refs, found)
  {
    runs := [];
    assert refs == [] ==> Segmented([], refs, found, |refs|) && runs == Kept([], |refs|);
    if refs == [] {
      return NO_PLAN.(attach := true), [];
    }
    if held {
      return NO_PLAN, [];
    }
    if stored {
      var all := AllIndexes(|refs|);
      var decoys := GroupForXorbs(refs, all, overhead);
      assert all == seq(|refs|, i requires 0 <= i => i);
      return NO_PLAN.(decoys := decoys), [];
    }
    var theRuns := ReusableRuns(refs, found);
    runs := theRuns;
    p := PlanNew(refs, theRuns, heldRuns, overhead);
  }

  /** Chunk c is where its loc says, in its run's xorb or in the new xorb planned for it. */
  predicate PlacedWell(refs: seq<Ref>, routes: seq<Route>, runs: seq<Run>, groups: seq<seq<nat>>,
                       xorbOf: seq<nat>, indexIn: seq<nat>, locs: seq<Loc>, c: nat)
    requires |routes| == |xorbOf| == |indexIn| == |locs| == |refs| && c < |refs|
  {
    && Holds(locs[c], refs[c].chunk)
    && (routes[c] == New ==>
          && IsAt(groups, xorbOf[c], indexIn[c], c)
          && Indexes(groups[xorbOf[c]], |refs|)
          && XorbFor(refs, groups[xorbOf[c]]) == locs[c].xorb)
    && (routes[c] != New ==> exists i :: 0 <= i < |runs| && runs[i].loc.xorb == locs[c].xorb)
  }

  /** Routes and places for every chunk of content no one has stored. */
  method PlaceChunks(refs: seq<Ref>, runs: seq<Run>, heldRuns: Run -> bool, overhead: nat)
    returns (routes: seq<Route>, xorbOf: seq<nat>, indexIn: seq<nat>, locs: seq<Loc>, xorbs: seq<PlannedXorb>,
             decoys: seq<seq<nat>>)
    requires RunsOk(runs, refs)
    ensures |routes| == |xorbOf| == |indexIn| == |locs| == |refs|
    ensures RoutedByRuns(routes, runs, |runs|, heldRuns)
    ensures GroupedRoute(refs, routes, New, GroupsOf(xorbs), overhead)
    ensures GroupedRoute(refs, routes, Decoy, decoys, overhead)
    ensures XorbsNamed(refs, xorbs)
    ensures forall c :: 0 <= c < |refs| ==> PlacedWell(refs, routes, runs, GroupsOf(xorbs), xorbOf, indexIn, locs, c)
  {
    var decoyChunks;
    routes, locs, decoyChunks := RouteRuns(refs, runs, heldRuns);
    var newChunks := NewChunks(routes);
    var groups := GroupForXorbs(refs, newChunks, overhead);
    ghost var runLocs := locs;
    xorbOf, indexIn, locs, xorbs := PlaceNew(refs, groups, locs);
    decoys := GroupForXorbs(refs, decoyChunks, overhead);
    assert GroupsOf(xorbs) == groups;
    forall c | 0 <= c < |refs|
      ensures PlacedWell(refs, routes, runs, groups, xorbOf, indexIn, locs, c)
    {
      ChunkPlaced(refs, routes, groups, runs, runLocs, xorbOf, indexIn, locs, c);
    }
  }

  /** The plan for content no one has stored. */
  method PlanNew(refs: seq<Ref>, runs: seq<Run>, heldRuns: Run -> bool, overhead: nat) returns (p: CommitPlan)
    requires Placed(refs) && RunsOk(runs, refs)
    ensures PlanOk(refs, p, runs, heldRuns, overhead)
  {
    var routes, xorbOf, indexIn, locs, xorbs, decoys := PlaceChunks(refs, runs, heldRuns, overhead);
    assert LocsHold(locs, refs) by {
      forall c | 0 <= c < |refs| ensures Holds(locs[c], refs[c].chunk) {
        assert PlacedWell(refs, routes, runs, GroupsOf(xorbs), xorbOf, indexIn, locs, c);
      }
    }
    var terms := BuildTerms(refs, locs);
    p := CommitPlan(true, routes, xorbOf, indexIn, xorbs, terms, decoys);
    AllPlanned(refs, p, runs, locs);
  }

  lemma AllPlanned(refs: seq<Ref>, p: CommitPlan, runs: seq<Run>, locs: seq<Loc>)
    requires |p.routes| == |p.xorbOf| == |p.indexIn| == |locs| == |refs|
    requires XorbsNamed(refs, p.xorbs)
    requires forall c :: 0 <= c < |refs| ==>
      PlacedWell(refs, p.routes, runs, GroupsOf(p.xorbs), p.xorbOf, p.indexIn, locs, c)
    requires FromLocs(p.terms, locs)
    ensures XorbsPlanned(refs, p) && TermsFrom(p, runs)
  {
    forall c | 0 <= c < |refs| && p.routes[c] == New
      ensures IsAt(GroupsOf(p.xorbs), p.xorbOf[c], p.indexIn[c], c)
    {
      assert PlacedWell(refs, p.routes, runs, GroupsOf(p.xorbs), p.xorbOf, p.indexIn, locs, c);
    }
    forall t | 0 <= t < |p.terms| ensures TermFrom(p.terms[t], p.xorbs, runs) {
      assert NamedBy(locs, p.terms[t].xorb);
      var c :| 0 <= c < |locs| && locs[c].xorb == p.terms[t].xorb;
      assert PlacedWell(refs, p.routes, runs, GroupsOf(p.xorbs), p.xorbOf, p.indexIn, locs, c);
      if p.routes[c] == New {
        assert p.xorbs[p.xorbOf[c]].xorb == p.terms[t].xorb;
      }
    }
  }

  lemma ChunkPlaced(refs: seq<Ref>, routes: seq<Route>, groups: seq<seq<nat>>, runs: seq<Run>, runLocs: seq<Loc>,
                    xorbOf: seq<nat>, indexIn: seq<nat>, locs: seq<Loc>, c: nat)
    requires |routes| == |runLocs| == |xorbOf| == |indexIn| == |locs| == |refs| && c < |refs|
    requires Routed(routes, New, Flatten(groups), |refs|)
    requires forall x :: 0 <= x < |groups| ==> Indexes(groups[x], |refs|)
    requires forall x, i :: 0 <= x < |groups| && 0 <= i < |groups[x]| ==>
      PlacedAt(refs, groups, xorbOf, indexIn, locs, x, i)
    requires locs[c] == runLocs[c] || exists x, i :: IsAt(groups, x, i, c)
    requires routes[c] != New ==> InRunsXorb(refs, runs, runLocs, c)
    ensures PlacedWell(refs, routes, runs, groups, xorbOf, indexIn, locs, c)
  {
    FlattenHas(groups, c);
    if routes[c] == New {
      var x, i :| IsAt(groups, x, i, c);
      assert PlacedAt(refs, groups, xorbOf, indexIn, locs, x, i);
      PlacedHolds(refs, groups[x], i);
    } else {
      var flat := Flatten(groups);
      assert c !in flat;
    }
  }

  // ---------------------------------------------------------------------
  // What a plan writes
  // ---------------------------------------------------------------------

  /** The bytes of the first n chunks that take the route. */
  function RouteBytes(refs: seq<Ref>, routes: seq<Route>, route: Route, n: nat): nat
    requires n <= |routes| == |refs|
  {
    if n == 0 then 0
    else RouteBytes(refs, routes, route, n - 1) + if routes[n - 1] == route then refs[n - 1].chunk.size else 0
  }

  lemma RoutedLast(routes: seq<Route>, route: Route, s: seq<nat>, n: nat)
    requires 0 < n <= |routes| && Routed(routes, route, s, n) && routes[n - 1] == route
    ensures s != [] && s == s[..|s| - 1] + [n - 1] && Routed(routes, route, s[..|s| - 1], n - 1)
  {
    var k := |s| - 1;
    assert n - 1 in s;
    var last :| 0 <= last < |s| && s[last] == n - 1;
    assert s[k] < n;
    assert last == k;
    forall c | 0 <= c < n - 1 && routes[c] == route ensures c in s[..k] {
      assert c in s;
      var j :| 0 <= j < |s| && s[j] == c;
      assert s[..k][j] == c;
    }
  }

  lemma RoutedSkip(routes: seq<Route>, route: Route, s: seq<nat>, n: nat)
    requires 0 < n <= |routes| && Routed(routes, route, s, n) && routes[n - 1] != route
    ensures Routed(routes, route, s, n - 1)
  {
  }

  lemma OneMoreIndex(refs: seq<Ref>, front: seq<nat>, s: seq<nat>, c: nat)
    requires Indexes(front, |refs|) && c < |refs| && s == front + [c]
    ensures Indexes(s, |refs|) && RawSize(refs, s) == RawSize(refs, front) + refs[c].chunk.size
  {
    RawSizeSnoc(refs, front, c);
  }

  lemma {:induction false} RoutedBytes(refs: seq<Ref>, routes: seq<Route>, route: Route, s: seq<nat>, n: nat)
    requires n <= |routes| == |refs| && Routed(routes, route, s, n)
    ensures Indexes(s, |refs|) && RawSize(refs, s) == RouteBytes(refs, routes, route, n)
  {
    if n == 0 {
      assert s == [];
    } else if routes[n - 1] == route {
      RoutedLast(routes, route, s, n);
      var front := s[..|s| - 1];
      RoutedBytes(refs, routes, route, front, n - 1);
      OneMoreIndex(refs, front, s, n - 1);
    } else {
      RoutedSkip(routes, route, s, n);
      RoutedBytes(refs, routes, route, s, n - 1);
    }
  }

  lemma {:induction false} RoutesShareContent(refs: seq<Ref>, routes: seq<Route>, n: nat)
    requires n <= |routes| == |refs|
    ensures RouteBytes(refs, routes, New, n) + RouteBytes(refs, routes, Reuse, n) + RouteBytes(refs, routes, Decoy, n)
      == TotalSize(Contents(refs)[..n])
  {
    if n > 0 {
      RoutesShareContent(refs, routes, n - 1);
      SizeSnoc(Contents(refs), n - 1);
    }
  }

  function RunSize(refs: seq<Ref>, r: Run): nat {
    if r.start <= r.end <= |refs| then TotalSize(Contents(refs)[r.start..r.end]) else 0
  }

  /** The bytes of the first n runs that the namespace already holds. */
  function HeldBytes(refs: seq<Ref>, runs: seq<Run>, held: Run -> bool, n: nat): nat
    requires n <= |runs|
  {
    if n == 0 then 0
    else HeldBytes(refs, runs, held, n - 1) + if held(runs[n - 1]) then RunSize(refs, runs[n - 1]) else 0
  }

  /** Over chunks that all take the route, or none, bytes are all or none of them. */
  lemma {:induction false} RouteSpan(refs: seq<Ref>, routes: seq<Route>, route: Route, a: nat, b: nat, all: bool)
    requires a <= b <= |routes| == |refs|
    requires forall c :: a <= c < b ==> (routes[c] == route <==> all)
    ensures RouteBytes(refs, routes, route, b)
      == RouteBytes(refs, routes, route, a) + if all then TotalSize(Contents(refs)[a..b]) else 0
  {
    if a < b {
      RouteSpan(refs, routes, route, a, b - 1, all);
      SizeSnoc(Contents(refs)[a..], b - 1 - a);
      assert Contents(refs)[a..][..b - a] == Contents(refs)[a..b];
      assert Contents(refs)[a..][..b - 1 - a] == Contents(refs)[a..b - 1];
    }
  }

  lemma BetweenRuns(refs: seq<Ref>, routes: seq<Route>, runs: seq<Run>, held: Run -> bool, n: nat, c: nat)
    requires |routes| == |refs| && RunsOk(runs, refs) && RoutedByRuns(routes, runs, |runs|, held)
    requires n <= |runs| && EndOf(runs, n) <= c < |refs| && (n < |runs| ==> c < runs[n].start)
    ensures routes[c] == New
  {
    if InSomeRun(runs, |runs|, c) {
      var i :| 0 <= i < |runs| && InRun(runs[i], c);
      assert false;
    }
  }

  /** From the end of the run before to the end of this one, what is reused is this run or nothing. */
  predicate ReusesOne(refs: seq<Ref>, routes: seq<Route>, runs: seq<Run>, held: Run -> bool, n: int)
    requires |routes| == |refs| && 0 <= n < |runs|
  {
    && EndOf(runs, n) <= EndOf(runs, n + 1) <= |refs|
    && RouteBytes(refs, routes, Reuse, EndOf(runs, n + 1)) - RouteBytes(refs, routes, Reuse, EndOf(runs, n))
      == HeldBytes(refs, runs, held, n + 1) - HeldBytes(refs, runs, held, n)
  }

  lemma ReusedOverRun(refs: seq<Ref>, routes: seq<Route>, runs: seq<Run>, held: Run -> bool, n: nat)
    requires |routes| == |refs| && RunsOk(runs, refs) && RoutedByRuns(routes, runs, |runs|, held) && n < |runs|
    ensures ReusesOne(refs, routes, runs, held, n)
  {
    var r, at := runs[n], EndOf(runs, n);
    assert n > 0 ==> runs[n - 1].end <= r.start;
    forall c | at <= c < r.start ensures routes[c] != Reuse {
      BetweenRuns(refs, routes, runs, held, n, c);
    }
    RouteSpan(refs, routes, Reuse, at, r.start, false);
    forall c | r.start <= c < r.end ensures routes[c] == Reuse <==> held(r) {
      assert InRun(runs[n], c);
    }
    RouteSpan(refs, routes, Reuse, r.start, r.end, held(r));
  }

  lemma {:induction false} ReusedUpTo(refs: seq<Ref>, routes: seq<Route>, runs: seq<Run>, held: Run -> bool, n: nat)
    requires |routes| == |refs| && n <= |runs|
    requires forall i :: 0 <= i < n ==> ReusesOne(refs, routes, runs, held, i)
    ensures EndOf(runs, n) <= |refs|
    ensures RouteBytes(refs, routes, Reuse, EndOf(runs, n)) == HeldBytes(refs, runs, held, n)
  {
    if n > 0 {
      ReusedUpTo(refs, routes, runs, held, n - 1);
      assert ReusesOne(refs, routes, runs, held, n - 1);
    }
  }

  /** What a plan reuses is exactly the runs the namespace holds. */
  lemma ReusedBytes(refs: seq<Ref>, routes: seq<Route>, runs: seq<Run>, held: Run -> bool)
    requires |routes| == |refs| && RunsOk(runs, refs) && RoutedByRuns(routes, runs, |runs|, held)
    ensures EndOf(runs, |runs|) <= |refs|
    ensures RouteBytes(refs, routes, Reuse, EndOf(runs, |runs|)) == HeldBytes(refs, runs, held, |runs|)
  {
    forall n | 0 <= n < |runs| ensures ReusesOne(refs, routes, runs, held, n) {
      ReusedOverRun(refs, routes, runs, held, n);
    }
    ReusedUpTo(refs, routes, runs, held, |runs|);
  }

  /** What a plan writes, to new xorbs and to decoys, is the content less the
      runs the namespace already holds. */
  lemma WritesAllButHeld(refs: seq<Ref>, p: CommitPlan, runs: seq<Run>, held: Run -> bool, overhead: nat)
    requires PlanOk(refs, p, runs, held, overhead)
    ensures Indexes(Flatten(GroupsOf(p.xorbs)), |refs|) && Indexes(Flatten(p.decoys), |refs|)
    ensures RawSize(refs, Flatten(GroupsOf(p.xorbs))) + RawSize(refs, Flatten(p.decoys))
      == TotalSize(Contents(refs)) - HeldBytes(refs, runs, held, |runs|)
  {
    var n, at := |refs|, EndOf(runs, |runs|);
    RoutedBytes(refs, p.routes, New, Flatten(GroupsOf(p.xorbs)), n);
    RoutedBytes(refs, p.routes, Decoy, Flatten(p.decoys), n);
    RoutesShareContent(refs, p.routes, n);
    assert Contents(refs)[..n] == Contents(refs);
    ReusedBytes(refs, p.routes, runs, held);
    forall c | at <= c < n ensures p.routes[c] != Reuse {
      BetweenRuns(refs, p.routes, runs, held, |runs|, c);
    }
    RouteSpan(refs, p.routes, Reuse, at, n, false);
  }

  /** A planned xorb is exactly its chunks of the content, in order. */
  lemma PlannedXorbsHold(refs: seq<Ref>, p: CommitPlan, runs: seq<Run>, held: Run -> bool, overhead: nat, x: nat)
    requires PlanOk(refs, p, runs, held, overhead) && x < |p.xorbs|
    ensures var planned := p.xorbs[x];
      && |planned.xorb.chunks| == |planned.chunks|
      && (forall i :: 0 <= i < |planned.chunks| ==>
            planned.chunks[i] < |refs| && planned.xorb.chunks[i] == refs[planned.chunks[i]].chunk)
      && planned.raw == TotalSize(planned.xorb.chunks)
  {
    assert Indexes(p.xorbs[x].chunks, |refs|);
  }

  /** A chunk is reused only inside one long run, and otherwise is in exactly one new xorb. */
  lemma OneRouteEach(refs: seq<Ref>, p: CommitPlan, runs: seq<Run>, held: Run -> bool, overhead: nat, c: nat)
    requires PlanOk(refs, p, runs, held, overhead) && c < |refs|
    ensures p.routes[c] == New <==> exists x, i :: IsAt(GroupsOf(p.xorbs), x, i, c)
    ensures p.routes[c] == Decoy <==> exists d, i :: IsAt(p.decoys, d, i, c)
    ensures forall x, i, y, j :: IsAt(GroupsOf(p.xorbs), x, i, c) && IsAt(GroupsOf(p.xorbs), y, j, c) ==>
      x == y && i == j
    ensures p.routes[c] != New ==> exists r ::
      0 <= r < |runs| && runs[r].start <= c < runs[r].end
      && (runs[r].end - runs[r].start >= 8 || runs[r].end - runs[r].start == |refs|)
    ensures forall r :: 0 <= r < |runs| && InRun(runs[r], c) ==> (p.routes[c] == Reuse <==> held(runs[r]))
  {
    var groups := GroupsOf(p.xorbs);
    FlattenHas(groups, c);
    FlattenHas(p.decoys, c);
    assert c in Flatten(groups) <==> p.routes[c] == New;
    assert c in Flatten(p.decoys) <==> p.routes[c] == Decoy;
    forall x, i, y, j | IsAt(groups, x, i, c) && IsAt(groups, y, j, c) ensures x == y && i == j {
      OnePlaceEach(groups, x, i, y, j, c);
    }
    if p.routes[c] != New {
      var r :| 0 <= r < |runs| && InRun(runs[r], c);
    }
  }
}
