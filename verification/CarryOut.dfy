/** Carrying out a plan: one pass over the staged content writes each new xorb
    and each decoy once, whole, as a serialisation of its chunks. */
module CarryOut {
  import opened Bytes
  import opened ChunkCodec
  import opened Limits
  import opened Plan
  import opened Terms
  import opened Wrappers
  import opened XorbFile
  import Merkle

  /** A commit's writes: the chunks of the content, its staged bytes as they are
      now, and the nonce drawn for each chunk. */
  datatype Job = Job(k: Checker, refs: seq<Ref>, staged: seq<byte>, nonces: nat -> seq<byte>)

  ghost predicate Valid(job: Job) {
    && Lawful(job.k.p) && ValidKeys(job.k.keys)
    && (forall c: nat :: |job.nonces(c)| == NONCE)
    && Placed(job.refs)
    && forall c :: 0 <= c < |job.refs| ==> job.refs[c].chunk.size <= MAX_CHUNK
  }

  /** The rows are of the group's chunks, in its order. */
  predicate RowsMatch(job: Job, group: seq<nat>, rows: seq<Row>)
    requires Indexes(group, |job.refs|) && |rows| <= |group|
  {
    forall i :: 0 <= i < |rows| ==>
      rows[i].hash == job.refs[group[i]].chunk.hash && rows[i].size == job.refs[group[i]].chunk.size
  }

  /** What the staged content now holds where chunk c was. */
  function Piece(job: Job, c: nat): seq<byte>
    requires c < |job.refs|
  {
    var at, size := job.refs[c].pos, job.refs[c].chunk.size;
    if 0 <= at && at + size <= |job.staged| then job.staged[at..at + size] else []
  }

  /** Chunk c as it is to be stored: compressed, and sealed if the job has keys. */
  function Encoded(job: Job): nat -> seq<byte> {
    (c: nat) =>
      if ValidKeys(job.k.keys) && c < |job.refs| then
        Encode(job.k.p, Piece(job, c), job.refs[c].chunk.hash, job.k.keys, job.nonces(c))
      else []
  }

  /** The first n chunks of group as they are to be stored, one after another. */
  function EncodedUpto(encoded: nat -> seq<byte>, group: seq<nat>, n: nat): seq<byte>
    requires n <= |group|
  {
    if n == 0 then [] else EncodedUpto(encoded, group, n - 1) + encoded(group[n - 1])
  }

  /** The bytes and rows of the first n chunks of group, stored one after another. */
  predicate Stores(job: Job, group: seq<nat>, n: nat, rows: seq<Row>, b: seq<byte>) {
    && ValidKeys(job.k.keys) && Indexes(group, |job.refs|)
    && |rows| == n <= |group|
    && b == EncodedUpto(Encoded(job), group, n)
    && RowsMatch(job, group, rows)
    && Serialised(job.k, rows, b)
    && |b| <= WorstCaseStored(RawSize(job.refs, group[..n]), n, Overhead(job.k.keys))
  }

  /** An object sent whole: which planned one it is, its rows and its bytes. */
  datatype Sent = Sent(target: int, rows: seq<Row>, bytes: seq<byte>)

  /** The object being filled, and those sent before it. at is -1 before the first. */
  datatype Filler = Filler(at: int, rows: seq<Row>, buf: seq<byte>, sent: seq<Sent>)

  predicate SentWhole(job: Job, groups: seq<seq<nat>>, sent: seq<Sent>) {
    && |sent| <= |groups|
    && forall x :: 0 <= x < |sent| ==>
         sent[x].target == x && Stores(job, groups[x], |groups[x]|, sent[x].rows, sent[x].bytes)
  }

  /** How many chunks are in the groups before x. */
  function Before(groups: seq<seq<nat>>, x: nat): nat
    requires x <= |groups|
  {
    if x == 0 then 0 else Before(groups, x - 1) + |groups[x - 1]|
  }

  /** The filler has taken exactly the first taken chunks of the groups. */
  predicate Filled(job: Job, groups: seq<seq<nat>>, f: Filler, taken: nat) {
    && SentWhole(job, groups, f.sent)
    && if f.at == -1 then f.sent == [] && f.rows == [] && f.buf == [] && taken == 0
       else
         && 0 <= f.at == |f.sent| < |groups|
         && 0 < |f.rows| <= |groups[f.at]|
         && Stores(job, groups[f.at], |f.rows|, f.rows, f.buf)
         && taken == Before(groups, f.at) + |f.rows|
  }

  lemma {:induction false} FlatLength(groups: seq<seq<nat>>, x: nat)
    requires x <= |groups|
    ensures Flatten(groups) == Flatten(groups[..x]) + Flatten(groups[x..])
    ensures |Flatten(groups[..x])| == Before(groups, x)
  {
    assert groups == groups[..x] + groups[x..];
    FlattenConcat(groups[..x], groups[x..]);
    if x > 0 {
      FlatLength(groups, x - 1);
      TakeNext(groups, x - 1);
      FlattenSnoc(groups[..x - 1], groups[x - 1]);
    }
  }

  lemma FlatAt(groups: seq<seq<nat>>, x: nat, i: nat)
    requires x < |groups| && i < |groups[x]|
    ensures Before(groups, x) + i < |Flatten(groups)|
    ensures Flatten(groups)[Before(groups, x) + i] == groups[x][i]
  {
    FlatLength(groups, x);
    assert groups[x..][0] == groups[x];
    assert Flatten(groups[x..]) == groups[x] + Flatten(groups[x..][1..]);
  }

  predicate NonEmpty(groups: seq<seq<nat>>) {
    forall g :: 0 <= g < |groups| ==> groups[g] != []
  }

  lemma {:induction false} BeforeAll(groups: seq<seq<nat>>)
    ensures |Flatten(groups)| == Before(groups, |groups|)
  {
    FlatLength(groups, |groups|);
    assert groups[..|groups|] == groups;
  }

  /** The next chunk of the groups goes on filling the open one, or opens the next
      once the open one has all its chunks. */
  lemma NextGoes(groups: seq<seq<nat>>, at: int, have: nat, taken: nat, x: nat, i: nat)
    requires -1 <= at < |groups| && have <= if at == -1 then 0 else |groups[at]|
    requires taken == have + if at == -1 then 0 else Before(groups, at)
    requires NonEmpty(groups) && Increasing(Flatten(groups))
    requires taken < |Flatten(groups)| && IsAt(groups, x, i, Flatten(groups)[taken])
    ensures at >= 0 && have < |groups[at]| ==> x == at && i == have
    ensures !(at >= 0 && have < |groups[at]|) ==> x == at + 1 && i == 0
    ensures taken == Before(groups, x) + i
  {
    var c := Flatten(groups)[taken];
    if at >= 0 && have < |groups[at]| {
      FlatAt(groups, at, have);
      OnePlaceEach(groups, x, i, at, have, c);
    } else {
      BeforeAll(groups);
      assert at + 1 < |groups|;
      FlatAt(groups, at + 1, 0);
      OnePlaceEach(groups, x, i, at + 1, 0, c);
    }
  }

  /** Chunk c is as staged, and enc is how it is stored. */
  predicate Ready(job: Job, c: nat, stored: seq<byte>) {
    && ValidKeys(job.k.keys) && c < |job.refs| && stored == Encoded(job)(c)
    && |stored| <= job.refs[c].chunk.size + Overhead(job.k.keys)
    && Verify(job.k, stored, RowFor(job, c, 0, |stored|)).Sound?
  }

  function RowFor(job: Job, c: nat, at: nat, length: nat): Row
    requires c < |job.refs|
  {
    Row(job.refs[c].chunk.hash, at, length, job.refs[c].chunk.size)
  }

  lemma PlaceDoesNotMatter(job: Job, c: nat, stored: seq<byte>, at: nat)
    requires Ready(job, c, stored)
    ensures Verify(job.k, stored, RowFor(job, c, at, |stored|)).Sound?
  {
  }

  lemma RowsMatchMore(job: Job, group: seq<nat>, n: nat, rows: seq<Row>, row: Row)
    requires n < |group| && Indexes(group, |job.refs|) && |rows| == n && RowsMatch(job, group, rows)
    requires row.hash == job.refs[group[n]].chunk.hash && row.size == job.refs[group[n]].chunk.size
    ensures RowsMatch(job, group, rows + [row])
  {
  }

  lemma StoresMore(job: Job, group: seq<nat>, n: nat, rows: seq<Row>, b: seq<byte>, stored: seq<byte>)
    requires Stores(job, group, n, rows, b) && n < |group| && Ready(job, group[n], stored)
    ensures Stores(job, group, n + 1, rows + [RowFor(job, group[n], |b|, |stored|)], b + stored)
  {
    var row := RowFor(job, group[n], |b|, |stored|);
    PlaceDoesNotMatter(job, group[n], stored, |b|);
    AppendKeepsSerialised(job.k, rows, b, stored, row);
    RowsMatchMore(job, group, n, rows, row);
    LengthMore(job, group, n, |b|, |stored|);
  }

  lemma LengthMore(job: Job, group: seq<nat>, n: nat, had: nat, adds: nat)
    requires n < |group| && Indexes(group, |job.refs|)
    requires had <= WorstCaseStored(RawSize(job.refs, group[..n]), n, Overhead(job.k.keys))
    requires adds <= job.refs[group[n]].chunk.size + Overhead(job.k.keys)
    ensures had + adds <= WorstCaseStored(RawSize(job.refs, group[..n + 1]), n + 1, Overhead(job.k.keys))
  {
    RawSizeSnoc(job.refs, group[..n], group[n]);
    TakeNext(group, n);
    WorstCaseMore(RawSize(job.refs, group[..n]), job.refs[group[n]].chunk.size, n, Overhead(job.k.keys));
  }

  lemma WorstCaseMore(raw: nat, size: nat, n: nat, overhead: nat)
    ensures WorstCaseStored(raw, n, overhead) + size + overhead == WorstCaseStored(raw + size, n + 1, overhead)
  {
    assert (n + 1) * overhead == n * overhead + overhead;
  }

  lemma StoresNone(job: Job, group: seq<nat>)
    requires ValidKeys(job.k.keys) && Indexes(group, |job.refs|)
    ensures Stores(job, group, 0, [], [])
  {
    assert group[..0] == [];
  }

  /** Puts the next chunk in object x: the one being filled, or a new one, the one
      before being sent. */
  method Put(job: Job, ghost groups: seq<seq<nat>>, f: Filler, x: nat, c: nat, stored: seq<byte>, ghost i: nat,
             ghost taken: nat)
    returns (r: Filler)
    requires Filled(job, groups, f, taken) && NonEmpty(groups) && Increasing(Flatten(groups))
    requires forall g :: 0 <= g < |groups| ==> Indexes(groups[g], |job.refs|)
    requires taken < |Flatten(groups)| && Flatten(groups)[taken] == c && IsAt(groups, x, i, c)
    requires Ready(job, c, stored)
    ensures Filled(job, groups, r, taken + 1)
  {
    r := f;
    if x != f.at {
      r := Open(job, groups, f, x, i, taken);
    } else {
      NextGoes(groups, f.at, |f.rows|, taken, x, i);
    }
    r := Append(job, groups, r, c, stored);
  }

  /** The open object has room for the next chunk of its group. */
  predicate HasRoom(job: Job, groups: seq<seq<nat>>, f: Filler) {
    && SentWhole(job, groups, f.sent)
    && 0 <= f.at == |f.sent| < |groups|
    && |f.rows| < |groups[f.at]|
    && Stores(job, groups[f.at], |f.rows|, f.rows, f.buf)
  }

  method Append(job: Job, ghost groups: seq<seq<nat>>, f: Filler, c: nat, stored: seq<byte>) returns (r: Filler)
    requires HasRoom(job, groups, f) && groups[f.at][|f.rows|] == c && Ready(job, c, stored)
    ensures Filled(job, groups, r, Before(groups, f.at) + |f.rows| + 1)
  {
    StoresMore(job, groups[f.at], |f.rows|, f.rows, f.buf, stored);
    r := f.(rows := f.rows + [RowFor(job, c, |f.buf|, |stored|)], buf := f.buf + stored);
  }

  lemma SendOpen(job: Job, groups: seq<seq<nat>>, f: Filler, taken: nat)
    requires Filled(job, groups, f, taken) && 0 <= f.at < |groups| && |f.rows| == |groups[f.at]|
    ensures SentWhole(job, groups, f.sent + [Sent(f.at, f.rows, f.buf)])
  {
  }

  method Open(job: Job, ghost groups: seq<seq<nat>>, f: Filler, x: nat, ghost i: nat, ghost taken: nat)
    returns (r: Filler)
    requires Filled(job, groups, f, taken) && NonEmpty(groups) && Increasing(Flatten(groups))
    requires forall g :: 0 <= g < |groups| ==> Indexes(groups[g], |job.refs|)
    requires taken < |Flatten(groups)| && IsAt(groups, x, i, Flatten(groups)[taken])
    requires x != f.at && ValidKeys(job.k.keys)
    ensures i == 0 && r.at == x && r.rows == [] && HasRoom(job, groups, r) && taken == Before(groups, x)
  {
    NextGoes(groups, f.at, |f.rows|, taken, x, i);
    StoresNone(job, groups[x]);
    var sent := f.sent;
    if f.at != -1 {
      SendOpen(job, groups, f, taken);
      sent := sent + [Sent(f.at, f.rows, f.buf)];
    }
    return Filler(x, [], [], sent);
  }

  /** Sends the last object. */
  method Finish(job: Job, ghost groups: seq<seq<nat>>, f: Filler) returns (sent: seq<Sent>)
    requires Filled(job, groups, f, |Flatten(groups)|) && NonEmpty(groups)
    ensures SentWhole(job, groups, sent) && |sent| == |groups|
  {
    BeforeAll(groups);
    if f.at == -1 {
      AllBefore(groups, 0);
      return f.sent;
    }
    AllBefore(groups, f.at + 1);
    BeforeGrows(groups, f.at + 1, |groups|);
    SendOpen(job, groups, f, |Flatten(groups)|);
    return f.sent + [Sent(f.at, f.rows, f.buf)];
  }

  lemma {:induction false} BeforeGrows(groups: seq<seq<nat>>, x: nat, y: nat)
    requires x <= y <= |groups|
    ensures Before(groups, x) <= Before(groups, y)
  {
    if x < y {
      BeforeGrows(groups, x, y - 1);
    }
  }

  /** With no chunk left after group x, there is no group left either. */
  lemma AllBefore(groups: seq<seq<nat>>, x: nat)
    requires NonEmpty(groups) && x <= |groups|
    ensures Before(groups, x) == Before(groups, |groups|) ==> x == |groups|
  {
    if x < |groups| {
      BeforeGrows(groups, x + 1, |groups|);
    }
  }

  // ---------------------------------------------------------------------
  // The pass over the staged content
  // ---------------------------------------------------------------------

  predicate AllOf(s: seq<nat>, n: nat) {
    |s| == n && forall i :: 0 <= i < n ==> s[i] == i
  }

  /** A plan for the job's content, with a route for each chunk or decoys only. */
  predicate Carryable(job: Job, p: CommitPlan) {
    var overhead := Overhead(job.k.keys);
    if p.routes == [] then
      && p.xorbs == []
      && (p.decoys == [] || (AllOf(Flatten(p.decoys), |job.refs|) && AllFit(job.refs, p.decoys, overhead)))
    else
      && XorbsPlanned(job.refs, p)
      && GroupedRoute(job.refs, p.routes, New, GroupsOf(p.xorbs), overhead)
      && GroupedRoute(job.refs, p.routes, Decoy, p.decoys, overhead)
  }

  /** Every plan that is made can be carried out: for new content, for content stored
      for someone else, and for content there is nothing to write of. */
  lemma PlansAreCarryable(job: Job, p: CommitPlan, runs: seq<Run>, held: Run -> bool)
    requires PlanOk(job.refs, p, runs, held, Overhead(job.k.keys)) || DecoysOnly(job.refs, p, Overhead(job.k.keys))
      || p == NO_PLAN
    ensures Carryable(job, p)
  {
    if PlanOk(job.refs, p, runs, held, Overhead(job.k.keys)) && p.routes == [] {
      assert GroupsOf(p.xorbs) == [] by { NoGroups(job, p.routes, New, GroupsOf(p.xorbs)); }
      NoGroups(job, p.routes, Decoy, p.decoys);
    }
  }

  lemma NoGroups(job: Job, routes: seq<Route>, route: Route, groups: seq<seq<nat>>)
    requires |job.refs| == 0 == |routes| && GroupedRoute(job.refs, routes, route, groups, Overhead(job.k.keys))
    ensures groups == []
  {
    if groups != [] {
      FlatAt(groups, 0, 0);
      assert false;
    }
  }

  /** Chunk c is still staged as it was hashed. */
  predicate Unchanged(job: Job, c: nat)
    requires c < |job.refs|
  {
    && 0 <= job.refs[c].pos && job.refs[c].pos + job.refs[c].chunk.size <= |job.staged|
    && job.k.hash(Piece(job, c)) == job.refs[c].chunk.hash
  }

  /** A chunk that is to be written is no longer as it was hashed. One that is only
      reused is not looked at. */
  predicate SomeChanged(job: Job, p: CommitPlan) {
    exists c :: 0 <= c < |job.refs| && IsWritten(p, c) && !Unchanged(job, c)
  }

  predicate IsWritten(p: CommitPlan, c: nat) {
    c in Flatten(GroupsOf(p.xorbs)) || c in Flatten(p.decoys)
  }

  /** Where chunk c starts, and that the content goes on at least to its end. */
  lemma ChunkEnds(job: Job, c: nat)
    requires Placed(job.refs) && c < |job.refs|
    ensures job.refs[c].pos == TotalSize(Contents(job.refs)[..c])
    ensures TotalSize(Contents(job.refs)[..c + 1]) == job.refs[c].pos + job.refs[c].chunk.size
    ensures TotalSize(Contents(job.refs)[..c + 1]) <= TotalSize(Contents(job.refs))
  {
    SizeSnoc(Contents(job.refs), c);
    PrefixSize(Contents(job.refs), c + 1);
  }

  /** The first taken of flat are the ones below c. */
  predicate Below(flat: seq<nat>, taken: nat, c: nat) {
    && taken <= |flat|
    && (forall j :: 0 <= j < taken ==> flat[j] < c)
    && (forall j :: taken <= j < |flat| ==> flat[j] >= c)
  }

  lemma NextBelow(flat: seq<nat>, taken: nat, c: nat)
    requires Increasing(flat) && Below(flat, taken, c)
    ensures c in flat ==> taken < |flat| && flat[taken] == c && Below(flat, taken + 1, c + 1)
    ensures c !in flat ==> Below(flat, taken, c + 1)
  {
    if c in flat {
      var j :| 0 <= j < |flat| && flat[j] == c;
      assert j >= taken;
      assert flat[taken] >= c;
    }
  }

  /** decoyOf says which decoy each chunk of one is in. */
  ghost predicate DecoysFound(decoys: seq<seq<nat>>, decoyOf: map<nat, nat>) {
    && (forall c :: c in decoyOf <==> c in Flatten(decoys))
    && (forall c :: c in decoyOf ==> exists i :: IsAt(decoys, decoyOf[c], i, c))
  }

  /** Which decoy each decoyed chunk is in. */
  method DecoyOf(decoys: seq<seq<nat>>) returns (decoyOf: map<nat, nat>)
    requires Increasing(Flatten(decoys))
    ensures DecoysFound(decoys, decoyOf)
  {
    decoyOf := map[];
    for d := 0 to |decoys|
      invariant forall c :: c in decoyOf <==> c in Flatten(decoys[..d])
      invariant forall c :: c in decoyOf ==> exists i :: IsAt(decoys, decoyOf[c], i, c)
    {
      ghost var had := decoyOf;
      for i := 0 to |decoys[d]|
        invariant forall c :: c in decoyOf <==> c in had || c in decoys[d][..i]
        invariant forall c :: c in decoyOf ==> exists i :: IsAt(decoys, decoyOf[c], i, c)
      {
        TakeNext(decoys[d], i);
        decoyOf := decoyOf[decoys[d][i] := d];
        assert IsAt(decoys, d, i, decoys[d][i]);
      }
      assert decoys[d][..|decoys[d]|] == decoys[d];
      TakeNext(decoys, d);
      FlattenSnoc(decoys[..d], decoys[d]);
    }
    assert decoys[..|decoys|] == decoys;
  }

  /** Reads, checks and encodes chunk c. */
  method Prepare(job: Job, c: nat, at: nat) returns (stored: Option<seq<byte>>)
    requires Valid(job) && c < |job.refs| && at == job.refs[c].pos && at + job.refs[c].chunk.size <= |job.staged|
    ensures stored.Some? <==> Unchanged(job, c)
    ensures stored.Some? ==> Ready(job, c, stored.value)
  {
    var ref := job.refs[c].chunk;
    var raw := job.staged[at..at + ref.size];
    if job.k.hash(raw) != ref.hash { return None; }
    var enc := AppendChunk(job.k.p, [], raw, ref.hash, job.k.keys, job.nonces(c));
    assert enc == Encode(job.k.p, raw, ref.hash, job.k.keys, job.nonces(c));
    EncodedLength(job.k.p, raw, ref.hash, job.k.keys, job.nonces(c));
    WrittenIsSound(job.k, raw, ref.hash, job.nonces(c), RowFor(job, c, 0, |enc|));
    return Some(enc);
  }

  function RouteOf(p: CommitPlan, decoyOf: map<nat, nat>, c: nat): Route
    requires p.routes == [] || c < |p.routes|
  {
    if p.routes != [] then p.routes[c] else if c in decoyOf then Decoy else Reuse
  }

  /** A chunk's route says which groups it is in. */
  lemma RouteSays(job: Job, p: CommitPlan, decoyOf: map<nat, nat>, c: nat)
    requires Carryable(job, p) && c < |job.refs|
    requires DecoysFound(p.decoys, decoyOf)
    ensures c in Flatten(GroupsOf(p.xorbs)) <==> RouteOf(p, decoyOf, c) == New
    ensures c in Flatten(p.decoys) <==> RouteOf(p, decoyOf, c) == Decoy
    ensures RouteOf(p, decoyOf, c) == New ==>
      c < |p.xorbOf| && c < |p.indexIn| && IsAt(GroupsOf(p.xorbs), p.xorbOf[c], p.indexIn[c], c)
  {
    if p.routes != [] {
      assert Routed(p.routes, New, Flatten(GroupsOf(p.xorbs)), |job.refs|);
      assert Routed(p.routes, Decoy, Flatten(p.decoys), |job.refs|);
    } else {
      assert GroupsOf(p.xorbs) == [];
    }
  }

  /** The groups are in order, within the content, and none is empty. */
  predicate Orderly(job: Job, groups: seq<seq<nat>>) {
    && Increasing(Flatten(groups)) && NonEmpty(groups)
    && forall g :: 0 <= g < |groups| ==> Indexes(groups[g], |job.refs|)
  }

  lemma PlanIsOrderly(job: Job, p: CommitPlan)
    requires Carryable(job, p)
    ensures Orderly(job, GroupsOf(p.xorbs)) && Orderly(job, p.decoys)
  {
    var overhead := Overhead(job.k.keys);
    if p.routes == [] {
      assert GroupsOf(p.xorbs) == [];
      assert AllFit(job.refs, p.decoys, overhead);
      forall g | 0 <= g < |p.decoys| ensures p.decoys[g] != [] && Indexes(p.decoys[g], |job.refs|) {
        assert Fits(job.refs, p.decoys[g], overhead);
      }
    } else {
      FitIsOrderly(job, GroupsOf(p.xorbs));
      FitIsOrderly(job, p.decoys);
    }
  }

  lemma FitIsOrderly(job: Job, groups: seq<seq<nat>>)
    requires Increasing(Flatten(groups)) && AllFit(job.refs, groups, Overhead(job.k.keys))
    ensures Orderly(job, groups)
  {
    forall g | 0 <= g < |groups| ensures groups[g] != [] && Indexes(groups[g], |job.refs|) {
      assert Fits(job.refs, groups[g], Overhead(job.k.keys));
    }
  }

  /** Of the chunks below c, the groups' are in the filler, and no others. */
  ghost predicate Upto(job: Job, groups: seq<seq<nat>>, f: Filler, c: nat) {
    exists taken: nat :: Filled(job, groups, f, taken) && Below(Flatten(groups), taken, c)
  }

  lemma SkipChunk(job: Job, groups: seq<seq<nat>>, f: Filler, c: nat)
    requires Orderly(job, groups) && Upto(job, groups, f, c) && c !in Flatten(groups)
    ensures Upto(job, groups, f, c + 1)
  {
    var taken: nat :| Filled(job, groups, f, taken) && Below(Flatten(groups), taken, c);
    NextBelow(Flatten(groups), taken, c);
  }

  method TakeChunk(job: Job, ghost groups: seq<seq<nat>>, f: Filler, x: nat, ghost i: nat, c: nat, stored: seq<byte>)
    returns (r: Filler)
    requires Orderly(job, groups) && Upto(job, groups, f, c)
    requires IsAt(groups, x, i, c) && Ready(job, c, stored)
    ensures Upto(job, groups, r, c + 1)
  {
    ghost var taken: nat :| Filled(job, groups, f, taken) && Below(Flatten(groups), taken, c);
    FlattenHas(groups, c);
    NextBelow(Flatten(groups), taken, c);
    r := Put(job, groups, f, x, c, stored, i, taken);
  }

  /** What carrying a plan out came to. */
  datatype Outcome = Wrote(xorbs: seq<Sent>, decoys: seq<Sent>) | ShortRead | Changed

  const NOTHING := Filler(-1, [], [], [])

  lemma NothingTaken(job: Job, groups: seq<seq<nat>>)
    ensures Upto(job, groups, NOTHING, 0)
  {
    assert Filled(job, groups, NOTHING, 0) && Below(Flatten(groups), 0, 0);
  }

  lemma SomeLeft(flat: seq<nat>, taken: nat, n: nat)
    requires Below(flat, taken, n) && taken < |flat|
    ensures !Indexes(flat, n)
  {
    assert flat[taken] >= n;
  }

  lemma AllTaken(job: Job, groups: seq<seq<nat>>, f: Filler)
    requires Orderly(job, groups) && Upto(job, groups, f, |job.refs|)
    ensures Filled(job, groups, f, |Flatten(groups)|)
  {
    var flat := Flatten(groups);
    var taken: nat :| Filled(job, groups, f, taken) && Below(flat, taken, |job.refs|);
    if taken < |flat| {
      SomeLeft(flat, taken, |job.refs|);
    }
    FlatIndexes(job, groups);
  }

  lemma FlatIndexes(job: Job, groups: seq<seq<nat>>)
    requires Orderly(job, groups)
    ensures Indexes(Flatten(groups), |job.refs|)
  {
    var flat := Flatten(groups);
    forall k | 0 <= k < |flat| ensures flat[k] < |job.refs| {
      FlattenHas(groups, flat[k]);
      var x, i :| IsAt(groups, x, i, flat[k]);
    }
  }

  /** Puts chunk c, which is staged at at, where its route says. */
  method CarryChunk(job: Job, p: CommitPlan, decoyOf: map<nat, nat>, xorbs: Filler, decoys: Filler, c: nat, at: nat)
    returns (ok: bool, newXorbs: Filler, newDecoys: Filler)
    requires Valid(job) && Carryable(job, p) && Orderly(job, GroupsOf(p.xorbs)) && Orderly(job, p.decoys)
    requires DecoysFound(p.decoys, decoyOf)
    requires c < |job.refs| && at == job.refs[c].pos && at + job.refs[c].chunk.size <= |job.staged|
    requires Upto(job, GroupsOf(p.xorbs), xorbs, c) && Upto(job, p.decoys, decoys, c)
    ensures ok ==> Upto(job, GroupsOf(p.xorbs), newXorbs, c + 1) && Upto(job, p.decoys, newDecoys, c + 1)
    ensures !ok ==> IsWritten(p, c) && !Unchanged(job, c)
  {
    newXorbs, newDecoys := xorbs, decoys;
    var route := RouteOf(p, decoyOf, c);
    SkipsChunk(job, p, decoyOf, xorbs, decoys, c);
    if route == Reuse {
      return true, newXorbs, newDecoys;
    }
    var stored := Prepare(job, c, at);
    if stored.None? {
      return false, newXorbs, newDecoys;
    }
    if route == New {
      newXorbs := TakeChunk(job, GroupsOf(p.xorbs), xorbs, p.xorbOf[c], p.indexIn[c], c, stored.value);
    } else {
      ghost var i := PlaceInDecoy(job, p, decoyOf, c);
      newDecoys := TakeChunk(job, p.decoys, decoys, decoyOf[c], i, c, stored.value);
    }
    ok := true;
  }

  /** What does not go on a chunk's way is up to the next one already. */
  lemma SkipsChunk(job: Job, p: CommitPlan, decoyOf: map<nat, nat>, xorbs: Filler, decoys: Filler, c: nat)
    requires Carryable(job, p) && Orderly(job, GroupsOf(p.xorbs)) && Orderly(job, p.decoys)
    requires DecoysFound(p.decoys, decoyOf) && c < |job.refs|
    requires Upto(job, GroupsOf(p.xorbs), xorbs, c) && Upto(job, p.decoys, decoys, c)
    ensures var route := RouteOf(p, decoyOf, c);
      && (route != New ==> Upto(job, GroupsOf(p.xorbs), xorbs, c + 1))
      && (route != Decoy ==> Upto(job, p.decoys, decoys, c + 1)) && (route != Reuse ==> IsWritten(p, c))
      && (route == New ==>
            c < |p.xorbOf| && c < |p.indexIn| && IsAt(GroupsOf(p.xorbs), p.xorbOf[c], p.indexIn[c], c))
  {
    var route := RouteOf(p, decoyOf, c);
    RouteSays(job, p, decoyOf, c);
    if route != New {
      SkipChunk(job, GroupsOf(p.xorbs), xorbs, c);
    }
    if route != Decoy {
      SkipChunk(job, p.decoys, decoys, c);
    }
  }

  lemma PlaceInDecoy(job: Job, p: CommitPlan, decoyOf: map<nat, nat>, c: nat) returns (i: nat)
    requires Carryable(job, p) && DecoysFound(p.decoys, decoyOf) && c < |job.refs| && RouteOf(p, decoyOf, c) == Decoy
    ensures c in decoyOf && IsAt(p.decoys, decoyOf[c], i, c)
  {
    RouteSays(job, p, decoyOf, c);
    var k :| IsAt(p.decoys, decoyOf[c], k, c);
    i := k;
  }

  /** Each group was sent once, whole, in order. */
  predicate AllSent(job: Job, groups: seq<seq<nat>>, sent: seq<Sent>) {
    |sent| == |groups| && SentWhole(job, groups, sent)
  }

  /** Reads the staged content once, front to back, and writes every planned xorb
      and every decoy. */
  method CarryOut(job: Job, p: CommitPlan) returns (r: Outcome)
    requires Valid(job) && Carryable(job, p)
    ensures r.Wrote? ==> AllSent(job, GroupsOf(p.xorbs), r.xorbs) && AllSent(job, p.decoys, r.decoys)
    ensures !r.Wrote? ==> Stopped(job, p, r)
  {
    if p.xorbs == [] && p.decoys == [] {
      return Wrote([], []);
    }
    PlanIsOrderly(job, p);
    var failed, xorbs, decoys := Pass(job, p);
    if failed.Some? { return failed.value; }
    var sentXorbs := FinishAll(job, GroupsOf(p.xorbs), xorbs);
    var sentDecoys := FinishAll(job, p.decoys, decoys);
    return Wrote(sentXorbs, sentDecoys);
  }

  /** The first c chunks have been read, and put where they go. */
  ghost predicate Passed(job: Job, p: CommitPlan, xorbs: Filler, decoys: Filler, c: nat, at: nat)
    requires c <= |job.refs|
  {
    && at == TotalSize(Contents(job.refs)[..c]) <= |job.staged|
    && Upto(job, GroupsOf(p.xorbs), xorbs, c) && Upto(job, p.decoys, decoys, c)
  }

  /** Reads chunk c and puts it where it goes, or says why the pass has to stop. */
  method NextChunk(job: Job, p: CommitPlan, decoyOf: map<nat, nat>, xorbs: Filler, decoys: Filler, c: nat, at: nat)
    returns (failed: Option<Outcome>, newXorbs: Filler, newDecoys: Filler)
    requires Valid(job) && Carryable(job, p) && Orderly(job, GroupsOf(p.xorbs)) && Orderly(job, p.decoys)
    requires DecoysFound(p.decoys, decoyOf) && c < |job.refs| && Passed(job, p, xorbs, decoys, c, at)
    ensures failed.None? ==> Passed(job, p, newXorbs, newDecoys, c + 1, at + job.refs[c].chunk.size)
    ensures failed.Some? ==> Stopped(job, p, failed.value)
  {
    ChunkEnds(job, c);
    if at + job.refs[c].chunk.size > |job.staged| { return Some(ShortRead), xorbs, decoys; }
    var ok;
    ok, newXorbs, newDecoys := CarryChunk(job, p, decoyOf, xorbs, decoys, c, at);
    failed := if ok then None else Some(Changed);
  }

  /** Why a pass stops: the staged content is short, or not as it was hashed. */
  predicate Stopped(job: Job, p: CommitPlan, why: Outcome) {
    match why
    case Wrote(_, _) => false
    case ShortRead => |job.staged| < TotalSize(Contents(job.refs))
    case Changed => SomeChanged(job, p)
  }

  lemma StartPass(job: Job, p: CommitPlan)
    ensures Passed(job, p, NOTHING, NOTHING, 0, 0)
  {
    assert Contents(job.refs)[..0] == [];
    NothingTaken(job, GroupsOf(p.xorbs));
    NothingTaken(job, p.decoys);
  }

  /** The loop over the chunks: why it stopped early, or the two open objects. */
  method Pass(job: Job, p: CommitPlan) returns (failed: Option<Outcome>, xorbs: Filler, decoys: Filler)
    requires Valid(job) && Carryable(job, p) && Orderly(job, GroupsOf(p.xorbs)) && Orderly(job, p.decoys)
    ensures failed.None? ==> Upto(job, GroupsOf(p.xorbs), xorbs, |job.refs|) && Upto(job, p.decoys, decoys, |job.refs|)
    ensures failed.Some? ==> Stopped(job, p, failed.value)
  {
    var decoyOf := DecoyOf(p.decoys);
    xorbs, decoys, failed := NOTHING, NOTHING, None;
    StartPass(job, p);
    var at: nat := 0;
    for c := 0 to |job.refs|
      invariant failed.None? && Passed(job, p, xorbs, decoys, c, at)
    {
      failed, xorbs, decoys := NextChunk(job, p, decoyOf, xorbs, decoys, c, at);
      if failed.Some? { return; }
      at := at + job.refs[c].chunk.size;
    }
  }

  method FinishAll(job: Job, ghost groups: seq<seq<nat>>, f: Filler) returns (sent: seq<Sent>)
    requires Orderly(job, groups) && Upto(job, groups, f, |job.refs|)
    ensures AllSent(job, groups, sent)
  {
    AllTaken(job, groups, f);
    sent := Finish(job, groups, f);
  }

  lemma PrefixSize(chunks: seq<Chunk>, n: nat)
    requires n <= |chunks|
    ensures TotalSize(chunks[..n]) <= TotalSize(chunks)
  {
    assert chunks == chunks[..n] + chunks[n..];
    TotalSizeConcat(chunks[..n], chunks[n..]);
  }

  // ---------------------------------------------------------------------
  // What was written
  // ---------------------------------------------------------------------

  /** The chunks' hashes and sizes as rows, wherever they are stored. */
  function PlainRows(chunks: seq<Chunk>): (rows: seq<Row>)
    ensures |rows| == |chunks|
    ensures forall i :: 0 <= i < |chunks| ==> rows[i] == Row(chunks[i].hash, 0, 0, chunks[i].size)
  {
    seq(|chunks|, i requires 0 <= i < |chunks| => Row(chunks[i].hash, 0, 0, chunks[i].size))
  }

  /** The name planned for a xorb of these chunks, if their hashes parse. */
  method NameXorb(node: Merkle.NodeHash, chunks: seq<Chunk>) returns (name: Option<string>)
    ensures name.Some? && chunks != [] ==> Names(node, PlainRows(chunks), name.value)
    ensures name.None? ==> exists i :: 0 <= i < |chunks| && !(|chunks[i].hash| == 64 && Merkle.IsHex(chunks[i].hash))
  {
    var rows := PlainRows(chunks);
    var nodes: seq<Merkle.HashedSize> := [];
    for i := 0 to |chunks|
      invariant NodesOf(rows[..i], nodes)
    {
      var node := ParseNode(rows[i]);
      if node.None? { return None; }
      MoreNodes(rows, nodes, i, node.value);
      nodes := nodes + [node.value];
    }
    assert rows[..|rows|] == rows;
    var root := Merkle.XorbHash(node, nodes);
    var hex := Merkle.WriteXetHex(root);
    return Some(hex);
  }

  lemma SameNames(node: Merkle.NodeHash, a: seq<Row>, b: seq<Row>, name: string)
    requires |a| == |b| && Names(node, a, name)
    requires forall i :: 0 <= i < |a| ==> a[i].hash == b[i].hash && a[i].size == b[i].size
    ensures Names(node, b, name)
  {
    var nodes: seq<Merkle.HashedSize> :|
      NodesOf(a, nodes) && nodes != [] && name == Merkle.XetHex(Merkle.Root(node, nodes));
    assert NodesOf(b, nodes);
  }

  /** A xorb that was written passes the check of a whole xorb under its planned
      name, and fits both bounds on a xorb. */
  lemma WrittenXorbPasses(job: Job, group: seq<nat>, rows: seq<Row>, b: seq<byte>, name: string)
    requires Valid(job) && Stores(job, group, |group|, rows, b) && Fits(job.refs, group, Overhead(job.k.keys))
    requires Names(job.k.node, PlainRows(ChunksAt(job.refs, group)), name)
    ensures SoundXorb(job.k, rows, b, |b|, name)
    ensures |b| <= 67108864 && 0 < |rows| <= 8192
  {
    SameNames(job.k.node, PlainRows(ChunksAt(job.refs, group)), rows, name);
    SerialisedPasses(job.k, rows, b, name);
    GroupFits(job.refs, group, Overhead(job.k.keys));
    assert group[..|group|] == group;
  }
}
