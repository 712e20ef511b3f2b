/** Reading a range of a chunked blob, term by term, while compaction moves its
    terms and sweeps take old xorbs, over a backend that may lose or corrupt bytes. */
module Reader {
  import opened Arith
  import opened Bytes
  import opened Fetch
  import opened Terms
  import opened Wrappers
  import opened XorbFile

  const READ_GROUP := 8388608
  const TERM_PAGE := 256
  const MAX_REREADS := 3

  // ---------------------------------------------------------------------
  // The content
  // ---------------------------------------------------------------------

  function BytesOf(orig: Originals, chunks: seq<Chunk>): seq<byte> {
    if chunks == [] then [] else orig(chunks[0].hash) + BytesOf(orig, chunks[1..])
  }

  /** Each chunk's hash stands for its bytes, and for no others. */
  ghost predicate Known(k: Checks, orig: Originals, chunks: seq<Chunk>) {
    forall i :: 0 <= i < |chunks| ==> KnownChunk(k, orig, chunks[i])
  }

  ghost predicate KnownChunk(k: Checks, orig: Originals, c: Chunk) {
    && 0 < c.size == |orig(c.hash)|
    && forall raw :: k.hash(raw) == c.hash ==> raw == orig(c.hash)
  }

  lemma {:induction false} BytesOfConcat(orig: Originals, a: seq<Chunk>, b: seq<Chunk>)
    ensures BytesOf(orig, a + b) == BytesOf(orig, a) + BytesOf(orig, b)
  {
    if a == [] {
      assert a + b == b;
    } else {
      assert (a + b)[1..] == a[1..] + b;
      BytesOfConcat(orig, a[1..], b);
      AppendAssoc(orig(a[0].hash), BytesOf(orig, a[1..]), BytesOf(orig, b));
    }
  }

  lemma {:induction false} BytesOfSize(k: Checks, orig: Originals, chunks: seq<Chunk>)
    requires Known(k, orig, chunks)
    ensures |BytesOf(orig, chunks)| == TotalSize(chunks)
    ensures TotalSize(chunks) == 0 ==> chunks == []
  {
    if chunks != [] {
      assert KnownChunk(k, orig, chunks[0]);
      BytesOfSize(k, orig, chunks[1..]);
    }
  }

  /** all[at..] starts with part. */
  predicate SitsIn(all: seq<byte>, at: int, part: seq<byte>) {
    0 <= at && at + |part| <= |all| && all[at..at + |part|] == part
  }

  lemma MiddleSits(a: seq<byte>, b: seq<byte>, c: seq<byte>)
    ensures SitsIn(a + b + c, |a|, b)
  {
  }

  lemma SitsWithin(all: seq<byte>, at: int, outer: seq<byte>, i: int, inner: seq<byte>)
    requires SitsIn(all, at, outer) && SitsIn(outer, i, inner)
    ensures SitsIn(all, at + i, inner)
  {
    SliceOfSlice(all, at, at + |outer|, at + i, at + i + |inner|);
  }

  /** Chunk j of a run sits where the sizes before it say. */
  lemma ChunkSits(k: Checks, orig: Originals, chunks: seq<Chunk>, j: nat)
    requires Known(k, orig, chunks) && j < |chunks|
    ensures SitsIn(BytesOf(orig, chunks), TotalSize(chunks[..j]), orig(chunks[j].hash))
    ensures TotalSize(chunks[..j + 1]) == TotalSize(chunks[..j]) + chunks[j].size
  {
    SizeSnoc(chunks, j);
    KnownPrefix(k, orig, chunks, j);
    BytesOfSize(k, orig, chunks[..j]);
    AroundAt(chunks, j);
    BytesAround(orig, chunks[..j], chunks[j], chunks[j + 1..]);
  }

  lemma KnownPrefix(k: Checks, orig: Originals, chunks: seq<Chunk>, j: nat)
    requires Known(k, orig, chunks) && j <= |chunks|
    ensures Known(k, orig, chunks[..j])
  {
    forall i | 0 <= i < j ensures KnownChunk(k, orig, chunks[..j][i]) {
      assert KnownChunk(k, orig, chunks[i]);
    }
  }

  lemma BytesAround(orig: Originals, front: seq<Chunk>, c: Chunk, rest: seq<Chunk>)
    ensures SitsIn(BytesOf(orig, front + ([c] + rest)), |BytesOf(orig, front)|, orig(c.hash))
  {
    BytesOfConcat(orig, front, [c] + rest);
    assert ([c] + rest)[1..] == rest;
    AppendAssoc(BytesOf(orig, front), orig(c.hash), BytesOf(orig, rest));
    MiddleSits(BytesOf(orig, front), orig(c.hash), BytesOf(orig, rest));
  }

  /** A term of the blob: its run of chunks sits at its position in the content. */
  ghost predicate TermFits(k: Checks, orig: Originals, all: seq<byte>, t: Term) {
    && Terms.Sound(t) && Known(k, orig, Slice(t)) && t.size > 0
    && SitsIn(all, t.pos, BytesOf(orig, Slice(t)))
    && |BytesOf(orig, Slice(t))| == t.size
  }

  /** Every term of a list that stands for the content fits it. */
  lemma TermsFit(k: Checks, orig: Originals, content: seq<Chunk>, terms: seq<Term>, i: nat)
    requires Known(k, orig, content) && Denotes(terms, content) && i < |terms|
    ensures TermFits(k, orig, BytesOf(orig, content), terms[i])
    ensures terms[i].pos == TotalSize(Denote(terms[..i]))
  {
    var t, front := terms[i], Denote(terms[..i]);
    TilesSplit(terms, 0, i);
    TilesHead(terms[i..], TotalSize(front));
    var rest := Denote(terms[i..][1..]);
    assert content == front + (Slice(t) + rest);
    assert forall j :: 0 <= j < |Slice(t)| ==> Slice(t)[j] == content[|front| + j];
    assert forall j :: 0 <= j < |front| ==> front[j] == content[j];
    BytesOfConcat(orig, front, Slice(t) + rest);
    BytesOfConcat(orig, Slice(t), rest);
    BytesOfSize(k, orig, front);
    BytesOfSize(k, orig, Slice(t));
    AppendAssoc(BytesOf(orig, front), BytesOf(orig, Slice(t)), BytesOf(orig, rest));
    MiddleSits(BytesOf(orig, front), BytesOf(orig, Slice(t)), BytesOf(orig, rest));
  }

  // ---------------------------------------------------------------------
  // Pages of terms
  // ---------------------------------------------------------------------

  /** The terms from the last that starts at or before from, if any does. */
  function SkipTo(terms: seq<Term>, from: int): seq<Term> {
    if |terms| >= 2 && terms[1].pos <= from then SkipTo(terms[1..], from) else terms
  }

  function TakeBelow(terms: seq<Term>, stop: int, limit: nat): seq<Term> {
    if terms == [] || limit == 0 || terms[0].pos >= stop then []
    else [terms[0]] + TakeBelow(terms[1..], stop, limit - 1)
  }

  /** What looking up a blob's terms for the range [from, stop) returns. */
  function Page(terms: seq<Term>, from: int, stop: int, limit: nat): seq<Term> {
    TakeBelow(SkipTo(terms, from), stop, limit)
  }

  /** Each term starts where the one before it ends, and none is empty. */
  predicate Chain(terms: seq<Term>) {
    && (forall i :: 0 <= i < |terms| ==> terms[i].size > 0)
    && (forall i :: 0 < i < |terms| ==> terms[i].pos == terms[i - 1].pos + terms[i - 1].size)
  }

  predicate AllIn(page: seq<Term>, terms: seq<Term>) {
    forall i :: 0 <= i < |page| ==> page[i] in terms
  }

  lemma {:induction false} SkipKeeps(terms: seq<Term>, from: int)
    ensures AllIn(SkipTo(terms, from), terms)
    ensures Chain(terms) ==> Chain(SkipTo(terms, from))
  {
    if |terms| >= 2 && terms[1].pos <= from {
      SkipKeeps(terms[1..], from);
      assert Chain(terms) ==> Chain(terms[1..]) by {
        assert forall i :: 0 <= i < |terms| - 1 ==> terms[1..][i] == terms[i + 1];
      }
      forall i | 0 <= i < |SkipTo(terms, from)| ensures SkipTo(terms, from)[i] in terms {
        assert SkipTo(terms, from)[i] in terms[1..];
      }
    }
  }

  lemma {:induction false} TakeKeeps(terms: seq<Term>, stop: int, limit: nat)
    ensures |TakeBelow(terms, stop, limit)| <= |terms|
    ensures TakeBelow(terms, stop, limit) == terms[..|TakeBelow(terms, stop, limit)|]
  {
    if !(terms == [] || limit == 0 || terms[0].pos >= stop) {
      TakeKeeps(terms[1..], stop, limit - 1);
      var n := |TakeBelow(terms[1..], stop, limit - 1)|;
      assert terms[..n + 1] == [terms[0]] + terms[1..][..n];
    }
  }

  /** A page holds only terms of the list it was read from, in its order. */
  lemma PageFromList(terms: seq<Term>, from: int, stop: int, limit: nat)
    ensures AllIn(Page(terms, from, stop, limit), terms)
    ensures Chain(terms) ==> Chain(Page(terms, from, stop, limit))
  {
    SkipKeeps(terms, from);
    TakeKeeps(SkipTo(terms, from), stop, limit);
  }

  function EndOf(terms: seq<Term>): int
    requires terms != []
  {
    terms[|terms| - 1].pos + terms[|terms| - 1].size
  }

  lemma {:induction false} SkipFinds(terms: seq<Term>, from: int)
    requires terms != [] && Chain(terms) && terms[0].pos <= from < EndOf(terms)
    ensures SkipTo(terms, from) != []
    ensures SkipTo(terms, from)[0].pos <= from < SkipTo(terms, from)[0].pos + SkipTo(terms, from)[0].size
  {
    if |terms| >= 2 && terms[1].pos <= from {
      assert forall i :: 0 <= i < |terms| - 1 ==> terms[1..][i] == terms[i + 1];
      SkipFinds(terms[1..], from);
    }
  }

  /** A page read from terms that stand for the content starts with the term that
      covers its first position. */
  lemma PageCovers(k: Checks, orig: Originals, content: seq<Chunk>, terms: seq<Term>, from: int, stop: int)
    requires Known(k, orig, content) && Denotes(terms, content)
    requires 0 <= from < stop <= TotalSize(content)
    ensures var page := Page(terms, from, stop, TERM_PAGE);
      page != [] && Chain(page) && page[0].pos <= from < page[0].pos + page[0].size
  {
    ListIsChain(k, orig, content, terms);
    if terms == [] {
      assert false;
    }
    SkipFinds(terms, from);
    PageFromList(terms, from, stop, TERM_PAGE);
  }

  lemma ListIsChain(k: Checks, orig: Originals, content: seq<Chunk>, terms: seq<Term>)
    requires Known(k, orig, content) && Denotes(terms, content)
    ensures Chain(terms)
    ensures terms != [] ==> terms[0].pos == 0 && EndOf(terms) == TotalSize(content)
  {
    forall i | 0 <= i < |terms|
      ensures terms[i].size > 0
      ensures i > 0 ==> terms[i].pos == terms[i - 1].pos + terms[i - 1].size
    {
      ChainLink(k, orig, content, terms, i);
    }
    if terms != [] {
      var n := |terms| - 1;
      ChainLink(k, orig, content, terms, n);
      ChainLink(k, orig, content, terms, 0);
      assert terms[..n + 1] == terms;
    }
  }

  lemma ChainLink(k: Checks, orig: Originals, content: seq<Chunk>, terms: seq<Term>, i: nat)
    requires Known(k, orig, content) && Denotes(terms, content) && i < |terms|
    ensures terms[i].size > 0 && (i == 0 ==> terms[i].pos == 0)
    ensures i > 0 ==> terms[i].pos == terms[i - 1].pos + terms[i - 1].size
    ensures terms[i].pos + terms[i].size == TotalSize(Denote(terms[..i + 1]))
  {
    TermsFit(k, orig, content, terms, i);
    NextPos(terms, i);
    if i > 0 {
      NextPos(terms, i - 1);
      TileAt(terms, 0, i - 1);
    }
  }

  lemma NextPos(terms: seq<Term>, i: nat)
    requires i < |terms| && Tiles(terms, 0)
    ensures TotalSize(Denote(terms[..i + 1])) == TotalSize(Denote(terms[..i])) + terms[i].size
  {
    TakeNext(terms, i);
    DenoteConcat(terms[..i], [terms[i]]);
    TotalSizeConcat(Denote(terms[..i]), Denote([terms[i]]));
    DenoteOne(terms[i]);
    TileAt(terms, 0, i);
  }

  // ---------------------------------------------------------------------
  // What is assumed of the database, and when nothing goes wrong
  // ---------------------------------------------------------------------

  predicate RowsMatch(rows: seq<Row>, chunks: seq<Chunk>) {
    && |rows| == |chunks|
    && forall i :: 0 <= i < |rows| ==> rows[i].hash == chunks[i].hash && rows[i].size == chunks[i].size
  }

  /** The blob's terms stand for its content, or are gone; a xorb's rows are of its
      chunks, or are gone. Where the rows say the chunks are, and what the backend
      returns, is not assumed. */
  ghost predicate Consistent(content: seq<Chunk>, s: Snapshot) {
    && (s.terms.Some? && s.terms.value != [] ==> Denotes(s.terms.value, content))
    && (forall x :: s.rows(x).Some? && s.rows(x).value != [] ==> RowsMatch(s.rows(x).value, x.chunks))
  }

  ghost predicate AlwaysConsistent(content: seq<Chunk>, w: World) {
    forall t: nat :: Consistent(content, w(t))
  }

  /** A xorb's rows, and what the backend has of its bytes as time goes on. */
  datatype File = File(rows: seq<Row>, bytes: nat -> Option<seq<byte>>)

  /** Whatever happens to the xorb's bytes, each of its chunks is sound there or in
      another xorb. */
  ghost predicate Readable(k: Checks, w: World, x: Xorb, f: File) {
    && |f.rows| == |x.chunks|
    && (forall t: nat :: Keeps(w(t), x, f.bytes(t)))
    && (forall t: nat, row :: row in f.rows ==> Obtainable(k, w, t, x, f.bytes(t), row))
  }

  /** The files of the blob's xorbs, and how many times by then a xorb was collected
      that terms read before named. */
  datatype Story = Story(files: Xorb -> File, sweeps: nat -> nat)

  /** A xorb that terms read at t named: it can be read, and its rows are there until
      the next sweep, and there or gone after it. */
  ghost predicate Named(k: Checks, w: World, st: Story, t: nat, x: Xorb) {
    && Readable(k, w, x, st.files(x))
    && forall u: nat :: t <= u ==>
         || w(u).rows(x) == Some(st.files(x).rows)
         || (w(u).rows(x) == Some([]) && st.sweeps(u) > st.sweeps(t))
  }

  ghost predicate HealthyAt(k: Checks, w: World, st: Story, t: nat) {
    && w(t).terms.Some? && w(t).terms.value != []
    && forall i :: 0 <= i < |w(t).terms.value| ==> Named(k, w, st, t, w(t).terms.value[i].xorb)
  }

  /** The blob stays and each of its chunks can be read somewhere, while its terms move
      from xorb to xorb; and no more than 3 times in the read are xorbs collected that
      terms read before named. */
  ghost predicate Healthy(k: Checks, w: World, st: Story) {
    && (forall t: nat, u: nat :: t <= u ==> st.sweeps(t) <= st.sweeps(u) <= st.sweeps(0) + 3)
    && (forall t: nat :: HealthyAt(k, w, st, t))
  }

  // ---------------------------------------------------------------------
  // The walk
  // ---------------------------------------------------------------------

  /** all[from..stop], as much of it as there is. */
  function Part(all: seq<byte>, from: int, stop: int): seq<byte>
    requires 0 <= from <= stop
  {
    all[Min(from, |all|)..Min(stop, |all|)]
  }

  lemma PartSplit(all: seq<byte>, a: int, b: int, c: int)
    requires 0 <= a <= b <= c
    ensures Part(all, a, c) == Part(all, a, b) + Part(all, b, c)
  {
  }

  /** The bytes a queue of fetches serves: those before the first that was lost. */
  function Payload(queue: seq<Fetched>): seq<byte> {
    if queue == [] || queue[0].Lost? then [] else queue[0].bytes + Payload(queue[1..])
  }

  predicate SomeLost(queue: seq<Fetched>) {
    Lost in queue
  }

  lemma {:induction false} PayloadSnoc(queue: seq<Fetched>, f: Fetched)
    ensures Payload(queue + [f]) == Payload(queue) + if SomeLost(queue) || f.Lost? then [] else f.bytes
    ensures SomeLost(queue + [f]) <==> SomeLost(queue) || f.Lost?
  {
    if queue == [] {
      assert [f][1..] == [];
      assert queue + [f] == [f];
    } else {
      assert (queue + [f])[1..] == queue[1..] + [f];
      if queue[0].Data? {
        PayloadSnoc(queue[1..], f);
        assert SomeLost(queue) <==> SomeLost(queue[1..]);
      }
    }
  }

  /** Where a walk over the terms has got to: the fetches queued, the run of chunks
      being gathered and the xorb they are in, and the next position wanted. */
  datatype Walk = Walk(queue: seq<Fetched>, group: seq<Span>, xorb: Xorb, length: nat, pos: int, now: nat)

  /** What is queued and gathered is exactly the content from from to pos; once a
      fetch was lost, only what came before it counts. */
  ghost predicate Progress(orig: Originals, all: seq<byte>, from: int, stop: int, s: Walk)
    requires 0 <= from <= s.pos <= stop
  {
    if SomeLost(s.queue) then IsPrefix(Payload(s.queue), Part(all, from, stop))
    else Payload(s.queue) + WantedBytes(orig, s.group, |s.group|) == Part(all, from, s.pos)
  }

  /** What a range read is of, and what it runs against. */
  datatype Job = Job(k: Checks, w: World, from: int, stop: int)

  function Lengths(run: seq<Span>): nat {
    if run == [] then 0 else Lengths(run[..|run| - 1]) + run[|run| - 1].row.length
  }

  /** A run read in one request is within bounds, or of a single chunk. */
  predicate Bounded(s: Walk) {
    s.length == Lengths(s.group) && (s.length <= READ_GROUP || |s.group| <= 1)
  }

  ghost predicate Walking(job: Job, orig: Originals, all: seq<byte>, s: Walk) {
    && 0 <= job.from <= s.pos <= job.stop && (s.pos == job.from || s.pos <= |all|)
    && Honest(job.k) && IsRun(job.k, orig, s.group) && Bounded(s)
    && Progress(orig, all, job.from, job.stop, s)
  }

  /** The row is of a chunk that can be read, in the xorb or another. */
  ghost predicate RowStays(job: Job, files: Xorb -> File, xorb: Xorb, row: Row) {
    Readable(job.k, job.w, xorb, files(xorb)) && row in files(xorb).rows
  }

  /** Nothing was lost, and what is gathered will not be. */
  ghost predicate Fine(job: Job, files: Xorb -> File, s: Walk) {
    && !SomeLost(s.queue)
    && forall i :: 0 <= i < |s.group| ==> RowStays(job, files, s.xorb, s.group[i].row)
  }

  lemma QueueMore(orig: Originals, all: seq<byte>, from: int, stop: int, s: Walk, f: Fetched, after: Walk)
    requires 0 <= from <= s.pos <= stop && Progress(orig, all, from, stop, s)
    requires f.Data? ==> f.bytes == WantedBytes(orig, s.group, |s.group|)
    requires after.queue == s.queue + [f] && after.group == [] && after.pos == s.pos
    ensures Progress(orig, all, from, stop, after)
  {
    PayloadSnoc(s.queue, f);
    PartSplit(all, from, s.pos, stop);
    NothingWanted(orig, after.group);
  }

  lemma NothingWanted(orig: Originals, run: seq<Span>)
    ensures WantedBytes(orig, run, 0) == []
  {
  }

  lemma GroupObtained(job: Job, files: Xorb -> File, s: Walk)
    requires Fine(job, files, s) && s.group != [] && Contiguous(s.group)
    ensures Served(job.k, job.w, s.now, s.xorb, s.group)
  {
    var b := files(s.xorb).bytes(s.now);
    assert RowStays(job, files, s.xorb, s.group[0].row);
    forall i | 0 <= i < |s.group| ensures Obtainable(job.k, job.w, s.now, s.xorb, b, s.group[i].row) {
      assert RowStays(job, files, s.xorb, s.group[i].row);
    }
    RunObtained(job.k, job.w, s.now, s.xorb, b, s.group);
  }

  /** Queues the fetch of the run gathered so far. */
  method Flush(job: Job, ghost orig: Originals, ghost all: seq<byte>, ghost files: Xorb -> File, s: Walk)
    returns (r: Walk)
    requires Walking(job, orig, all, s)
    ensures Walking(job, orig, all, r) && r.group == [] && r.length == 0 && r.pos == s.pos && r.now >= s.now
    ensures Fine(job, files, s) ==> Fine(job, files, r)
  {
    if s.group == [] { return s; }
    var f, now := FetchRun(job.k, orig, job.w, s.now, s.xorb, s.group);
    if Fine(job, files, s) {
      GroupObtained(job, files, s);
    }
    r := s.(queue := s.queue + [f], group := [], length := 0, now := now);
    QueueMore(orig, all, job.from, job.stop, s, f, r);
    PayloadSnoc(s.queue, f);
  }

  /** Queues an error, which ends the walk. */
  method Fail(job: Job, ghost orig: Originals, ghost all: seq<byte>, s: Walk) returns (queue: seq<Fetched>)
    requires Walking(job, orig, all, s)
    ensures SomeLost(queue) && IsPrefix(Payload(queue), Part(all, job.from, job.stop))
  {
    queue := s.queue + [Lost];
    PayloadSnoc(s.queue, Lost);
    PartSplit(all, job.from, s.pos, job.stop);
  }

  /** A chunk gathered whole or in part brings the walk to the end of that part. */
  lemma GatherMore(orig: Originals, all: seq<byte>, from: int, stop: int, s: Walk, sp: Span, at: int, after: Walk)
    requires 0 <= from <= s.pos <= stop && Progress(orig, all, from, stop, s)
    requires SitsIn(all, at, orig(sp.row.hash))
    requires 0 <= sp.lo <= sp.hi <= |orig(sp.row.hash)| && s.pos == at + sp.lo && at + sp.hi <= stop
    requires after.queue == s.queue && after.group == s.group + [sp] && after.pos == at + sp.hi
    ensures Progress(orig, all, from, stop, after)
  {
    if !SomeLost(s.queue) {
      var part := PartOf(orig(sp.row.hash), sp);
      PartSplit(all, from, s.pos, after.pos);
      assert Part(all, s.pos, after.pos) == part by {
        SitsPart(all, at, orig(sp.row.hash), sp.lo, sp.hi);
      }
      WantedPrefix(orig, s.group, after.group, |s.group|);
      WantedNext(orig, after.group, |s.group|);
      AppendAssoc(Payload(s.queue), WantedBytes(orig, s.group, |s.group|), part);
    }
  }

  lemma SitsPart(all: seq<byte>, at: int, part: seq<byte>, lo: int, hi: int)
    requires SitsIn(all, at, part) && 0 <= lo <= hi <= |part|
    ensures Part(all, at + lo, at + hi) == part[lo..hi]
  {
    SliceOfSlice(all, at, at + |part|, at + lo, at + hi);
  }

  /** Whether a chunk can join the run being gathered. */
  predicate Adjacent(s: Walk, xorb: Xorb, row: Row) {
    && s.group != [] && s.xorb == xorb
    && s.group[|s.group| - 1].row.offset + s.group[|s.group| - 1].row.length == row.offset
  }

  predicate HasRoom(s: Walk, xorb: Xorb, row: Row) {
    && s.group != [] && s.xorb == xorb
    && s.group[|s.group| - 1].row.offset + s.group[|s.group| - 1].row.length == row.offset
    && s.length + row.length <= 8 * 1024 * 1024
  }

  lemma LengthsMore(run: seq<Span>, sp: Span)
    ensures Lengths(run + [sp]) == Lengths(run) + sp.row.length
  {
    assert (run + [sp])[..|run|] == run;
  }

  lemma RunMore(k: Checks, orig: Originals, run: seq<Span>, sp: Span)
    requires IsRun(k, orig, run) && Wanted(k, orig, sp)
    requires run != [] ==> run[|run| - 1].row.offset + run[|run| - 1].row.length == sp.row.offset
    ensures IsRun(k, orig, run + [sp])
  {
  }

  /** Makes way for a chunk that cannot join the run being gathered. */
  method MakeRoom(job: Job, ghost orig: Originals, ghost all: seq<byte>, ghost files: Xorb -> File, s: Walk,
                  xorb: Xorb, row: Row)
    returns (r: Walk)
    requires Walking(job, orig, all, s)
    ensures Walking(job, orig, all, r) && r.xorb == xorb && r.pos == s.pos && r.now >= s.now
    ensures r.group == if HasRoom(s, xorb, row) then s.group else []
    ensures r.group != [] ==> HasRoom(r, xorb, row)
    ensures Fine(job, files, s) ==> Fine(job, files, r)
  {
    r := s;
    if !Adjacent(s, xorb, row) || s.length + row.length > READ_GROUP {
      r := Flush(job, orig, all, files, s);
      r := r.(xorb := xorb);
    }
  }

  lemma Gathers(job: Job, orig: Originals, all: seq<byte>, s: Walk, sp: Span, at: int, r: Walk)
    requires Walking(job, orig, all, s) && (s.group != [] ==> HasRoom(s, s.xorb, sp.row))
    requires SitsIn(all, at, orig(sp.row.hash)) && Wanted(job.k, orig, sp)
    requires s.pos == at + sp.lo && at + sp.hi <= job.stop
    requires r == s.(group := s.group + [sp], length := s.length + sp.row.length, pos := at + sp.hi)
    ensures Walking(job, orig, all, r)
  {
    RunMore(job.k, orig, s.group, sp);
    LengthsMore(s.group, sp);
    GatherMore(orig, all, job.from, job.stop, s, sp, at, r);
  }

  lemma StillFine(job: Job, files: Xorb -> File, s: Walk, sp: Span, r: Walk)
    requires Fine(job, files, s) && r.queue == s.queue && r.group == s.group + [sp] && r.xorb == s.xorb
    requires RowStays(job, files, s.xorb, sp.row)
    ensures Fine(job, files, r)
  {
  }

  /** One chunk of a term, which starts at at: gathered if the range wants it. */
  method TakeRow(job: Job, ghost orig: Originals, ghost all: seq<byte>, ghost files: Xorb -> File, s: Walk,
                 xorb: Xorb, row: Row, at: int, ghost fine: bool)
    returns (r: Walk)
    requires Walking(job, orig, all, s) && (at <= s.pos || s.pos == job.stop)
    requires SitsIn(all, at, orig(row.hash)) && Binds(job.k, orig, row)
    requires fine ==> Fine(job, files, s) && RowStays(job, files, xorb, row)
    ensures Walking(job, orig, all, r) && r.pos == Max(s.pos, Min(job.stop, at + row.size)) && r.now >= s.now
    ensures fine ==> Fine(job, files, r)
  {
    var end := at + row.size;
    if end <= s.pos || at >= job.stop { return s; }
    var sp := Span(row, Max(s.pos, at) - at, Min(job.stop, end) - at);
    var room := MakeRoom(job, orig, all, files, s, xorb, row);
    r := room.(group := room.group + [sp], length := room.length + row.length, pos := Min(job.stop, end));
    Gathers(job, orig, all, room, sp, at, r);
    if fine {
      StillFine(job, files, room, sp, r);
    }
  }

  // ---------------------------------------------------------------------
  // One term
  // ---------------------------------------------------------------------

  datatype Step = Took | Stale | Broken

  /** The rows are those of the term's chunks. */
  predicate RowsOf(t: Term, rows: seq<Row>) {
    RowsMatch(rows, Slice(t))
  }

  lemma ClippedRows(content: seq<Chunk>, s: Snapshot, t: Term)
    requires Consistent(content, s) && Terms.Sound(t) && s.rows(t.xorb).Some?
    requires |Clip(s.rows(t.xorb).value, t.start, t.end)| == t.end - t.start
    ensures RowsOf(t, Clip(s.rows(t.xorb).value, t.start, t.end))
  {
    var rows := s.rows(t.xorb).value;
    assert rows != [];
    assert RowsMatch(rows, t.xorb.chunks);
    assert Clip(rows, t.start, t.end) == rows[t.start..t.end];
  }

  /** Row i of a term's rows: its chunk sits at at in the content, and the next one at end. */
  ghost predicate RowAt(k: Checks, orig: Originals, all: seq<byte>, row: Row, at: int, end: int) {
    SitsIn(all, at, orig(row.hash)) && Binds(k, orig, row) && end == at + row.size
  }

  lemma RowSits(k: Checks, orig: Originals, all: seq<byte>, t: Term, rows: seq<Row>, i: nat)
    requires TermFits(k, orig, all, t) && RowsOf(t, rows) && i < |rows|
    ensures RowAt(k, orig, all, rows[i], t.pos + TotalSize(Slice(t)[..i]), t.pos + TotalSize(Slice(t)[..i + 1]))
  {
    var at := TotalSize(Slice(t)[..i]);
    assert KnownChunk(k, orig, Slice(t)[i]);
    ChunkSits(k, orig, Slice(t), i);
    SitsWithin(all, t.pos, BytesOf(orig, Slice(t)), at, orig(Slice(t)[i].hash));
  }

  /** A walk that was at from has gathered a term's chunks as far as at. */
  predicate Reached(from: int, stop: int, pos: int, at: int) {
    from <= stop && pos == Max(from, Min(stop, at)) && (at <= pos || pos == stop)
  }

  lemma ReachesOn(from: int, stop: int, before: int, at: int, size: nat)
    requires Reached(from, stop, before, at)
    ensures Reached(from, stop, Max(before, Min(stop, at + size)), at + size)
  {
  }

  method NextRow(job: Job, ghost orig: Originals, ghost all: seq<byte>, ghost files: Xorb -> File, ghost from: int,
                 s: Walk, xorb: Xorb, row: Row, at: int, ghost end: int, ghost fine: bool)
    returns (r: Walk, next: int)
    requires RowAt(job.k, orig, all, row, at, end)
    requires Walking(job, orig, all, s) && Reached(from, job.stop, s.pos, at)
    requires fine ==> Fine(job, files, s) && RowStays(job, files, xorb, row)
    ensures Walking(job, orig, all, r) && Reached(from, job.stop, r.pos, next) && next == end
    ensures r.now >= s.now && (fine ==> Fine(job, files, r))
  {
    ReachesOn(from, job.stop, s.pos, at, row.size);
    r := TakeRow(job, orig, all, files, s, xorb, row, at, fine);
    next := at + row.size;
  }

  /** Where each of a term's chunks ends in the content, the last at the term's own end. */
  function Ends(t: Term): (r: seq<int>)
    requires Terms.Sound(t)
    ensures |r| == |Slice(t)| + 1 && r[0] == t.pos
  {
    assert Slice(t)[..0] == [];
    seq(|Slice(t)| + 1, i requires 0 <= i <= |Slice(t)| => t.pos + TotalSize(Slice(t)[..i]))
  }

  ghost predicate RowsAt(k: Checks, orig: Originals, all: seq<byte>, rows: seq<Row>, ends: seq<int>) {
    |ends| == |rows| + 1 && forall i :: 0 <= i < |rows| ==> RowAt(k, orig, all, rows[i], ends[i], ends[i + 1])
  }

  lemma RowsSit(k: Checks, orig: Originals, all: seq<byte>, t: Term, rows: seq<Row>)
    requires TermFits(k, orig, all, t) && RowsOf(t, rows)
    ensures RowsAt(k, orig, all, rows, Ends(t)) && Ends(t)[|rows|] == t.pos + t.size
  {
    assert Slice(t)[..|rows|] == Slice(t);
    forall i | 0 <= i < |rows| ensures RowAt(k, orig, all, rows[i], Ends(t)[i], Ends(t)[i + 1]) {
      RowSits(k, orig, all, t, rows, i);
    }
  }

  /** Gathers the rows' chunks, the first of which starts at from. */
  method TakeRows(job: Job, ghost orig: Originals, ghost all: seq<byte>, ghost files: Xorb -> File, s: Walk, xorb: Xorb,
                  rows: seq<Row>, start: int, ghost ends: seq<int>, ghost fine: bool)
    returns (r: Walk)
    requires Walking(job, orig, all, s) && RowsAt(job.k, orig, all, rows, ends) && ends[0] == start <= s.pos
    requires fine ==> Fine(job, files, s) && AllStay(job, files, xorb, rows)
    ensures Walking(job, orig, all, r) && r.pos == Max(s.pos, Min(job.stop, ends[|rows|])) && r.now >= s.now
    ensures fine ==> Fine(job, files, r)
  {
    r := s;
    var at := start;
    for i := 0 to |rows|
      invariant at == ends[i] && Walking(job, orig, all, r) && Reached(s.pos, job.stop, r.pos, at) && r.now >= s.now
      invariant fine ==> Fine(job, files, r)
    {
      r, at := NextRow(job, orig, all, files, s.pos, r, xorb, rows[i], at, ends[i + 1], fine);
    }
  }

  ghost predicate AllStay(job: Job, files: Xorb -> File, xorb: Xorb, rows: seq<Row>) {
    forall i :: 0 <= i < |rows| ==> RowStays(job, files, xorb, rows[i])
  }

  method SumSizes(rows: seq<Row>, ghost chunks: seq<Chunk>) returns (total: int)
    requires RowsMatch(rows, chunks)
    ensures total == TotalSize(chunks)
  {
    total := 0;
    assert chunks[..0] == [];
    for i := 0 to |rows|
      invariant total == TotalSize(chunks[..i])
    {
      SizeSnoc(chunks, i);
      total := total + rows[i].size;
    }
    assert chunks[..|rows|] == chunks;
  }

  lemma RowsStay(job: Job, files: Xorb -> File, t: Term)
    requires Readable(job.k, job.w, t.xorb, files(t.xorb)) && Terms.Sound(t)
    ensures var rows := Clip(files(t.xorb).rows, t.start, t.end);
      |rows| == t.end - t.start && AllStay(job, files, t.xorb, rows)
  {
    var f := files(t.xorb);
    var rows := Clip(f.rows, t.start, t.end);
    assert rows == f.rows[t.start..t.end];
    forall i | 0 <= i < |rows| ensures RowStays(job, files, t.xorb, rows[i]) {
      assert rows[i] == f.rows[t.start + i];
    }
  }

  /** The xorb no longer has rows for all of the term's chunks. */
  predicate RowsGone(s: Snapshot, t: Term) {
    var rows := s.rows(t.xorb);
    rows.Some? && |Clip(rows.value, t.start, t.end)| != t.end - t.start
  }

  /** Looks up the rows of the term's chunks. */
  method TermRows(ghost content: seq<Chunk>, s: Snapshot, t: Term) returns (step: Step, rows: seq<Row>)
    requires Terms.Sound(t) && Consistent(content, s)
    ensures step == Stale <==> RowsGone(s, t)
    ensures step == Broken <==> s.rows(t.xorb).None?
    ensures step == Took ==> rows == Clip(s.rows(t.xorb).value, t.start, t.end) && RowsOf(t, rows)
  {
    var found := s.rows(t.xorb);
    if found.None? { return Broken, []; }
    rows := Clip(found.value, t.start, t.end);
    if |rows| != t.end - t.start { return Stale, []; }
    ClippedRows(content, s, t);
    var total := SumSizes(rows, Slice(t));
    if total != t.size { return Broken, []; }
    step := Took;
  }

  /** The xorb can be read, and its rows are there or gone. */
  ghost predicate ThereOrGone(job: Job, files: Xorb -> File, x: Xorb, now: nat) {
    && Readable(job.k, job.w, x, files(x))
    && (job.w(now).rows(x) == Some(files(x).rows) || job.w(now).rows(x) == Some([]))
  }

  /** Looks up the term's chunks and gathers those the range wants. Stale means the
      xorb no longer has them all. */
  method TakeTerm(job: Job, ghost orig: Originals, ghost content: seq<Chunk>, ghost files: Xorb -> File, s: Walk,
                  t: Term)
    returns (step: Step, r: Walk)
    requires Walking(job, orig, BytesOf(orig, content), s) && TermFits(job.k, orig, BytesOf(orig, content), t)
    requires Consistent(content, job.w(s.now))
    ensures Walking(job, orig, BytesOf(orig, content), r)
    ensures step == Took ==> t.pos <= s.pos && r.pos == Max(s.pos, Min(job.stop, t.pos + t.size))
    ensures step == Stale <==> t.pos <= s.pos && RowsGone(job.w(s.now), t)
    ensures step == Broken <==> t.pos > s.pos || job.w(s.now).rows(t.xorb).None?
    ensures step != Took ==> r.pos == s.pos && (Fine(job, files, s) ==> Fine(job, files, r))
    ensures step == Took || r.now <= s.now + 1
    ensures r.now >= s.now
    ensures Fine(job, files, s) && ThereOrGone(job, files, t.xorb, s.now) && t.pos <= s.pos ==>
      Fine(job, files, r) && (step == Took || (step == Stale && job.w(s.now).rows(t.xorb) == Some([])))
  {
    if t.pos > s.pos { return Broken, s; }
    var rows;
    step, rows := TermRows(content, job.w(s.now), t);
    r := s.(now := s.now + 1);
    ghost var fine := Fine(job, files, s) && ThereOrGone(job, files, t.xorb, s.now);
    if fine {
      RowsStay(job, files, t);
    }
    if step != Took { return; }
    RowsSit(job.k, orig, BytesOf(orig, content), t, rows);
    r := TakeRows(job, orig, BytesOf(orig, content), files, r, t.xorb, rows, t.pos, Ends(t), fine);
  }

  // ---------------------------------------------------------------------
  // Pages and the whole walk
  // ---------------------------------------------------------------------

  /** The page, read at t, covers the walk's position, and can be read. */
  ghost predicate GoodPage(job: Job, st: Story, t: nat, page: seq<Term>, pos: int) {
    && page != [] && Chain(page) && page[0].pos <= pos < page[0].pos + page[0].size
    && forall i :: 0 <= i < |page| ==> Named(job.k, job.w, st, t, page[i].xorb)
  }

  /** How a page, or a term of it, that was read at t is left: read on, or stale, and
      then only after another sweep. */
  ghost predicate WentWell(job: Job, st: Story, t: nat, from: int, step: Step, r: Walk) {
    && Fine(job, st.files, r) && r.now >= t
    && match step
       case Took => r.pos > from
       case Stale => st.sweeps(r.now) > st.sweeps(t)
       case Broken => false
  }

  /** Gathers what the page's terms hold of the range. */
  method TakePage(job: Job, ghost orig: Originals, ghost content: seq<Chunk>, ghost st: Story, s: Walk, page: seq<Term>,
                  ghost t: nat)
    returns (step: Step, r: Walk)
    requires Walking(job, orig, BytesOf(orig, content), s) && s.pos < job.stop && AlwaysConsistent(content, job.w)
    requires forall i :: 0 <= i < |page| ==> TermFits(job.k, orig, BytesOf(orig, content), page[i])
    requires t <= s.now
    ensures Walking(job, orig, BytesOf(orig, content), r) && r.pos >= s.pos
    ensures Calm(job, st) && Fine(job, st.files, s) && GoodPage(job, st, t, page, s.pos) ==>
      WentWell(job, st, t, s.pos, step, r)
  {
    r, step := s, Took;
    ghost var good := Calm(job, st) && Fine(job, st.files, s) && GoodPage(job, st, t, page, s.pos);
    for i := 0 to |page|
      invariant Walking(job, orig, BytesOf(orig, content), r) && s.pos <= r.pos < job.stop && r.now >= t
      invariant step == Took && (good ==> OnPage(job, st.files, page, s.pos, r, i))
    {
      step, r := NextTerm(job, orig, content, st, r, page, t, s.pos, i, good);
      if step != Took || r.pos >= job.stop { return; }
    }
  }

  /** Sweeps only add up. */
  ghost predicate Calm(job: Job, st: Story) {
    forall t: nat, u: nat :: t <= u ==> st.sweeps(t) <= st.sweeps(u)
  }

  /** The first i terms of a good page are done. */
  ghost predicate OnPage(job: Job, files: Xorb -> File, page: seq<Term>, from: int, r: Walk, i: nat)
    requires i <= |page|
  {
    && Fine(job, files, r)
    && if i == 0 then r.pos == from else r.pos > from && r.pos >= page[i - 1].pos + page[i - 1].size
  }

  method NextTerm(job: Job, ghost orig: Originals, ghost content: seq<Chunk>, ghost st: Story, s: Walk, page: seq<Term>,
                  ghost t: nat, ghost from: int, i: nat, ghost good: bool)
    returns (step: Step, r: Walk)
    requires Walking(job, orig, BytesOf(orig, content), s) && s.pos < job.stop && AlwaysConsistent(content, job.w)
    requires i < |page| && TermFits(job.k, orig, BytesOf(orig, content), page[i]) && t <= s.now
    requires good ==>
      Calm(job, st) && GoodPage(job, st, t, page, from) && OnPage(job, st.files, page, from, s, i)
    ensures Walking(job, orig, BytesOf(orig, content), r) && r.pos >= s.pos && r.now >= t
    ensures good ==> WentWell(job, st, t, from, step, r)
    ensures good && step == Took && r.pos < job.stop ==> OnPage(job, st.files, page, from, r, i + 1)
  {
    assert Consistent(content, job.w(s.now));
    if good {
      assert Named(job.k, job.w, st, t, page[i].xorb);
      assert ThereOrGone(job, st.files, page[i].xorb, s.now);
    }
    step, r := TakeTerm(job, orig, content, st.files, s, page[i]);
    if good && step == Stale {
      assert st.sweeps(s.now) <= st.sweeps(r.now);
    }
  }

  lemma PageFits(k: Checks, orig: Originals, content: seq<Chunk>, terms: seq<Term>, from: int, stop: int)
    requires Known(k, orig, content) && (terms == [] || Denotes(terms, content))
    ensures var page := Page(terms, from, stop, TERM_PAGE);
      forall i :: 0 <= i < |page| ==> TermFits(k, orig, BytesOf(orig, content), page[i])
  {
    PageFromList(terms, from, stop, TERM_PAGE);
    var page := Page(terms, from, stop, TERM_PAGE);
    forall i | 0 <= i < |page| ensures TermFits(k, orig, BytesOf(orig, content), page[i]) {
      var j :| 0 <= j < |terms| && terms[j] == page[i];
      TermsFit(k, orig, content, terms, j);
    }
  }

  lemma PageIsGood(job: Job, orig: Originals, content: seq<Chunk>, st: Story, now: nat, pos: int)
    requires Known(job.k, orig, content) && Consistent(content, job.w(now))
    requires HealthyAt(job.k, job.w, st, now)
    requires 0 <= pos < job.stop <= TotalSize(content)
    ensures GoodPage(job, st, now, Page(job.w(now).terms.value, pos, job.stop, TERM_PAGE), pos)
  {
    var terms := job.w(now).terms.value;
    var page := Page(terms, pos, job.stop, TERM_PAGE);
    PageCovers(job.k, orig, content, terms, pos, job.stop);
    PageFromList(terms, pos, job.stop, TERM_PAGE);
    forall i | 0 <= i < |page| ensures Named(job.k, job.w, st, now, page[i].xorb) {
      var j :| 0 <= j < |terms| && terms[j] == page[i];
    }
  }

  /** The range is of the content, and the blob can be read throughout. */
  ghost predicate CanRead(job: Job, content: seq<Chunk>, st: Story) {
    Healthy(job.k, job.w, st) && job.stop <= TotalSize(content)
  }

  /** Looks up a page and gathers from it. Broken ends the walk. */
  method NextPage(job: Job, ghost orig: Originals, ghost content: seq<Chunk>, ghost st: Story, s: Walk)
    returns (step: Step, r: Walk)
    requires Known(job.k, orig, content) && AlwaysConsistent(content, job.w)
    requires Walking(job, orig, BytesOf(orig, content), s) && s.pos < job.stop
    ensures Walking(job, orig, BytesOf(orig, content), r) && r.pos >= s.pos
    ensures Fine(job, st.files, s) && CanRead(job, content, st) ==> WentWell(job, st, s.now, s.pos, step, r)
  {
    assert Consistent(content, job.w(s.now));
    ghost var healthy := Fine(job, st.files, s) && CanRead(job, content, st);
    if healthy {
      assert HealthyAt(job.k, job.w, st, s.now);
      PageIsGood(job, orig, content, st, s.now, s.pos);
      assert Calm(job, st);
    }
    var found := job.w(s.now).terms;
    r := s.(now := s.now + 1);
    if found.None? { return Broken, r; }
    var page := Page(found.value, s.pos, job.stop, TERM_PAGE);
    if |page| == 0 || page[0].pos > s.pos { return Broken, r; }
    PageFits(job.k, orig, content, found.value, s.pos, job.stop);
    step, r := TakePage(job, orig, content, st, r, page, s.now);
  }

  /** Queues a fetch for every run of chunks that overlaps the range, in order. What
      is served before the first lost fetch is a prefix of the range; with none lost
      it is the whole range; and none is lost while the blob can be read, though terms
      move and the xorbs they left are collected, up to 3 times, under the read. */
  method Produce(job: Job, ghost orig: Originals, ghost content: seq<Chunk>, ghost st: Story, t: nat)
    returns (queue: seq<Fetched>)
    requires Honest(job.k) && Known(job.k, orig, content) && AlwaysConsistent(content, job.w)
    requires 0 <= job.from < job.stop
    ensures IsPrefix(Payload(queue), Part(BytesOf(orig, content), job.from, job.stop))
    ensures !SomeLost(queue) ==> job.stop <= TotalSize(content)
    ensures !SomeLost(queue) ==> |Payload(queue)| == job.stop - job.from
    ensures CanRead(job, content, st) ==> !SomeLost(queue)
  {
    ghost var all := BytesOf(orig, content);
    BytesOfSize(job.k, orig, content);
    var s := Walk([], [], Xorb([]), 0, job.from, t);
    StartsEmpty(job, orig, all, t);
    var rereads := 0;
    ghost var healthy := CanRead(job, content, st);
    while s.pos < job.stop
      invariant Walking(job, orig, all, s) && 0 <= rereads <= MAX_REREADS
      invariant healthy ==> Fine(job, st.files, s) && st.sweeps(0) + rereads <= st.sweeps(s.now)
      decreases job.stop - s.pos + MAX_REREADS - rereads
    {
      var before := s.pos;
      ghost var asked := s.now;
      var step;
      step, s := NextPage(job, orig, content, st, s);
      if healthy {
        assert st.sweeps(asked) <= st.sweeps(s.now) <= st.sweeps(0) + 3;
      }
      if step == Stale && rereads < MAX_REREADS {
        rereads := rereads + 1;
        continue;
      }
      if step != Took || s.pos == before {
        queue := Fail(job, orig, all, s);
        return;
      }
    }
    queue := Finish(job, orig, all, st.files, s);
  }

  /** Queues the last run; the walk has reached the end of the range. */
  method Finish(job: Job, ghost orig: Originals, ghost all: seq<byte>, ghost files: Xorb -> File, s: Walk)
    returns (queue: seq<Fetched>)
    requires Walking(job, orig, all, s) && s.pos == job.stop && job.from < job.stop
    ensures IsPrefix(Payload(queue), Part(all, job.from, job.stop)) && job.stop <= |all|
    ensures !SomeLost(queue) ==> |Payload(queue)| == job.stop - job.from
    ensures Fine(job, files, s) ==> !SomeLost(queue)
  {
    var r := Flush(job, orig, all, files, s);
    queue := r.queue;
    NothingWanted(orig, r.group);
  }

  lemma StartsEmpty(job: Job, orig: Originals, all: seq<byte>, t: nat)
    requires Honest(job.k) && 0 <= job.from < job.stop
    ensures Walking(job, orig, all, Walk([], [], Xorb([]), 0, job.from, t))
  {
    NothingWanted(orig, []);
  }

  // ---------------------------------------------------------------------
  // Serving the fetches
  // ---------------------------------------------------------------------

  lemma {:induction false} PayloadOfPrefix(queue: seq<Fetched>, n: nat)
    requires n <= |queue|
    ensures IsPrefix(Payload(queue[..n]), Payload(queue))
  {
    if n > 0 && queue[0].Data? {
      PayloadOfPrefix(queue[1..], n - 1);
      assert queue[..n][1..] == queue[1..][..n - 1];
      LongerPrefix(queue[0].bytes, Payload(queue[1..][..n - 1]), Payload(queue[1..]));
    }
  }

  lemma {:induction false} PayloadOfParts(a: seq<Fetched>, b: seq<Fetched>)
    requires !SomeLost(a)
    ensures Payload(a + b) == Payload(a) + Payload(b)
    ensures SomeLost(a + b) <==> SomeLost(b)
  {
    if a == [] {
      assert a + b == b;
    } else {
      assert (a + b)[1..] == a[1..] + b;
      PayloadOfParts(a[1..], b);
      AppendAssoc(a[0].bytes, Payload(a[1..]), Payload(b));
    }
  }

  datatype ReadError = Eof | LostBytes | CutShort

  /** How reading these fetches to the end has to end, length bytes being due. */
  predicate EndsWith(all: seq<Fetched>, length: int, e: ReadError) {
    match e
    case Eof => !SomeLost(all) && |Payload(all)| == length
    case LostBytes => SomeLost(all)
    case CutShort => !SomeLost(all) && |Payload(all)| < length
  }

  /** What taking the next fetch of the queue comes to. */
  lemma NextFetch(all: seq<Fetched>, taken: seq<Fetched>, queue: seq<Fetched>, served: seq<byte>, length: int)
    requires all == taken + queue && !SomeLost(taken) && Payload(taken) == served && |Payload(all)| <= length
    ensures queue == [] ==>
      Payload(all) == served && EndsWith(all, length, if |served| == length then Eof else CutShort)
    ensures queue != [] && queue[0].Lost? ==> Payload(all) == served && SomeLost(all)
    ensures queue != [] && queue[0].Data? ==>
      !SomeLost(taken + [queue[0]]) && Payload(taken + [queue[0]]) == served + queue[0].bytes
      && all == (taken + [queue[0]]) + queue[1..]
  {
    PayloadOfParts(taken, queue);
    if queue != [] {
      PayloadSnoc(taken, queue[0]);
      assert queue == [queue[0]] + queue[1..];
      AppendAssoc(taken, [queue[0]], queue[1..]);
    }
  }

  /** Serves the fetches of a range in the order they were queued. The queue ends
      where the producer stopped, which a cancelled read does early. */
  class ChunkReader {
    var queue: seq<Fetched>
    var cur: seq<byte>
    var left: int
    var err: Option<ReadError>
    ghost const all: seq<Fetched>
    ghost const range: seq<byte>
    ghost const length: int
    ghost var taken: seq<Fetched>
    ghost var served: seq<byte>

    /** What was served and is in hand is what the fetches taken hold; an error is the
        one they all have to end with. */
    ghost predicate Valid()
      reads this
    {
      && |range| <= length && left == length - |served|
      && all == taken + queue && IsPrefix(Payload(all), range)
      && (err.None? ==> !SomeLost(taken) && Payload(taken) == served + cur)
      && (err.Some? ==> cur == [] && served == Payload(all) && EndsWith(all, length, err.value))
    }

    constructor (queue: seq<Fetched>, left: int, ghost range: seq<byte>)
      requires |range| <= left && IsPrefix(Payload(queue), range)
      ensures Valid() && served == cur == [] && taken == [] && err.None?
      ensures this.range == range && length == left && all == this.queue == queue
    {
      this.queue, this.all, this.taken := queue, queue, [];
      this.cur, this.served := [], [];
      this.left, this.length := left, left;
      this.err := None;
      this.range := range;
      new;
      assert [] + queue == queue;
    }

    /** Takes the next fetch, or says why there is none to take. */
    method Next() returns (e: Option<ReadError>)
      requires Valid() && cur == [] && err.None?
      modifies this`queue, this`cur, this`taken
      ensures e.None? ==> Valid() && |queue| < |old(queue)|
      ensures e.Some? ==> cur == [] && all == taken + queue && served == Payload(all) && EndsWith(all, length, e.value)
      ensures |queue| <= |old(queue)|
      ensures e.None? <==> old(queue) != [] && old(queue)[0].Data?
      ensures old(queue) != [] && e.Some? ==> e == Some(LostBytes)
    {
      assert served + [] == served;
      NextFetch(all, taken, queue, served, length);
      if queue == [] {
        return Some(if left == 0 then Eof else CutShort);
      }
      var f := queue[0];
      ghost var more := taken + [f];
      assert all == more + queue[1..];
      queue, taken := queue[1..], more;
      if f.Lost? {
        return Some(LostBytes);
      }
      cur := f.bytes;
      return None;
    }

    /** Serves up to n bytes. What is served is always a prefix of the range; the end
        is reported only when all of it has been, lost bytes only for a fetch that was
        lost, and a cut only when the fetches ended early. */
    method Read(n: nat) returns (data: seq<byte>, e: Option<ReadError>)
      requires Valid()
      modifies this
      ensures Valid() && |data| <= n && served == old(served) + data && IsPrefix(served, range)
      ensures e.Some? ==> data == [] && served == Payload(all) && EndsWith(all, length, e.value)
      ensures e == Some(Eof) ==> served == range && |served| == length
      ensures e.None? && n > 0 ==> data != []
    {
      while cur == []
        invariant Valid() && served == old(served)
        decreases |queue|, if err.None? then 1 else 0
      {
        if err.Some? { return [], err; }
        err := Next();
      }
      var k := if n < |cur| then n else |cur|;
      data := cur[..k];
      var after := cur[k..];
      assert cur == data + after;
      AppendAssoc(served, data, after);
      ServedSoFar(all, taken, queue, served + data, after, range);
      cur := after;
      left := left - k;
      served := served + data;
      e := None;
    }
  }

  lemma ServedSoFar(all: seq<Fetched>, taken: seq<Fetched>, queue: seq<Fetched>, served: seq<byte>, cur: seq<byte>,
                  range: seq<byte>)
    requires all == taken + queue && !SomeLost(taken) && Payload(taken) == served + cur && IsPrefix(Payload(all), range)
    ensures IsPrefix(served, range)
  {
    PayloadOfParts(taken, queue);
    PrefixOfWhole(served + cur, Payload(queue), range);
    PrefixOfWhole(served, cur, range);
  }

  /** Reads a range to its end, n bytes at a time: everything before the first fetch
      lost is served, and all of the range, ending clean, when none is and none is missing. */
  method ReadAll(r: ChunkReader, n: nat) returns (data: seq<byte>, e: ReadError)
    requires r.Valid() && r.served == [] && n > 0
    modifies r
    ensures data == Payload(r.all) && EndsWith(r.all, r.length, e)
    ensures !SomeLost(r.all) && |Payload(r.all)| == r.length ==> e == Eof && data == r.range
  {
    data := [];
    while true
      invariant r.Valid() && data == r.served && IsPrefix(data, r.range)
      decreases r.length - |data|
    {
      var more, end := r.Read(n);
      data := data + more;
      if end.Some? { return data, end.value; }
    }
  }

  /** The fetches the reader gets to see: the producer may be cancelled after some. */
  lemma SeenOf(queue: seq<Fetched>, n: nat, range: seq<byte>)
    requires n <= |queue| && IsPrefix(Payload(queue), range)
    ensures IsPrefix(Payload(queue[..n]), range)
    ensures !SomeLost(queue) ==> !SomeLost(queue[..n])
    ensures n == |queue| ==> queue[..n] == queue
  {
    PayloadOfPrefix(queue, n);
    PrefixesChain(Payload(queue[..n]), Payload(queue), range);
  }

  /** Opens the bytes [from, stop) of a chunked blob, waiting for the first fetch. The
      producer may be cancelled, after any number of fetches. */
  method Open(job: Job, ghost orig: Originals, ghost content: seq<Chunk>, ghost st: Story, t: nat,
              cancelled: Option<nat>)
    returns (r: Result<ChunkReader, ReadError>)
    requires Honest(job.k) && Known(job.k, orig, content) && AlwaysConsistent(content, job.w)
    requires 0 <= job.from
    ensures r.Ok? ==> fresh(r.value) && r.value.Valid() && r.value.served == []
    ensures r.Ok? ==> r.value.length == Max(0, job.stop - job.from)
    ensures r.Ok? ==>
      r.value.range == if job.from < job.stop then Part(BytesOf(orig, content), job.from, job.stop) else []
    ensures r.Err? ==> job.from < job.stop && (r.error == LostBytes || (r.error == CutShort && cancelled == Some(0)))
    ensures cancelled.None? && CanRead(job, content, st) ==>
      r.Ok? && !SomeLost(r.value.all) && Payload(r.value.all) == r.value.range && |r.value.range| == r.value.length
  {
    if job.stop <= job.from {
      var empty := new ChunkReader([], 0, []);
      return Ok(empty);
    }
    var queue := Produce(job, orig, content, st, t);
    var n := if cancelled.Some? && cancelled.value < |queue| then cancelled.value else |queue|;
    ghost var range := Part(BytesOf(orig, content), job.from, job.stop);
    SeenOf(queue, n, range);
    assert queue != [];
    var reader := new ChunkReader(queue[..n], job.stop - job.from, range);
    var e := reader.Next();
    if e.Some? { return Err(e.value); }
    r := Ok(reader);
  }
}
