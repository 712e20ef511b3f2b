/** Fetching a run of chunks of a xorb from a backend that may lose or corrupt
    bytes, with any sound copy standing in for a chunk that fails its check. */
module Fetch {
  import opened Bytes
  import opened Terms
  import opened Wrappers
  import opened XorbFile

  datatype Loc = Loc(xorb: Xorb, index: int)

  /** The database and the backend at one moment, as queries find them: a blob's
      terms, a xorb's rows, the bytes of a range of a xorb, and where a chunk is
      held. None is a query or a read that failed. Nothing here need be right;
      Reader says what is assumed of the terms and rows. */
  datatype Snapshot = Snapshot(
    terms: Option<seq<Term>>,
    rows: Xorb -> Option<seq<Row>>,
    read: (Xorb, int, int) -> Option<seq<byte>>,
    locate: Option<string -> seq<Loc>>)

  /** What each query or read finds, in the order they are made. */
  type World = nat -> Snapshot

  /** The rows [start, end) of a xorb, those of them there are. */
  function Clip(rows: seq<Row>, start: int, end: int): (r: seq<Row>)
    ensures 0 <= start <= end <= |rows| ==> r == rows[start..end]
    ensures 0 <= start < end && |r| == end - start ==> end <= |rows|
  {
    var from := if start < 0 then 0 else start;
    var stop := if end > |rows| then |rows| else end;
    if from <= stop then rows[from..stop] else []
  }

  /** A chunk to fetch and the part of it, [lo, hi), that is wanted. */
  datatype Span = Span(row: Row, lo: int, hi: int)

  datatype Fetched = Data(bytes: seq<byte>) | Lost

  /** The bytes each chunk hash stands for. */
  type Originals = string -> seq<byte>

  /** How one stored chunk is checked against its row, and how chunks are hashed. */
  datatype Checks = Checks(verify: (seq<byte>, Row) -> Verdict, hash: seq<byte> -> string)

  /** What passes a check has the row's lengths and its hash. */
  ghost predicate Honest(k: Checks) {
    forall b, row :: k.verify(b, row).Sound? ==>
      |b| == row.length && |k.verify(b, row).raw| == row.size && k.hash(k.verify(b, row).raw) == row.hash
  }

  /** The check that decodes the chunk and hashes it. */
  function ChecksOf(k: Checker): Checks {
    Checks((b: seq<byte>, row: Row) => Verify(k, b, row), k.hash)
  }

  lemma ChecksAreHonest(k: Checker)
    ensures Honest(ChecksOf(k))
  {
  }

  /** No other bytes than the original have the row's hash. */
  ghost predicate Binds(k: Checks, orig: Originals, row: Row) {
    |orig(row.hash)| == row.size && forall raw :: k.hash(raw) == row.hash ==> raw == orig(row.hash)
  }

  ghost predicate Wanted(k: Checks, orig: Originals, sp: Span) {
    Binds(k, orig, sp.row) && 0 <= sp.lo <= sp.hi <= sp.row.size
  }

  /** Each chunk of the run starts where the one before it ends. */
  predicate Contiguous(run: seq<Span>) {
    forall i :: 0 < i < |run| ==> run[i].row.offset == run[i - 1].row.offset + run[i - 1].row.length
  }

  /** Neighbouring chunks, each wanted in part or whole. */
  ghost predicate IsRun(k: Checks, orig: Originals, run: seq<Span>) {
    (forall i :: 0 <= i < |run| ==> Wanted(k, orig, run[i])) && Contiguous(run)
  }

  function PartOf(raw: seq<byte>, sp: Span): seq<byte> {
    if 0 <= sp.lo <= sp.hi <= |raw| then raw[sp.lo..sp.hi] else []
  }

  function Parts(orig: Originals, run: seq<Span>): (r: seq<seq<byte>>)
    ensures |r| == |run| && forall i :: 0 <= i < |run| ==> r[i] == PartOf(orig(run[i].row.hash), run[i])
  {
    seq(|run|, i requires 0 <= i < |run| => PartOf(orig(run[i].row.hash), run[i]))
  }

  /** The bytes the first n spans want. */
  function WantedBytes(orig: Originals, run: seq<Span>, n: nat): seq<byte>
    requires n <= |run|
  {
    Flatten(Parts(orig, run)[..n])
  }

  lemma WantedNext(orig: Originals, run: seq<Span>, n: nat)
    requires n < |run|
    ensures WantedBytes(orig, run, n + 1) == WantedBytes(orig, run, n) + PartOf(orig(run[n].row.hash), run[n])
  {
    TakeNext(Parts(orig, run), n);
    FlattenSnoc(Parts(orig, run)[..n], Parts(orig, run)[n]);
  }

  /** What a run wants, its longer forms want first. */
  lemma WantedPrefix(orig: Originals, run: seq<Span>, more: seq<Span>, n: nat)
    requires n <= |run| <= |more| && more[..|run|] == run
    ensures WantedBytes(orig, more, n) == WantedBytes(orig, run, n)
  {
    assert forall i :: 0 <= i < n ==> more[i] == run[i];
    assert Parts(orig, more)[..n] == Parts(orig, run)[..n];
  }

  /** The ranged read of a run of neighbouring chunks. */
  function OwnBytes(s: Snapshot, xorb: Xorb, run: seq<Span>): Option<seq<byte>>
    requires run != []
  {
    var start, last := run[0].row.offset, run[|run| - 1].row;
    s.read(xorb, start, last.offset + last.length - start)
  }

  /** The xorb's own bytes hold every chunk of the run, sound. */
  predicate OwnBytesSound(k: Checks, s: Snapshot, xorb: Xorb, run: seq<Span>)
    requires run != []
  {
    AllOwn(k, OwnBytes(s, xorb, run), run[0].row.offset, run, |run|)
  }

  /** The first n chunks of the run are sound in stored, which starts at start. */
  predicate SpansSound(k: Checks, stored: seq<byte>, start: int, run: seq<Span>, n: nat)
    requires n <= |run|
  {
    n == 0 || (SpansSound(k, stored, start, run, n - 1) && SpanSound(k, stored, start, run[n - 1]))
  }

  lemma {:induction false} SpanAt(k: Checks, stored: seq<byte>, start: int, run: seq<Span>, n: nat, i: nat)
    requires i < n <= |run| && SpansSound(k, stored, start, run, n)
    ensures SpanSound(k, stored, start, run[i])
  {
    if i < n - 1 {
      SpanAt(k, stored, start, run, n - 1, i);
    }
  }

  predicate SpanSound(k: Checks, stored: seq<byte>, start: int, sp: Span) {
    var at := sp.row.offset - start;
    0 <= at && at + sp.row.length <= |stored| && k.verify(stored[at..at + sp.row.length], sp.row).Sound?
  }

  /** At this moment the place l holds a copy of the chunk that is sound as there. */
  predicate CopyAt(k: Checks, s: Snapshot, row: Row, l: Loc, there: Row) {
    && s.rows(l.xorb).Some? && Clip(s.rows(l.xorb).value, l.index, l.index + 1) == [there] && there.hash == row.hash
    && s.read(l.xorb, there.offset, there.length).Some?
    && k.verify(s.read(l.xorb, there.offset, there.length).value, there).Sound?
  }

  /** From t on, the place holds a sound copy. */
  ghost predicate HasCopy(k: Checks, w: World, t: nat, row: Row, l: Loc, there: Row) {
    forall u: nat :: t <= u ==> CopyAt(k, w(u), row, l, there)
  }

  /** From t on, one of locs, other than in the xorb skip, holds a sound copy. */
  ghost predicate CopyAmong(k: Checks, w: World, t: nat, row: Row, locs: seq<Loc>, skip: Xorb) {
    exists l, there :: l in locs && l.xorb != skip && HasCopy(k, w, t, row, l, there)
  }

  lemma CopyLasts(k: Checks, w: World, t: nat, u: nat, row: Row, locs: seq<Loc>, skip: Xorb)
    requires CopyAmong(k, w, t, row, locs, skip) && t <= u
    ensures CopyAmong(k, w, u, row, locs, skip)
  {
    var l, there :| l in locs && l.xorb != skip && HasCopy(k, w, t, row, l, there);
    assert HasCopy(k, w, u, row, l, there);
  }

  /** The first of locs, other than in the xorb skip, that holds a sound copy of the
      chunk. t counts the queries made. */
  method SoundCopy(k: Checks, w: World, t: nat, row: Row, locs: seq<Loc>, skip: Xorb)
    returns (raw: Option<seq<byte>>, now: nat)
    requires Honest(k)
    ensures raw.Some? ==> k.hash(raw.value) == row.hash
    ensures CopyAmong(k, w, t, row, locs, skip) ==> raw.Some?
    ensures now >= t
  {
    now := t;
    for i := 0 to |locs|
      invariant now >= t && !CopyAmong(k, w, t, row, locs[..i], skip)
    {
      var loc := locs[i];
      NoCopyYet(k, w, t, now, row, locs, skip, i);
      if loc.xorb == skip { continue; }
      var rows := w(now).rows(loc.xorb);
      now := now + 1;
      if rows.None? { continue; }
      var there := Clip(rows.value, loc.index, loc.index + 1);
      if |there| != 1 || there[0].hash != row.hash { continue; }
      var b := w(now).read(loc.xorb, there[0].offset, there[0].length);
      now := now + 1;
      if b.None? { continue; }
      var v := k.verify(b.value, there[0]);
      if v.Sound? { return Some(v.raw), now; }
    }
    assert locs[..|locs|] == locs;
    raw := None;
  }

  lemma NoCopyYet(k: Checks, w: World, t: nat, now: nat, row: Row, locs: seq<Loc>, skip: Xorb, i: nat)
    requires i < |locs| && t <= now && !CopyAmong(k, w, t, row, locs[..i], skip)
    ensures CopyAmong(k, w, t, row, locs[..i + 1], skip) ==> locs[i].xorb != skip && exists there ::
      CopyAt(k, w(now), row, locs[i], there) && CopyAt(k, w(now + 1), row, locs[i], there)
  {
    if CopyAmong(k, w, t, row, locs[..i + 1], skip) {
      var l, there :| l in locs[..i + 1] && l.xorb != skip && HasCopy(k, w, t, row, l, there);
      InTakeNext(locs, i, l);
      assert CopyAt(k, w(now), row, l, there) && CopyAt(k, w(now + 1), row, l, there);
    }
  }

  /** raws holds the content of each of the first n spans, or nothing for the ones
      listed as missing. */
  predicate Held(orig: Originals, run: seq<Span>, raws: seq<Option<seq<byte>>>, missing: seq<nat>) {
    && |raws| <= |run|
    && (forall i :: 0 <= i < |raws| ==> if raws[i].Some? then raws[i].value == orig(run[i].row.hash) else i in missing)
    && (forall j :: 0 <= j < |missing| ==> missing[j] < |raws|)
  }

  /** What the stored bytes say of the chunk. */
  function OwnVerdict(k: Checks, stored: Option<seq<byte>>, start: int, sp: Span): Verdict {
    var at := sp.row.offset - start;
    if stored.None? || at < 0 || at + sp.row.length > |stored.value| then Damaged
    else k.verify(stored.value[at..at + sp.row.length], sp.row)
  }

  method CheckOwn(k: Checks, ghost orig: Originals, stored: Option<seq<byte>>, start: int, sp: Span)
    returns (v: Verdict)
    requires Honest(k) && Wanted(k, orig, sp) && start <= sp.row.offset
    ensures v == OwnVerdict(k, stored, start, sp)
    ensures v.Sound? <==> stored.Some? && SpanSound(k, stored.value, start, sp)
    ensures v.Sound? ==> v.raw == orig(sp.row.hash)
  {
    var at := sp.row.offset - start;
    if stored.None? || at + sp.row.length > |stored.value| { return Damaged; }
    v := k.verify(stored.value[at..at + sp.row.length], sp.row);
  }

  predicate AllOwn(k: Checks, stored: Option<seq<byte>>, start: int, run: seq<Span>, n: nat)
    requires n <= |run|
  {
    stored.Some? && SpansSound(k, stored.value, start, run, n)
  }

  /** Records what a chunk's check came to. */
  method Tally(ghost orig: Originals, run: seq<Span>, raws0: seq<Option<seq<byte>>>, missing0: seq<nat>, v: Verdict)
    returns (raws: seq<Option<seq<byte>>>, missing: seq<nat>)
    requires |raws0| < |run| && Held(orig, run, raws0, missing0)
    requires v.Sound? ==> v.raw == orig(run[|raws0|].row.hash)
    ensures |raws| == |raws0| + 1 && Held(orig, run, raws, missing)
    ensures missing == if v.Sound? then missing0 else missing0 + [|raws0|]
  {
    raws, missing := raws0, missing0;
    if v.Sound? {
      raws := raws + [Some(v.raw)];
    } else {
      raws, missing := raws + [None], missing + [|raws|];
    }
  }

  /** Chunks listed as missing are damaged in the stored bytes. */
  predicate AllDamaged(k: Checks, stored: Option<seq<byte>>, start: int, run: seq<Span>, missing: seq<nat>) {
    forall j :: 0 <= j < |missing| ==>
      missing[j] < |run| && OwnVerdict(k, stored, start, run[missing[j]]).Damaged?
  }

  /** Checks chunk i of the run. */
  method NextOwn(k: Checks, ghost orig: Originals, stored: Option<seq<byte>>, start: int, run: seq<Span>, i: nat,
                 raws0: seq<Option<seq<byte>>>, missing0: seq<nat>)
    returns (ok: bool, raws: seq<Option<seq<byte>>>, missing: seq<nat>)
    requires Honest(k) && i < |run| && start == run[0].row.offset && IsRun(k, orig, run)
    requires |raws0| == i && Held(orig, run, raws0, missing0) && AllDamaged(k, stored, start, run, missing0)
    ensures ok <==> !OwnVerdict(k, stored, start, run[i]).CannotCheck?
    ensures ok ==> |raws| == i + 1 && Held(orig, run, raws, missing) && AllDamaged(k, stored, start, run, missing)
    ensures AllOwn(k, stored, start, run, |run|) ==> ok && missing == missing0
  {
    OffsetsGrow(k, orig, run, i);
    assert Wanted(k, orig, run[i]);
    var v := CheckOwn(k, orig, stored, start, run[i]);
    if AllOwn(k, stored, start, run, |run|) {
      SpanAt(k, stored.value, start, run, |run|, i);
    }
    if v.CannotCheck? { return false, raws0, missing0; }
    raws, missing := Tally(orig, run, raws0, missing0, v);
    ok := true;
  }

  /** Checks each chunk of the run in the stored bytes. ok is false if one could not
      be checked. */
  method OwnChunks(k: Checks, ghost orig: Originals, stored: Option<seq<byte>>, start: int, run: seq<Span>)
    returns (ok: bool, raws: seq<Option<seq<byte>>>, missing: seq<nat>)
    requires Honest(k) && run != [] && start == run[0].row.offset && IsRun(k, orig, run)
    ensures ok ==> |raws| == |run| && Held(orig, run, raws, missing)
    ensures ok <==> forall i :: 0 <= i < |run| ==> !OwnVerdict(k, stored, start, run[i]).CannotCheck?
    ensures ok ==> AllDamaged(k, stored, start, run, missing)
    ensures AllOwn(k, stored, start, run, |run|) ==> ok && missing == []
  {
    raws, missing := [], [];
    for i := 0 to |run|
      invariant |raws| == i && Held(orig, run, raws, missing) && AllDamaged(k, stored, start, run, missing)
      invariant forall j :: 0 <= j < i ==> !OwnVerdict(k, stored, start, run[j]).CannotCheck?
      invariant AllOwn(k, stored, start, run, |run|) ==> missing == []
    {
      ok, raws, missing := NextOwn(k, orig, stored, start, run, i, raws, missing);
      if !ok { return; }
    }
    ok := true;
  }

  lemma {:induction false} OffsetsGrow(k: Checks, orig: Originals, run: seq<Span>, i: nat)
    requires i < |run| && IsRun(k, orig, run)
    ensures run[0].row.offset <= run[i].row.offset
  {
    if i > 0 {
      OffsetsGrow(k, orig, run, i - 1);
    }
  }

  /** The lookup made at t lists a place of another xorb that holds the chunk, sound, from then on. */
  ghost predicate Curable(k: Checks, w: World, t: nat, xorb: Xorb, row: Row) {
    w(t).locate.Some? && CopyAmong(k, w, t, row, w(t).locate.value(row.hash), xorb)
  }

  /** Finds a sound copy of every missing chunk, or gives up. */
  method FillMissing(k: Checks, ghost orig: Originals, w: World, t: nat, xorb: Xorb, run: seq<Span>,
                     raws0: seq<Option<seq<byte>>>, missing: seq<nat>)
    returns (raws: Option<seq<seq<byte>>>, now: nat)
    requires Honest(k) && IsRun(k, orig, run) && |raws0| == |run| && Held(orig, run, raws0, missing)
    ensures raws.Some? ==> |raws.value| == |run| && forall i :: 0 <= i < |run| ==>
      raws.value[i] == orig(run[i].row.hash)
    ensures missing == [] ==> raws.Some? && now == t
    ensures (forall j :: 0 <= j < |missing| ==> Curable(k, w, t, xorb, run[missing[j]].row)) ==> raws.Some?
    ensures now >= t
  {
    now := t;
    var filled := raws0;
    var found := w(t).locate;
    if |missing| > 0 {
      now := t + 1;
      if found.None? {
        assert !Curable(k, w, t, xorb, run[missing[0]].row);
        return None, now;
      }
    }
    for j := 0 to |missing|
      invariant |filled| == |run| && now >= t && (missing == [] ==> now == t)
      invariant Held(orig, run, filled, missing[j..])
    {
      var m := missing[j];
      var row := run[m].row;
      var raw;
      if Curable(k, w, t, xorb, row) {
        CopyLasts(k, w, t, now, row, found.value(row.hash), xorb);
      }
      raw, now := SoundCopy(k, w, now, row, found.value(row.hash), xorb);
      if raw.None? {
        assert !Curable(k, w, t, xorb, run[missing[j]].row);
        return None, now;
      }
      assert Wanted(k, orig, run[m]);
      filled := filled[m := raw];
      assert missing[j..] == [m] + missing[j + 1..];
    }
    var all: seq<seq<byte>> := [];
    for i := 0 to |run|
      invariant |all| == i && forall j :: 0 <= j < i ==> all[j] == orig(run[j].row.hash)
    {
      assert missing[|missing|..] == [];
      assert filled[i].Some?;
      all := all + [filled[i].value];
    }
    raws := Some(all);
  }

  /** Each chunk is sound in the xorb's own bytes, or damaged there and sound elsewhere. */
  ghost predicate Served(k: Checks, w: World, t: nat, xorb: Xorb, run: seq<Span>)
    requires run != []
  {
    forall i :: 0 <= i < |run| ==>
      var v := OwnVerdict(k, OwnBytes(w(t), xorb, run), run[0].row.offset, run[i]);
      v.Sound? || (v.Damaged? && Curable(k, w, t + 1, xorb, run[i].row))
  }

  lemma MissingCurable(k: Checks, w: World, t: nat, xorb: Xorb, run: seq<Span>, missing: seq<nat>)
    requires run != [] && Served(k, w, t, xorb, run)
    requires AllDamaged(k, OwnBytes(w(t), xorb, run), run[0].row.offset, run, missing)
    ensures forall j :: 0 <= j < |missing| ==> Curable(k, w, t + 1, xorb, run[missing[j]].row)
  {
  }

  /** Reads a run of neighbouring chunks in one ranged request, checks each against
      its hash, and returns what the spans want of them. */
  method FetchRun(k: Checks, ghost orig: Originals, w: World, t: nat, xorb: Xorb, run: seq<Span>)
    returns (r: Fetched, now: nat)
    requires Honest(k) && run != [] && IsRun(k, orig, run)
    ensures r.Data? ==> r.bytes == WantedBytes(orig, run, |run|)
    ensures OwnBytesSound(k, w(t), xorb, run) ==> r.Data? && now == t + 1
    ensures Served(k, w, t, xorb, run) ==> r.Data?
    ensures r.Data? ==> forall i :: 0 <= i < |run| ==>
      !OwnVerdict(k, OwnBytes(w(t), xorb, run), run[0].row.offset, run[i]).CannotCheck?
    ensures now > t
  {
    var start := run[0].row.offset;
    var stored := OwnBytes(w(t), xorb, run);
    now := t + 1;
    var ok, raws0, missing := OwnChunks(k, orig, stored, start, run);
    if !ok { return Lost, now; }
    if Served(k, w, t, xorb, run) {
      MissingCurable(k, w, t, xorb, run, missing);
    }
    var raws;
    raws, now := FillMissing(k, orig, w, now, xorb, run, raws0, missing);
    if raws.None? { return Lost, now; }
    var out := Join(k, orig, raws.value, run);
    r := Data(out);
  }

  method Join(k: Checks, ghost orig: Originals, raws: seq<seq<byte>>, run: seq<Span>) returns (out: seq<byte>)
    requires IsRun(k, orig, run) && |raws| == |run|
    requires forall i :: 0 <= i < |run| ==> raws[i] == orig(run[i].row.hash)
    ensures out == WantedBytes(orig, run, |run|)
  {
    out := [];
    for i := 0 to |run|
      invariant out == WantedBytes(orig, run, i)
    {
      assert Wanted(k, orig, run[i]);
      WantedNext(orig, run, i);
      out := out + raws[i][run[i].lo..run[i].hi];
    }
  }

  // ---------------------------------------------------------------------
  // A sound xorb needs no help
  // ---------------------------------------------------------------------

  /** The run is of the chunks of rows from first on. */
  predicate RunOf(rows: seq<Row>, first: nat, run: seq<Span>) {
    first + |run| <= |rows| && forall i :: 0 <= i < |run| ==> run[i].row == rows[first + i]
  }

  /** The row's chunk is in b, and passes its check there. */
  predicate Sits(k: Checks, b: seq<byte>, row: Row) {
    row.offset + row.length <= |b| && k.verify(b[row.offset..row.offset + row.length], row).Sound?
  }

  predicate AllSit(k: Checks, rows: seq<Row>, b: seq<byte>, n: nat)
    requires n <= |rows|
  {
    n == 0 || (AllSit(k, rows, b, n - 1) && Sits(k, b, rows[n - 1]))
  }

  lemma {:induction false} SitsAt(k: Checks, rows: seq<Row>, b: seq<byte>, n: nat, i: nat)
    requires i < n <= |rows| && AllSit(k, rows, b, n)
    ensures Sits(k, b, rows[i])
  {
    if i < n - 1 {
      SitsAt(k, rows, b, n - 1, i);
    }
  }

  lemma {:induction false} AllSoundSit(k: Checker, rows: seq<Row>, b: seq<byte>, n: nat)
    requires n <= |rows| && AllSound(k, rows, b, n)
    ensures AllSit(ChecksOf(k), rows, b, n)
  {
    if n > 0 {
      AllSoundSit(k, rows, b, n - 1);
      assert Sits(ChecksOf(k), b, rows[n - 1]);
    }
  }

  lemma SpanOfSound(k: Checks, b: seq<byte>, start: nat, end: nat, sp: Span)
    requires start <= sp.row.offset && sp.row.offset + sp.row.length <= end <= |b| && Sits(k, b, sp.row)
    ensures SpanSound(k, b[start..end], start, sp)
  {
    SliceOfSlice(b, start, end, sp.row.offset, sp.row.offset + sp.row.length);
  }

  function RunEnd(run: seq<Span>, n: nat): nat
    requires 0 < n <= |run|
  {
    run[n - 1].row.offset + run[n - 1].row.length
  }

  lemma {:induction false} EndsGrow(run: seq<Span>, i: nat, j: nat)
    requires 0 < i <= j <= |run| && Contiguous(run)
    ensures RunEnd(run, i) <= RunEnd(run, j)
    ensures run[0].row.offset <= run[i - 1].row.offset
    decreases j, i
  {
    if i < j {
      EndsGrow(run, i, j - 1);
    } else if i > 1 {
      EndsGrow(run, i - 1, i - 1);
    }
  }

  lemma {:induction false} SpansSit(k: Checks, b: seq<byte>, run: seq<Span>, n: nat)
    requires Contiguous(run) && 0 < |run| && n <= |run|
    requires forall i :: 0 <= i < |run| ==> Sits(k, b, run[i].row)
    ensures run[0].row.offset <= RunEnd(run, |run|) <= |b|
    ensures SpansSound(k, b[run[0].row.offset..RunEnd(run, |run|)], run[0].row.offset, run, n)
  {
    EndsGrow(run, 1, |run|);
    assert Sits(k, b, run[|run| - 1].row);
    if n > 0 {
      SpansSit(k, b, run, n - 1);
      EndsGrow(run, n, |run|);
      assert Sits(k, b, run[n - 1].row);
      SpanOfSound(k, b, run[0].row.offset, RunEnd(run, |run|), run[n - 1]);
    }
  }

  /** The backend returns the bytes b when any range of the xorb is read. */
  ghost predicate Returns(s: Snapshot, xorb: Xorb, b: seq<byte>) {
    forall start, length :: 0 <= start && 0 <= length && start + length <= |b| ==>
      s.read(xorb, start, length) == Some(b[start..start + length])
  }

  lemma ReadReturns(s: Snapshot, xorb: Xorb, b: seq<byte>, start: nat, end: nat)
    requires Returns(s, xorb, b) && start <= end <= |b|
    ensures s.read(xorb, start, end - start) == Some(b[start..end])
  {
    var length := end - start;
    assert s.read(xorb, start, length) == Some(b[start..start + length]);
  }

  /** Neighbouring chunks that are sound in the bytes of a xorb are served from them. */
  lemma RunServes(k: Checks, b: seq<byte>, s: Snapshot, xorb: Xorb, run: seq<Span>)
    requires run != [] && Contiguous(run) && Returns(s, xorb, b)
    requires forall i :: 0 <= i < |run| ==> Sits(k, b, run[i].row)
    ensures OwnBytesSound(k, s, xorb, run)
  {
    SpansSit(k, b, run, |run|);
    ReadReturns(s, xorb, b, run[0].row.offset, RunEnd(run, |run|));
  }

  /** Chunks stored end to end, each sound, serve every run of them. */
  lemma LaidServes(k: Checks, rows: seq<Row>, b: seq<byte>, s: Snapshot, xorb: Xorb, first: nat, run: seq<Span>)
    requires EndToEnd(rows, |rows|) && AllSit(k, rows, b, |rows|)
    requires run != [] && RunOf(rows, first, run) && Returns(s, xorb, b)
    ensures OwnBytesSound(k, s, xorb, run)
  {
    forall i | 0 <= i < |run| ensures Sits(k, b, run[i].row) {
      SitsAt(k, rows, b, |rows|, first + i);
    }
    forall i | 0 < i < |run| ensures run[i].row.offset == run[i - 1].row.offset + run[i - 1].row.length {
      EndToEndAt(rows, |rows|, first + i);
      EndToEndAt(rows, |rows|, first + i - 1);
    }
    RunServes(k, b, s, xorb, run);
  }

  /** A xorb that passes the check of a whole xorb serves every run of its chunks
      from its own bytes, as long as the backend returns them. */
  lemma SoundXorbServes(k: Checker, rows: seq<Row>, b: seq<byte>, size: int, name: string, s: Snapshot, xorb: Xorb,
                  first: nat, run: seq<Span>)
    requires SoundXorb(k, rows, b, size, name) && run != [] && RunOf(rows, first, run) && Returns(s, xorb, b)
    ensures OwnBytesSound(ChecksOf(k), s, xorb, run)
  {
    AllSoundSit(k, rows, b, |rows|);
    LaidServes(ChecksOf(k), rows, b, s, xorb, first, run);
  }

  // ---------------------------------------------------------------------
  // A damaged xorb is helped out
  // ---------------------------------------------------------------------

  /** The bytes of a stored object a ranged read returns: those there are, or
      none when it is missing or ends before the range. */
  function RangeOf(b: Option<seq<byte>>, start: nat, length: nat): Option<seq<byte>> {
    if b.None? || start > |b.value| then None
    else Some(b.value[start..if start + length <= |b.value| then start + length else |b.value|])
  }

  /** Reads of the xorb come from b, damaged, cut short or missing as it may be. */
  ghost predicate Keeps(s: Snapshot, xorb: Xorb, b: Option<seq<byte>>) {
    forall start: nat, length: nat :: s.read(xorb, start, length) == RangeOf(b, start, length)
  }

  /** What the stored bytes say of the chunk of a row. */
  function ChunkVerdict(k: Checks, b: Option<seq<byte>>, row: Row): Verdict {
    if b.None? || row.offset + row.length > |b.value| then Damaged
    else k.verify(b.value[row.offset..row.offset + row.length], row)
  }

  /** At t, when b is what there is of the xorb, the chunk is sound in it, or damaged or
      missing and held sound by another. */
  ghost predicate Obtainable(k: Checks, w: World, t: nat, xorb: Xorb, b: Option<seq<byte>>, row: Row) {
    var v := ChunkVerdict(k, b, row);
    v.Sound? || (v.Damaged? && Curable(k, w, t + 1, xorb, row))
  }

  /** In a run read together each chunk is found as it is by itself. */
  lemma VerdictInRun(k: Checks, s: Snapshot, xorb: Xorb, b: Option<seq<byte>>, run: seq<Span>, i: nat)
    requires i < |run| && Contiguous(run) && Keeps(s, xorb, b)
    ensures OwnVerdict(k, OwnBytes(s, xorb, run), run[0].row.offset, run[i]) == ChunkVerdict(k, b, run[i].row)
  {
    var row := run[i].row;
    var start, end := run[0].row.offset, RunEnd(run, |run|);
    EndsGrow(run, 1, |run|);
    EndsGrow(run, i + 1, |run|);
    assert s.read(xorb, start, end - start) == RangeOf(b, start, end - start);
    VerdictInRange(k, b, start, end, run[i]);
  }

  lemma VerdictInRange(k: Checks, b: Option<seq<byte>>, start: nat, end: nat, sp: Span)
    requires start <= sp.row.offset && sp.row.offset + sp.row.length <= end
    ensures OwnVerdict(k, RangeOf(b, start, end - start), start, sp) == ChunkVerdict(k, b, sp.row)
  {
    var row := sp.row;
    if b.Some? && row.offset + row.length <= |b.value| {
      var stop := if end <= |b.value| then end else |b.value|;
      SliceOfSlice(b.value, start, stop, row.offset, row.offset + row.length);
    }
  }

  /** A run is fetched whatever is damaged in it, as long as every chunk is sound somewhere. */
  lemma RunObtained(k: Checks, w: World, t: nat, xorb: Xorb, b: Option<seq<byte>>, run: seq<Span>)
    requires run != [] && Contiguous(run) && Keeps(w(t), xorb, b)
    requires forall i :: 0 <= i < |run| ==> Obtainable(k, w, t, xorb, b, run[i].row)
    ensures Served(k, w, t, xorb, run)
  {
    forall i | 0 <= i < |run|
      ensures var v := OwnVerdict(k, OwnBytes(w(t), xorb, run), run[0].row.offset, run[i]);
        v.Sound? || (v.Damaged? && Curable(k, w, t + 1, xorb, run[i].row))
    {
      VerdictInRun(k, w(t), xorb, b, run, i);
      assert Obtainable(k, w, t, xorb, b, run[i].row);
    }
  }
}
