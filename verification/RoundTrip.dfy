/** From an upload to a read: the chunks content is cut into are what a plan asks
    for, and once they are committed reading them gives back the content. */
module RoundTrip {
  import opened Bytes
  import opened Chunker
  import opened Fetch
  import opened Limits
  import opened Plan
  import opened Reader
  import opened ReadsOverRuns
  import opened Terms
  import opened Wrappers
  import Protocol
  import XorbFile

  /** The chunks of the pieces content is cut into. */
  function ChunksOf(hash: seq<byte> -> string, pieces: seq<seq<byte>>): (r: seq<Chunk>)
    ensures |r| == |pieces| && forall i :: 0 <= i < |pieces| ==> r[i] == Chunk(hash(pieces[i]), |pieces[i]|)
  {
    seq(|pieces|, i requires 0 <= i < |pieces| => Chunk(hash(pieces[i]), |pieces[i]|))
  }

  /** What a plan is made from. */
  function RefsOf(chunks: seq<ChunkRef>): (r: seq<Ref>)
    ensures |r| == |chunks|
    ensures forall i :: 0 <= i < |chunks| ==> r[i] == Ref(Chunk(chunks[i].hash, chunks[i].size), chunks[i].pos)
  {
    seq(|chunks|, i requires 0 <= i < |chunks| => Ref(Chunk(chunks[i].hash, chunks[i].size), chunks[i].pos))
  }

  lemma {:induction false} SizeOfPieces(hash: seq<byte> -> string, pieces: seq<seq<byte>>)
    ensures TotalSize(ChunksOf(hash, pieces)) == |Flatten(pieces)|
  {
    if pieces != [] {
      assert ChunksOf(hash, pieces)[1..] == ChunksOf(hash, pieces[1..]);
      SizeOfPieces(hash, pieces[1..]);
    }
  }

  /** The chunks recorded of content are the pieces it is cut into, each where the one
      before it ends, none empty and none larger than a chunk may be. */
  lemma CutsArePlaced(gear: Gear, hash: seq<byte> -> string, content: seq<byte>)
    ensures var pieces := Cuts(gear, content);
      var refs := RefsOf(Refs(hash, pieces));
      && Placed(refs) && Contents(refs) == ChunksOf(hash, pieces)
      && forall i :: 0 <= i < |refs| ==> 0 < refs[i].chunk.size <= Limits.MAX_CHUNK
  {
    var pieces := Cuts(gear, content);
    var refs := RefsOf(Refs(hash, pieces));
    forall i | 0 <= i < |refs|
      ensures refs[i].chunk == Chunk(hash(pieces[i]), |pieces[i]|)
      ensures refs[i].pos == |Flatten(pieces[..i])|
      ensures 0 < refs[i].chunk.size <= Limits.MAX_CHUNK
    {
      CutSizes(gear, content, i);
    }
    forall i | 0 <= i < |refs| ensures refs[i].pos == TotalSize(Contents(refs)[..i]) {
      SizeOfPieces(hash, pieces[..i]);
      assert Contents(refs)[..i] == ChunksOf(hash, pieces[..i]);
    }
    assert Contents(refs) == ChunksOf(hash, pieces);
  }

  /** Each piece is what its hash stands for, and nothing else has that hash. */
  ghost predicate Binding(hash: seq<byte> -> string, orig: Originals, pieces: seq<seq<byte>>) {
    forall i :: 0 <= i < |pieces| ==>
      orig(hash(pieces[i])) == pieces[i] && forall raw :: hash(raw) == hash(pieces[i]) ==> raw == pieces[i]
  }

  lemma {:induction false} PiecesAreContent(hash: seq<byte> -> string, orig: Originals, pieces: seq<seq<byte>>)
    requires forall i :: 0 <= i < |pieces| ==> orig(hash(pieces[i])) == pieces[i]
    ensures BytesOf(orig, ChunksOf(hash, pieces)) == Flatten(pieces)
  {
    if pieces != [] {
      assert ChunksOf(hash, pieces)[1..] == ChunksOf(hash, pieces[1..]);
      PiecesAreContent(hash, orig, pieces[1..]);
    }
  }

  /** The bytes the chunks stand for are the content. */
  lemma ChunksStandForContent(gear: Gear, k: Checks, orig: Originals, content: seq<byte>)
    requires Binding(k.hash, orig, Cuts(gear, content))
    ensures var chunks := ChunksOf(k.hash, Cuts(gear, content));
      Known(k, orig, chunks) && BytesOf(orig, chunks) == content && TotalSize(chunks) == |content|
  {
    var pieces := Cuts(gear, content);
    var chunks := ChunksOf(k.hash, pieces);
    forall i | 0 <= i < |chunks| ensures KnownChunk(k, orig, chunks[i]) {
      CutSizes(gear, content, i);
    }
    PiecesAreContent(k.hash, orig, pieces);
    SizeOfPieces(k.hash, pieces);
    CutsCover(gear, content);
  }

  /** Content uploaded in any parts gets a plan whose terms stand for its chunks, and
      whose xorbs are within bounds. */
  method PlanUpload(gear: Gear, hash: seq<byte> -> string, parts: seq<seq<byte>>, found: Found, heldRuns: Run -> bool,
                  overhead: nat)
    returns (p: CommitPlan)
    requires Accurate(found, RefsOf(Refs(hash, Cuts(gear, Flatten(parts))))) && overhead <= MAX_OVERHEAD
    ensures p.attach && Denotes(p.terms, ChunksOf(hash, Cuts(gear, Flatten(parts))))
    ensures forall x :: 0 <= x < |p.xorbs| ==>
      0 < |p.xorbs[x].chunks| <= MAX_XORB_CHUNKS
      && WorstCaseStored(p.xorbs[x].raw, |p.xorbs[x].chunks|, overhead) <= MAX_XORB_BYTES
  {
    var chunks := ChunkParts(gear, hash, parts);
    var refs := RefsOf(chunks);
    CutsArePlaced(gear, hash, Flatten(parts));
    ghost var runs;
    p, runs := MakePlan(refs, false, false, found, heldRuns, overhead);
    PlanFits(refs, p, runs, heldRuns, overhead);
  }

  lemma PlanFits(refs: seq<Ref>, p: CommitPlan, runs: seq<Run>, held: Run -> bool, overhead: nat)
    requires PlanOk(refs, p, runs, held, overhead) && overhead <= MAX_OVERHEAD
    requires forall i :: 0 <= i < |refs| ==> refs[i].chunk.size <= Limits.MAX_CHUNK
    ensures forall x :: 0 <= x < |p.xorbs| ==>
      0 < |p.xorbs[x].chunks| <= MAX_XORB_CHUNKS
      && WorstCaseStored(p.xorbs[x].raw, |p.xorbs[x].chunks|, overhead) <= MAX_XORB_BYTES
  {
    forall x | 0 <= x < |p.xorbs|
      ensures 0 < |p.xorbs[x].chunks| <= MAX_XORB_CHUNKS
      ensures WorstCaseStored(p.xorbs[x].raw, |p.xorbs[x].chunks|, overhead) <= MAX_XORB_BYTES
    {
      assert Fits(refs, GroupsOf(p.xorbs)[x], overhead);
      GroupFits(refs, p.xorbs[x].chunks, overhead);
    }
  }

  /** The xorb keeps its rows and bytes, which pass the check of a whole xorb. */
  ghost predicate StaysSound(k: XorbFile.Checker, w: World, x: Xorb, rows: seq<XorbFile.Row>, b: seq<byte>,
                  name: string) {
    && (forall t: nat :: w(t).rows(x) == Some(rows) && Keeps(w(t), x, Some(b)))
    && XorbFile.SoundXorb(k, rows, b, |b|, name) && RowsMatch(rows, x.chunks)
  }

  /** A xorb that passes the check of a whole xorb loses no read anything, as long as
      it stays as it is. */
  lemma SoundXorbStays(k: XorbFile.Checker, w: World, x: Xorb, rows: seq<XorbFile.Row>, b: seq<byte>, name: string)
    requires StaysSound(k, w, x, rows, b, name)
    ensures Readable(ChecksOf(k), w, x, File(rows, (t: nat) => Some(b)))
  {
    var f := File(rows, (t: nat) => Some(b));
    AllSoundSit(k, rows, b, |rows|);
    forall t: nat, row | row in f.rows ensures Obtainable(ChecksOf(k), w, t, x, f.bytes(t), row) {
      var i :| 0 <= i < |rows| && rows[i] == row;
      SitsAt(ChecksOf(k), rows, b, |rows|, i);
    }
  }

  /** Reading a range of uploaded content, over any run of the protocol and any
      backend: it ends clean only with exactly the bytes uploaded there, and does so
      while the blob's xorbs keep their rows and each of its chunks is sound somewhere. */
  method ReadBack(gear: Gear, k: XorbFile.Checker, ghost orig: Originals, ghost content: seq<byte>, w: World,
                  from: nat, stop: nat, buffer: nat, ghost lay: Protocol.Layouts, ghost states: seq<Protocol.State>,
                  ghost steps: seq<Protocol.Step>, ghost at: nat -> nat, ghost st: Story)
    returns (data: seq<byte>, e: ReadError)
    requires Binding(k.hash, orig, Cuts(gear, content)) && from < stop <= |content| && buffer > 0
    requires Protocol.Run(lay, states, steps)
    requires ReadsFrom(w, states, at, Protocol.Blob(ChunksOf(k.hash, Cuts(gear, content))))
    ensures IsPrefix(data, content[from..stop])
    ensures e == Eof ==> data == content[from..stop]
    ensures Healthy(ChecksOf(k), w, st) ==> e == Eof
  {
    ghost var chunks := ChunksOf(k.hash, Cuts(gear, content));
    ChecksAreHonest(k);
    ChunksStandForContent(gear, ChecksOf(k), orig, content);
    ReadsAreConsistent(lay, states, steps, w, at, Protocol.Blob(chunks));
    assert Part(content, from, stop) == content[from..stop];
    var r := Open(Job(ChecksOf(k), w, from, stop), orig, chunks, st, 0, None);
    if r.Err? { return [], r.error; }
    data, e := ReadAll(r.value, buffer);
  }
}
