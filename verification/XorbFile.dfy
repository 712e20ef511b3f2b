/** A xorb as stored bytes and rows: the check of one chunk, the check of a whole
    xorb, and the serialisation that passes it. */
module XorbFile {
  import opened Bytes
  import opened Arith
  import opened ChunkCodec
  import opened Limits
  import opened Wrappers
  import Merkle

  /** What the database records of one stored chunk. */
  datatype Row = Row(hash: string, offset: nat, length: nat, size: nat)

  /** What a check depends on. recorded says whether a key name is one some
      instance was configured with, or None if that could not be looked up. */
  datatype Checker = Checker(
    p: Primitives,
    hash: seq<byte> -> string,
    node: Merkle.NodeHash,
    keys: Option<Keyring>,
    recorded: seq<byte> -> Option<bool>)

  /** A chunk is sound with its bytes, or damaged, or could not be checked. */
  datatype Verdict = Sound(raw: seq<byte>) | Damaged | CannotCheck

  function Verify(k: Checker, b: seq<byte>, row: Row): (v: Verdict)
    ensures v.Sound? ==> |b| == row.length && |v.raw| == row.size && k.hash(v.raw) == row.hash
  {
    if |b| != row.length then Damaged
    else
      match Decode(k.p, b, row.size, row.hash, k.keys)
      case Ok(raw) => if k.hash(raw) != row.hash then Damaged else Sound(raw)
      case Err(MissingKey(id)) =>
        if k.recorded(id).None? || k.recorded(id).value then CannotCheck else Damaged
      case Err(_) => Damaged
  }

  // ---------------------------------------------------------------------
  // A sound xorb
  // ---------------------------------------------------------------------

  function LengthTo(rows: seq<Row>, n: nat): nat
    requires n <= |rows|
  {
    if n == 0 then 0 else LengthTo(rows, n - 1) + rows[n - 1].length
  }

  /** Each of the first n rows starts where the one before it ends, the first at 0. */
  predicate EndToEnd(rows: seq<Row>, n: nat)
    requires n <= |rows|
  {
    n == 0 || (EndToEnd(rows, n - 1) && rows[n - 1].offset == LengthTo(rows, n - 1))
  }

  /** The row's chunk is in b, and passes its check there. */
  predicate ChunkSound(k: Checker, b: seq<byte>, row: Row) {
    row.offset + row.length <= |b| && Verify(k, b[row.offset..row.offset + row.length], row).Sound?
  }

  predicate AllSound(k: Checker, rows: seq<Row>, b: seq<byte>, n: nat)
    requires n <= |rows|
  {
    n == 0 || (AllSound(k, rows, b, n - 1) && ChunkSound(k, b, rows[n - 1]))
  }

  lemma {:induction false} SoundAt(k: Checker, rows: seq<Row>, b: seq<byte>, n: nat, i: nat)
    requires i < n <= |rows| && AllSound(k, rows, b, n)
    ensures ChunkSound(k, b, rows[i])
  {
    if i < n - 1 {
      SoundAt(k, rows, b, n - 1, i);
    }
  }

  lemma {:induction false} EndToEndAt(rows: seq<Row>, n: nat, i: nat)
    requires i < n <= |rows| && EndToEnd(rows, n)
    ensures rows[i].offset == LengthTo(rows, i)
  {
    if i < n - 1 {
      EndToEndAt(rows, n - 1, i);
    }
  }

  predicate Parses(s: string, d: Merkle.Digest) {
    |s| == 64 && Merkle.IsHex(s) && Merkle.XetHex(d) == Merkle.Lower(s)
  }

  predicate NodesOf(rows: seq<Row>, nodes: seq<Merkle.HashedSize>) {
    && |nodes| == |rows|
    && forall i :: 0 <= i < |rows| ==> Parses(rows[i].hash, nodes[i].hash) && nodes[i].size == rows[i].size % WORD
  }

  /** The chunks' hashes and sizes are what the name is the Merkle root of. */
  ghost predicate Names(node: Merkle.NodeHash, rows: seq<Row>, name: string) {
    exists nodes :: NodesOf(rows, nodes) && nodes != [] && name == Merkle.XetHex(Merkle.Root(node, nodes))
  }

  /** Everything the rows say about the bytes is so. */
  ghost predicate SoundXorb(k: Checker, rows: seq<Row>, b: seq<byte>, size: int, name: string) {
    && |b| == size
    && EndToEnd(rows, |rows|) && LengthTo(rows, |rows|) == |b|
    && AllSound(k, rows, b, |rows|)
    && Names(k.node, rows, name)
  }

  lemma NodesUnique(rows: seq<Row>, a: seq<Merkle.HashedSize>, b: seq<Merkle.HashedSize>)
    requires NodesOf(rows, a) && NodesOf(rows, b)
    ensures a == b
  {
    forall i | 0 <= i < |rows| ensures a[i] == b[i] {
      assert Parses(rows[i].hash, a[i].hash) && Parses(rows[i].hash, b[i].hash);
      Merkle.XetHexInjective(a[i].hash, b[i].hash);
    }
  }

  lemma {:induction false} LengthGrows(rows: seq<Row>, i: nat, j: nat)
    requires i <= j <= |rows|
    ensures LengthTo(rows, i) <= LengthTo(rows, j)
  {
    if i < j {
      LengthGrows(rows, i, j - 1);
    }
  }

  datatype Check = Passed | Failed | NotMade

  predicate Unreadable(k: Checker, b: seq<byte>, row: Row) {
    row.offset + row.length <= |b| && Verify(k, b[row.offset..row.offset + row.length], row).CannotCheck?
  }

  method CheckChunk(k: Checker, b: seq<byte>, c: Row) returns (r: Check)
    requires c.offset + c.length <= |b|
    ensures r == Passed <==> ChunkSound(k, b, c)
    ensures r == NotMade <==> Unreadable(k, b, c)
  {
    match Verify(k, b[c.offset..c.offset + c.length], c)
    case Sound(_) => r := Passed;
    case Damaged => r := Failed;
    case CannotCheck => r := NotMade;
  }

  /** What a chunk that decodes so is found to be: damage if it does not decode or not
      to its hash, and not checked if its key is missing, unless nobody ever had one so named. */
  predicate Finds(k: Checker, c: Row, decoded: Result<seq<byte>, DecodeError>, r: Check) {
    match decoded
    case Ok(raw) => r == if k.hash(raw) == c.hash then Passed else Failed
    case Err(MissingKey(id)) => r == if k.recorded(id) == Some(false) then Failed else NotMade
    case Err(_) => r == Failed
  }

  /** What the check of one chunk rests on. */
  lemma ChecksDecoding(k: Checker, b: seq<byte>, c: Row)
    requires c.offset + c.length <= |b|
    ensures var d := Decode(k.p, b[c.offset..c.offset + c.length], c.size, c.hash, k.keys);
      && (ChunkSound(k, b, c) <==> Finds(k, c, d, Passed))
      && (Unreadable(k, b, c) <==> Finds(k, c, d, NotMade))
  {
  }

  /** One chunk out of place, or not sound, is enough to fail the xorb. */
  lemma NoneAfter(k: Checker, rows: seq<Row>, b: seq<byte>, i: nat)
    requires i < |rows|
    ensures rows[i].offset != LengthTo(rows, i) ==> !EndToEnd(rows, |rows|)
    ensures !ChunkSound(k, b, rows[i]) ==> !AllSound(k, rows, b, |rows|)
  {
    if EndToEnd(rows, |rows|) {
      EndToEndAt(rows, |rows|, i);
    }
    if AllSound(k, rows, b, |rows|) {
      SoundAt(k, rows, b, |rows|, i);
    }
  }

  /** The row follows the one before it, within b, and can be checked, and has a hash that parses. */
  predicate Checkable(k: Checker, rows: seq<Row>, b: seq<byte>, i: nat)
    requires i < |rows|
  {
    Follows(rows, b, i) && !Unreadable(k, b, rows[i]) && |rows[i].hash| == 64 && Merkle.IsHex(rows[i].hash)
  }

  predicate Follows(rows: seq<Row>, b: seq<byte>, i: nat)
    requires i < |rows|
  {
    rows[i].offset == LengthTo(rows, i) && rows[i].offset + rows[i].length <= |b|
  }

  predicate CheckableTo(k: Checker, rows: seq<Row>, b: seq<byte>, n: nat)
    requires n <= |rows|
  {
    n == 0 || (CheckableTo(k, rows, b, n - 1) && Checkable(k, rows, b, n - 1))
  }

  /** Chunk i is where it should be but cannot be checked, and all before it can be. */
  predicate FirstUnread(k: Checker, rows: seq<Row>, b: seq<byte>, i: nat)
    requires i < |rows|
  {
    CheckableTo(k, rows, b, i) && Follows(rows, b, i) && Unreadable(k, b, rows[i])
  }

  lemma {:induction false} CheckableAt(k: Checker, rows: seq<Row>, b: seq<byte>, n: nat, i: nat)
    requires i < n <= |rows| && CheckableTo(k, rows, b, n)
    ensures Checkable(k, rows, b, i)
  {
    if i < n - 1 {
      CheckableAt(k, rows, b, n - 1, i);
    }
  }

  /** With all chunks before i checkable and i not one to stop at unread, none is. */
  lemma NoneUnread(k: Checker, rows: seq<Row>, b: seq<byte>, i: nat)
    requires i < |rows| && CheckableTo(k, rows, b, i) && !Checkable(k, rows, b, i) && !FirstUnread(k, rows, b, i)
    ensures forall j :: 0 <= j < |rows| ==> !FirstUnread(k, rows, b, j)
  {
    forall j | 0 <= j < |rows| ensures !FirstUnread(k, rows, b, j) {
      if j < i {
        CheckableAt(k, rows, b, i, j);
      } else if i < j && CheckableTo(k, rows, b, j) {
        CheckableAt(k, rows, b, j, i);
      }
    }
  }

  lemma AllChecked(k: Checker, rows: seq<Row>, b: seq<byte>)
    requires CheckableTo(k, rows, b, |rows|)
    ensures forall j :: 0 <= j < |rows| ==> !FirstUnread(k, rows, b, j)
  {
    forall j | 0 <= j < |rows| ensures !FirstUnread(k, rows, b, j) {
      CheckableAt(k, rows, b, |rows|, j);
    }
  }

  /** Reads a xorb whole and checks everything its rows say about it. */
  method CheckXorb(k: Checker, rows: seq<Row>, b: seq<byte>, size: int, name: string) returns (r: Check)
    ensures r == Passed <==> SoundXorb(k, rows, b, size, name)
    ensures r == NotMade <==> |b| == size && exists i :: 0 <= i < |rows| && FirstUnread(k, rows, b, i)
  {
    if |b| != size { return Failed; }
    var at, bad := 0, 0;
    var nodes: seq<Merkle.HashedSize> := [];
    for i := 0 to |rows|
      invariant at == LengthTo(rows, i) <= |b| && EndToEnd(rows, i)
      invariant bad >= 0 && (bad == 0 <==> AllSound(k, rows, b, i))
      invariant NodesOf(rows[..i], nodes) && CheckableTo(k, rows, b, i)
    {
      var c := rows[i];
      assert LengthTo(rows, i + 1) == at + c.length;
      LengthGrows(rows, i + 1, |rows|);
      if c.offset != at || c.offset + c.length > |b| {
        NoneAfter(k, rows, b, i);
        NoneUnread(k, rows, b, i);
        return Failed;
      }
      var v := CheckChunk(k, b, c);
      if v == NotMade {
        NoneAfter(k, rows, b, i);
        assert FirstUnread(k, rows, b, i);
        return NotMade;
      }
      if v == Failed {
        bad := bad + 1;
      }
      at := at + c.length;
      var node := ParseNode(c);
      if node.None? {
        NamesParse(k, rows, name, i);
        NoneUnread(k, rows, b, i);
        return Failed;
      }
      MoreNodes(rows, nodes, i, node.value);
      nodes := nodes + [node.value];
    }
    assert rows[..|rows|] == rows;
    AllChecked(k, rows, b);
    if bad > 0 || at != |b| { return Failed; }
    var named := CheckName(k.node, rows, nodes, name);
    return if named then Passed else Failed;
  }

  method CheckName(node: Merkle.NodeHash, rows: seq<Row>, nodes: seq<Merkle.HashedSize>, name: string)
    returns (ok: bool)
    requires NodesOf(rows, nodes)
    ensures ok <==> Names(node, rows, name)
  {
    if |rows| == 0 { return false; }
    var root := Merkle.XorbHash(node, nodes);
    var actual := Merkle.WriteXetHex(root);
    ok := actual == name;
    if Names(node, rows, name) {
      ghost var other: seq<Merkle.HashedSize> :|
        NodesOf(rows, other) && other != [] && name == Merkle.XetHex(Merkle.Root(node, other));
      NodesUnique(rows, nodes, other);
    }
  }

  lemma NamesParse(k: Checker, rows: seq<Row>, name: string, i: nat)
    requires i < |rows|
    ensures Names(k.node, rows, name) ==> |rows[i].hash| == 64 && Merkle.IsHex(rows[i].hash)
  {
  }

  method ParseNode(c: Row) returns (node: Option<Merkle.HashedSize>)
    ensures node.None? <==> !(|c.hash| == 64 && Merkle.IsHex(c.hash))
    ensures node.Some? ==> Parses(c.hash, node.value.hash) && node.value.size == c.size % WORD
  {
    var sum := Merkle.ParseXetHex(c.hash);
    if sum.None? { return None; }
    return Some(Merkle.HashedSize(sum.value, c.size % WORD));
  }

  lemma MoreNodes(rows: seq<Row>, nodes: seq<Merkle.HashedSize>, i: nat, node: Merkle.HashedSize)
    requires i < |rows| && NodesOf(rows[..i], nodes)
    requires Parses(rows[i].hash, node.hash) && node.size == rows[i].size % WORD
    ensures NodesOf(rows[..i + 1], nodes + [node])
  {
    assert rows[..i + 1] == rows[..i] + [rows[i]];
  }

  // ---------------------------------------------------------------------
  // Serialising one
  // ---------------------------------------------------------------------

  /** Chunks stored one after another, each sound, with their rows. */
  predicate Serialised(k: Checker, rows: seq<Row>, b: seq<byte>) {
    EndToEnd(rows, |rows|) && LengthTo(rows, |rows|) == |b| && AllSound(k, rows, b, |rows|)
  }

  /** Appending a sound chunk and its row keeps a serialisation one. */
  lemma AppendKeepsSerialised(k: Checker, rows: seq<Row>, b: seq<byte>, stored: seq<byte>, row: Row)
    requires Serialised(k, rows, b)
    requires row.offset == |b| && Verify(k, stored, row).Sound?
    ensures Serialised(k, rows + [row], b + stored)
  {
    var n, more := |rows|, rows + [row];
    SamePrefix(k, rows, more, b, b + stored, n);
    SoundAtEnd(k, b, stored, row);
    assert more[n] == row;
    OneMore(k, more, b + stored, n);
  }

  lemma SoundAtEnd(k: Checker, b: seq<byte>, stored: seq<byte>, row: Row)
    requires row.offset == |b| && Verify(k, stored, row).Sound?
    ensures ChunkSound(k, b + stored, row)
  {
    assert (b + stored)[row.offset..row.offset + row.length] == stored;
  }

  lemma OneMore(k: Checker, rows: seq<Row>, b: seq<byte>, n: nat)
    requires |rows| == n + 1 && EndToEnd(rows, n) && AllSound(k, rows, b, n)
    requires rows[n].offset == LengthTo(rows, n) && LengthTo(rows, n) + rows[n].length == |b|
    requires ChunkSound(k, b, rows[n])
    ensures Serialised(k, rows, b)
  {
  }

  /** What the first n rows say of b they still say once more follows. */
  lemma {:induction false} SamePrefix(k: Checker, rows: seq<Row>, more: seq<Row>, b: seq<byte>, longer: seq<byte>,
                  n: nat)
    requires n <= |rows| <= |more| && more[..|rows|] == rows && |b| <= |longer| && longer[..|b|] == b
    ensures LengthTo(more, n) == LengthTo(rows, n)
    ensures EndToEnd(rows, n) ==> EndToEnd(more, n)
    ensures AllSound(k, rows, b, n) ==> AllSound(k, more, longer, n)
  {
    if n > 0 {
      SamePrefix(k, rows, more, b, longer, n - 1);
      assert more[n - 1] == rows[n - 1];
      SoundInLonger(k, b, longer, rows[n - 1]);
    }
  }

  lemma SoundInLonger(k: Checker, b: seq<byte>, longer: seq<byte>, row: Row)
    requires |b| <= |longer| && longer[..|b|] == b
    ensures ChunkSound(k, b, row) ==> ChunkSound(k, longer, row)
  {
    if ChunkSound(k, b, row) {
      SliceOfPrefix(b, longer, row.offset, row.offset + row.length);
      assert longer[row.offset..row.offset + row.length] == b[row.offset..row.offset + row.length];
    }
  }

  /** A chunk written now is sound when it is read back. */
  lemma WrittenIsSound(k: Checker, raw: seq<byte>, hash: string, nonce: seq<byte>, row: Row)
    requires Lawful(k.p) && ValidKeys(k.keys) && |nonce| == NONCE && |raw| <= MAX_CHUNK
    requires k.hash(raw) == hash == row.hash && row.size == |raw|
    requires row.length == |Encode(k.p, raw, hash, k.keys, nonce)|
    ensures Verify(k, Encode(k.p, raw, hash, k.keys, nonce), row) == Sound(raw)
  {
    assert k.keys.Some? ==> ValidKeyring(k.keys.value);
    ChunksRoundTrip(k.p, raw, hash, k.keys, k.keys, nonce);
  }

  /** A sealed chunk read without its key could not be checked, unless no instance was
      ever configured with such a key: then its name is damage. */
  lemma MissingKeyIs(k: Checker, raw: seq<byte>, hash: string, written: Keyring, nonce: seq<byte>, row: Row)
    requires Lawful(k.p) && ValidKeyring(written) && |nonce| == NONCE && |raw| <= MAX_CHUNK
    requires row.hash == hash && row.size == |raw|
    requires row.length == |Encode(k.p, raw, hash, Some(written), nonce)|
    requires k.keys.Some? ==> written.current !in k.keys.value.ids
    ensures Verify(k, Encode(k.p, raw, hash, Some(written), nonce), row) ==
      if k.recorded(written.current) == Some(false) then Damaged else CannotCheck
  {
    WithoutItsKey(k.p, raw, hash, written, k.keys, nonce);
  }

  /** A serialisation named by its chunks passes the check of a whole xorb. */
  lemma SerialisedPasses(k: Checker, rows: seq<Row>, b: seq<byte>, name: string)
    requires Serialised(k, rows, b) && Names(k.node, rows, name)
    ensures SoundXorb(k, rows, b, |b|, name)
  {
  }
}
