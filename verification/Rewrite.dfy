/** Rewriting a xorb without its dead chunks: which are kept, from where, and why
    the result is sound. */
module Rewrite {
  import opened Bytes
  import opened Arith
  import opened ChunkCodec
  import opened Compaction
  import opened Limits
  import opened Terms
  import opened Wrappers
  import opened XorbFile
  import Merkle

  /** The xorb being compacted, as its rows and terms describe it. */
  datatype Use = Use(rows: seq<Row>, live: seq<bool>, size: int, damaged: bool)

  /** What rewriting came to: nothing to do, why it failed, or the new xorb and
      where it holds each old chunk. */
  datatype Rewritten = Left | NoSoundCopy | NotChecked | BadHash
    | Into(name: string, rows: seq<Row>, bytes: seq<byte>, index: seq<int>)

  /** raw is the chunk the row names. */
  predicate IsChunk(k: Checker, row: Row, raw: seq<byte>) {
    k.hash(raw) == row.hash && |raw| == row.size
  }

  /** The name of the key content is sealed under, empty when it is in the clear. */
  function CurrentKey(keys: Option<Keyring>): seq<byte> {
    if keys.None? then [] else keys.value.current
  }

  function KeyName(b: seq<byte>): seq<byte> {
    if ChunkKeyId(b).None? then [] else ChunkKeyId(b).value
  }

  function ChunkList(rows: seq<Row>): (r: seq<Chunk>)
    ensures |r| == |rows| && forall i :: 0 <= i < |rows| ==> r[i] == Chunk(rows[i].hash, rows[i].size)
  {
    seq(|rows|, i requires 0 <= i < |rows| => Chunk(rows[i].hash, rows[i].size))
  }

  predicate UnderKey(key: seq<byte>, b: seq<byte>, row: Row) {
    row.offset + row.length <= |b| && KeyName(b[row.offset..row.offset + row.length]) == key
  }

  predicate AllUnderKey(key: seq<byte>, rows: seq<Row>, b: seq<byte>, n: nat)
    requires n <= |rows|
  {
    n == 0 || (AllUnderKey(key, rows, b, n - 1) && UnderKey(key, b, rows[n - 1]))
  }

  lemma {:induction false} UnderKeySoFar(key: seq<byte>, rows: seq<Row>, more: seq<Row>, b: seq<byte>,
                  longer: seq<byte>, n: nat)
    requires n <= |rows| <= |more| && more[..|rows|] == rows && |b| <= |longer| && longer[..|b|] == b
    ensures AllUnderKey(key, rows, b, n) ==> AllUnderKey(key, more, longer, n)
  {
    if n > 0 {
      UnderKeySoFar(key, rows, more, b, longer, n - 1);
      var row := rows[n - 1];
      assert more[n - 1] == row;
      if row.offset + row.length <= |b| {
        SliceOfPrefix(b, longer, row.offset, row.offset + row.length);
      }
    }
  }

  function LiveBytes(use: Use, n: nat): nat
    requires |use.live| == |use.rows| && n <= |use.rows|
  {
    if n == 0 then 0 else LiveBytes(use, n - 1) + if use.live[n - 1] then use.rows[n - 1].length else 0
  }

  /** Whether there is anything to rewrite: some chunk is live, some is not, and
      enough is dead, or the xorb is damaged. */
  predicate WorthRewriting(use: Use, percent: int)
    requires |use.live| == |use.rows|
  {
    var live := LiveBytes(use, |use.rows|);
    && live > 0
    && (exists i :: 0 <= i < |use.live| && !use.live[i])
    && (use.damaged || live * 100 < use.size * percent)
  }

  method LiveTotal(use: Use) returns (live: nat, allLive: bool)
    requires |use.live| == |use.rows|
    ensures live == LiveBytes(use, |use.rows|)
    ensures allLive <==> live > 0 && forall i :: 0 <= i < |use.live| ==> use.live[i]
  {
    live := 0;
    for i := 0 to |use.rows|
      invariant live == LiveBytes(use, i)
    {
      if use.live[i] {
        live := live + use.rows[i].length;
      }
    }
    allLive := live > 0;
    for i := 0 to |use.live|
      invariant allLive <==> live > 0 && forall j :: 0 <= j < i ==> use.live[j]
    {
      allLive := allLive && use.live[i];
    }
  }

  /** The live ones of the first n chunks. */
  function KeptTo<T>(s: seq<T>, live: seq<bool>, n: nat): seq<T>
    requires |s| == |live| && n <= |s|
  {
    if n == 0 then [] else KeptTo(s, live, n - 1) + if live[n - 1] then [s[n - 1]] else []
  }

  lemma {:induction false} KeptToIsKept<T>(s: seq<T>, live: seq<bool>, n: nat)
    requires |s| == |live| && n <= |s|
    ensures KeptTo(s, live, n) == Kept(s[..n], live[..n])
  {
    if n > 0 {
      KeptToIsKept(s, live, n - 1);
      assert s[..n][..n - 1] == s[..n - 1] && live[..n][..n - 1] == live[..n - 1];
    }
  }

  /** The new xorb so far: the live ones of the first n chunks, sound and all under
      the current key. */
  predicate KeptSoFar(k: Checker, use: Use, n: nat, rows: seq<Row>, b: seq<byte>)
    requires |use.live| == |use.rows| && n <= |use.rows|
  {
    && Serialised(k, rows, b)
    && AllUnderKey(CurrentKey(k.keys), rows, b, |rows|)
    && ChunkList(rows) == KeptTo(ChunkList(use.rows), use.live, n)
  }

  lemma KeptNone(k: Checker, use: Use)
    requires |use.live| == |use.rows|
    ensures KeptSoFar(k, use, 0, [], [])
  {
    assert ChunkList([]) == [];
  }

  lemma DropDead(k: Checker, use: Use, n: nat, rows: seq<Row>, b: seq<byte>)
    requires |use.live| == |use.rows| && n < |use.rows| && !use.live[n] && KeptSoFar(k, use, n, rows, b)
    ensures KeptSoFar(k, use, n + 1, rows, b)
  {
  }

  lemma MoreUnderKey(key: seq<byte>, rows: seq<Row>, b: seq<byte>, stored: seq<byte>, row: Row)
    requires AllUnderKey(key, rows, b, |rows|)
    requires row.offset == |b| && row.length == |stored| && KeyName(stored) == key
    ensures AllUnderKey(key, rows + [row], b + stored, |rows| + 1)
  {
    UnderKeySoFar(key, rows, rows + [row], b, b + stored, |rows|);
    LastUnderKey(key, rows, b, stored, row);
  }

  lemma KeepLive(k: Checker, use: Use, n: nat, rows: seq<Row>, b: seq<byte>, stored: seq<byte>, row: Row)
    requires |use.live| == |use.rows| && n < |use.rows| && use.live[n] && KeptSoFar(k, use, n, rows, b)
    requires row == Row(use.rows[n].hash, |b|, |stored|, use.rows[n].size)
    requires Verify(k, stored, row).Sound? && KeyName(stored) == CurrentKey(k.keys)
    ensures KeptSoFar(k, use, n + 1, rows + [row], b + stored)
  {
    AppendKeepsSerialised(k, rows, b, stored, row);
    MoreUnderKey(CurrentKey(k.keys), rows, b, stored, row);
    assert ChunkList(rows + [row]) == ChunkList(rows) + [ChunkList(use.rows)[n]];
  }

  lemma LastUnderKey(key: seq<byte>, rows: seq<Row>, b: seq<byte>, stored: seq<byte>, row: Row)
    requires row.offset == |b| && row.length == |stored| && KeyName(stored) == key
    ensures UnderKey(key, b + stored, (rows + [row])[|rows|])
  {
    assert (b + stored)[row.offset..row.offset + row.length] == stored;
  }

  /** b is sound as the row's chunk, wherever it is put. */
  predicate SoundAs(k: Checker, b: seq<byte>, row: Row) {
    Verify(k, b, Row(row.hash, 0, |b|, row.size)).Sound?
  }

  lemma SoundAnywhere(k: Checker, b: seq<byte>, row: Row, at: nat)
    requires SoundAs(k, b, row)
    ensures Verify(k, b, Row(row.hash, at, |b|, row.size)).Sound?
  {
  }

  /** The chunk is there but cannot be checked: it may be sealed under a key that is missing. */
  predicate Unreadable(k: Checker, stored: seq<byte>, row: Row) {
    && row.offset + row.length <= |stored|
    && Verify(k, stored[row.offset..row.offset + row.length], row).CannotCheck?
  }

  /** The chunk is sound as stored, and under the current key. */
  predicate StaysAsIs(k: Checker, stored: seq<byte>, row: Row) {
    && ChunkSound(k, stored, row)
    && KeyName(stored[row.offset..row.offset + row.length]) == CurrentKey(k.keys)
  }

  /** Neither the xorb nor any other holds the chunk sound. */
  predicate Gone(k: Checker, stored: seq<byte>, row: Row, copy: Option<seq<byte>>) {
    copy.None? && !ChunkSound(k, stored, row) && !Unreadable(k, stored, row)
  }

  /** The chunk's content as a commit would store it now. */
  ghost predicate EncodedAgain(k: Checker, row: Row, nonce: seq<byte>, stored: seq<byte>)
    requires ValidKeys(k.keys)
  {
    exists raw :: IsChunk(k, row, raw) && stored == Encode(k.p, raw, row.hash, k.keys, nonce)
  }

  /** A chunk stored under some keys, or none, stays as it is exactly when its key is the
      current one. */
  lemma StaysIffCurrent(k: Checker, row: Row, raw: seq<byte>, written: Option<Keyring>, nonce: seq<byte>)
    requires Lawful(k.p) && ValidKeys(written) && ValidKeys(k.keys) && CanRead(written, k.keys) && |nonce| == NONCE
    requires IsChunk(k, row, raw) && row.size <= MAX_CHUNK && row.offset == 0
    requires row.length == |Encode(k.p, raw, row.hash, written, nonce)|
    ensures StaysAsIs(k, Encode(k.p, raw, row.hash, written, nonce), row) <==>
      (written.None? && k.keys.None?)
      || (written.Some? && k.keys.Some? && written.value.current == k.keys.value.current)
  {
    var b := Encode(k.p, raw, row.hash, written, nonce);
    EncodedKeyId(k.p, raw, row.hash, written, nonce);
    ChunksRoundTrip(k.p, raw, row.hash, written, k.keys, nonce);
    assert b[row.offset..row.offset + row.length] == b;
  }

  /** One live chunk as the new xorb stores it: its bytes as they are when they are
      sound and under the current key, else its content encoded again, from a sound
      copy elsewhere if need be. */
  method Restore(k: Checker, row: Row, stored: seq<byte>, copy: Option<seq<byte>>, nonce: seq<byte>)
    returns (r: Result<seq<byte>, Rewritten>)
    requires Lawful(k.p) && ValidKeys(k.keys) && |nonce| == NONCE && row.size <= MAX_CHUNK
    requires copy.Some? ==> IsChunk(k, row, copy.value)
    ensures r.Ok? ==> KeyName(r.value) == CurrentKey(k.keys)
    ensures r.Ok? ==> SoundAs(k, r.value, row)
    ensures StaysAsIs(k, stored, row) ==> r == Ok(stored[row.offset..row.offset + row.length])
    ensures r.Ok? && !StaysAsIs(k, stored, row) ==> EncodedAgain(k, row, nonce, r.value)
    ensures r == Err(NotChecked) <==> Unreadable(k, stored, row)
    ensures r == Err(NoSoundCopy) <==> Gone(k, stored, row, copy)
    ensures r.Err? ==> r.error == NoSoundCopy || r.error == NotChecked
  {
    if row.offset + row.length <= |stored| {
      var b := stored[row.offset..row.offset + row.length];
      var v := Verify(k, b, row);
      if v.CannotCheck? { return Err(NotChecked); }
      if v.Sound? {
        if KeyName(b) == CurrentKey(k.keys) {
          return Ok(b);
        }
        var enc := Reencode(k, row, v.raw, nonce);
        return Ok(enc);
      }
    }
    if copy.None? { return Err(NoSoundCopy); }
    var enc := Reencode(k, row, copy.value, nonce);
    return Ok(enc);
  }

  method Reencode(k: Checker, row: Row, raw: seq<byte>, nonce: seq<byte>) returns (enc: seq<byte>)
    requires Lawful(k.p) && ValidKeys(k.keys) && |nonce| == NONCE && row.size <= MAX_CHUNK
    requires IsChunk(k, row, raw)
    ensures KeyName(enc) == CurrentKey(k.keys)
    ensures SoundAs(k, enc, row) && enc == Encode(k.p, raw, row.hash, k.keys, nonce)
  {
    enc := AppendChunk(k.p, [], raw, row.hash, k.keys, nonce);
    assert enc == Encode(k.p, raw, row.hash, k.keys, nonce);
    EncodedKeyId(k.p, raw, row.hash, k.keys, nonce);
    WrittenIsSound(k, raw, row.hash, nonce, Row(row.hash, 0, |enc|, row.size));
  }

  /** The new xorb as far as it has been filled. */
  datatype Draft = Draft(rows: seq<Row>, bytes: seq<byte>, nodes: seq<Merkle.HashedSize>, index: seq<int>)

  predicate Drafted(k: Checker, use: Use, n: nat, d: Draft)
    requires |use.live| == |use.rows| && n <= |use.rows|
  {
    && KeptSoFar(k, use, n, d.rows, d.bytes)
    && |d.nodes| == |d.rows| && Noded(d.rows, d.nodes, |d.rows|)
    && |d.rows| == Rank(use.live, n)
    && Ranked(use.live, n, d.index)
  }

  /** index holds the first n entries of the rank table. */
  predicate Ranked(live: seq<bool>, n: nat, index: seq<int>)
    requires n <= |live|
  {
    |index| == n && forall j :: 0 <= j < n ==> index[j] == if live[j] then Rank(live, j) else -1
  }

  lemma RankNext(live: seq<bool>, n: nat, index: seq<int>)
    requires n < |live| && Ranked(live, n, index)
    ensures Ranked(live, n + 1, index + [if live[n] then Rank(live, n) else -1])
    ensures Rank(live, n + 1) == Rank(live, n) + if live[n] then 1 else 0
  {
  }

  lemma StartDraft(k: Checker, use: Use)
    requires |use.live| == |use.rows|
    ensures Drafted(k, use, 0, Draft([], [], [], []))
  {
    KeptNone(k, use);
  }

  lemma DraftKeeps(k: Checker, use: Use, n: nat, d: Draft, stored: seq<byte>, node: Merkle.HashedSize)
    requires |use.live| == |use.rows| && n < |use.rows| && use.live[n] && Drafted(k, use, n, d)
    requires SoundAs(k, stored, use.rows[n]) && KeyName(stored) == CurrentKey(k.keys)
    requires Parses(use.rows[n].hash, node.hash) && node.size == use.rows[n].size % WORD
    ensures var row := Row(use.rows[n].hash, |d.bytes|, |stored|, use.rows[n].size);
      Drafted(k, use, n + 1, Draft(d.rows + [row], d.bytes + stored, d.nodes + [node], d.index + [|d.rows|]))
  {
    var row := Row(use.rows[n].hash, |d.bytes|, |stored|, use.rows[n].size);
    SoundAnywhere(k, stored, use.rows[n], |d.bytes|);
    KeepLive(k, use, n, d.rows, d.bytes, stored, row);
    NodedSoFar(d.rows, d.nodes, row, node, |d.rows|);
    RankNext(use.live, n, d.index);
  }

  lemma DraftDrops(k: Checker, use: Use, n: nat, d: Draft)
    requires |use.live| == |use.rows| && n < |use.rows| && !use.live[n] && Drafted(k, use, n, d)
    ensures Drafted(k, use, n + 1, d.(index := d.index + [-1]))
  {
    DropDead(k, use, n, d.rows, d.bytes);
    RankNext(use.live, n, d.index);
  }

  /** The first n nodes are of the first n rows' hashes and sizes. */
  predicate Noded(rows: seq<Row>, nodes: seq<Merkle.HashedSize>, n: nat)
    requires n <= |rows| == |nodes|
  {
    n == 0 || (Noded(rows, nodes, n - 1) && IsNode(rows[n - 1], nodes[n - 1]))
  }

  predicate IsNode(row: Row, node: Merkle.HashedSize) {
    Parses(row.hash, node.hash) && node.size == row.size % WORD
  }

  lemma {:induction false} NodedSoFar(rows: seq<Row>, nodes: seq<Merkle.HashedSize>, row: Row,
                  node: Merkle.HashedSize, n: nat)
    requires n <= |rows| == |nodes| && Noded(rows, nodes, n)
    ensures Noded(rows + [row], nodes + [node], n)
  {
    if n > 0 {
      NodedSoFar(rows, nodes, row, node, n - 1);
    }
  }

  lemma {:induction false} NodedAt(rows: seq<Row>, nodes: seq<Merkle.HashedSize>, n: nat, i: nat)
    requires i < n <= |rows| == |nodes| && Noded(rows, nodes, n)
    ensures IsNode(rows[i], nodes[i])
  {
    if i < n - 1 {
      NodedAt(rows, nodes, n - 1, i);
    }
  }

  lemma NodedIsNodesOf(rows: seq<Row>, nodes: seq<Merkle.HashedSize>)
    requires |rows| == |nodes| && Noded(rows, nodes, |rows|)
    ensures NodesOf(rows, nodes)
  {
    forall i | 0 <= i < |rows| ensures Parses(rows[i].hash, nodes[i].hash) && nodes[i].size == rows[i].size % WORD {
      NodedAt(rows, nodes, |rows|, i);
    }
  }

  predicate HashParses(hash: string) {
    |hash| == 64 && Merkle.IsHex(hash)
  }

  /** Why a live chunk stops the rewrite, if it does. */
  function StopsAt(k: Checker, row: Row, stored: seq<byte>, copy: Option<seq<byte>>): Option<Rewritten> {
    if Unreadable(k, stored, row) then Some(NotChecked)
    else if Gone(k, stored, row, copy) then Some(NoSoundCopy)
    else if !HashParses(row.hash) then Some(BadHash)
    else None
  }

  /** None of the first n chunks, if live, stops the rewrite. */
  predicate NoneStops(k: Checker, use: Use, stored: seq<byte>, copies: nat -> Option<seq<byte>>, n: nat)
    requires |use.live| == |use.rows| && n <= |use.rows|
  {
    n == 0 || (NoneStops(k, use, stored, copies, n - 1) && StopsHere(k, use, stored, copies, n - 1).None?)
  }

  /** Why chunk n stops the rewrite, if it is live and does. */
  function StopsHere(k: Checker, use: Use, stored: seq<byte>, copies: nat -> Option<seq<byte>>,
                  n: nat): Option<Rewritten>
    requires |use.live| == |use.rows| && n < |use.rows|
  {
    if use.live[n] then StopsAt(k, use.rows[n], stored, copies(n)) else None
  }

  lemma {:induction false} NoneStopsBefore(k: Checker, use: Use, stored: seq<byte>, copies: nat -> Option<seq<byte>>,
                  n: nat, i: nat)
    requires |use.live| == |use.rows| && i < n <= |use.rows| && NoneStops(k, use, stored, copies, n)
    ensures StopsHere(k, use, stored, copies, i).None?
  {
    if i < n - 1 {
      NoneStopsBefore(k, use, stored, copies, n - 1, i);
    }
  }

  predicate StoppedAt(k: Checker, use: Use, stored: seq<byte>, copies: nat -> Option<seq<byte>>, n: int, r: Rewritten)
    requires |use.live| == |use.rows| && 0 <= n < |use.rows|
  {
    NoneStops(k, use, stored, copies, n) && StopsHere(k, use, stored, copies, n) == Some(r)
  }

  /** r says why the first live chunk that stops the rewrite does. */
  predicate Stopped(k: Checker, use: Use, stored: seq<byte>, copies: nat -> Option<seq<byte>>, r: Rewritten)
    requires |use.live| == |use.rows|
  {
    exists n :: 0 <= n < |use.rows| && StoppedAt(k, use, stored, copies, n, r)
  }

  lemma StopIsNoRewrite(k: Checker, use: Use, stored: seq<byte>, copies: nat -> Option<seq<byte>>, r: Rewritten)
    requires |use.live| == |use.rows| && Stopped(k, use, stored, copies, r)
    ensures !r.Into? && !r.Left? && !NoneStops(k, use, stored, copies, |use.rows|)
  {
    var n :| 0 <= n < |use.rows| && StoppedAt(k, use, stored, copies, n, r);
    if NoneStops(k, use, stored, copies, |use.rows|) {
      NoneStopsBefore(k, use, stored, copies, |use.rows|, n);
    }
  }

  method KeepChunk(k: Checker, use: Use, n: nat, stored: seq<byte>, copy: Option<seq<byte>>, nonce: seq<byte>, d: Draft)
    returns (r: Result<Draft, Rewritten>)
    requires Lawful(k.p) && ValidKeys(k.keys) && |nonce| == NONCE
    requires |use.live| == |use.rows| && n < |use.rows| && use.rows[n].size <= MAX_CHUNK
    requires copy.Some? ==> IsChunk(k, use.rows[n], copy.value)
    requires use.live[n] && Drafted(k, use, n, d)
    ensures r.Ok? ==> Drafted(k, use, n + 1, r.value)
    ensures StopsAt(k, use.rows[n], stored, copy) == if r.Err? then Some(r.error) else None
  {
    var c := use.rows[n];
    var restored := Restore(k, c, stored, copy, nonce);
    if restored.Err? { return Err(restored.error); }
    var row := Row(c.hash, |d.bytes|, |restored.value|, c.size);
    var node := ParseNode(row);
    if node.None? { return Err(BadHash); }
    DraftKeeps(k, use, n, d, restored.value, node.value);
    r := Ok(Draft(d.rows + [row], d.bytes + restored.value, d.nodes + [node.value], d.index + [|d.rows|]));
  }

  /** Rewrites a xorb without its dead chunks. copies gives a sound copy of a chunk
      held in another xorb, if there is one. */
  method RewriteXorb(k: Checker, use: Use, percent: int, stored: seq<byte>, copies: nat -> Option<seq<byte>>,
                  nonces: nat -> seq<byte>)
    returns (r: Rewritten)
    requires Lawful(k.p) && ValidKeys(k.keys) && (forall i: nat :: |nonces(i)| == NONCE)
    requires |use.live| == |use.rows|
    requires forall i :: 0 <= i < |use.rows| ==> use.rows[i].size <= MAX_CHUNK
    requires forall i :: 0 <= i < |use.rows| && copies(i).Some? ==> IsChunk(k, use.rows[i], copies(i).value)
    ensures r.Left? <==> !WorthRewriting(use, percent)
    ensures r.Into? <==> WorthRewriting(use, percent) && NoneStops(k, use, stored, copies, |use.rows|)
    ensures r.Left? || r.Into? || Stopped(k, use, stored, copies, r)
    ensures r.Into? ==> r.index == RankIndex(use.live)
    ensures r.Into? ==> ChunkList(r.rows) == Kept(ChunkList(use.rows), use.live)
    ensures r.Into? ==> SoundXorb(k, r.rows, r.bytes, |r.bytes|, r.name)
    ensures r.Into? ==> AllUnderKey(CurrentKey(k.keys), r.rows, r.bytes, |r.rows|)
  {
    var live, allLive := LiveTotal(use);
    if live == 0 || allLive || (!use.damaged && live * 100 >= use.size * percent) {
      return Left;
    }
    var d := FillDraft(k, use, stored, copies, nonces);
    if d.Err? {
      StopIsNoRewrite(k, use, stored, copies, d.error);
      return d.error;
    }
    r := NameDraft(k, use, d.value);
  }

  /** Chunk n is kept or dropped. */
  method NextDraft(k: Checker, use: Use, n: nat, stored: seq<byte>, copies: nat -> Option<seq<byte>>,
                  nonce: seq<byte>, d: Draft)
    returns (r: Result<Draft, Rewritten>)
    requires Lawful(k.p) && ValidKeys(k.keys) && |nonce| == NONCE
    requires |use.live| == |use.rows| && n < |use.rows| && use.rows[n].size <= MAX_CHUNK
    requires copies(n).Some? ==> IsChunk(k, use.rows[n], copies(n).value)
    requires Drafted(k, use, n, d) && NoneStops(k, use, stored, copies, n)
    ensures r.Ok? ==> Drafted(k, use, n + 1, r.value) && NoneStops(k, use, stored, copies, n + 1)
    ensures r.Err? ==> Stopped(k, use, stored, copies, r.error)
  {
    if use.live[n] {
      r := KeepChunk(k, use, n, stored, copies(n), nonce, d);
    } else {
      DraftDrops(k, use, n, d);
      r := Ok(d.(index := d.index + [-1]));
    }
    assert r.Err? ==> StoppedAt(k, use, stored, copies, n, r.error);
  }

  method FillDraft(k: Checker, use: Use, stored: seq<byte>, copies: nat -> Option<seq<byte>>, nonces: nat -> seq<byte>)
    returns (r: Result<Draft, Rewritten>)
    requires Lawful(k.p) && ValidKeys(k.keys) && (forall i: nat :: |nonces(i)| == NONCE)
    requires |use.live| == |use.rows|
    requires forall i :: 0 <= i < |use.rows| ==> use.rows[i].size <= MAX_CHUNK
    requires forall i :: 0 <= i < |use.rows| && copies(i).Some? ==> IsChunk(k, use.rows[i], copies(i).value)
    ensures r.Ok? ==> Drafted(k, use, |use.rows|, r.value) && NoneStops(k, use, stored, copies, |use.rows|)
    ensures r.Err? ==> Stopped(k, use, stored, copies, r.error)
  {
    StartDraft(k, use);
    var d := Draft([], [], [], []);
    for i := 0 to |use.rows|
      invariant Drafted(k, use, i, d) && NoneStops(k, use, stored, copies, i)
    {
      var next := NextDraft(k, use, i, stored, copies, nonces(i), d);
      if next.Err? { return next; }
      d := next.value;
    }
    r := Ok(d);
  }

  method NameDraft(k: Checker, use: Use, d: Draft) returns (r: Rewritten)
    requires |use.live| == |use.rows| && Drafted(k, use, |use.rows|, d) && LiveBytes(use, |use.rows|) > 0
    ensures r.Into? && r.index == RankIndex(use.live)
    ensures ChunkList(r.rows) == Kept(ChunkList(use.rows), use.live)
    ensures SoundXorb(k, r.rows, r.bytes, |r.bytes|, r.name)
    ensures AllUnderKey(CurrentKey(k.keys), r.rows, r.bytes, |r.rows|)
  {
    WholeKept(use);
    KeptSomething(use);
    var root := Merkle.XorbHash(k.node, d.nodes);
    var name := Merkle.WriteXetHex(root);
    NodedIsNodesOf(d.rows, d.nodes);
    SerialisedPasses(k, d.rows, d.bytes, name);
    assert d.index == RankIndex(use.live);
    return Into(name, d.rows, d.bytes, d.index);
  }

  lemma WholeKept(use: Use)
    requires |use.live| == |use.rows|
    ensures KeptTo(ChunkList(use.rows), use.live, |use.rows|) == Kept(ChunkList(use.rows), use.live)
  {
    KeptToIsKept(ChunkList(use.rows), use.live, |use.rows|);
    assert ChunkList(use.rows)[..|use.rows|] == ChunkList(use.rows) && use.live[..|use.rows|] == use.live;
  }

  lemma KeptSomething(use: Use)
    requires |use.live| == |use.rows| && LiveBytes(use, |use.rows|) > 0
    ensures Rank(use.live, |use.rows|) > 0
  {
    SomeLive(use, |use.rows|);
  }

  lemma {:induction false} SomeLive(use: Use, n: nat)
    requires |use.live| == |use.rows| && n <= |use.rows|
    ensures LiveBytes(use, n) > 0 ==> Rank(use.live, n) > 0
  {
    if n > 0 {
      SomeLive(use, n - 1);
    }
  }

  /** The index a rewrite hands to the move says where the new xorb holds each chunk
      it kept, so the move keeps the meaning of every term it accepts. */
  lemma RewriteRelocates(use: Use, r: Rewritten)
    requires |use.live| == |use.rows| && r.Into? && r.index == RankIndex(use.live)
    requires ChunkList(r.rows) == Kept(ChunkList(use.rows), use.live)
    ensures Relocates(Xorb(ChunkList(use.rows)), Xorb(ChunkList(r.rows)), r.index)
  {
    RanksRelocate(Xorb(ChunkList(use.rows)), use.live);
  }
}
