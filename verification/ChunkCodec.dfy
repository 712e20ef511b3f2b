/** How one chunk is serialised in a xorb: its header, its compression and its sealing. */
module ChunkCodec {
  import opened Bytes
  import opened ByteGroups
  import opened Limits
  import opened Wrappers

  const CHUNK_HEADER := 8
  const CLEAR_VERSION := 0
  const SEALED_VERSION := 1
  const SCHEME_NONE := 0
  const SCHEME_LZ4 := 1
  const SCHEME_BG4_LZ4 := 2
  const MAX_KEY_ID := 32
  const NONCE := 12
  const TAG := 16
  const MAX_SEAL_OVERHEAD := 1 + MAX_KEY_ID + NONCE + TAG
  const LENGTH_LIMIT := 0x100_0000

  /** The server's keys by name; the current one seals. */
  datatype Keyring = Keyring(current: seq<byte>, ids: set<seq<byte>>)

  predicate ValidKeyring(k: Keyring) {
    k.current in k.ids && forall id :: id in k.ids ==> 0 < |id| <= MAX_KEY_ID
  }

  predicate ValidKeys(keys: Option<Keyring>) {
    keys.Some? ==> ValidKeyring(keys.value)
  }

  /** What a chunk's key is derived from: the key's name and the chunk's hash. */
  datatype SubKey = SubKey(id: seq<byte>, hash: string)

  /** LZ4 and AES-GCM, as functions. unpack gives at most limit bytes. */
  datatype Primitives = Primitives(
    pack: seq<byte> -> Option<seq<byte>>,
    unpack: (seq<byte>, nat) -> Option<seq<byte>>,
    seal: (SubKey, seq<byte>, seq<byte>, seq<byte>) -> seq<byte>,
    open: (SubKey, seq<byte>, seq<byte>, seq<byte>) -> Option<seq<byte>>)

  function Upto(s: seq<byte>, limit: nat): seq<byte> {
    if |s| <= limit then s else s[..limit]
  }

  /** Decompressing and opening invert compressing and sealing. */
  ghost predicate Lawful(p: Primitives) {
    && (forall x, n :: p.pack(x).Some? ==> p.unpack(p.pack(x).value, n) == Some(Upto(x, n)))
    && (forall k, nonce, data, aad :: |p.seal(k, nonce, data, aad)| == |data| + TAG)
    && (forall k, nonce, data, aad :: p.open(k, nonce, p.seal(k, nonce, data, aad), aad) == Some(data))
  }

  /** There are such functions: storing as it is, and sealing with a fixed tag. */
  lemma LawfulIsPossible()
    ensures exists p :: Lawful(p)
  {
    var p := Primitives(
      (x: seq<byte>) => Some(x),
      (x: seq<byte>, n: nat) => Some(Upto(x, n)),
      (k: SubKey, nonce: seq<byte>, data: seq<byte>, aad: seq<byte>) => data + seq(TAG, _ => 0 as byte),
      (k: SubKey, nonce: seq<byte>, sealed: seq<byte>, aad: seq<byte>) =>
        if |sealed| < TAG then None else Some(sealed[..|sealed| - TAG]));
    forall k, nonce, data, aad ensures p.open(k, nonce, p.seal(k, nonce, data, aad), aad) == Some(data) {
      assert p.seal(k, nonce, data, aad)[..|data|] == data;
    }
    assert Lawful(p);
  }

  // ---------------------------------------------------------------------
  // Headers
  // ---------------------------------------------------------------------

  /** The low three bytes of n, little-endian. */
  function Little24(n: nat): (b: seq<byte>)
    ensures |b| == 3
  {
    [n % 256, n / 256 % 256, n / 65536 % 256]
  }

  function Read24(b: seq<byte>, at: nat): nat
    requires at + 3 <= |b|
  {
    b[at] as int + 256 * (b[at + 1] as int) + 65536 * (b[at + 2] as int)
  }

  lemma Low24(n: nat)
    ensures n % 256 + 256 * (n / 256 % 256) + 65536 * (n / 65536 % 256) == n % LENGTH_LIMIT
  {
    assert n / 65536 == n / 256 / 256;
    assert n / LENGTH_LIMIT == n / 65536 / 256;
  }

  function Header(version: byte, stored: nat, scheme: byte, size: nat): (h: seq<byte>)
    ensures |h| == CHUNK_HEADER
  {
    [version] + Little24(stored) + [scheme] + Little24(size)
  }

  /** A header gives back what it was made of, the lengths modulo 2^24. */
  lemma HeaderReads(version: byte, stored: nat, scheme: byte, size: nat, rest: seq<byte>)
    ensures var b := Header(version, stored, scheme, size) + rest;
      && b[0] == version && b[4] == scheme
      && Read24(b, 1) == stored % LENGTH_LIMIT && Read24(b, 5) == size % LENGTH_LIMIT
  {
    Low24(stored);
    Low24(size);
  }

  method PutHeader(dst: seq<byte>, start: nat, version: byte, stored: nat, scheme: byte, size: nat)
    returns (r: seq<byte>)
    requires start + CHUNK_HEADER <= |dst|
    ensures r == dst[..start] + Header(version, stored, scheme, size) + dst[start + CHUNK_HEADER..]
  {
    r := dst[start := version];
    r := r[start + 1 := stored % 256][start + 2 := stored / 256 % 256][start + 3 := stored / 65536 % 256];
    r := r[start + 4 := scheme];
    r := r[start + 5 := size % 256][start + 6 := size / 256 % 256][start + 7 := size / 65536 % 256];
  }

  // ---------------------------------------------------------------------
  // Encoding
  // ---------------------------------------------------------------------

  datatype Compressed = Compressed(data: seq<byte>, scheme: byte)

  /** LZ4, unless that would not make the chunk smaller. */
  function Compress(p: Primitives, raw: seq<byte>): (c: Compressed)
    ensures |c.data| <= |raw|
  {
    match p.pack(raw)
    case Some(packed) => if |packed| < |raw| then Compressed(packed, SCHEME_LZ4) else Compressed(raw, SCHEME_NONE)
    case None => Compressed(raw, SCHEME_NONE)
  }

  function Overhead(keys: Option<Keyring>): nat {
    CHUNK_HEADER + if keys.None? then 0 else MAX_SEAL_OVERHEAD
  }

  /** The stored length a header gives for data sealed under id. */
  function SealedLength(id: seq<byte>, data: seq<byte>): nat {
    1 + |id| + NONCE + |data| + TAG
  }

  function StoredLength(p: Primitives, raw: seq<byte>, keys: Option<Keyring>): nat {
    var data := Compress(p, raw).data;
    if keys.None? then |data| else SealedLength(keys.value.current, data)
  }

  function Version(keys: Option<Keyring>): byte {
    if keys.None? then CLEAR_VERSION else SEALED_VERSION
  }

  function HeaderOf(p: Primitives, raw: seq<byte>, keys: Option<Keyring>): (h: seq<byte>)
    ensures |h| == CHUNK_HEADER
  {
    Header(Version(keys), StoredLength(p, raw, keys), Compress(p, raw).scheme, |raw|)
  }

  function SealedData(p: Primitives, data: seq<byte>, hash: string, id: seq<byte>, nonce: seq<byte>,
                  h: seq<byte>): seq<byte>
    requires |id| <= MAX_KEY_ID
  {
    [|id|] + id + nonce + p.seal(SubKey(id, hash), nonce, data, h)
  }

  /** What follows the header: the compressed data, sealed if there are keys. */
  function StoredData(p: Primitives, raw: seq<byte>, hash: string, keys: Option<Keyring>, nonce: seq<byte>): seq<byte>
    requires ValidKeys(keys)
  {
    var data := Compress(p, raw).data;
    match keys
    case None => data
    case Some(k) => SealedData(p, data, hash, k.current, nonce, HeaderOf(p, raw, keys))
  }

  /** A chunk as a xorb stores it. */
  function Encode(p: Primitives, raw: seq<byte>, hash: string, keys: Option<Keyring>, nonce: seq<byte>): seq<byte>
    requires ValidKeys(keys)
  {
    HeaderOf(p, raw, keys) + StoredData(p, raw, hash, keys, nonce)
  }

  /** A chunk takes at most its own length and the overhead planned for it. */
  lemma EncodedLength(p: Primitives, raw: seq<byte>, hash: string, keys: Option<Keyring>, nonce: seq<byte>)
    requires Lawful(p) && ValidKeys(keys) && |nonce| == NONCE
    ensures |StoredData(p, raw, hash, keys, nonce)| == StoredLength(p, raw, keys)
    ensures |Encode(p, raw, hash, keys, nonce)| == CHUNK_HEADER + StoredLength(p, raw, keys)
    ensures |Encode(p, raw, hash, keys, nonce)| <= |raw| + Overhead(keys)
  {
  }

  /** What a chunk's data is stored as: what LZ4 made of it, if smaller, or itself. */
  predicate Packed(p: Primitives, raw: seq<byte>, data: seq<byte>, scheme: byte) {
    if p.pack(raw).Some? && |p.pack(raw).value| < |raw| then data == p.pack(raw).value && scheme == 1
    else data == raw && scheme == 0
  }

  /** A header, byte by byte: lengths are little-endian, of what follows and of the chunk. */
  predicate HeaderSays(h: seq<byte>, version: byte, stored: nat, scheme: byte, size: nat) {
    && |h| == 8 && h[0] == version && h[4] == scheme
    && h[1] as int + 0x100 * h[2] as int + 0x1_0000 * h[3] as int == stored % 0x100_0000
    && h[5] as int + 0x100 * h[6] as int + 0x1_0000 * h[7] as int == size % 0x100_0000
  }

  /** A chunk stored in the clear is its header and its data. */
  lemma ClearFormat(p: Primitives, raw: seq<byte>, hash: string, nonce: seq<byte>)
    ensures var b, data := Encode(p, raw, hash, None, nonce), Compress(p, raw).data;
      && Packed(p, raw, data, Compress(p, raw).scheme)
      && HeaderSays(b[..8], 0, |data|, Compress(p, raw).scheme, |raw|) && b[8..] == data
  {
    var data := Compress(p, raw).data;
    HeaderReads(0, |data|, Compress(p, raw).scheme, |raw|, data);
    assert Encode(p, raw, hash, None, nonce) == HeaderOf(p, raw, None) + data;
  }

  /** A sealed one is its header, the key's name after its length, the nonce, and the
      data sealed under that key for that chunk, the header authenticated with it. */
  lemma SealedFormat(p: Primitives, raw: seq<byte>, hash: string, keys: Keyring, nonce: seq<byte>)
    requires Lawful(p) && ValidKeyring(keys) && |nonce| == 12
    ensures var b, data, id := Encode(p, raw, hash, Some(keys), nonce), Compress(p, raw).data, keys.current;
      && Packed(p, raw, data, Compress(p, raw).scheme)
      && HeaderSays(b[..8], 1, 1 + |id| + 12 + |data| + 16, Compress(p, raw).scheme, |raw|)
      && b[8..] == [|id|] + id + nonce + p.seal(SubKey(id, hash), nonce, data, b[..8])
  {
    var c, id := Compress(p, raw), keys.current;
    var h := HeaderOf(p, raw, Some(keys));
    SealedHeader(p, raw, keys);
    Apart(h, SealedData(p, c.data, hash, id, nonce, h));
  }

  lemma SealedHeader(p: Primitives, raw: seq<byte>, keys: Keyring)
    ensures var data := Compress(p, raw).data;
      HeaderSays(HeaderOf(p, raw, Some(keys)), 1, 1 + |keys.current| + 12 + |data| + 16, Compress(p, raw).scheme, |raw|)
  {
    var c, h := Compress(p, raw), HeaderOf(p, raw, Some(keys));
    HeaderReads(1, 1 + |keys.current| + 12 + |c.data| + 16, c.scheme, |raw|, []);
    assert h + [] == h;
  }

  lemma Apart(h: seq<byte>, rest: seq<byte>)
    requires |h| == 8
    ensures (h + rest)[..8] == h && (h + rest)[8..] == rest
  {
  }

  method AppendCompressed(p: Primitives, dst: seq<byte>, raw: seq<byte>) returns (r: seq<byte>, scheme: byte)
    ensures r == dst + Compress(p, raw).data && scheme == Compress(p, raw).scheme
    ensures Lawful(p) ==> Decompress(p, r[|dst|..], scheme, |raw|) == Ok(raw)
  {
    if Lawful(p) {
      DecompressUndoes(p, raw);
    }
    var packed := p.pack(raw);
    if packed.None? || |packed.value| >= |raw| {
      return dst + raw, SCHEME_NONE;
    }
    return dst + packed.value, SCHEME_LZ4;
  }

  /** Appends raw to dst as a chunk. nonce is the random nonce drawn for it. */
  method AppendChunk(p: Primitives, dst: seq<byte>, raw: seq<byte>, hash: string, keys: Option<Keyring>,
                  nonce: seq<byte>)
    returns (r: seq<byte>)
    requires ValidKeys(keys) && Lawful(p) && |nonce| == NONCE
    ensures r == dst + Encode(p, raw, hash, keys, nonce)
  {
    var start := |dst|;
    r := dst + seq(CHUNK_HEADER, _ => 0);
    if keys.None? {
      ghost var room := r;
      var scheme;
      r, scheme := AppendCompressed(p, r, raw);
      ghost var data := Compress(p, raw).data;
      SkipRoom(dst, room, data);
      r := PutHeader(r, start, CLEAR_VERSION, |r| - start - CHUNK_HEADER, scheme, |raw|);
      assert r == dst + HeaderOf(p, raw, keys) + data;
      AppendAssoc(dst, HeaderOf(p, raw, keys), data);
    } else {
      var data, scheme := AppendCompressed(p, [], raw);
      assert r[..start] == dst && data == Compress(p, raw).data;
      var h := HeaderOf(p, raw, keys);
      r := AppendSealed(p, r, start, data, scheme, |raw|, hash, keys.value, nonce);
      assert r == dst + (h + SealedData(p, data, hash, keys.value.current, nonce, h));
    }
  }

  lemma SkipRoom(dst: seq<byte>, room: seq<byte>, data: seq<byte>)
    requires |room| == |dst| + CHUNK_HEADER && room[..|dst|] == dst
    ensures (room + data)[..|dst|] == dst && (room + data)[|dst| + CHUNK_HEADER..] == data
  {
  }

  method AppendSealed(p: Primitives, dst: seq<byte>, start: nat, data: seq<byte>, scheme: byte, size: nat, hash: string,
                      k: Keyring, nonce: seq<byte>)
    returns (r: seq<byte>)
    requires start + CHUNK_HEADER == |dst| && ValidKeyring(k)
    ensures var h := Header(SEALED_VERSION, SealedLength(k.current, data), scheme, size);
      r == dst[..start] + (h + SealedData(p, data, hash, k.current, nonce, h))
  {
    var id := k.current;
    var stored := 1 + |id| + NONCE + |data| + TAG;
    r := PutHeader(dst, start, SEALED_VERSION, stored, scheme, size);
    var header := r[start..start + CHUNK_HEADER];
    assert header == Header(SEALED_VERSION, stored, scheme, size);
    r := r + [|id|];
    r := r + id;
    r := r + nonce;
    r := r + p.seal(SubKey(id, hash), nonce, data, header);
  }

  // ---------------------------------------------------------------------
  // Decoding
  // ---------------------------------------------------------------------

  datatype DecodeError = NotAHeader | WrongLengths | TooShort | MissingKey(id: seq<byte>) | NotAuthentic
    | BadCompression | UnknownScheme | WrongSize

  /** The length-prefixed key name at the start of b, and what follows it. */
  function SplitKeyId(b: seq<byte>): (r: Option<(seq<byte>, seq<byte>)>)
    ensures r.Some? ==> |r.value.0| <= MAX_KEY_ID && b == [|r.value.0|] + r.value.0 + r.value.1
    ensures r.None? ==> forall id, rest: seq<byte> :: |id| <= MAX_KEY_ID ==> b != [|id|] + id + rest
  {
    if |b| < 1 || b[0] > MAX_KEY_ID || |b| < 1 + b[0] then None
    else Some((b[1..1 + b[0]], b[1 + b[0]..]))
  }

  function OpenSealed(p: Primitives, header: seq<byte>, sealed: seq<byte>, hash: string, keys: Option<Keyring>)
    : Result<seq<byte>, DecodeError>
  {
    match SplitKeyId(sealed)
    case None => Err(TooShort)
    case Some((id, rest)) =>
      if |rest| < NONCE + TAG then Err(TooShort)
      else if keys.None? || id !in keys.value.ids then Err(MissingKey(id))
      else match p.open(SubKey(id, hash), rest[..NONCE], rest[NONCE..], header)
        case None => Err(NotAuthentic)
        case Some(data) => Ok(data)
  }

  function Decompress(p: Primitives, data: seq<byte>, scheme: byte, size: nat): Result<seq<byte>, DecodeError> {
    if scheme == SCHEME_NONE then Ok(data)
    else if scheme == SCHEME_LZ4 || scheme == SCHEME_BG4_LZ4 then
      match p.unpack(data, size + 1)
      case None => Err(BadCompression)
      case Some(raw) => Ok(if scheme == SCHEME_BG4_LZ4 then Ungrouped(raw) else raw)
    else Err(UnknownScheme)
  }

  /** What the header h and the bytes after it decode to, the lengths being right. */
  function DecodeBody(p: Primitives, version: byte, scheme: byte, h: seq<byte>, rest: seq<byte>, size: nat,
                  hash: string, keys: Option<Keyring>)
    : (r: Result<seq<byte>, DecodeError>)
    ensures r.Ok? ==> |r.value| == size
  {
    match (if version == SEALED_VERSION then OpenSealed(p, h, rest, hash, keys) else Ok(rest))
    case Err(e) => Err(e)
    case Ok(data) =>
      match Decompress(p, data, scheme, size)
      case Err(e) => Err(e)
      case Ok(raw) => if |raw| != size then Err(WrongSize) else Ok(raw)
  }

  function Decode(p: Primitives, b: seq<byte>, size: nat, hash: string, keys: Option<Keyring>)
    : (r: Result<seq<byte>, DecodeError>)
    ensures r.Ok? ==> |r.value| == size < LENGTH_LIMIT && |b| < CHUNK_HEADER + LENGTH_LIMIT
  {
    if |b| < CHUNK_HEADER || (b[0] != CLEAR_VERSION && b[0] != SEALED_VERSION) then Err(NotAHeader)
    else if Read24(b, 1) != |b| - CHUNK_HEADER || Read24(b, 5) != size then Err(WrongLengths)
    else DecodeBody(p, b[0], b[4], b[..CHUNK_HEADER], b[CHUNK_HEADER..], size, hash, keys)
  }

  /** data is how raw may be stored under a scheme: as it is, compressed, or with its
      bytes grouped first. Decompressing stops at one byte more than the chunk's size. */
  ghost predicate StoredAs(p: Primitives, data: seq<byte>, scheme: byte, raw: seq<byte>) {
    || (scheme == 0 && data == raw)
    || (scheme == 1 && p.unpack(data, |raw| + 1) == Some(raw))
    || (scheme == 2 && exists grouped :: Grouped(raw, grouped) && p.unpack(data, |raw| + 1) == Some(grouped))
  }

  lemma StoredAsIff(p: Primitives, data: seq<byte>, scheme: byte, raw: seq<byte>)
    ensures StoredAs(p, data, scheme, raw) <==> Decompress(p, data, scheme, |raw|) == Ok(raw)
  {
    if scheme == 2 && p.unpack(data, |raw| + 1).Some? {
      RegroupUndoesSplit(raw, p.unpack(data, |raw| + 1).value);
    }
  }

  /** A chunk in the clear decodes to exactly what it may stand for. */
  lemma ClearReadsIff(p: Primitives, b: seq<byte>, raw: seq<byte>, hash: string, keys: Option<Keyring>)
    requires |b| >= 8 && b[0] == 0
    ensures Decode(p, b, |raw|, hash, keys) == Ok(raw) <==>
      |b| - 8 < 0x100_0000 && |raw| < 0x100_0000 && HeaderSays(b[..8], 0, |b| - 8, b[4], |raw|)
      && StoredAs(p, b[8..], b[4], raw)
  {
    StoredAsIff(p, b[8..], b[4], raw);
    Fits24(|b| - 8);
    Fits24(|raw|);
  }

  /** A sealed one does when its data opens, with its own header and for its own hash,
      under the key it names; without that key it is reported as missing. */
  lemma SealedReadsIff(p: Primitives, h: seq<byte>, id: seq<byte>, nonce: seq<byte>, sealed: seq<byte>, raw: seq<byte>,
                  hash: string, keys: Option<Keyring>)
    requires |id| <= 32 && |nonce| == 12 && |sealed| >= 16 && |raw| < 0x100_0000
    requires |h| == 8 && HeaderSays(h, 1, 1 + |id| + 12 + |sealed|, h[4], |raw|) && 13 + |id| + |sealed| < 0x100_0000
    ensures var d := Decode(p, h + ([|id|] + id + nonce + sealed), |raw|, hash, keys);
      if keys.Some? && id in keys.value.ids then
        d == Ok(raw) <==>
          p.open(SubKey(id, hash), nonce, sealed, h).Some?
          && StoredAs(p, p.open(SubKey(id, hash), nonce, sealed, h).value, h[4], raw)
      else d == Err(MissingKey(id))
  {
    var rest := [|id|] + id + nonce + sealed;
    var b := h + rest;
    assert b[..8] == h && b[8..] == rest;
    assert rest == [|id|] + id + (nonce + sealed);
    SplitJoined(id, nonce + sealed);
    assert (nonce + sealed)[..12] == nonce && (nonce + sealed)[12..] == sealed;
    if p.open(SubKey(id, hash), nonce, sealed, h).Some? {
      StoredAsIff(p, p.open(SubKey(id, hash), nonce, sealed, h).value, h[4], raw);
    }
  }

  /** b holds data sealed, with h authenticated, under a key that is held. */
  ghost predicate SealedIn(p: Primitives, b: seq<byte>, h: seq<byte>, data: seq<byte>, hash: string, keys: Keyring) {
    exists id: seq<byte>, nonce: seq<byte>, sealed: seq<byte> | |id| <= MAX_KEY_ID && |nonce| == NONCE ::
      b == [|id|] + id + (nonce + sealed) && id in keys.ids && p.open(SubKey(id, hash), nonce, sealed, h) == Some(data)
  }

  /** Bytes decode only if they are one chunk end to end, of the size asked for, and if
      sealed, then under a key that is held, with their own header and for this hash. */
  lemma DecodeAccepts(p: Primitives, b: seq<byte>, size: nat, hash: string, keys: Option<Keyring>)
    requires Decode(p, b, size, hash, keys).Ok?
    ensures |b| >= CHUNK_HEADER && Read24(b, 1) == |b| - CHUNK_HEADER && Read24(b, 5) == size
    ensures |Decode(p, b, size, hash, keys).value| == size
    ensures b[0] == CLEAR_VERSION ==>
      Decompress(p, b[CHUNK_HEADER..], b[4], size) == Decode(p, b, size, hash, keys)
    ensures b[0] != CLEAR_VERSION ==> b[0] == SEALED_VERSION && keys.Some? && exists data ::
      SealedIn(p, b[CHUNK_HEADER..], b[..CHUNK_HEADER], data, hash, keys.value)
      && Decompress(p, data, b[4], size) == Decode(p, b, size, hash, keys)
  {
    if b[0] == SEALED_VERSION {
      OpenedIsSealed(p, b[..CHUNK_HEADER], b[CHUNK_HEADER..], hash, keys);
    }
  }

  lemma OpenedIsSealed(p: Primitives, h: seq<byte>, b: seq<byte>, hash: string, keys: Option<Keyring>)
    requires OpenSealed(p, h, b, hash, keys).Ok?
    ensures keys.Some? && SealedIn(p, b, h, OpenSealed(p, h, b, hash, keys).value, hash, keys.value)
  {
    var (id, rest) := SplitKeyId(b).value;
    var nonce, sealed := rest[..NONCE], rest[NONCE..];
    assert rest == nonce + sealed;
    assert b == [|id|] + id + (nonce + sealed);
  }

  lemma DecodeParts(p: Primitives, version: byte, stored: nat, scheme: byte, n: nat, rest: seq<byte>, size: nat,
                  hash: string, keys: Option<Keyring>)
    requires version == CLEAR_VERSION || version == SEALED_VERSION
    ensures var h := Header(version, stored, scheme, n);
      Decode(p, h + rest, size, hash, keys) ==
      if stored % LENGTH_LIMIT != |rest| || n % LENGTH_LIMIT != size then Err(WrongLengths)
      else DecodeBody(p, version, scheme, h, rest, size, hash, keys)
  {
    var h := Header(version, stored, scheme, n);
    HeaderReads(version, stored, scheme, n, rest);
    assert (h + rest)[..CHUNK_HEADER] == h && (h + rest)[CHUNK_HEADER..] == rest;
  }

  lemma SplitJoined(id: seq<byte>, rest: seq<byte>)
    requires |id| <= MAX_KEY_ID
    ensures SplitKeyId([|id|] + id + rest) == Some((id, rest))
  {
    var b := [|id|] + id + rest;
    assert b[1..1 + b[0]] == id && b[1 + b[0]..] == rest;
  }

  lemma OpenWithoutKey(p: Primitives, header: seq<byte>, id: seq<byte>, rest: seq<byte>, hash: string,
                  keys: Option<Keyring>)
    requires |id| <= MAX_KEY_ID && |rest| >= NONCE + TAG && (keys.Some? ==> id !in keys.value.ids)
    ensures OpenSealed(p, header, [|id|] + id + rest, hash, keys) == Err(MissingKey(id))
  {
    SplitJoined(id, rest);
  }

  lemma DecompressUndoes(p: Primitives, raw: seq<byte>)
    requires Lawful(p)
    ensures Decompress(p, Compress(p, raw).data, Compress(p, raw).scheme, |raw|) == Ok(raw)
  {
    var c := Compress(p, raw);
    if c.scheme == SCHEME_LZ4 {
      assert p.pack(raw).Some?;
    }
  }

  lemma OpenUndoesSeal(p: Primitives, header: seq<byte>, data: seq<byte>, hash: string, id: seq<byte>,
                  nonce: seq<byte>, keys: Keyring)
    requires Lawful(p) && |id| <= MAX_KEY_ID && |nonce| == NONCE && id in keys.ids
    ensures OpenSealed(p, header, SealedData(p, data, hash, id, nonce, header), hash, Some(keys)) == Ok(data)
  {
    var sealed := p.seal(SubKey(id, hash), nonce, data, header);
    var rest := nonce + sealed;
    assert [|id|] + id + nonce + sealed == [|id|] + id + rest;
    SplitJoined(id, rest);
    assert rest[..NONCE] == nonce && rest[NONCE..] == sealed;
  }

  /** Any keyring that holds the key a chunk was sealed under reads it. */
  predicate CanRead(written: Option<Keyring>, keys: Option<Keyring>) {
    written.Some? ==> keys.Some? && written.value.current in keys.value.ids
  }

  /** Decoding inverts encoding exactly when both lengths fit the header's 24 bits. */
  lemma DecodeInvertsEncode(p: Primitives, raw: seq<byte>, hash: string, written: Option<Keyring>,
                  keys: Option<Keyring>, nonce: seq<byte>)
    requires Lawful(p) && ValidKeys(written) && CanRead(written, keys) && |nonce| == NONCE
    ensures Decode(p, Encode(p, raw, hash, written, nonce), |raw|, hash, keys) == Ok(raw)
      <==> |raw| < LENGTH_LIMIT && StoredLength(p, raw, written) < LENGTH_LIMIT
  {
    var c, h := Compress(p, raw), HeaderOf(p, raw, written);
    var rest := StoredData(p, raw, hash, written, nonce);
    EncodedLength(p, raw, hash, written, nonce);
    DecodeParts(p, Version(written), |rest|, c.scheme, |raw|, rest, |raw|, hash, keys);
    Fits24(|rest|);
    Fits24(|raw|);
    BodyInverts(p, raw, hash, written, keys, nonce);
    assert Encode(p, raw, hash, written, nonce) == h + rest;
  }

  lemma Fits24(n: nat)
    ensures n % LENGTH_LIMIT == n <==> n < LENGTH_LIMIT
  {
  }

  lemma BodyInverts(p: Primitives, raw: seq<byte>, hash: string, written: Option<Keyring>, keys: Option<Keyring>,
                  nonce: seq<byte>)
    requires Lawful(p) && ValidKeys(written) && CanRead(written, keys) && |nonce| == NONCE
    ensures DecodeBody(p, Version(written), Compress(p, raw).scheme, HeaderOf(p, raw, written),
                       StoredData(p, raw, hash, written, nonce), |raw|, hash, keys) == Ok(raw)
  {
    DecompressUndoes(p, raw);
    if written.Some? {
      var data := Compress(p, raw).data;
      OpenUndoesSeal(p, HeaderOf(p, raw, written), data, hash, written.value.current, nonce, keys.value);
    }
  }

  /** The largest chunk the chunker cuts is far inside that bound. */
  lemma ChunksRoundTrip(p: Primitives, raw: seq<byte>, hash: string, written: Option<Keyring>, keys: Option<Keyring>,
                  nonce: seq<byte>)
    requires Lawful(p) && ValidKeys(written) && CanRead(written, keys) && |nonce| == NONCE
    requires |raw| <= MAX_CHUNK
    ensures Decode(p, Encode(p, raw, hash, written, nonce), |raw|, hash, keys) == Ok(raw)
  {
    DecodeInvertsEncode(p, raw, hash, written, keys, nonce);
  }

  /** The key a stored chunk is sealed under, or none if it is in the clear. */
  function ChunkKeyId(b: seq<byte>): Option<seq<byte>> {
    if |b| <= CHUNK_HEADER || b[0] != SEALED_VERSION then None
    else
      match SplitKeyId(b[CHUNK_HEADER..])
      case None => None
      case Some((id, _)) => Some(id)
  }

  lemma EncodedKeyId(p: Primitives, raw: seq<byte>, hash: string, keys: Option<Keyring>, nonce: seq<byte>)
    requires ValidKeys(keys)
    ensures ChunkKeyId(Encode(p, raw, hash, keys, nonce)) == if keys.None? then None else Some(keys.value.current)
  {
    if keys.Some? {
      var data, id, h := Compress(p, raw).data, keys.value.current, HeaderOf(p, raw, keys);
      var sealed := p.seal(SubKey(id, hash), nonce, data, h);
      var b := Encode(p, raw, hash, keys, nonce);
      assert b[CHUNK_HEADER..] == [|id|] + id + (nonce + sealed);
      SplitJoined(id, nonce + sealed);
    } else {
      assert Encode(p, raw, hash, keys, nonce)[0] == CLEAR_VERSION;
    }
  }

  /** A sealed chunk read without its key is reported as such, never as damage. */
  lemma WithoutItsKey(p: Primitives, raw: seq<byte>, hash: string, written: Keyring, keys: Option<Keyring>,
                  nonce: seq<byte>)
    requires Lawful(p) && ValidKeyring(written) && |nonce| == NONCE && |raw| <= MAX_CHUNK
    requires keys.Some? ==> written.current !in keys.value.ids
    ensures Decode(p, Encode(p, raw, hash, Some(written), nonce), |raw|, hash, keys) == Err(MissingKey(written.current))
  {
    var keyed := Some(written);
    var c, id, h := Compress(p, raw), written.current, HeaderOf(p, raw, keyed);
    var rest := StoredData(p, raw, hash, keyed, nonce);
    EncodedLength(p, raw, hash, keyed, nonce);
    DecodeParts(p, SEALED_VERSION, |rest|, c.scheme, |raw|, rest, |raw|, hash, keys);
    Fits24(|rest|);
    Fits24(|raw|);
    var sealed := p.seal(SubKey(id, hash), nonce, c.data, h);
    AppendAssoc([|id|] + id, nonce, sealed);
    OpenWithoutKey(p, h, id, nonce + sealed, hash, keys);
    assert Encode(p, raw, hash, keyed, nonce) == h + rest;
  }
}
