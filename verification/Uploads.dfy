/** Staging an upload: a body held to every claim made about it before its end is
    shown, and staged only if it ends clean and within the limit. */
module Uploads {
  import opened Bytes
  import opened Wrappers

  const MAX_INT64 := 0x7FFF_FFFF_FFFF_FFFF
  const COPY_BUFFER := 32768

  /** x as a 64-bit signed integer holds it. */
  function Int64(x: int): (r: int)
    ensures -MAX_INT64 - 1 <= r <= MAX_INT64
    ensures -MAX_INT64 - 1 <= x <= MAX_INT64 ==> r == x
  {
    (x + MAX_INT64 + 1) % 0x1_0000_0000_0000_0000 - MAX_INT64 - 1
  }

  // ---------------------------------------------------------------------
  // The body as it arrives
  // ---------------------------------------------------------------------

  datatype End = Eof | Failed

  /** What one read of the source can give: data, with the end of the body or without. */
  datatype Piece = Piece(data: seq<byte>, end: Option<End>)

  /** The reads of a body, the last one and no other with its end. */
  predicate IsBody(pieces: seq<Piece>) {
    pieces != [] && forall i :: 0 <= i < |pieces| ==> (pieces[i].end.Some? <==> i == |pieces| - 1)
  }

  function Whole(pieces: seq<Piece>): seq<byte> {
    if pieces == [] then [] else pieces[0].data + Whole(pieces[1..])
  }

  function HowEnds(pieces: seq<Piece>): End
    requires IsBody(pieces)
  {
    pieces[|pieces| - 1].end.value
  }

  // ---------------------------------------------------------------------
  // The claims
  // ---------------------------------------------------------------------

  /** How checksums are computed and their values decoded, and which headers name one. */
  datatype Algorithms = Algorithms(
    sum: (string, seq<byte>) -> seq<byte>,
    decode: (string, string) -> Option<seq<byte>>,
    known: string -> bool)

  /** A claim from a header: the checksum of the whole body. */
  datatype Digest = Digest(algorithm: string, want: seq<byte>)

  /** What a request says of its body. A checksum announced for the trailers comes
      only with an aws-chunked body. */
  datatype Claims = Claims(digests: seq<Digest>, chunked: bool, announced: Option<string>)

  type TrailerMap = map<string, string>

  /** No checksum trailer but the announced one, which is there and is right. */
  predicate TrailersHold(a: Algorithms, announced: Option<string>, trailers: TrailerMap, body: seq<byte>) {
    && (forall name :: name in trailers && a.known(name) ==> announced == Some(name))
    && (announced.Some? ==>
          && announced.value in trailers
          && a.decode(announced.value, trailers[announced.value]) == Some(a.sum(announced.value, body)))
  }

  /** The trailers are the announced one's, and its value is a checksum. */
  predicate Readable(a: Algorithms, announced: Option<string>, trailers: TrailerMap) {
    && (forall name :: name in trailers && a.known(name) ==> announced == Some(name))
    && (announced.Some? ==> announced.value in trailers && a.decode(announced.value, trailers[announced.value]).Some?)
  }

  predicate Hold(a: Algorithms, c: Claims, trailers: TrailerMap, body: seq<byte>) {
    && (c.chunked ==> TrailersHold(a, c.announced, trailers, body))
    && (forall i :: 0 <= i < |c.digests| ==> a.sum(c.digests[i].algorithm, body) == c.digests[i].want)
  }

  /** The value the announced trailer claims, once the body has been read. */
  method TakeTrailer(a: Algorithms, announced: Option<string>, trailers: TrailerMap)
    returns (ok: bool, want: Option<seq<byte>>)
    ensures ok <==> Readable(a, announced, trailers)
    ensures ok ==> (want.Some? <==> announced.Some?)
    ensures ok && announced.Some? ==> want == a.decode(announced.value, trailers[announced.value])
  {
    var names := trailers.Keys;
    while names != {}
      invariant names <= trailers.Keys
      invariant forall name :: name in trailers && name !in names && a.known(name) ==> announced == Some(name)
      decreases |names|
    {
      var name :| name in names;
      if a.known(name) && announced != Some(name) {
        assert name in trailers;
        return false, None;
      }
      names := names - {name};
    }
    if announced.None? { return true, None; }
    if announced.value !in trailers { return false, None; }
    want := a.decode(announced.value, trailers[announced.value]);
    ok := want.Some?;
  }

  /** Holds the whole body, now read, to every claim made about it. */
  method Check(a: Algorithms, c: Claims, trailers: TrailerMap, body: seq<byte>) returns (ok: bool)
    requires c.announced.Some? ==> c.chunked
    ensures ok <==> Hold(a, c, trailers, body)
  {
    var want: Option<seq<byte>> := None;
    if c.chunked {
      var taken;
      taken, want := TakeTrailer(a, c.announced, trailers);
      if !taken { return false; }
    }
    for i := 0 to |c.digests|
      invariant forall j :: 0 <= j < i ==> a.sum(c.digests[j].algorithm, body) == c.digests[j].want
    {
      if a.sum(c.digests[i].algorithm, body) != c.digests[i].want { return false; }
    }
    ok := want.None? || a.sum(c.announced.value, body) == want.value;
  }

  // ---------------------------------------------------------------------
  // The body as the handler sees it
  // ---------------------------------------------------------------------

  class Payload {
    const a: Algorithms
    const claims: Claims
    /** The trailers, which the decoder has by the end of the body. */
    const trailers: TrailerMap
    ghost const body: seq<Piece>
    var pieces: seq<Piece>
    var hashed: seq<byte>
    var verified: bool
    var err: Option<End>

    ghost predicate Valid()
      reads this
    {
      && IsBody(body) && (claims.announced.Some? ==> claims.chunked)
      && (err.None? ==> IsBody(pieces) && HowEnds(pieces) == HowEnds(body) && hashed + Whole(pieces) == Whole(body))
      && (err == Some(Eof) ==> hashed == Whole(body) && HowEnds(body) == Eof && Hold(a, claims, trailers, Whole(body)))
      && (err == Some(Failed) ==> HowEnds(body) == Failed || !Hold(a, claims, trailers, Whole(body)))
      && (verified <==> err == Some(Eof))
    }

    constructor (a: Algorithms, claims: Claims, body: seq<Piece>, trailers: TrailerMap)
      requires IsBody(body) && (claims.announced.Some? ==> claims.chunked)
      ensures Valid() && this.a == a && this.claims == claims && this.body == body && this.trailers == trailers
      ensures err.None? && hashed == []
    {
      this.a, this.claims, this.trailers, this.body := a, claims, trailers, body;
      this.pieces, this.hashed, this.verified, this.err := body, [], false, None;
      new;
      assert [] + Whole(body) == Whole(body);
    }

    /** One read of the source, of at most n bytes. */
    method ReadSource(n: nat) returns (data: seq<byte>, end: Option<End>)
      requires IsBody(pieces)
      modifies this`pieces
      ensures |data| <= n && old(Whole(pieces)) == data + Whole(pieces)
      ensures end.None? ==> IsBody(pieces) && HowEnds(pieces) == old(HowEnds(pieces))
      ensures end.Some? ==> pieces == [] && end.value == old(HowEnds(pieces))
      ensures end.None? && n > 0 ==> |pieces| < |old(pieces)| || (|pieces| == |old(pieces)| && data != [])
    {
      var p := pieces[0];
      if |p.data| <= n {
        pieces := pieces[1..];
        return p.data, p.end;
      }
      pieces := [Piece(p.data[n..], p.end)] + pieces[1..];
      assert p.data == p.data[..n] + p.data[n..] && pieces[1..] == old(pieces)[1..];
      return p.data[..n], None;
    }

    /** Reads up to n bytes. The end is shown only when the source ended clean and
        every claim about the whole body holds; either failing is an error instead. */
    method Read(n: nat) returns (data: seq<byte>, end: Option<End>)
      requires Valid()
      modifies this
      ensures Valid() && |data| <= n && hashed == old(hashed) + data
      ensures old(err).Some? ==> data == [] && end == old(err)
      ensures end == err
      ensures end.None? && n > 0 ==> |pieces| < |old(pieces)| || (|pieces| == |old(pieces)| && data != [])
    {
      if err.Some? {
        assert hashed + [] == hashed;
        return [], err;
      }
      data, end := ReadSource(n);
      AppendAssoc(hashed, data, Whole(pieces));
      hashed := hashed + data;
      if end == Some(Eof) {
        assert hashed + [] == hashed;
        var ok := Check(a, claims, trailers, hashed);
        if ok {
          verified := true;
        } else {
          end := Some(Failed);
        }
      }
      err := end;
    }
  }

  // ---------------------------------------------------------------------
  // Staging
  // ---------------------------------------------------------------------

  datatype StageError = BodyFailed | TooLarge | NotStored

  /** The body ends clean and is all that its request claims it to be. */
  predicate Good(a: Algorithms, c: Claims, trailers: TrailerMap, body: seq<Piece>)
    requires IsBody(body)
  {
    HowEnds(body) == Eof && Hold(a, c, trailers, Whole(body))
  }

  /** The content staging a body leaves, if it succeeds. At the largest limit there is,
      adding one to it wraps round, and nothing of the body is read. */
  function Stages(a: Algorithms, c: Claims, trailers: TrailerMap, body: seq<Piece>, limit: int,
                  stored: bool): Option<seq<byte>>
    requires IsBody(body)
  {
    if !stored then None
    else if limit == MAX_INT64 then Some([])
    else if Good(a, c, trailers, body) && |Whole(body)| <= limit then Some(Whole(body))
    else None
  }

  /** Copies the body to a staging file, reading at most one byte past the limit.
      stored says whether the file could be written and completed. */
  method Stage(p: Payload, limit: int, stored: bool) returns (r: Result<seq<byte>, StageError>)
    requires p.Valid() && p.err.None? && p.hashed == [] && 0 <= limit <= MAX_INT64
    modifies p
    ensures p.Valid()
    ensures (if r.Ok? then Some(r.value) else None) == Stages(p.a, p.claims, p.trailers, p.body, limit, stored)
    ensures r == Err(BodyFailed) ==> !Good(p.a, p.claims, p.trailers, p.body)
    ensures r == Err(TooLarge) ==> |Whole(p.body)| > limit
    ensures r == Err(NotStored) ==> !stored
  {
    var left := Int64(limit + 1);
    var content: seq<byte> := [];
    var ended: Option<End> := None;
    while left > 0 && ended.None?
      invariant p.Valid() && p.err == ended && p.hashed == content
      invariant limit == MAX_INT64 ==> left < 0 && content == [] && ended.None?
      invariant limit != MAX_INT64 ==> left == limit + 1 - |content| >= 0
      decreases ended.None?, |p.pieces|, left
    {
      var n := if left < COPY_BUFFER then left else COPY_BUFFER;
      var data;
      data, ended := p.Read(n);
      left := left - |data|;
      content := content + data;
    }
    StagedSoFar(p, content);
    if ended == Some(Failed) { return Err(BodyFailed); }
    if |content| > limit { return Err(TooLarge); }
    if !stored { return Err(NotStored); }
    return Ok(content);
  }

  lemma StagedSoFar(p: Payload, content: seq<byte>)
    requires p.Valid() && p.hashed == content
    ensures p.err.None? || p.err == Some(Eof) ==> |content| <= |Whole(p.body)|
    ensures p.err.None? || p.err == Some(Eof) || p.err == Some(Failed)
  {
    if p.err.Some? {
      match p.err.value
      case Eof =>
      case Failed =>
    }
    assert |p.hashed + Whole(p.pieces)| == |p.hashed| + |Whole(p.pieces)|;
  }

  /** Staging keeps exactly the body, and only one that is good and within the limit,
      whatever the body, if and only if the limit is not the largest integer. */
  lemma StagingIsFaithfulIff(a: Algorithms, limit: int)
    requires 0 <= limit <= MAX_INT64
    ensures (forall c, trailers, body, stored | IsBody(body) ::
      Stages(a, c, trailers, body, limit, stored).Some? ==>
        Stages(a, c, trailers, body, limit, stored).value == Whole(body)) <==> limit < MAX_INT64
  {
    if limit == MAX_INT64 {
      var body := [Piece([0], Some(Eof))];
      assert Whole(body) == [0] + Whole(body[1..]);
      var c := Claims([], false, None);
      assert IsBody(body) && Stages(a, c, map[], body, limit, true) == Some([]);
    }
  }
}
