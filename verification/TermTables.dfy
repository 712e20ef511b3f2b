/** The blob_terms and xorbs tables as one compaction transaction sees them. */
module TermTables {
  import opened Terms
  import opened Wrappers
  import opened Compaction

  /** A row of blob_terms. */
  datatype TermRow = TermRow(blob: string, term: Term)

  datatype MoveError = RewroteWhole | Stale

  /** The blobs with a term on x. */
  function BlobsOn(rows: seq<TermRow>, x: Xorb): set<string> {
    set r | r in rows && r.term.xorb == x :: r.blob
  }

  /** One blob's terms, in table order. */
  function TermsOf(rows: seq<TermRow>, blob: string): seq<Term> {
    if rows == [] then []
    else (if rows[0].blob == blob then [rows[0].term] else []) + TermsOf(rows[1..], blob)
  }

  function MoveRows(rows: seq<TermRow>, from: Xorb, to: Xorb, index: seq<int>): (r: seq<TermRow>)
    ensures |r| == |rows|
    ensures forall i :: 0 <= i < |rows| ==>
      r[i] == TermRow(rows[i].blob, MoveTerm(rows[i].term, from, to, index))
  {
    if rows == [] then []
    else [TermRow(rows[0].blob, MoveTerm(rows[0].term, from, to, index))] + MoveRows(rows[1..], from, to, index)
  }

  /** What the transaction requires of every term on from before it writes. */
  predicate Accepts(rows: seq<TermRow>, from: Xorb, index: seq<int>, locked: set<string>) {
    forall r :: r in rows && r.term.xorb == from ==> r.blob in locked && Covered(r.term.start, r.term.end, index)
  }

  /** The move does to each blob's term list what MoveList says. */
  lemma {:induction false} MoveRowsByBlob(rows: seq<TermRow>, blob: string, from: Xorb, to: Xorb, index: seq<int>)
    ensures TermsOf(MoveRows(rows, from, to, index), blob) == MoveList(TermsOf(rows, blob), from, to, index)
  {
    if rows != [] {
      MoveRowsByBlob(rows[1..], blob, from, to, index);
      assert MoveRows(rows, from, to, index)[1..] == MoveRows(rows[1..], from, to, index);
    }
  }

  lemma {:induction false} TermsOfMember(rows: seq<TermRow>, blob: string, t: Term)
    ensures t in TermsOf(rows, blob) <==> TermRow(blob, t) in rows
  {
    if rows != [] {
      TermsOfMember(rows[1..], blob, t);
      assert rows == [rows[0]] + rows[1..];
    }
  }

  /** The blobs on a xorb are those one of whose terms is. */
  lemma BlobsOnAreUsers(rows: seq<TermRow>, blob: string, x: Xorb)
    ensures blob in BlobsOn(rows, x) <==> x in Uses(TermsOf(rows, blob))
  {
    if blob in BlobsOn(rows, x) {
      var r :| r in rows && r.term.xorb == x && r.blob == blob;
      TermsOfMember(rows, blob, r.term);
    }
    if x in Uses(TermsOf(rows, blob)) {
      var t :| t in TermsOf(rows, blob) && t.xorb == x;
      TermsOfMember(rows, blob, t);
    }
  }

  /** An accepted move keeps the meaning of every blob, locked or not, and
      leaves the users of the two xorbs merged on the new one. */
  lemma AcceptedMove(rows: seq<TermRow>, from: Xorb, to: Xorb, index: seq<int>, locked: set<string>,
                  content: map<string, seq<Chunk>>)
    requires from != to && Relocates(from, to, index) && Accepts(rows, from, index, locked)
    requires forall b :: b in content ==> Denotes(TermsOf(rows, b), content[b])
    ensures var after := MoveRows(rows, from, to, index);
      && (forall b :: b in content ==> Denotes(TermsOf(after, b), content[b]))
      && BlobsOn(after, from) == {}
      && BlobsOn(after, to) == BlobsOn(rows, to) + BlobsOn(rows, from)
      && (forall x :: x != from && x != to ==> BlobsOn(after, x) == BlobsOn(rows, x))
  {
    var after := MoveRows(rows, from, to, index);
    forall b | b in content
      ensures Denotes(TermsOf(after, b), content[b])
    {
      forall t | t in TermsOf(rows, b) && t.xorb == from
        ensures Covered(t.start, t.end, index)
      {
        TermsOfMember(rows, b, t);
      }
      MoveKeepsMeaning(TermsOf(rows, b), content[b], from, to, index);
      MoveRowsByBlob(rows, b, from, to, index);
    }
    forall x
      ensures BlobsOn(after, x) ==
        if x == from then {} else if x == to then BlobsOn(rows, to) + BlobsOn(rows, from) else BlobsOn(rows, x)
    {
      MovedUsers(rows, from, to, index, locked, x);
    }
  }

  lemma MovedUsers(rows: seq<TermRow>, from: Xorb, to: Xorb, index: seq<int>, locked: set<string>, x: Xorb)
    requires from != to && Accepts(rows, from, index, locked)
    ensures BlobsOn(MoveRows(rows, from, to, index), x)
         == if x == from then {} else if x == to then BlobsOn(rows, to) + BlobsOn(rows, from) else BlobsOn(rows, x)
  {
    var after := MoveRows(rows, from, to, index);
    var want := if x == from then {} else if x == to then BlobsOn(rows, to) + BlobsOn(rows, from) else BlobsOn(rows, x);
    forall b | b in BlobsOn(after, x) ensures b in want {
      var r :| r in after && r.term.xorb == x && r.blob == b;
      var i :| 0 <= i < |after| && after[i] == r;
      assert rows[i] in rows;
    }
    forall b | b in want ensures b in BlobsOn(after, x) {
      StillOn(rows, from, to, index, locked, x, b);
    }
  }

  lemma StillOn(rows: seq<TermRow>, from: Xorb, to: Xorb, index: seq<int>, locked: set<string>, x: Xorb, b: string)
    requires from != to && x != from && Accepts(rows, from, index, locked)
    requires b in BlobsOn(rows, x) || (x == to && b in BlobsOn(rows, from))
    ensures b in BlobsOn(MoveRows(rows, from, to, index), x)
  {
    var after := MoveRows(rows, from, to, index);
    var r :| r in rows && r.blob == b && (r.term.xorb == x || (x == to && r.term.xorb == from));
    var i :| 0 <= i < |rows| && rows[i] == r;
    assert after[i] in after;
  }

  /** A term on from whose first chunk moved, on to. */
  method RepointTerm(t: Term, from: Xorb, to: Xorb, olds: seq<int>, news: seq<int>, ghost index: seq<int>)
    returns (r: Term)
    requires |olds| == |news|
    requires forall k :: 0 <= k < |olds| ==> 0 <= olds[k] < |index| && index[olds[k]] == news[k] >= 0
    requires forall i :: 0 <= i < |index| && index[i] >= 0 ==> i in olds
    ensures r == MoveTerm(t, from, to, index)
  {
    if t.xorb == from && t.start in olds {
      var k :| 0 <= k < |olds| && olds[k] == t.start;
      return t.(xorb := to, start := news[k], end := news[k] + (t.end - t.start));
    }
    return t;
  }

  class Tables {
    var rows: seq<TermRow>
    var refs: map<Xorb, nat>

    constructor (rows: seq<TermRow>, refs: map<Xorb, nat>)
      ensures this.rows == rows && this.refs == refs
    {
      this.rows := rows;
      this.refs := refs;
    }

    /** Every term on from belongs to a locked blob and is one run of the new xorb. */
    method CheckTerms(from: Xorb, index: seq<int>, locked: set<string>) returns (ok: bool)
      ensures ok <==> Accepts(rows, from, index, locked)
    {
      ok := true;
      for n := 0 to |rows|
        invariant ok
        invariant Accepts(rows[..n], from, index, locked)
      {
        var t := rows[n].term;
        assert rows[..n + 1] == rows[..n] + [rows[n]];
        if t.xorb == from {
          if rows[n].blob !in locked { return false; }
          if t.start < 0 || t.end > |index| || t.start >= t.end { return false; }
          var i := t.start;
          while i < t.end
            invariant t.start <= i <= t.end
            invariant forall j :: t.start <= j < i ==> index[j] >= 0 && index[j] == index[t.start] + (j - t.start)
          {
            if index[i] < 0 || index[i] != index[t.start] + (i - t.start) {
              assert rows[n] in rows;
              return false;
            }
            i := i + 1;
          }
        }
      }
      assert rows[..|rows|] == rows;
    }

    /** The places that moved, as the two columns the UPDATE joins on. */
    method MovedPlaces(index: seq<int>) returns (olds: seq<int>, news: seq<int>)
      ensures |olds| == |news|
      ensures forall k :: 0 <= k < |olds| ==> 0 <= olds[k] < |index| && index[olds[k]] == news[k] >= 0
      ensures forall i :: 0 <= i < |index| && index[i] >= 0 ==> i in olds
    {
      olds, news := [], [];
      for i := 0 to |index|
        invariant |olds| == |news|
        invariant forall k :: 0 <= k < |olds| ==> 0 <= olds[k] < i && index[olds[k]] == news[k] >= 0
        invariant forall j :: 0 <= j < i && index[j] >= 0 ==> j in olds
      {
        if index[i] >= 0 {
          olds, news := olds + [i], news + [index[i]];
        }
      }
    }

    /** The UPDATE: each term on from whose first chunk moved is repointed. */
    method Repoint(from: Xorb, to: Xorb, olds: seq<int>, news: seq<int>, ghost index: seq<int>)
      requires |olds| == |news|
      requires forall k :: 0 <= k < |olds| ==> 0 <= olds[k] < |index| && index[olds[k]] == news[k] >= 0
      requires forall i :: 0 <= i < |index| && index[i] >= 0 ==> i in olds
      modifies this`rows
      ensures rows == MoveRows(old(rows), from, to, index)
    {
      ghost var moved := MoveRows(rows, from, to, index);
      for n := 0 to |rows|
        invariant |rows| == |old(rows)|
        invariant forall i :: 0 <= i < n ==> rows[i] == moved[i]
        invariant forall i :: n <= i < |rows| ==> rows[i] == old(rows)[i]
      {
        var t := RepointTerm(rows[n].term, from, to, olds, news, index);
        rows := rows[n := TermRow(rows[n].blob, t)];
      }
    }

    /** The transaction of a compaction. locked is the blobs it found on from and
        locked first, and claimed says whether the claim of to's row went through.
        A refused move changes nothing; an accepted one repoints every term,
        leaves from at zero and counts to's users afresh. */
    method MoveTerms(from: Xorb, to: Xorb, index: seq<int>, locked: set<string>, claimed: bool)
      returns (r: Result<nat, MoveError>)
      requires claimed ==> to in refs
      modifies this
      ensures r.Ok? <==>
        && from != to
        && claimed
        && from in old(refs)
        && old(refs)[from] > 0
        && Accepts(old(rows), from, index, locked)
      ensures r.Err? ==> rows == old(rows) && refs == old(refs)
      ensures r == Err(RewroteWhole) <==> from == to
      ensures r.Ok? ==>
        && r.value == |locked|
        && rows == MoveRows(old(rows), from, to, index)
        && refs == old(refs)[from := 0][to := |BlobsOn(rows, to)|]
    {
      if from == to { return Err(RewroteWhole); }
      if !claimed { return Err(Stale); }
      if from !in refs || refs[from] == 0 { return Err(Stale); }
      var ok := CheckTerms(from, index, locked);
      if !ok { return Err(Stale); }
      var olds, news := MovedPlaces(index);
      Repoint(from, to, olds, news, index);
      refs := refs[from := 0];
      refs := refs[to := |BlobsOn(rows, to)|];
      return Ok(|locked|);
    }
  }
}
