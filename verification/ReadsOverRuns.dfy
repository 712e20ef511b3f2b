/** Reads over runs of the protocol: what a read assumes of the database is what
    every run gives it. */
module ReadsOverRuns {
  import opened Fetch
  import opened Protocol
  import opened ProtocolSafety
  import opened Reader
  import opened Terms
  import opened Wrappers
  import XorbFile

  /** A blob's terms in the committed tables, none once it is gone. */
  function TermsIn(db: Db, h: Blob): seq<Term> {
    if h in db.blobs then db.blobs[h].terms else []
  }

  /** A xorb's rows come and go with the xorb, and are of its chunks, which its name
      determines. */
  predicate RowsIn(db: Db, x: Xorb, rows: seq<XorbFile.Row>) {
    if x in db.xorbs then RowsMatch(rows, x.chunks) else rows == []
  }

  /** Every query of the read finds what some state of the run had, in any order. */
  ghost predicate ReadsFrom(w: World, states: seq<State>, at: nat -> nat, h: Blob) {
    forall t: nat :: FoundIn(w(t), states, at(t), h)
  }

  ghost predicate FoundIn(s: Snapshot, states: seq<State>, i: nat, h: Blob) {
    && i < |states|
    && (s.terms.Some? ==> s.terms.value == TermsIn(states[i].db, h))
    && (forall x :: s.rows(x).Some? ==> RowsIn(states[i].db, x, s.rows(x).value))
  }

  /** However a read interleaves with a run of claims, moves and sweeps, the terms it
      finds stand for the blob's content whenever there are any. */
  lemma ReadsAreConsistent(lay: Layouts, states: seq<State>, steps: seq<Protocol.Step>, w: World, at: nat -> nat,
                  h: Blob)
    requires Run(lay, states, steps) && ReadsFrom(w, states, at, h)
    ensures AlwaysConsistent(h.chunks, w)
  {
    forall t: nat ensures Consistent(h.chunks, w(t)) {
      assert FoundIn(w(t), states, at(t), h);
      var s := states[at(t)];
      RunKeepsInv(lay, states, steps, at(t));
      assert BlobOk(s.db, s.be, h);
    }
  }

  lemma AllRowsClip(rows: seq<XorbFile.Row>, t: Term)
    requires Terms.Sound(t)
    ensures RowsMatch(rows, t.xorb.chunks) ==> |Clip(rows, t.start, t.end)| == t.end - t.start
  {
  }

  /** A read finds a term's rows gone only in a state where the blob's own terms have
      left the xorb: reading the terms again finds others, or none. */
  lemma StaleMeansMoved(lay: Layouts, states: seq<State>, steps: seq<Protocol.Step>, s: Snapshot, i: nat, h: Blob,
                  t: Term)
    requires Run(lay, states, steps) && FoundIn(s, states, i, h)
    requires Terms.Sound(t) && RowsGone(s, t)
    ensures forall u :: u in TermsIn(states[i].db, h) ==> u.xorb != t.xorb
  {
    var db := states[i].db;
    AllRowsClip(s.rows(t.xorb).value, t);
    assert t.xorb !in db.xorbs;
    RunKeepsInv(lay, states, steps, i);
    forall u | u in TermsIn(db, h) ensures u.xorb != t.xorb {
      assert XorbOk(db, states[i].be, u.xorb) && h in Users(db, u.xorb);
    }
  }
}
