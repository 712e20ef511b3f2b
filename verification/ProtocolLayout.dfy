/** Whether a xorb's recorded chunk offsets describe the bytes stored under its
    name. A claim checks that bytes are present, not which serialization they
    are, so this holds exactly when all writers serialize a xorb alike. */
module ProtocolLayout {
  import opened Wrappers
  import opened Terms
  import opened Protocol
  import opened ProtocolSafety

  /** Every xorb some blob uses is stored in the serialization its rows describe. */
  ghost predicate Agrees(s: State) {
    forall x :: Users(s.db, x) != {} ==>
      x in s.db.xorbs && x in s.be.xorbs && s.db.xorbs[x].layout == s.be.xorbs[x]
  }

  /** Writers have one way to serialize each xorb that has chunks. */
  ghost predicate Deterministic(lay: Layouts) {
    forall x: Xorb, l: nat, m: nat :: x.chunks != [] && lay(x, l) && lay(x, m) ==> l == m
  }

  // ---------------------------------------------------------------------
  // Deterministic writers agree
  // ---------------------------------------------------------------------

  ghost predicate MineAllowed(lay: Layouts, mine: map<Xorb, Wrote>) {
    forall x :: x in mine ==> lay(x, mine[x].layout)
  }

  ghost predicate TxAllowed(lay: Layouts, tx: Tx) {
    && (forall x :: x in tx.edits.xorbs && tx.edits.xorbs[x].Some? ==> lay(x, tx.edits.xorbs[x].value.layout))
    && match tx.stage
       case Claiming(_, mine, _) => MineAllowed(lay, mine)
       case Checking(_, mine, _, _) => MineAllowed(lay, mine)
       case LockingBlobs(_, _, _, mine) => MineAllowed(lay, mine)
       case _ => true
  }

  /** Every serialization on record, in the tables, the backend or a transaction. */
  ghost predicate Allowed(lay: Layouts, s: State) {
    && (forall x :: x in s.be.xorbs ==> lay(x, s.be.xorbs[x]))
    && (forall x :: x in s.db.xorbs ==> lay(x, s.db.xorbs[x].layout))
    && (forall w :: w in s.wrote ==> MineAllowed(lay, s.wrote[w]))
    && (forall t :: t in s.txs ==> TxAllowed(lay, s.txs[t]))
  }

  /** A transaction goes on, with nothing new in the backend. */
  ghost predicate Proceeds(lay: Layouts, s: State, t: TxId, s': State) {
    && t in s'.txs && s' == With(s, t, s'.txs[t]).(be := s'.be)
    && TxAllowed(lay, s'.txs[t])
    && forall x :: x in s'.be.xorbs ==> x in s.be.xorbs && s'.be.xorbs[x] == s.be.xorbs[x]
  }

  lemma ProceedsAllowed(lay: Layouts, s: State, t: TxId, s': State)
    requires Allowed(lay, s) && Proceeds(lay, s, t, s')
    ensures Allowed(lay, s')
  {
  }

  lemma AllowedBegin(lay: Layouts, s: State, step: Step, s': State)
    requires Allowed(lay, s) && BeginStep(s, step, s')
    ensures Proceeds(lay, s, step.t, s')
  {
    if step.BeginCommit? || step.BeginMove? {
      assert MineAllowed(lay, WroteBy(s, step.w));
    }
  }

  lemma AllowedClaim(lay: Layouts, s: State, step: Step, s': State)
    requires Allowed(lay, s) && ClaimStep(s, step, s')
    ensures Proceeds(lay, s, step.t, s')
  {
    assert TxAllowed(lay, s.txs[step.t]);
  }

  lemma AllowedPoint(lay: Layouts, s: State, step: Step, s': State)
    requires Allowed(lay, s) && (PointStep(s, step, s') || DetachStep(s, step, s') || ByteStep(s, step, s'))
    ensures Proceeds(lay, s, step.t, s')
  {
    assert TxAllowed(lay, s.txs[step.t]);
  }

  lemma AllowedMove(lay: Layouts, s: State, step: Step, s': State)
    requires Allowed(lay, s) && MoveStep(s, step, s')
    ensures Proceeds(lay, s, step.t, s')
  {
    assert TxAllowed(lay, s.txs[step.t]);
  }

  lemma AllowedOutside(lay: Layouts, s: State, step: Step, s': State)
    requires Allowed(lay, s) && (WriterStep(lay, s, step, s') || EndStep(s, step, s'))
    ensures Allowed(lay, s')
  {
    if step.PutXorb? {
      assert MineAllowed(lay, WroteBy(s, step.w));
    } else if step.Commit? {
      assert TxAllowed(lay, s.txs[step.t]);
    }
  }

  lemma StepKeepsAllowed(lay: Layouts, s: State, step: Step, s': State)
    requires Allowed(lay, s) && StepTo(lay, s, step, s')
    ensures Allowed(lay, s')
  {
    if WriterStep(lay, s, step, s') || EndStep(s, step, s') {
      AllowedOutside(lay, s, step, s');
    } else {
      if BeginStep(s, step, s') {
        AllowedBegin(lay, s, step, s');
      } else if ClaimStep(s, step, s') {
        AllowedClaim(lay, s, step, s');
      } else if MoveStep(s, step, s') {
        AllowedMove(lay, s, step, s');
      } else {
        AllowedPoint(lay, s, step, s');
      }
      ProceedsAllowed(lay, s, step.t, s');
    }
  }

  lemma {:induction false} RunKeepsAllowed(lay: Layouts, states: seq<State>, steps: seq<Step>, i: nat)
    requires Run(lay, states, steps) && i < |states|
    ensures Allowed(lay, states[i])
  {
    if i > 0 {
      RunKeepsAllowed(lay, states, steps, i - 1);
      StepKeepsAllowed(lay, states[i - 1], steps[i - 1], states[i]);
    }
  }

  lemma UsedHasChunks(s: State, x: Xorb)
    requires Inv(s) && Users(s.db, x) != {}
    ensures x.chunks != []
  {
    var h :| h in Users(s.db, x);
    var terms := s.db.blobs[h].terms;
    assert BlobOk(s.db, s.be, h);
    var i :| 0 <= i < |terms| && terms[i].xorb == x;
    TilesSplit(terms, 0, i);
    TilesHead(terms[i..], TotalSize(Denote(terms[..i])));
  }

  ghost predicate Reachable(lay: Layouts, s: State) {
    exists states, steps :: Run(lay, states, steps) && states[|states| - 1] == s
  }

  lemma DeterministicAgrees(lay: Layouts, s: State)
    requires Reachable(lay, s) && Deterministic(lay)
    ensures Agrees(s)
  {
    var states, steps :| Run(lay, states, steps) && states[|states| - 1] == s;
    RunKeepsAllowed(lay, states, steps, |states| - 1);
    RunKeepsInv(lay, states, steps, |states| - 1);
    forall x | Users(s.db, x) != {}
      ensures x in s.db.xorbs && x in s.be.xorbs && s.db.xorbs[x].layout == s.be.xorbs[x]
    {
      assert XorbOk(s.db, s.be, x);
      UsedHasChunks(s, x);
    }
  }

  // ---------------------------------------------------------------------
  // Writers that differ can disagree
  // ---------------------------------------------------------------------

  const EMPTY := State(Db(map[], map[], map[]), Backend({}, map[]), map[], map[])

  lemma Reach(lay: Layouts, s: State, step: Step, s': State)
    requires Reachable(lay, s) && StepTo(lay, s, step, s')
    ensures Reachable(lay, s')
  {
    var states, steps :| Run(lay, states, steps) && states[|states| - 1] == s;
    var longer := states + [s'];
    assert Run(lay, longer, steps + [step]) && longer[|longer| - 1] == s';
  }

  /** s with one transaction open. */
  function Solo(s: State, tx: Tx): State {
    s.(txs := map[7 := tx])
  }

  lemma SoloLockXorb(lay: Layouts, s: State, tx: Tx, x: Xorb)
    requires Reachable(lay, Solo(s, tx)) && tx.stage.Claiming? && x in tx.stage.todo
    ensures Reachable(lay, Solo(s, LockXorb(s.db, tx, x)))
  {
    var next := LockXorb(s.db, tx, x);
    assert With(Solo(s, tx), 7, next) == Solo(s, next);
    Reach(lay, Solo(s, tx), DoLockXorb(7, x), Solo(s, next));
  }

  lemma SoloAbort(lay: Layouts, s: State, tx: Tx)
    requires Reachable(lay, Solo(s, tx))
    ensures Reachable(lay, s.(txs := map[]))
  {
    assert Without(Solo(s, tx), 7) == s.(txs := map[]);
    Reach(lay, Solo(s, tx), Abort(7), s.(txs := map[]));
  }

  lemma SoloDiscard(lay: Layouts, s: State, tx: Tx)
    requires Reachable(lay, Solo(s, tx)) && tx.stage.Discarding?
    ensures Reachable(lay, s.(txs := map[], be := s.be.(xorbs := s.be.xorbs - {tx.stage.x})))
  {
    var after := s.(be := s.be.(xorbs := s.be.xorbs - {tx.stage.x}));
    var doomed := tx.(stage := Doomed);
    assert With(Solo(s, tx), 7, doomed).(be := after.be) == Solo(after, doomed);
    Reach(lay, Solo(s, tx), DoDiscard(7), Solo(after, doomed));
    SoloAbort(lay, after, doomed);
  }

  lemma SoloCheckXorb(lay: Layouts, s: State, tx: Tx)
    requires Reachable(lay, Solo(s, tx)) && tx.stage.Checking?
    ensures Reachable(lay, Solo(s, CheckXorb(s.be, tx)))
  {
    var next := CheckXorb(s.be, tx);
    assert With(Solo(s, tx), 7, next) == Solo(s, next);
    Reach(lay, Solo(s, tx), DoCheckXorb(7), Solo(s, next));
  }

  lemma SoloAttach(lay: Layouts, s: State, tx: Tx)
    requires Reachable(lay, Solo(s, tx)) && tx.stage.Claiming? && tx.stage.goal.Attach? && tx.stage.todo == {}
    ensures Reachable(lay, Solo(s, AttachTerms(s.db, tx)))
  {
    var next := AttachTerms(s.db, tx);
    assert With(Solo(s, tx), 7, next) == Solo(s, next);
    Reach(lay, Solo(s, tx), DoAttach(7), Solo(s, next));
  }

  lemma SoloUpsert(lay: Layouts, s: State, tx: Tx)
    requires Reachable(lay, Solo(s, tx)) && tx.stage.Upserting?
    ensures Reachable(lay, Solo(s, Upsert(s.db, tx)))
  {
    var next := Upsert(s.db, tx);
    assert With(Solo(s, tx), 7, next) == Solo(s, next);
    Reach(lay, Solo(s, tx), DoUpsert(7), Solo(s, next));
  }

  lemma SoloCommit(lay: Layouts, s: State, tx: Tx)
    requires Reachable(lay, Solo(s, tx)) && tx.stage.Ready?
    ensures Reachable(lay, s.(txs := map[], db := Apply(s.db, tx.edits)))
  {
    var done := s.(txs := map[], db := Apply(s.db, tx.edits));
    assert Without(Solo(s, tx), 7).(db := done.db) == done;
    assert EndStep(Solo(s, tx), Commit(7), done);
    Reach(lay, Solo(s, tx), Commit(7), done);
  }

  function WholeXorb(x: Xorb): seq<Term> {
    [Term(0, x, 0, |x.chunks|, TotalSize(x.chunks))]
  }

  lemma WholeXorbDenotes(x: Xorb)
    requires x.chunks != []
    ensures Denotes(WholeXorb(x), x.chunks) && Uses(WholeXorb(x)) == {x}
  {
    assert x.chunks[0..|x.chunks|] == x.chunks;
    assert WholeXorb(x)[1..] == [];
    assert WholeXorb(x)[0] in WholeXorb(x);
  }

  /** A store with no rows, one xorb object, and what two writers know of it. */
  function TwoWriters(x: Xorb, stored: map<Xorb, nat>, first: Wrote, second: Wrote): State {
    EMPTY.(be := Backend({}, stored), wrote := map[1 := map[x := first], 2 := map[x := second]])
  }

  /** A commit of a blob that is all of xorb x, as its claim begins. */
  function NewBlobTx(x: Xorb, key: Key, wrote: Wrote): Tx {
    var h := Blob(x.chunks);
    Tx({}, {h}, {}, NO_EDITS.(blobs := map[h := Some(BlobRow(1, true, []))]),
       Claiming(Attach(key, h, WholeXorb(x)), map[x := wrote], {x}))
  }

  lemma Begin(lay: Layouts, x: Xorb, s: State, w: WriterId, key: Key)
    requires x.chunks != [] && Reachable(lay, s)
    requires s.txs == map[] && s.db == EMPTY.db && w in s.wrote && s.wrote[w].Keys == {x}
    ensures Reachable(lay, Solo(s, NewBlobTx(x, key, s.wrote[w][x])))
  {
    WholeXorbDenotes(x);
    var tx := NewBlobTx(x, key, s.wrote[w][x]);
    assert s.wrote[w] == map[x := s.wrote[w][x]];
    assert With(s, 7, tx) == Solo(s, tx);
    Reach(lay, s, BeginCommit(7, w, key, Blob(x.chunks), true, WholeXorb(x)), Solo(s, tx));
  }

  /** The first writer writes the xorb; the second finds it there, and says so. */
  lemma BothWrite(lay: Layouts, x: Xorb, l: nat, m: nat)
    requires lay(x, l) && lay(x, m)
    ensures Reachable(lay, TwoWriters(x, map[x := l], Wrote(false, l), Wrote(true, m)))
  {
    assert Run(lay, [EMPTY], []) && [EMPTY][|[EMPTY]| - 1] == EMPTY;
    var s := EMPTY.(be := Backend({}, map[x := l]), wrote := map[1 := map[x := Wrote(false, l)]]);
    Reach(lay, EMPTY, PutXorb(1, x, l), s);
    Reach(lay, s, PutXorb(2, x, m), TwoWriters(x, map[x := l], Wrote(false, l), Wrote(true, m)));
  }

  /** The second writer's claim, the first on the xorb, discards the bytes. */
  lemma SecondDiscards(lay: Layouts, x: Xorb, l: nat, m: nat)
    requires x.chunks != [] && lay(x, l) && lay(x, m)
    ensures Reachable(lay, TwoWriters(x, map[], Wrote(false, l), Wrote(true, m)))
  {
    var s := TwoWriters(x, map[x := l], Wrote(false, l), Wrote(true, m));
    var tx := NewBlobTx(x, Key(2, "second"), Wrote(true, m));
    BothWrite(lay, x, l, m);
    Begin(lay, x, s, 2, Key(2, "second"));
    SoloLockXorb(lay, s, tx, x);
    assert LockXorb(s.db, tx, x).stage == Discarding(x);
    SoloDiscard(lay, s, LockXorb(s.db, tx, x));
    assert s.be.xorbs - {x} == map[];
  }

  /** Its retry writes its own serialization. */
  lemma SecondRewrites(lay: Layouts, x: Xorb, l: nat, m: nat)
    requires x.chunks != [] && lay(x, l) && lay(x, m)
    ensures Reachable(lay, TwoWriters(x, map[x := m], Wrote(false, l), Wrote(false, m)))
  {
    SecondDiscards(lay, x, l, m);
    var s := TwoWriters(x, map[], Wrote(false, l), Wrote(true, m));
    var s' := TwoWriters(x, map[x := m], Wrote(false, l), Wrote(false, m));
    assert WroteBy(s, 2) == map[x := Wrote(true, m)];
    assert WroteBy(s, 2)[x := Wrote(false, m)] == map[x := Wrote(false, m)];
    assert s.wrote[2 := map[x := Wrote(false, m)]] == s'.wrote;
    Reach(lay, s, PutXorb(2, x, m), s');
  }

  /** The first writer's claim finds bytes present under the name it wrote. */
  lemma FirstClaims(lay: Layouts, x: Xorb, l: nat, m: nat, key: Key)
    requires x.chunks != [] && lay(x, l) && lay(x, m)
    ensures Reachable(lay, Solo(TwoWriters(x, map[x := m], Wrote(false, l), Wrote(false, m)), ClaimedTx(x, key, l)))
  {
    var s := TwoWriters(x, map[x := m], Wrote(false, l), Wrote(false, m));
    var tx := NewBlobTx(x, key, Wrote(false, l));
    SecondRewrites(lay, x, l, m);
    Begin(lay, x, s, 1, key);
    SoloLockXorb(lay, s, tx, x);
    SoloCheckXorb(lay, s, LockXorb(s.db, tx, x));
    assert {x} - {x} == {};
    assert CheckXorb(s.be, LockXorb(s.db, tx, x)) == ClaimedTx(x, key, l);
  }

  /** The commit once its xorb is claimed. */
  function ClaimedTx(x: Xorb, key: Key, l: nat): Tx {
    var tx := NewBlobTx(x, key, Wrote(false, l));
    tx.(xorbs := {x}, edits := tx.edits.(xorbs := map[x := Some(XorbRow(0, false, l))]),
        stage := Claiming(tx.stage.goal, tx.stage.mine, {}))
  }

  function OneObject(x: Xorb, key: Key, l: nat): Db {
    var h := Blob(x.chunks);
    Db(map[key := h], map[h := BlobRow(1, true, WholeXorb(x))], map[x := XorbRow(1, false, l)])
  }

  /** And commits offsets of its own serialization over the second's bytes. */
  lemma FirstCommits(lay: Layouts, x: Xorb, l: nat, m: nat, key: Key)
    requires x.chunks != [] && lay(x, l) && lay(x, m)
    ensures Reachable(lay, TwoWriters(x, map[x := m], Wrote(false, l), Wrote(false, m)).(db := OneObject(x, key, l)))
  {
    var s := TwoWriters(x, map[x := m], Wrote(false, l), Wrote(false, m));
    var tx := ClaimedTx(x, key, l);
    FirstClaims(lay, x, l, m, key);
    SoloAttach(lay, s, tx);
    SoloUpsert(lay, s, AttachTerms(s.db, tx));
    SoloCommit(lay, s, Upsert(s.db, AttachTerms(s.db, tx)));
    CommittedDb(x, key, l);
  }

  lemma CommittedDb(x: Xorb, key: Key, l: nat)
    requires x.chunks != []
    ensures Apply(EMPTY.db, Upsert(EMPTY.db, AttachTerms(EMPTY.db, ClaimedTx(x, key, l))).edits) == OneObject(x, key, l)
  {
    WholeXorbDenotes(x);
    var tx := ClaimedTx(x, key, l);
    assert Referenced(EMPTY.db, tx.edits, {x}) == map[x := Some(XorbRow(1, false, l))];
  }

  /** Two ways to serialize one xorb are enough for a run after which a blob's
      recorded offsets do not describe the bytes stored. */
  lemma WritersCanDisagree(lay: Layouts, x: Xorb, l: nat, m: nat)
    requires x.chunks != [] && lay(x, l) && lay(x, m) && l != m
    ensures exists s :: Reachable(lay, s) && !Agrees(s)
  {
    var key, h := Key(1, "first"), Blob(x.chunks);
    FirstCommits(lay, x, l, m, key);
    WholeXorbDenotes(x);
    var s := TwoWriters(x, map[x := m], Wrote(false, l), Wrote(false, m)).(db := OneObject(x, key, l));
    assert h in Users(s.db, x);
    assert Reachable(lay, s) && !Agrees(s);
  }

  /** Offsets agree with the stored bytes in every reachable state exactly when
      every xorb has one serialization. */
  lemma AgreementIffDeterministic(lay: Layouts)
    ensures (forall s :: Reachable(lay, s) ==> Agrees(s)) <==> Deterministic(lay)
  {
    if Deterministic(lay) {
      forall s | Reachable(lay, s)
        ensures Agrees(s)
      {
        DeterministicAgrees(lay, s);
      }
    } else {
      var x: Xorb, l: nat, m: nat :| x.chunks != [] && lay(x, l) && lay(x, m) && l != m;
      WritersCanDisagree(lay, x, l, m);
    }
  }
}
