/** What the protocol lets happen: which claims hold, and that an operation with
    nothing open beside it gets to commit whenever its rows and bytes allow it. */
module ProtocolProgress {
  import opened Wrappers
  import opened Terms
  import opened Compaction
  import opened Protocol
  import opened ProtocolSafety
  import opened ProtocolEffects

  // ---------------------------------------------------------------------
  // Claims
  // ---------------------------------------------------------------------

  /** A xorb can be claimed: its row is referenced or has its bytes, and is not
      marked damaged unless the claimer wrote it; or the claimer wrote it anew. */
  predicate Claimable(db: Db, be: Backend, mine: map<Xorb, Wrote>, x: Xorb) {
    if x in db.xorbs then
      (db.xorbs[x].refs > 0 || x in be.xorbs) && (x in mine || !db.xorbs[x].damaged)
    else
      x in mine && !mine[x].existed && x in be.xorbs
  }

  /** A claim from its lock through its byte check, if it has one. */
  function Claim(db: Db, be: Backend, tx: Tx, x: Xorb): Tx
    requires tx.stage.Claiming?
  {
    var locked := LockXorb(db, tx, x);
    if locked.stage.Checking? then CheckXorb(be, locked) else locked
  }

  /** A claim takes the xorb off the list exactly when it can be claimed; bytes
      found under a name with no row are discarded, and nothing else is. */
  lemma ClaimHoldsIff(db: Db, be: Backend, tx: Tx, x: Xorb)
    requires tx.stage.Claiming? && x in tx.stage.todo
    ensures var mine, next := tx.stage.mine, Claim(db, be, tx, x);
      && (if Claimable(db, be, mine, x) then next.stage == Claiming(tx.stage.goal, mine, tx.stage.todo - {x})
          else next.stage == Doomed || next.stage == Discarding(x))
      && (next.stage == Discarding(x) <==> x !in db.xorbs && x in mine && mine[x].existed)
      && next.xorbs == tx.xorbs + {x} && next.edits.blobs == tx.edits.blobs && next.edits.objects == tx.edits.objects
  {
  }

  // ---------------------------------------------------------------------
  // One transaction, with nothing open beside it
  // ---------------------------------------------------------------------

  /** A path of steps from one state to another. */
  ghost predicate Leads(lay: Layouts, s: State, s': State, states: seq<State>, steps: seq<Step>) {
    && |states| == |steps| + 1 && states[0] == s && states[|steps|] == s'
    && forall i :: 0 <= i < |steps| ==> StepTo(lay, states[i], steps[i], states[i + 1])
  }

  ghost predicate LeadsTo(lay: Layouts, s: State, s': State) {
    exists states, steps :: Leads(lay, s, s', states, steps)
  }

  lemma Extend(lay: Layouts, s: State, s': State, step: Step, s'': State)
    requires LeadsTo(lay, s, s') && StepTo(lay, s', step, s'')
    ensures LeadsTo(lay, s, s'')
  {
    var states, steps :| Leads(lay, s, s', states, steps);
    assert Leads(lay, s, s'', states + [s''], steps + [step]);
  }

  lemma Stay(lay: Layouts, s: State)
    ensures LeadsTo(lay, s, s)
  {
    assert Leads(lay, s, s, [s], []);
  }

  /** s with the one transaction open, and the backend as it has left it. */
  function Alone(s: State, t: TxId, tx: Tx, be: Backend): State {
    s.(txs := map[t := tx], be := be)
  }

  /** From s, begin leads to where its transaction, alone, is tx. */
  ghost predicate Gets(lay: Layouts, s: State, begin: Step, t: TxId, tx: Tx, be: Backend) {
    && LeadsTo(lay, s, Alone(s, t, tx, be)) && Inv(Alone(s, t, tx, be)) && Serves(begin, s.db, tx)
  }

  lemma Start(lay: Layouts, s: State, begin: Step, t: TxId, tx: Tx)
    requires Inv(s) && s.txs == map[] && Begins(begin, t) && BeginStep(s, begin, With(s, t, tx))
    ensures Gets(lay, s, begin, t, tx, s.be)
  {
    assert With(s, t, tx) == Alone(s, t, tx, s.be);
    BegunServes(s, begin, With(s, t, tx), t);
    BeginKeepsInv(s, begin, With(s, t, tx));
    Stay(lay, s);
    Extend(lay, s, s, begin, With(s, t, tx));
  }

  /** A step of the transaction's own. */
  lemma Go(lay: Layouts, s: State, begin: Step, t: TxId, tx: Tx, be: Backend, step: Step, tx': Tx, be': Backend)
    requires Gets(lay, s, begin, t, tx, be)
    requires UnderWay(Alone(s, t, tx, be), step, Alone(s, t, tx', be')) && step.t == t
    ensures Gets(lay, s, begin, t, tx', be')
  {
    var now, after := Alone(s, t, tx, be), Alone(s, t, tx', be');
    assert StepTo(lay, now, step, after);
    StepKeepsInv(lay, now, step, after);
    OwnServes(begin, now, step, after, t);
    Extend(lay, s, now, step, after);
  }

  lemma AloneWith(s: State, t: TxId, tx: Tx, be: Backend, tx': Tx)
    ensures With(Alone(s, t, tx, be), t, tx') == Alone(s, t, tx', be)
  {
  }

  lemma GoClaim(lay: Layouts, s: State, begin: Step, t: TxId, tx: Tx, be: Backend, step: Step, tx': Tx)
    requires Gets(lay, s, begin, t, tx, be) && ClaimStep(Alone(s, t, tx, be), step, With(Alone(s, t, tx, be), t, tx'))
    requires step.t == t
    ensures Gets(lay, s, begin, t, tx', be)
  {
    AloneWith(s, t, tx, be, tx');
    Go(lay, s, begin, t, tx, be, step, tx', be);
  }

  lemma GoPoint(lay: Layouts, s: State, begin: Step, t: TxId, tx: Tx, be: Backend, step: Step, tx': Tx)
    requires Gets(lay, s, begin, t, tx, be) && PointStep(Alone(s, t, tx, be), step, With(Alone(s, t, tx, be), t, tx'))
    requires step.t == t
    ensures Gets(lay, s, begin, t, tx', be)
  {
    AloneWith(s, t, tx, be, tx');
    Go(lay, s, begin, t, tx, be, step, tx', be);
  }

  lemma GoDetach(lay: Layouts, s: State, begin: Step, t: TxId, tx: Tx, be: Backend, step: Step, tx': Tx)
    requires Gets(lay, s, begin, t, tx, be) && DetachStep(Alone(s, t, tx, be), step, With(Alone(s, t, tx, be), t, tx'))
    requires step.t == t
    ensures Gets(lay, s, begin, t, tx', be)
  {
    AloneWith(s, t, tx, be, tx');
    Go(lay, s, begin, t, tx, be, step, tx', be);
  }

  lemma GoMove(lay: Layouts, s: State, begin: Step, t: TxId, tx: Tx, be: Backend, step: Step, tx': Tx)
    requires Gets(lay, s, begin, t, tx, be) && MoveStep(Alone(s, t, tx, be), step, With(Alone(s, t, tx, be), t, tx'))
    requires step.t == t
    ensures Gets(lay, s, begin, t, tx', be)
  {
    AloneWith(s, t, tx, be, tx');
    Go(lay, s, begin, t, tx, be, step, tx', be);
  }

  lemma GoBytes(
      lay: Layouts, s: State, begin: Step, t: TxId, tx: Tx, be: Backend, step: Step, stage: Stage, be': Backend)
    requires Gets(lay, s, begin, t, tx, be)
    requires ByteStep(Alone(s, t, tx, be), step, With(Alone(s, t, tx, be), t, tx.(stage := stage)).(be := be'))
    requires step.t == t
    ensures Gets(lay, s, begin, t, tx.(stage := stage), be')
  {
    AloneWith(s, t, tx, be, tx.(stage := stage));
    Go(lay, s, begin, t, tx, be, step, tx.(stage := stage), be');
  }

  /** From s the operation can run to its commit, and have its effect. */
  ghost predicate CanCommit(lay: Layouts, s: State, begin: Step) {
    exists s' :: LeadsTo(lay, s, s') && s'.txs == map[] && Effect(begin, s.db, s'.db)
  }

  lemma Finish(lay: Layouts, s: State, begin: Step, t: TxId, tx: Tx, be: Backend)
    requires Gets(lay, s, begin, t, tx, be) && tx.stage.Ready?
    ensures CanCommit(lay, s, begin)
  {
    var now := Alone(s, t, tx, be);
    var done := s.(txs := map[], be := be, db := Apply(s.db, tx.edits));
    assert EndStep(now, Commit(t), done) by {
      assert Protocol.Without(now, t).txs == map[];
    }
    ReadyEffect(begin, s.db, tx);
    Extend(lay, s, now, Commit(t), done);
  }

  // ---------------------------------------------------------------------
  // Pointing a key
  // ---------------------------------------------------------------------

  lemma CommitsFromRelease(lay: Layouts, s: State, begin: Step, t: TxId, tx: Tx, be: Backend)
    requires Gets(lay, s, begin, t, tx, be) && tx.stage.Releasing?
    ensures CanCommit(lay, s, begin)
  {
    var next := Release(s.db, tx);
    GoPoint(lay, s, begin, t, tx, be, DoRelease(t), next);
    Finish(lay, s, begin, t, next, be);
  }

  lemma CommitsFromUpsert(lay: Layouts, s: State, begin: Step, t: TxId, tx: Tx, be: Backend)
    requires Gets(lay, s, begin, t, tx, be) && tx.stage.Upserting?
    ensures CanCommit(lay, s, begin)
  {
    var next := Upsert(s.db, tx);
    GoPoint(lay, s, begin, t, tx, be, DoUpsert(t), next);
    if next.stage.Ready? {
      Finish(lay, s, begin, t, next, be);
    } else {
      CommitsFromRelease(lay, s, begin, t, next, be);
    }
  }

  /** A deletion commits whenever the key is there. */
  lemma DeleteCommits(lay: Layouts, s: State, t: TxId, key: Key)
    requires Inv(s) && s.txs == map[] && key in s.db.objects
    ensures CanCommit(lay, s, BeginDelete(t, key))
  {
    var tx := DeleteKey(s.db, key);
    Start(lay, s, BeginDelete(t, key), t, tx);
    CommitsFromRelease(lay, s, BeginDelete(t, key), t, tx, s.be);
  }

  /** A link commits whenever the blob has a reference. */
  lemma LinkCommits(lay: Layouts, s: State, t: TxId, key: Key, h: Blob)
    requires Inv(s) && s.txs == map[] && h in s.db.blobs && s.db.blobs[h].refs > 0
    ensures CanCommit(lay, s, BeginLink(t, key, h))
  {
    var tx := ClaimExisting(s.db, key, h);
    Start(lay, s, BeginLink(t, key, h), t, tx);
    CommitsFromUpsert(lay, s, BeginLink(t, key, h), t, tx, s.be);
  }

  /** A copy commits whenever the blob has a row and its bytes: a chunked blob's
      are there, and so are a whole one's with a reference. */
  lemma CopyCommits(lay: Layouts, s: State, t: TxId, key: Key, h: Blob)
    requires Inv(s) && s.txs == map[] && h in s.db.blobs
    requires s.db.blobs[h].refs > 0 || s.db.blobs[h].chunked || h in s.be.blobs
    ensures CanCommit(lay, s, BeginCopy(t, key, h))
  {
    var begin, tx := BeginCopy(t, key, h), ClaimStored(s.db, key, h);
    Start(lay, s, begin, t, tx);
    if tx.stage.CopyChecking? {
      var next := tx.(stage := Upserting(key, h));
      GoPoint(lay, s, begin, t, tx, s.be, DoCopyCheck(t), next);
      CommitsFromUpsert(lay, s, begin, t, next, s.be);
    } else {
      CommitsFromUpsert(lay, s, begin, t, tx, s.be);
    }
  }

  // ---------------------------------------------------------------------
  // Uploading
  // ---------------------------------------------------------------------

  lemma ClaimOne(lay: Layouts, s: State, begin: Step, t: TxId, tx: Tx, be: Backend, x: Xorb)
    requires Gets(lay, s, begin, t, tx, be) && tx.stage.Claiming? && x in tx.stage.todo
    ensures Gets(lay, s, begin, t, Claim(s.db, be, tx, x), be)
  {
    var locked := LockXorb(s.db, tx, x);
    GoClaim(lay, s, begin, t, tx, be, DoLockXorb(t, x), locked);
    if locked.stage.Checking? {
      var next := CheckXorb(be, locked);
      GoClaim(lay, s, begin, t, locked, be, DoCheckXorb(t), next);
    }
  }

  lemma {:induction false} ClaimAll(lay: Layouts, s: State, begin: Step, t: TxId, tx: Tx, be: Backend)
    returns (next: Tx)
    requires Gets(lay, s, begin, t, tx, be) && tx.stage.Claiming?
    requires forall x :: x in tx.stage.todo ==> Claimable(s.db, be, tx.stage.mine, x)
    ensures Gets(lay, s, begin, t, next, be)
    ensures next.stage == Claiming(tx.stage.goal, tx.stage.mine, {}) && next.blobs == tx.blobs
    decreases if tx.stage.Claiming? then |tx.stage.todo| else 0
  {
    if tx.stage.todo == {} {
      next := tx;
    } else {
      var x :| x in tx.stage.todo;
      ClaimOne(lay, s, begin, t, tx, be, x);
      ClaimHoldsIff(s.db, be, tx, x);
      ClaimKeepsBlobs(s.db, be, tx, x);
      next := ClaimAll(lay, s, begin, t, Claim(s.db, be, tx, x), be);
    }
  }

  lemma ClaimKeepsBlobs(db: Db, be: Backend, tx: Tx, x: Xorb)
    requires tx.stage.Claiming?
    ensures Claim(db, be, tx, x).blobs == tx.blobs
  {
  }

  lemma NewUploadCommits(lay: Layouts, s: State, begin: Step)
    requires Inv(s) && s.txs == map[] && begin.BeginCommit? && begin.h !in s.db.blobs
    requires begin.attach && Denotes(begin.plan, begin.h.chunks)
    requires forall x :: x in Uses(begin.plan) ==> Claimable(s.db, s.be, WroteBy(s, begin.w), x)
    ensures CanCommit(lay, s, begin)
  {
    var t := begin.t;
    var tx := ClaimBlob(s.db, begin.key, begin.h, true, begin.plan, WroteBy(s, begin.w));
    Start(lay, s, begin, t, tx);
    var held := ClaimAll(lay, s, begin, t, tx, s.be);
    var next := AttachTerms(s.db, held);
    GoClaim(lay, s, begin, t, held, s.be, DoAttach(t), next);
    CommitsFromUpsert(lay, s, begin, t, next, s.be);
  }

  lemma KnownUploadCommits(lay: Layouts, s: State, begin: Step)
    requires Inv(s) && s.txs == map[] && begin.BeginCommit? && begin.h in s.db.blobs
    requires begin.attach ==> Denotes(begin.plan, begin.h.chunks)
    ensures CanCommit(lay, s, begin)
  {
    var t := begin.t;
    var tx := ClaimBlob(s.db, begin.key, begin.h, begin.attach, begin.plan, WroteBy(s, begin.w));
    Start(lay, s, begin, t, tx);
    if tx.stage.Placing? {
      var next := tx.(stage := Upserting(begin.key, begin.h));
      var be := s.be.(blobs := s.be.blobs + {begin.h});
      GoBytes(lay, s, begin, t, tx, s.be, DoPlace(t, true), next.stage, be);
      CommitsFromUpsert(lay, s, begin, t, next, be);
    } else {
      CommitsFromUpsert(lay, s, begin, t, tx, s.be);
    }
  }

  /** An upload commits whenever its content has a row already, or it has a plan
      every xorb of which can be claimed. */
  lemma UploadCommits(lay: Layouts, s: State, t: TxId, w: WriterId, key: Key, h: Blob, attach: bool, plan: seq<Term>)
    requires Inv(s) && s.txs == map[] && (attach ==> Denotes(plan, h.chunks))
    requires h in s.db.blobs || (attach && forall x :: x in Uses(plan) ==> Claimable(s.db, s.be, WroteBy(s, w), x))
    ensures CanCommit(lay, s, BeginCommit(t, w, key, h, attach, plan))
  {
    if h in s.db.blobs {
      KnownUploadCommits(lay, s, BeginCommit(t, w, key, h, attach, plan));
    } else {
      NewUploadCommits(lay, s, BeginCommit(t, w, key, h, attach, plan));
    }
  }

  // ---------------------------------------------------------------------
  // Sweeping and compacting
  // ---------------------------------------------------------------------

  lemma DetachOne(lay: Layouts, s: State, begin: Step, t: TxId, tx: Tx, be: Backend, x: Xorb)
    requires Gets(lay, s, begin, t, tx, be) && tx.stage.Detaching? && x in tx.stage.todo
    ensures Gets(lay, s, begin, t,
      tx.(xorbs := tx.xorbs + {x}, stage := Detaching(tx.stage.blob, tx.stage.todo - {x})), be)
  {
    GoDetach(lay, s, begin, t, tx, be, DoLockDetached(t, x),
      tx.(xorbs := tx.xorbs + {x}, stage := Detaching(tx.stage.blob, tx.stage.todo - {x})));
  }

  lemma CommitsFromDetached(lay: Layouts, s: State, begin: Step, t: TxId, tx: Tx, be: Backend)
    requires Gets(lay, s, begin, t, tx, be) && tx.stage.Detaching? && tx.stage.todo == {}
    ensures CanCommit(lay, s, begin)
  {
    var next := DetachTerms(s.db, tx);
    GoDetach(lay, s, begin, t, tx, be, DoDetach(t), next);
    Finish(lay, s, begin, t, next, be);
  }

  lemma {:induction false} DetachAll(lay: Layouts, s: State, begin: Step, t: TxId, tx: Tx, be: Backend)
    requires Gets(lay, s, begin, t, tx, be) && tx.stage.Detaching?
    ensures CanCommit(lay, s, begin)
    decreases if tx.stage.Detaching? then |tx.stage.todo| else 0
  {
    if tx.stage.todo == {} {
      CommitsFromDetached(lay, s, begin, t, tx, be);
    } else {
      var x :| x in tx.stage.todo;
      DetachOne(lay, s, begin, t, tx, be, x);
      DetachAll(lay, s, begin, t,
        tx.(xorbs := tx.xorbs + {x}, stage := Detaching(tx.stage.blob, tx.stage.todo - {x})), be);
    }
  }

  /** A blob with no reference, whole or chunked, can be swept. */
  lemma SweepBlobCommits(lay: Layouts, s: State, t: TxId, h: Blob)
    requires Inv(s) && s.txs == map[] && h in s.db.blobs && s.db.blobs[h].refs == 0
    ensures CanCommit(lay, s, BeginSweepBlob(t, h))
  {
    var begin, tx := BeginSweepBlob(t, h), SweepBlob(s.db, h);
    assert BlobOk(s.db, s.be, h);
    Start(lay, s, begin, t, tx);
    if s.db.blobs[h].chunked {
      DetachAll(lay, s, begin, t, tx, s.be);
    } else {
      var next, be := tx.(stage := Ready), s.be.(blobs := s.be.blobs - {h});
      GoBytes(lay, s, begin, t, tx, s.be, DoDropBlob(t), next.stage, be);
      Finish(lay, s, begin, t, next, be);
    }
  }

  /** A xorb with no reference can be swept. */
  lemma SweepXorbCommits(lay: Layouts, s: State, t: TxId, x: Xorb)
    requires Inv(s) && s.txs == map[] && x in s.db.xorbs && s.db.xorbs[x].refs == 0
    ensures CanCommit(lay, s, BeginSweepXorb(t, x))
  {
    var begin := BeginSweepXorb(t, x);
    var tx := Tx({}, {}, {x}, NO_EDITS.(xorbs := map[x := None]), DroppingXorb(x, false));
    assert XorbOk(s.db, s.be, x);
    Start(lay, s, begin, t, tx);
    var next, be := tx.(stage := Ready), s.be.(xorbs := s.be.xorbs - {x});
    GoBytes(lay, s, begin, t, tx, s.be, DoDropXorb(t), next.stage, be);
    Finish(lay, s, begin, t, next, be);
  }

  lemma LockOneBlob(lay: Layouts, s: State, begin: Step, t: TxId, tx: Tx, be: Backend, b: Blob)
    requires Gets(lay, s, begin, t, tx, be) && tx.stage.LockingBlobs? && b in s.db.blobs
    ensures Gets(lay, s, begin, t, tx.(blobs := tx.blobs + {b}), be)
  {
    GoMove(lay, s, begin, t, tx, be, DoLockBlob(t, b), tx.(blobs := tx.blobs + {b}));
  }

  lemma {:induction false} LockBlobs(
      lay: Layouts, s: State, begin: Step, t: TxId, tx: Tx, be: Backend, all: set<Blob>)
    requires Gets(lay, s, begin, t, tx, be) && tx.stage.LockingBlobs? && tx.blobs <= all <= s.db.blobs.Keys
    ensures Gets(lay, s, begin, t, tx.(blobs := all), be)
    decreases all - tx.blobs
  {
    if b :| b in all && b !in tx.blobs {
      assert all - (tx.blobs + {b}) <= all - tx.blobs;
      LockOneBlob(lay, s, begin, t, tx, be, b);
      LockBlobs(lay, s, begin, t, tx.(blobs := tx.blobs + {b}), be, all);
    } else {
      assert tx.blobs == all;
    }
  }

  lemma MovesOn(lay: Layouts, s: State, begin: Step, t: TxId, tx: Tx)
    requires Gets(lay, s, begin, t, tx, s.be) && tx.stage.Claiming? && tx.stage.goal.Move? && tx.stage.todo == {}
    requires tx.stage.goal.from in tx.xorbs && tx.stage.goal.from in s.db.xorbs
    requires Users(s.db, tx.stage.goal.from) <= tx.blobs
    requires forall b :: b in Users(s.db, tx.stage.goal.from) ==>
      Movable(s.db.blobs[b].terms, tx.stage.goal.from, tx.stage.goal.index)
    ensures CanCommit(lay, s, begin)
  {
    assert TxInv(s.db, s.be, Alone(s, t, tx, s.be).txs[t]);
    assert tx.stage.goal.to in Wanted(tx.stage.goal) - {} && Counted(s.db, tx, tx.stage.goal.to);
    var next := Rewrite(s.db, tx);
    GoMove(lay, s, begin, t, tx, s.be, DoRewrite(t), next);
    Finish(lay, s, begin, t, next, s.be);
  }

  lemma LocksFrom(lay: Layouts, s: State, begin: Step, t: TxId, tx: Tx)
    requires Gets(lay, s, begin, t, tx, s.be) && tx.stage.Claiming? && tx.stage.goal.Move?
    requires tx.stage.goal.from in s.db.xorbs && s.db.xorbs[tx.stage.goal.from].refs > 0
    ensures Gets(lay, s, begin, t, tx.(xorbs := tx.xorbs + {tx.stage.goal.from}), s.be)
  {
    GoMove(lay, s, begin, t, tx, s.be, DoLockFrom(t), tx.(xorbs := tx.xorbs + {tx.stage.goal.from}));
  }

  lemma CommitsFromLocked(lay: Layouts, s: State, begin: Step, t: TxId, tx: Tx)
    requires Gets(lay, s, begin, t, tx, s.be) && tx.stage.LockingBlobs?
    requires Claimable(s.db, s.be, tx.stage.mine, tx.stage.to)
    requires tx.stage.from in s.db.xorbs && s.db.xorbs[tx.stage.from].refs > 0
    requires Users(s.db, tx.stage.from) <= tx.blobs
    requires forall b :: b in Users(s.db, tx.stage.from) ==> Movable(s.db.blobs[b].terms, tx.stage.from, tx.stage.index)
    ensures CanCommit(lay, s, begin)
  {
    var LockingBlobs(from, to, index, mine) := tx.stage;
    var claiming := tx.(stage := Claiming(Move(from, to, index), mine, {to}));
    GoMove(lay, s, begin, t, tx, s.be, DoBlobsLocked(t), claiming);
    var held := ClaimAll(lay, s, begin, t, claiming, s.be);
    LocksFrom(lay, s, begin, t, held);
    MovesOn(lay, s, begin, t, held.(xorbs := held.xorbs + {from}));
  }

  /** A move commits whenever the new xorb can be claimed, the old one is in use
      and every term on it is covered. */
  lemma MoveCommits(lay: Layouts, s: State, t: TxId, w: WriterId, from: Xorb, to: Xorb, index: seq<int>)
    requires Inv(s) && s.txs == map[] && from != to && Relocates(from, to, index)
    requires to in WroteBy(s, w) && Claimable(s.db, s.be, WroteBy(s, w), to)
    requires from in s.db.xorbs && s.db.xorbs[from].refs > 0
    requires forall b :: b in Users(s.db, from) ==> Movable(s.db.blobs[b].terms, from, index)
    ensures CanCommit(lay, s, BeginMove(t, w, from, to, index))
  {
    var begin, mine := BeginMove(t, w, from, to, index), WroteBy(s, w);
    var tx := Tx({}, {}, {}, NO_EDITS, LockingBlobs(from, to, index, mine));
    Start(lay, s, begin, t, tx);
    LockBlobs(lay, s, begin, t, tx, s.be, Users(s.db, from));
    CommitsFromLocked(lay, s, begin, t, tx.(blobs := Users(s.db, from)));
  }
}
