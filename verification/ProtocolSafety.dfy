/** Safety of the row-lock protocol: in every state of every run, every object's
    bytes are in the backend and every refcount is exact. */
module ProtocolSafety {
  import opened Wrappers
  import opened Terms
  import opened Compaction
  import opened Protocol

  // ---------------------------------------------------------------------
  // The invariant
  // ---------------------------------------------------------------------

  predicate RowSound(r: BlobRow, h: Blob) {
    if r.chunked then Denotes(r.terms, h.chunks) else r.terms == []
  }

  ghost predicate BlobOk(db: Db, be: Backend, h: Blob) {
    && (Pointers(db, h) != {} ==> h in db.blobs)
    && (h in db.blobs ==>
          && db.blobs[h].refs == |Pointers(db, h)|
          && RowSound(db.blobs[h], h)
          && (!db.blobs[h].chunked && db.blobs[h].refs > 0 ==> h in be.blobs))
  }

  ghost predicate XorbOk(db: Db, be: Backend, x: Xorb) {
    && (Users(db, x) != {} ==> x in db.xorbs && x in be.xorbs)
    && (x in db.xorbs ==> db.xorbs[x].refs == |Users(db, x)|)
  }

  /** What holds of the committed tables and the backend at all times. */
  ghost predicate DbInv(db: Db, be: Backend) {
    && (forall h :: BlobOk(db, be, h))
    && (forall x :: XorbOk(db, be, x))
  }

  ghost predicate EditsLocked(tx: Tx) {
    && tx.edits.objects.Keys <= tx.keys
    && tx.edits.blobs.Keys <= tx.blobs
    && tx.edits.xorbs.Keys <= tx.xorbs
  }

  /** The writes change no unlocked blob's pointers. */
  ghost predicate PointersFramed(db: Db, tx: Tx) {
    forall k, h :: k in tx.edits.objects && h !in tx.blobs ==>
      (tx.edits.objects[k] == Some(h) <==> Lookup(db.objects, k) == Some(h))
  }

  /** The writes change no unlocked xorb's users. */
  ghost predicate UsersFramed(db: Db, tx: Tx) {
    forall h, x :: h in tx.edits.blobs && x !in tx.xorbs ==>
      (x in UsesOf(tx.edits.blobs[h]) <==> x in UsesOf(Lookup(db.blobs, h)))
  }

  /** Committing now would leave every xorb right. */
  ghost predicate XorbSide(db: Db, be: Backend, tx: Tx) {
    && UsersFramed(db, tx)
    && forall x :: x in tx.xorbs ==> XorbOk(Apply(db, tx.edits), be, x)
  }

  /** Committing now would leave everything right. */
  ghost predicate ReadyInv(db: Db, be: Backend, tx: Tx) {
    && PointersFramed(db, tx)
    && XorbSide(db, be, tx)
    && forall h :: h in tx.blobs ==> BlobOk(Apply(db, tx.edits), be, h)
  }

  /** One reference to h is claimed that no object accounts for yet. */
  ghost predicate Claimed(db: Db, be: Backend, tx: Tx, h: Blob, present: bool) {
    && tx.blobs == {h} && tx.edits.blobs.Keys == {h} && tx.edits.blobs[h].Some?
    && var r := tx.edits.blobs[h].value;
       && r.refs == |Pointers(db, h)| + 1
       && RowSound(r, h)
       && (present && !r.chunked ==> h in be.blobs)
  }

  /** x's row exists in the transaction's view, at its committed count. */
  ghost predicate Counted(db: Db, tx: Tx, x: Xorb) {
    && x in tx.xorbs
    && See(db.xorbs, tx.edits.xorbs, x).Some?
    && See(db.xorbs, tx.edits.xorbs, x).value.refs == |Users(db, x)|
  }

  /** The xorbs a goal claims. */
  function Wanted(goal: Goal): set<Xorb> {
    if goal.Attach? then Uses(goal.plan) else {goal.to}
  }

  ghost predicate ClaimInv(db: Db, be: Backend, tx: Tx, goal: Goal, todo: set<Xorb>, held: set<Xorb>) {
    && tx.keys == {} && tx.edits.objects == map[]
    && (forall x :: x in tx.edits.xorbs ==>
          x !in db.xorbs && tx.edits.xorbs[x].Some? && tx.edits.xorbs[x].value.refs == 0)
    && (forall x :: x in held ==> Counted(db, tx, x) && x in be.xorbs)
    && match goal
       case Attach(key, h, plan) =>
         && tx.blobs == {h} && h !in db.blobs
         && tx.edits.blobs == map[h := Some(BlobRow(1, true, []))]
         && Denotes(plan, h.chunks)
         && held == Uses(plan) - todo
       case Move(from, to, index) =>
         && tx.edits.blobs == map[] && tx.blobs <= db.blobs.Keys
         && from != to && Relocates(from, to, index)
         && held == {to} - todo
         && tx.edits.xorbs.Keys <= {to}
  }

  ghost predicate StageInv(db: Db, be: Backend, tx: Tx) {
    match tx.stage
    case Claiming(goal, mine, todo) =>
      && ClaimInv(db, be, tx, goal, todo, Wanted(goal) - todo)
      && (goal.Attach? ==> todo <= Uses(goal.plan) && tx.xorbs == Uses(goal.plan) - todo)
      && (goal.Move? ==> todo <= {goal.to} && tx.xorbs <= {goal.from} + ({goal.to} - todo))
    case Checking(goal, mine, todo, x) =>
      && ClaimInv(db, be, tx, goal, todo, Wanted(goal) - todo)
      && x in todo && Counted(db, tx, x)
      && (goal.Attach? ==> todo <= Uses(goal.plan) && tx.xorbs == Uses(goal.plan) - todo + {x})
      && (goal.Move? ==> todo <= {goal.to} && tx.xorbs <= {goal.from, goal.to})
    case Discarding(x) => x in tx.xorbs && x !in db.xorbs
    case Placing(key, h, must) =>
      && Claimed(db, be, tx, h, !must) && !tx.edits.blobs[h].value.chunked && XorbSide(db, be, tx)
      && tx.keys == {} && tx.edits.objects == map[]
    case CopyChecking(key, h) =>
      && Claimed(db, be, tx, h, false) && XorbSide(db, be, tx)
      && tx.keys == {} && tx.edits.objects == map[]
    case Upserting(key, h) =>
      && Claimed(db, be, tx, h, true) && XorbSide(db, be, tx)
      && tx.keys == {} && tx.edits.objects == map[]
    case Releasing(k, prev) =>
      && tx.keys == {k} && tx.edits.objects.Keys == {k} && Lookup(db.objects, k) == Some(prev)
      && XorbSide(db, be, tx)
      && match tx.edits.objects[k] {
           case Some(h) => Claimed(db, be, tx, h, true)
           case None => tx.blobs == {} && tx.edits.blobs == map[]
         }
    case Detaching(h, todo) =>
      && tx.keys == {} && tx.blobs == {h} && tx.edits == NO_EDITS
      && h in db.blobs && db.blobs[h].chunked && Pointers(db, h) == {}
      && todo <= Uses(db.blobs[h].terms) && tx.xorbs == Uses(db.blobs[h].terms) - todo
    case DroppingBlob(h, orphan) =>
      && tx.keys == {} && tx.xorbs == {} && tx.blobs == {h} && Pointers(db, h) == {}
      && (orphan ==> tx.edits == NO_EDITS)
      && (!orphan ==> tx.edits == NO_EDITS.(blobs := map[h := None]) && h in db.blobs && db.blobs[h].terms == [])
    case DroppingXorb(x, orphan) =>
      && tx.keys == {} && tx.blobs == {} && tx.xorbs == {x} && Users(db, x) == {}
      && (orphan ==> tx.edits == NO_EDITS)
      && (!orphan ==> tx.edits == NO_EDITS.(xorbs := map[x := None]))
    case LockingBlobs(from, to, index, mine) =>
      && tx.keys == {} && tx.xorbs == {} && tx.edits == NO_EDITS && tx.blobs <= db.blobs.Keys
      && from != to && Relocates(from, to, index)
    case Ready => ReadyInv(db, be, tx)
    case Doomed => true
  }

  ghost predicate TxInv(db: Db, be: Backend, tx: Tx) {
    EditsLocked(tx) && StageInv(db, be, tx)
  }

  ghost predicate Disjoint(a: Tx, b: Tx) {
    a.keys !! b.keys && a.blobs !! b.blobs && a.xorbs !! b.xorbs
  }

  ghost predicate Inv(s: State) {
    && DbInv(s.db, s.be)
    && (forall t :: t in s.txs ==> TxInv(s.db, s.be, s.txs[t]))
    && (forall t, u :: t in s.txs && u in s.txs && t != u ==> Disjoint(s.txs[t], s.txs[u]))
  }

  // ---------------------------------------------------------------------
  // Frames: what one transaction does is invisible under another's locks
  // ---------------------------------------------------------------------

  lemma PointersApply(db: Db, e: Edits, h: Blob)
    ensures Pointers(Apply(db, e), h)
         == (set k | k in Pointers(db, h) && k !in e.objects) + (set k | k in e.objects && e.objects[k] == Some(h))
  {
  }

  lemma UsersApply(db: Db, e: Edits, x: Xorb)
    ensures Users(Apply(db, e), x)
         == (set h | h in Users(db, x) && h !in e.blobs) + (set h | h in e.blobs && x in UsesOf(e.blobs[h]))
  {
  }

  lemma PointersOneKey(db: Db, e: Edits, h: Blob, k: Key)
    requires e.objects.Keys == {k}
    ensures Pointers(Apply(db, e), h) ==
      if e.objects[k] == Some(h) then Pointers(db, h) + {k} else Pointers(db, h) - {k}
  {
    PointersApply(db, e, h);
  }

  lemma UsersOneBlob(db: Db, e: Edits, x: Xorb, h: Blob)
    requires e.blobs.Keys == {h}
    ensures Users(Apply(db, e), x) == if x in UsesOf(e.blobs[h]) then Users(db, x) + {h} else Users(db, x) - {h}
  {
    UsersApply(db, e, x);
  }

  /** Everything under tx's locks is as it was, but for bytes written meanwhile. */
  ghost predicate Kept(tx: Tx, db: Db, be: Backend, db': Db, be': Backend) {
    && (forall k :: k in tx.keys ==> Lookup(db'.objects, k) == Lookup(db.objects, k))
    && (forall h :: h in tx.blobs ==>
          && Lookup(db'.blobs, h) == Lookup(db.blobs, h) && Pointers(db', h) == Pointers(db, h)
          && (h in be.blobs ==> h in be'.blobs))
    && (forall x :: x in tx.xorbs ==>
          && Lookup(db'.xorbs, x) == Lookup(db.xorbs, x) && Users(db', x) == Users(db, x)
          && (x in be.xorbs ==> x in be'.xorbs))
  }

  lemma XorbSideKept(tx: Tx, db: Db, be: Backend, db': Db, be': Backend)
    requires EditsLocked(tx) && XorbSide(db, be, tx) && Kept(tx, db, be, db', be')
    ensures XorbSide(db', be', tx)
  {
    forall x | x in tx.xorbs
      ensures XorbOk(Apply(db', tx.edits), be', x)
    {
      UsersApply(db, tx.edits, x);
      UsersApply(db', tx.edits, x);
      assert XorbOk(Apply(db, tx.edits), be, x);
    }
    forall h, x | h in tx.edits.blobs && x !in tx.xorbs
      ensures x in UsesOf(tx.edits.blobs[h]) <==> x in UsesOf(Lookup(db'.blobs, h))
    {
      assert h in tx.blobs;
    }
  }

  lemma ReadyKept(tx: Tx, db: Db, be: Backend, db': Db, be': Backend)
    requires EditsLocked(tx) && ReadyInv(db, be, tx) && Kept(tx, db, be, db', be')
    ensures ReadyInv(db', be', tx)
  {
    XorbSideKept(tx, db, be, db', be');
    forall h | h in tx.blobs
      ensures BlobOk(Apply(db', tx.edits), be', h)
    {
      PointersApply(db, tx.edits, h);
      PointersApply(db', tx.edits, h);
      assert BlobOk(Apply(db, tx.edits), be, h);
    }
    forall k, h | k in tx.edits.objects && h !in tx.blobs
      ensures tx.edits.objects[k] == Some(h) <==> Lookup(db'.objects, k) == Some(h)
    {
      assert k in tx.keys;
    }
  }

  lemma ClaimKept(tx: Tx, db: Db, be: Backend, db': Db, be': Backend, goal: Goal, todo: set<Xorb>, held: set<Xorb>)
    requires EditsLocked(tx) && ClaimInv(db, be, tx, goal, todo, held) && Kept(tx, db, be, db', be')
    ensures ClaimInv(db', be', tx, goal, todo, held)
  {
    forall x | x in held
      ensures Counted(db', tx, x) && x in be'.xorbs
    {
      assert Counted(db, tx, x);
    }
    forall x | x in tx.edits.xorbs
      ensures x !in db'.xorbs
    {
      assert x in tx.xorbs;
    }
    forall h | h in tx.blobs
      ensures h in db.blobs <==> h in db'.blobs
    {
    }
  }

  lemma TxInvKept(tx: Tx, db: Db, be: Backend, db': Db, be': Backend)
    requires TxInv(db, be, tx) && Kept(tx, db, be, db', be')
    ensures TxInv(db', be', tx)
  {
    match tx.stage
    case Claiming(goal, mine, todo) =>
      ClaimKept(tx, db, be, db', be', goal, todo, Wanted(goal) - todo);
    case Checking(goal, mine, todo, x) =>
      ClaimKept(tx, db, be, db', be', goal, todo, Wanted(goal) - todo);
    case Discarding(x) =>
    case Placing(key, h, must) => XorbSideKept(tx, db, be, db', be');
    case CopyChecking(key, h) => XorbSideKept(tx, db, be, db', be');
    case Upserting(key, h) => XorbSideKept(tx, db, be, db', be');
    case Releasing(k, prev) => XorbSideKept(tx, db, be, db', be');
    case Detaching(h, todo) =>
    case DroppingBlob(h, orphan) =>
    case DroppingXorb(x, orphan) =>
    case LockingBlobs(from, to, index, mine) =>
      assert forall h :: h in tx.blobs ==> (h in db.blobs <==> h in db'.blobs);
    case Ready => ReadyKept(tx, db, be, db', be');
    case Doomed =>
  }

  /** No other transaction holds what tx has locked. */
  ghost predicate Available(s: State, t: TxId, tx: Tx) {
    forall u :: u in s.txs && u != t ==> Disjoint(tx, s.txs[u])
  }

  /** The backend loses nothing but what tx has locked and nothing refers to. */
  ghost predicate Shrinks(db: Db, be: Backend, be': Backend, tx: Tx) {
    && (forall h :: h in be.blobs && h !in be'.blobs ==> h in tx.blobs && Pointers(db, h) == {})
    && (forall x :: x in be.xorbs && x !in be'.xorbs ==> x in tx.xorbs && Users(db, x) == {})
  }

  lemma DbInvShrinks(db: Db, be: Backend, be': Backend, tx: Tx)
    requires DbInv(db, be) && Shrinks(db, be, be', tx)
    ensures DbInv(db, be')
  {
    forall h
      ensures BlobOk(db, be', h)
    {
      assert BlobOk(db, be, h);
    }
    forall x
      ensures XorbOk(db, be', x)
    {
      assert XorbOk(db, be, x);
    }
  }

  /** One transaction's step, new or under way, with what it does to the backend. */
  lemma Advance(s: State, t: TxId, tx: Tx, be': Backend)
    requires Inv(s) && TxInv(s.db, be', tx)
    requires Available(s, t, tx)
    requires Shrinks(s.db, s.be, be', tx)
    ensures Inv(With(s, t, tx).(be := be'))
  {
    var s' := With(s, t, tx).(be := be');
    DbInvShrinks(s.db, s.be, be', tx);
    forall u | u in s'.txs
      ensures TxInv(s'.db, s'.be, s'.txs[u])
    {
      if u != t {
        assert Kept(s.txs[u], s.db, s.be, s.db, be');
        TxInvKept(s.txs[u], s.db, s.be, s.db, be');
      }
    }
    forall u, v | u in s'.txs && v in s'.txs && u != v
      ensures Disjoint(s'.txs[u], s'.txs[v])
    {
      assert u != t ==> u in s.txs;
      assert v != t ==> v in s.txs;
    }
  }

  lemma AdvanceSame(s: State, t: TxId, tx: Tx)
    requires Inv(s) && TxInv(s.db, s.be, tx)
    requires Available(s, t, tx)
    ensures Inv(With(s, t, tx))
  {
    Advance(s, t, tx, s.be);
    assert With(s, t, tx).(be := s.be) == With(s, t, tx);
  }

  // ---------------------------------------------------------------------
  // Commit
  // ---------------------------------------------------------------------

  lemma CommitDbInv(db: Db, be: Backend, tx: Tx)
    requires DbInv(db, be) && EditsLocked(tx) && ReadyInv(db, be, tx)
    ensures DbInv(Apply(db, tx.edits), be)
  {
    var after := Apply(db, tx.edits);
    forall h
      ensures BlobOk(after, be, h)
    {
      if h !in tx.blobs {
        FramedPointers(db, tx, h);
        assert BlobOk(db, be, h);
      }
    }
    forall x
      ensures XorbOk(after, be, x)
    {
      if x !in tx.xorbs {
        FramedUsers(db, tx, x);
        assert XorbOk(db, be, x);
      }
    }
  }

  lemma FramedPointers(db: Db, tx: Tx, h: Blob)
    requires PointersFramed(db, tx) && h !in tx.blobs
    ensures Pointers(Apply(db, tx.edits), h) == Pointers(db, h)
  {
    PointersApply(db, tx.edits, h);
  }

  lemma FramedUsers(db: Db, tx: Tx, x: Xorb)
    requires UsersFramed(db, tx) && x !in tx.xorbs
    ensures Users(Apply(db, tx.edits), x) == Users(db, x)
  {
    UsersApply(db, tx.edits, x);
  }

  lemma KeptByCommit(db: Db, be: Backend, tx: Tx, other: Tx)
    requires EditsLocked(tx) && ReadyInv(db, be, tx) && Disjoint(tx, other)
    ensures Kept(other, db, be, Apply(db, tx.edits), be)
  {
    forall h | h in other.blobs
      ensures Pointers(Apply(db, tx.edits), h) == Pointers(db, h)
    {
      FramedPointers(db, tx, h);
    }
    forall x | x in other.xorbs
      ensures Users(Apply(db, tx.edits), x) == Users(db, x)
    {
      FramedUsers(db, tx, x);
    }
  }

  lemma CommitInv(s: State, t: TxId)
    requires Inv(s) && t in s.txs && s.txs[t].stage.Ready?
    ensures Inv(Without(s, t).(db := Apply(s.db, s.txs[t].edits)))
  {
    var tx := s.txs[t];
    var s' := Without(s, t).(db := Apply(s.db, tx.edits));
    assert TxInv(s.db, s.be, tx);
    CommitDbInv(s.db, s.be, tx);
    forall u | u in s'.txs
      ensures TxInv(s'.db, s'.be, s'.txs[u])
    {
      assert TxInv(s.db, s.be, s.txs[u]) && Disjoint(tx, s.txs[u]);
      KeptByCommit(s.db, s.be, tx, s.txs[u]);
      TxInvKept(s.txs[u], s.db, s.be, s'.db, s.be);
    }
  }

  lemma AbortInv(s: State, t: TxId)
    requires Inv(s) && t in s.txs
    ensures Inv(Without(s, t))
  {
  }

  // ---------------------------------------------------------------------
  // Claims
  // ---------------------------------------------------------------------

  /** A blob's reference count raised by one, its terms left alone. */
  lemma RaisedClaim(db: Db, be: Backend, h: Blob, tx: Tx)
    requires DbInv(db, be) && h in db.blobs
    requires tx.keys == {} && tx.blobs == {h} && tx.xorbs == {}
    requires tx.edits == NO_EDITS.(blobs := map[h := Some(db.blobs[h].(refs := db.blobs[h].refs + 1))])
    ensures Claimed(db, be, tx, h, db.blobs[h].chunked || db.blobs[h].refs > 0)
    ensures XorbSide(db, be, tx) && EditsLocked(tx)
  {
    assert BlobOk(db, be, h);
  }

  lemma ClaimBlobInv(db: Db, be: Backend, key: Key, h: Blob, attach: bool, plan: seq<Term>, mine: map<Xorb, Wrote>)
    requires DbInv(db, be) && (attach ==> Denotes(plan, h.chunks))
    ensures TxInv(db, be, ClaimBlob(db, key, h, attach, plan, mine))
  {
    var tx := ClaimBlob(db, key, h, attach, plan, mine);
    if h in db.blobs {
      RaisedClaim(db, be, h, tx);
    } else if attach {
      assert tx.stage == Claiming(Attach(key, h, plan), mine, Uses(plan));
      assert Uses(plan) - Uses(plan) == {};
      assert ClaimInv(db, be, tx, Attach(key, h, plan), Uses(plan), {});
    }
  }

  lemma ClaimStoredInv(db: Db, be: Backend, key: Key, h: Blob)
    requires DbInv(db, be)
    ensures TxInv(db, be, ClaimStored(db, key, h))
    ensures TxInv(db, be, ClaimExisting(db, key, h))
  {
    if h in db.blobs {
      RaisedClaim(db, be, h, ClaimStored(db, key, h));
      if db.blobs[h].refs > 0 {
        RaisedClaim(db, be, h, ClaimExisting(db, key, h));
      }
    }
  }

  /** Locking one more row, perhaps with a new one in it, keeps what is held. */
  lemma ClaimGrows(db: Db, be: Backend, tx: Tx, goal: Goal, todo: set<Xorb>, held: set<Xorb>, x: Xorb, next: Tx)
    requires EditsLocked(tx) && ClaimInv(db, be, tx, goal, todo, held)
    requires x !in tx.xorbs
    requires next.keys == tx.keys && next.blobs == tx.blobs && next.xorbs == tx.xorbs + {x}
    requires goal.Move? ==> x == goal.to
    requires
      || next.edits == tx.edits
      || (x !in db.xorbs && exists l ::
            next.edits == tx.edits.(xorbs := tx.edits.xorbs[x := Some(XorbRow(0, false, l))]))
    ensures EditsLocked(next) && ClaimInv(db, be, next, goal, todo, held)
  {
    forall y | y in held
      ensures Counted(db, next, y) && y in be.xorbs
    {
      assert Counted(db, tx, y);
    }
  }

  lemma ClaimHolds(db: Db, be: Backend, tx: Tx, goal: Goal, todo: set<Xorb>, x: Xorb)
    requires ClaimInv(db, be, tx, goal, todo, Wanted(goal) - todo)
    requires x in todo && x in Wanted(goal) && Counted(db, tx, x) && x in be.xorbs
    ensures ClaimInv(db, be, tx, goal, todo - {x}, Wanted(goal) - (todo - {x}))
  {
    assert Wanted(goal) - (todo - {x}) == Wanted(goal) - todo + {x};
  }

  lemma LockXorbInv(db: Db, be: Backend, tx: Tx, x: Xorb)
    requires DbInv(db, be) && TxInv(db, be, tx)
    requires tx.stage.Claiming? && x in tx.stage.todo
    ensures TxInv(db, be, LockXorb(db, tx, x))
  {
    var Claiming(goal, mine, todo) := tx.stage;
    var next := LockXorb(db, tx, x);
    assert XorbOk(db, be, x);
    ClaimGrows(db, be, tx, goal, todo, Wanted(goal) - todo, x, next);
    if x in db.xorbs {
      assert Counted(db, next, x);
      if next.stage.Claiming? {
        ClaimHolds(db, be, next, goal, todo, x);
      }
    }
  }

  lemma CheckXorbInv(db: Db, be: Backend, tx: Tx)
    requires DbInv(db, be) && TxInv(db, be, tx) && tx.stage.Checking?
    ensures TxInv(db, be, CheckXorb(be, tx))
  {
    var Checking(goal, mine, todo, x) := tx.stage;
    if x in be.xorbs {
      ClaimHolds(db, be, tx, goal, todo, x);
    }
  }

  lemma AttachUsers(db: Db, be: Backend, tx: Tx, x: Xorb)
    requires tx.stage.Claiming? && tx.stage.goal.Attach?
    requires tx.stage.goal.blob !in db.blobs && tx.edits.blobs.Keys == {tx.stage.goal.blob}
    requires x in Uses(tx.stage.goal.plan) && Counted(db, tx, x) && x in be.xorbs
    ensures XorbOk(Apply(db, AttachTerms(db, tx).edits), be, x)
  {
    AttachedUsers(db, tx, x);
    AttachedRow(db, tx, x);
  }

  lemma AttachedUsers(db: Db, tx: Tx, x: Xorb)
    requires tx.stage.Claiming? && tx.stage.goal.Attach? && x in Uses(tx.stage.goal.plan)
    requires tx.stage.goal.blob !in db.blobs && tx.edits.blobs.Keys == {tx.stage.goal.blob}
    ensures |Users(Apply(db, AttachTerms(db, tx).edits), x)| == |Users(db, x)| + 1
  {
    var h := tx.stage.goal.blob;
    UsersOneBlob(db, AttachTerms(db, tx).edits, x, h);
    OneMoreUser(Users(db, x), h);
  }

  lemma OneMoreUser(users: set<Blob>, h: Blob)
    requires h !in users
    ensures |users + {h}| == |users| + 1
  {
  }

  lemma AttachedRow(db: Db, tx: Tx, x: Xorb)
    requires tx.stage.Claiming? && tx.stage.goal.Attach? && x in Uses(tx.stage.goal.plan) && Counted(db, tx, x)
    ensures var after := Apply(db, AttachTerms(db, tx).edits);
      x in after.xorbs && after.xorbs[x].refs == |Users(db, x)| + 1
  {
    assert AttachTerms(db, tx).edits.xorbs[x].value.refs == |Users(db, x)| + 1;
  }

  ghost predicate CanAttach(db: Db, be: Backend, tx: Tx) {
    && DbInv(db, be) && TxInv(db, be, tx)
    && tx.stage.Claiming? && tx.stage.goal.Attach? && tx.stage.todo == {}
  }

  lemma AttachClaimed(db: Db, be: Backend, tx: Tx)
    requires CanAttach(db, be, tx)
    ensures var next := AttachTerms(db, tx);
      EditsLocked(next) && Claimed(db, be, next, tx.stage.goal.blob, true) && UsersFramed(db, next)
  {
    assert BlobOk(db, be, tx.stage.goal.blob);
    assert tx.xorbs == Uses(tx.stage.goal.plan);
  }

  lemma AttachInv(db: Db, be: Backend, tx: Tx)
    requires CanAttach(db, be, tx)
    ensures TxInv(db, be, AttachTerms(db, tx))
  {
    var next := AttachTerms(db, tx);
    AttachClaimed(db, be, tx);
    forall x | x in next.xorbs
      ensures XorbOk(Apply(db, next.edits), be, x)
    {
      assert x in Wanted(tx.stage.goal) - {} && Counted(db, tx, x);
      AttachUsers(db, be, tx, x);
    }
  }

  lemma SameXorbSide(db: Db, be: Backend, tx: Tx, next: Tx)
    requires XorbSide(db, be, tx)
    requires next.xorbs == tx.xorbs && next.edits.xorbs == tx.edits.xorbs
    requires forall h :: h in tx.edits.blobs.Keys + next.edits.blobs.Keys ==>
      UsesOf(See(db.blobs, tx.edits.blobs, h)) == UsesOf(See(db.blobs, next.edits.blobs, h))
    ensures XorbSide(db, be, next)
  {
    forall h, x | h in next.edits.blobs && x !in next.xorbs
      ensures x in UsesOf(next.edits.blobs[h]) <==> x in UsesOf(Lookup(db.blobs, h))
    {
      assert h in tx.edits.blobs.Keys + next.edits.blobs.Keys;
    }
    forall x | x in next.xorbs
      ensures XorbOk(Apply(db, next.edits), be, x)
    {
      assert XorbOk(Apply(db, tx.edits), be, x);
      var a, b := Users(Apply(db, tx.edits), x), Users(Apply(db, next.edits), x);
      forall h
        ensures h in a <==> h in b
      {
        assert h in a <==> x in UsesOf(See(db.blobs, tx.edits.blobs, h));
        assert h in b <==> x in UsesOf(See(db.blobs, next.edits.blobs, h));
        assert h in tx.edits.blobs.Keys + next.edits.blobs.Keys ||
          See(db.blobs, tx.edits.blobs, h) == See(db.blobs, next.edits.blobs, h);
      }
      assert a == b;
    }
  }

  lemma UpsertInv(db: Db, be: Backend, tx: Tx)
    requires DbInv(db, be) && TxInv(db, be, tx) && tx.stage.Upserting?
    ensures TxInv(db, be, Upsert(db, tx))
  {
    var next := Upsert(db, tx);
    assert EditsLocked(next);
    SameXorbSide(db, be, tx, next);
    if tx.stage.key !in db.objects {
      UpsertedBlob(db, be, tx);
    }
  }

  /** A new object accounts for the reference its blob's claim took. */
  lemma UpsertedBlob(db: Db, be: Backend, tx: Tx)
    requires tx.stage.Upserting? && tx.stage.key !in db.objects
    requires Claimed(db, be, tx, tx.stage.blob, true) && tx.edits.objects == map[]
    ensures BlobOk(Apply(db, Upsert(db, tx).edits), be, tx.stage.blob)
  {
    var Upserting(key, h) := tx.stage;
    PointersOneKey(db, Upsert(db, tx).edits, h, key);
    assert key !in Pointers(db, h);
  }

  lemma DeleteInv(db: Db, be: Backend, key: Key)
    requires key in db.objects
    ensures TxInv(db, be, DeleteKey(db, key))
  {
  }

  /** A release always finds its row, with a reference to drop. */
  lemma ReleaseFindsReference(db: Db, be: Backend, tx: Tx)
    requires DbInv(db, be) && TxInv(db, be, tx) && tx.stage.Releasing?
    ensures var row := See(db.blobs, tx.edits.blobs, tx.stage.prev);
      row.Some? && row.value.refs > 0
  {
    var Releasing(k, prev) := tx.stage;
    assert k in Pointers(db, prev);
    assert BlobOk(db, be, prev);
  }

  lemma ReleaseLocked(db: Db, be: Backend, tx: Tx)
    requires DbInv(db, be) && TxInv(db, be, tx) && tx.stage.Releasing?
    ensures var next := Release(db, tx);
      next.stage == Ready && EditsLocked(next) && PointersFramed(db, next)
  {
    ReleaseFindsReference(db, be, tx);
  }

  lemma ReleaseXorbSide(db: Db, be: Backend, tx: Tx)
    requires DbInv(db, be) && TxInv(db, be, tx) && tx.stage.Releasing?
    ensures XorbSide(db, be, Release(db, tx))
  {
    ReleaseFindsReference(db, be, tx);
    SameXorbSide(db, be, tx, Release(db, tx));
  }

  lemma ReleaseInv(db: Db, be: Backend, tx: Tx)
    requires DbInv(db, be) && TxInv(db, be, tx) && tx.stage.Releasing?
    ensures TxInv(db, be, Release(db, tx))
  {
    var next := Release(db, tx);
    ReleaseLocked(db, be, tx);
    ReleaseXorbSide(db, be, tx);
    forall h | h in next.blobs
      ensures BlobOk(Apply(db, next.edits), be, h)
    {
      ReleasedBlob(db, be, tx, h);
    }
  }

  /** After the release both blobs' counts are right: the one the key points at
      now, and the one it pointed at before, which may be the same. */
  lemma ReleasedBlob(db: Db, be: Backend, tx: Tx, h: Blob)
    requires DbInv(db, be) && TxInv(db, be, tx) && tx.stage.Releasing? && h in Release(db, tx).blobs
    ensures BlobOk(Apply(db, Release(db, tx).edits), be, h)
  {
    ReleaseFindsReference(db, be, tx);
    if h == tx.stage.prev {
      ReleasedOld(db, be, tx);
    } else {
      ReleasedNew(db, be, tx, h);
    }
  }

  /** The blob the key pointed at: its claimed reference, if any, is the key's new one. */
  lemma ReleasedOld(db: Db, be: Backend, tx: Tx)
    requires DbInv(db, be) && TxInv(db, be, tx) && tx.stage.Releasing?
    ensures BlobOk(Apply(db, Release(db, tx).edits), be, tx.stage.prev)
  {
    var Releasing(k, prev) := tx.stage;
    var e := Release(db, tx).edits;
    var row := See(db.blobs, tx.edits.blobs, prev);
    ReleaseFindsReference(db, be, tx);
    assert k in Pointers(db, prev) && BlobOk(db, be, prev);
    PointersOneKey(db, e, prev, k);
    assert Apply(db, e).blobs[prev] == row.value.(refs := row.value.refs - 1);
    if tx.edits.objects[k] == Some(prev) {
      assert Pointers(db, prev) + {k} == Pointers(db, prev);
    } else {
      assert prev !in tx.edits.blobs;
    }
  }

  /** The blob the key points at now: the claimed reference is the key's. */
  lemma ReleasedNew(db: Db, be: Backend, tx: Tx, h: Blob)
    requires DbInv(db, be) && TxInv(db, be, tx) && tx.stage.Releasing? && h in tx.blobs && h != tx.stage.prev
    ensures BlobOk(Apply(db, Release(db, tx).edits), be, h)
  {
    var Releasing(k, prev) := tx.stage;
    var e := Release(db, tx).edits;
    PointersOneKey(db, e, h, k);
    assert tx.edits.objects[k] == Some(h) && k !in Pointers(db, h);
    assert e.blobs[h] == tx.edits.blobs[h];
    assert Apply(db, e).blobs[h] == tx.edits.blobs[h].value;
  }

  // ---------------------------------------------------------------------
  // Collection
  // ---------------------------------------------------------------------

  lemma SweepBlobInv(db: Db, be: Backend, h: Blob)
    requires DbInv(db, be) && h in db.blobs && Pointers(db, h) == {}
    ensures TxInv(db, be, SweepBlob(db, h))
  {
    assert BlobOk(db, be, h);
  }

  /** Every xorb a swept blob gives up has a reference of its to drop. */
  lemma DetachFindsReferences(db: Db, be: Backend, h: Blob)
    requires DbInv(db, be) && h in db.blobs
    ensures Dereferenced(db, Uses(db.blobs[h].terms)).Keys == Uses(db.blobs[h].terms)
  {
    forall x | x in Uses(db.blobs[h].terms)
      ensures x in db.xorbs && db.xorbs[x].refs > 0
    {
      assert h in Users(db, x) && XorbOk(db, be, x);
    }
  }

  lemma DetachInv(db: Db, be: Backend, tx: Tx)
    requires DbInv(db, be) && TxInv(db, be, tx)
    requires tx.stage.Detaching? && tx.stage.todo == {}
    ensures TxInv(db, be, DetachTerms(db, tx))
  {
    var h := tx.stage.blob;
    var next := DetachTerms(db, tx);
    var after := Apply(db, next.edits);
    DetachFindsReferences(db, be, h);
    assert next.xorbs == Uses(db.blobs[h].terms);
    forall x | x in next.xorbs
      ensures XorbOk(after, be, x)
    {
      assert XorbOk(db, be, x) && h in Users(db, x);
      UsersApply(db, next.edits, x);
      assert Users(after, x) == Users(db, x) - {h};
    }
    PointersApply(db, next.edits, h);
    assert BlobOk(after, be, h);
  }

  lemma DroppedBlobInv(db: Db, be: Backend, tx: Tx)
    requires DbInv(db, be) && TxInv(db, be, tx) && tx.stage.DroppingBlob? && !tx.stage.orphan
    ensures ReadyInv(db, be.(blobs := be.blobs - {tx.stage.blob}), tx)
  {
    var h := tx.stage.blob;
    PointersApply(db, tx.edits, h);
    assert Pointers(Apply(db, tx.edits), h) == {};
  }

  lemma DroppedXorbInv(db: Db, be: Backend, tx: Tx)
    requires DbInv(db, be) && TxInv(db, be, tx) && tx.stage.DroppingXorb? && !tx.stage.orphan
    ensures ReadyInv(db, be.(xorbs := be.xorbs - {tx.stage.x}), tx)
  {
    var x := tx.stage.x;
    UsersApply(db, tx.edits, x);
    assert Users(Apply(db, tx.edits), x) == {};
  }

  // ---------------------------------------------------------------------
  // Compaction
  // ---------------------------------------------------------------------

  lemma RewriteUsers(db: Db, tx: Tx, from: Xorb, to: Xorb, index: seq<int>, moved: map<Blob, Option<BlobRow>>, b: Blob)
    requires from != to && tx.blobs <= db.blobs.Keys && Users(db, from) <= tx.blobs
    requires forall b :: b in Users(db, from) ==> Movable(db.blobs[b].terms, from, index)
    requires moved == map b | b in tx.blobs && b in db.blobs ::
      Some(db.blobs[b].(terms := MoveList(db.blobs[b].terms, from, to, index)))
    requires b in moved
    ensures UsesOf(moved[b]) ==
      if b in Users(db, from) then Uses(db.blobs[b].terms) - {from} + {to} else Uses(db.blobs[b].terms)
  {
    assert b !in Users(db, from) ==> Movable(db.blobs[b].terms, from, index);
    MoveChangesUses(db.blobs[b].terms, from, to, index);
  }

  ghost predicate CanRewrite(db: Db, be: Backend, tx: Tx) {
    && DbInv(db, be) && TxInv(db, be, tx)
    && tx.stage.Claiming? && tx.stage.goal.Move? && tx.stage.todo == {}
    && tx.stage.goal.from in tx.xorbs && tx.stage.goal.from in db.xorbs
    && See(db.xorbs, tx.edits.xorbs, tx.stage.goal.to).Some?
    && Users(db, tx.stage.goal.from) <= tx.blobs
    && forall b :: b in Users(db, tx.stage.goal.from) ==>
      Movable(db.blobs[b].terms, tx.stage.goal.from, tx.stage.goal.index)
  }

  lemma RewrittenFrom(db: Db, be: Backend, tx: Tx)
    requires CanRewrite(db, be, tx)
    ensures XorbOk(Apply(db, Rewrite(db, tx).edits), be, tx.stage.goal.from)
  {
    var from, e := tx.stage.goal.from, Rewrite(db, tx).edits;
    UsersApply(db, e, from);
    forall b | b in e.blobs
      ensures from !in UsesOf(e.blobs[b])
    {
      RewrittenOff(db, be, tx, b);
    }
    assert Users(Apply(db, e), from) == {};
  }

  lemma RewrittenOff(db: Db, be: Backend, tx: Tx, b: Blob)
    requires CanRewrite(db, be, tx) && b in Rewrite(db, tx).edits.blobs
    ensures tx.stage.goal.from !in UsesOf(Rewrite(db, tx).edits.blobs[b])
  {
    var Move(from, to, index) := tx.stage.goal;
    RewriteUsers(db, tx, from, to, index, Rewrite(db, tx).edits.blobs, b);
  }

  lemma SameUsers(db: Db, e: Edits, e': Edits, x: Xorb)
    requires e.blobs == e'.blobs
    ensures Users(Apply(db, e), x) == Users(Apply(db, e'), x)
  {
  }

  lemma RewrittenTo(db: Db, be: Backend, tx: Tx)
    requires CanRewrite(db, be, tx)
    ensures XorbOk(Apply(db, Rewrite(db, tx).edits), be, tx.stage.goal.to)
  {
    var Move(from, to, index) := tx.stage.goal;
    var e := Rewrite(db, tx).edits;
    assert to in Wanted(tx.stage.goal) - {};
    SameUsers(db, e, tx.edits.(blobs := e.blobs), to);
    assert Overlay(db.xorbs, e.xorbs)[to].refs == |Users(Apply(db, e), to)|;
  }

  lemma RewrittenBlob(db: Db, be: Backend, tx: Tx, b: Blob)
    requires CanRewrite(db, be, tx) && b in tx.blobs
    ensures BlobOk(Apply(db, Rewrite(db, tx).edits), be, b)
  {
    var Move(from, to, index) := tx.stage.goal;
    var after := Apply(db, Rewrite(db, tx).edits);
    assert BlobOk(db, be, b);
    PointersApply(db, Rewrite(db, tx).edits, b);
    assert Pointers(after, b) == Pointers(db, b);
    var row := db.blobs[b];
    assert b !in Users(db, from) ==> Movable(row.terms, from, index);
    if row.chunked {
      MoveKeepsMeaning(row.terms, b.chunks, from, to, index);
    }
  }

  lemma RewriteLocked(db: Db, be: Backend, tx: Tx)
    requires CanRewrite(db, be, tx)
    ensures Rewrite(db, tx).xorbs == {tx.stage.goal.from, tx.stage.goal.to} && EditsLocked(Rewrite(db, tx))
  {
    assert tx.stage.goal.to in Wanted(tx.stage.goal) - {} && Counted(db, tx, tx.stage.goal.to);
  }

  lemma RewriteFramed(db: Db, be: Backend, tx: Tx)
    requires CanRewrite(db, be, tx)
    ensures UsersFramed(db, Rewrite(db, tx))
  {
    var Move(from, to, index) := tx.stage.goal;
    var next := Rewrite(db, tx);
    RewriteLocked(db, be, tx);
    forall h, x | h in next.edits.blobs && x !in next.xorbs
      ensures x in UsesOf(next.edits.blobs[h]) <==> x in UsesOf(Lookup(db.blobs, h))
    {
      RewriteUsers(db, tx, from, to, index, next.edits.blobs, h);
    }
  }

  lemma RewriteInv(db: Db, be: Backend, tx: Tx)
    requires CanRewrite(db, be, tx)
    ensures TxInv(db, be, Rewrite(db, tx))
  {
    var next := Rewrite(db, tx);
    RewriteLocked(db, be, tx);
    RewriteFramed(db, be, tx);
    RewrittenFrom(db, be, tx);
    RewrittenTo(db, be, tx);
    forall b | b in next.blobs
      ensures BlobOk(Apply(db, next.edits), be, b)
    {
      RewrittenBlob(db, be, tx, b);
    }
    assert next.stage == Ready && next.edits.objects == map[];
  }

  // ---------------------------------------------------------------------
  // Every step keeps the invariant
  // ---------------------------------------------------------------------

  lemma PutInv(s: State, x: Xorb, layout: nat, wrote: map<WriterId, map<Xorb, Wrote>>)
    requires Inv(s) && x !in s.be.xorbs
    ensures Inv(s.(be := s.be.(xorbs := s.be.xorbs[x := layout]), wrote := wrote))
  {
    var be' := s.be.(xorbs := s.be.xorbs[x := layout]);
    DbInvShrinks(s.db, s.be, be', Tx({}, {}, {}, NO_EDITS, Doomed));
    forall t | t in s.txs
      ensures TxInv(s.db, be', s.txs[t])
    {
      TxInvKept(s.txs[t], s.db, s.be, s.db, be');
    }
  }

  /** The tables with a xorb marked damaged, or the mark cleared. */
  function Marked(db: Db, x: Xorb, damaged: bool): Db
    requires x in db.xorbs
  {
    db.(xorbs := db.xorbs[x := db.xorbs[x].(damaged := damaged)])
  }

  lemma MarkDbInv(db: Db, be: Backend, x: Xorb, damaged: bool)
    requires DbInv(db, be) && x in db.xorbs
    ensures DbInv(Marked(db, x, damaged), be)
  {
    var db' := Marked(db, x, damaged);
    forall h ensures BlobOk(db', be, h) {
      assert BlobOk(db, be, h) && Pointers(db', h) == Pointers(db, h);
    }
    forall y ensures XorbOk(db', be, y) {
      assert XorbOk(db, be, y) && Users(db', y) == Users(db, y);
    }
  }

  lemma MarkInv(s: State, x: Xorb, damaged: bool)
    requires Inv(s) && x in s.db.xorbs && XorbFree(s, x)
    ensures Inv(s.(db := Marked(s.db, x, damaged)))
  {
    var db' := Marked(s.db, x, damaged);
    MarkDbInv(s.db, s.be, x, damaged);
    forall t | t in s.txs
      ensures TxInv(db', s.be, s.txs[t])
    {
      MarkKept(s.txs[t], s.db, s.be, x, damaged);
      TxInvKept(s.txs[t], s.db, s.be, db', s.be);
    }
  }

  lemma MarkKept(tx: Tx, db: Db, be: Backend, x: Xorb, damaged: bool)
    requires x in db.xorbs && x !in tx.xorbs
    ensures Kept(tx, db, be, Marked(db, x, damaged), be)
  {
    var db' := Marked(db, x, damaged);
    forall h ensures Pointers(db', h) == Pointers(db, h) {
    }
    forall y ensures Users(db', y) == Users(db, y) {
    }
  }

  lemma WriterKeepsInv(lay: Layouts, s: State, step: Step, s': State)
    requires Inv(s) && WriterStep(lay, s, step, s')
    ensures Inv(s')
  {
    match step
    case PutXorb(w, x, layout) =>
      if x !in s.be.xorbs {
        PutInv(s, x, layout, s'.wrote);
      }
    case MarkXorb(x, damaged) => MarkInv(s, x, damaged);
  }

  lemma DropXorbInv(db: Db, be: Backend, x: Xorb)
    requires Users(db, x) == {}
    ensures TxInv(db, be, Tx({}, {}, {x}, NO_EDITS.(xorbs := map[x := None]), DroppingXorb(x, false)))
  {
  }

  lemma OrphanBlobInv(db: Db, be: Backend, h: Blob)
    requires DbInv(db, be) && h !in db.blobs
    ensures TxInv(db, be, Tx({}, {h}, {}, NO_EDITS, DroppingBlob(h, true)))
  {
    assert BlobOk(db, be, h);
  }

  lemma OrphanXorbInv(db: Db, be: Backend, x: Xorb)
    requires DbInv(db, be) && x !in db.xorbs
    ensures TxInv(db, be, Tx({}, {}, {x}, NO_EDITS, DroppingXorb(x, true)))
  {
    assert XorbOk(db, be, x);
  }

  lemma BegunTx(s: State, step: Step, s': State)
    requires DbInv(s.db, s.be) && BeginStep(s, step, s')
    ensures step.t in s'.txs && s' == With(s, step.t, s'.txs[step.t])
    ensures TxInv(s.db, s.be, s'.txs[step.t])
  {
    match step
    case BeginCommit(t, w, key, h, attach, plan) => ClaimBlobInv(s.db, s.be, key, h, attach, plan, WroteBy(s, w));
    case BeginCopy(t, key, h) => ClaimStoredInv(s.db, s.be, key, h);
    case BeginLink(t, key, h) => ClaimStoredInv(s.db, s.be, key, h);
    case BeginDelete(t, key) => DeleteInv(s.db, s.be, key);
    case BeginSweepBlob(t, h) => SweepBlobInv(s.db, s.be, h);
    case BeginSweepXorb(t, x) => DropXorbInv(s.db, s.be, x);
    case BeginOrphanBlob(t, h) => OrphanBlobInv(s.db, s.be, h);
    case BeginOrphanXorb(t, x) => OrphanXorbInv(s.db, s.be, x);
    case BeginMove(t, w, from, to, index) =>
  }

  lemma BegunAvailable(s: State, step: Step, s': State)
    requires BeginStep(s, step, s')
    ensures step.t in s'.txs && Available(s, step.t, s'.txs[step.t])
  {
  }

  lemma BeginKeepsInv(s: State, step: Step, s': State)
    requires Inv(s) && BeginStep(s, step, s')
    ensures Inv(s')
  {
    BegunTx(s, step, s');
    BegunAvailable(s, step, s');
    AdvanceSame(s, step.t, s'.txs[step.t]);
  }

  /** A transaction under way goes on, the backend as it was, taking no lock another holds. */
  ghost predicate GoesOn(s: State, t: TxId, s': State) {
    && t in s.txs && t in s'.txs && s' == With(s, t, s'.txs[t])
    && (Available(s, t, s.txs[t]) ==> Available(s, t, s'.txs[t]))
  }

  lemma GoingOnKeepsInv(s: State, t: TxId, s': State)
    requires Inv(s) && GoesOn(s, t, s') && TxInv(s.db, s.be, s'.txs[t])
    ensures Inv(s')
  {
    AdvanceSame(s, t, s'.txs[t]);
  }

  lemma ClaimGoesOn(s: State, step: Step, s': State)
    requires ClaimStep(s, step, s')
    ensures GoesOn(s, step.t, s')
  {
  }

  lemma ClaimStepInv(s: State, step: Step, s': State)
    requires DbInv(s.db, s.be) && ClaimStep(s, step, s')
    requires step.t in s.txs && TxInv(s.db, s.be, s.txs[step.t]) && step.t in s'.txs
    ensures TxInv(s.db, s.be, s'.txs[step.t])
  {
    var tx := s.txs[step.t];
    match step
    case DoLockXorb(t, x) => LockXorbInv(s.db, s.be, tx, x);
    case DoCheckXorb(t) => CheckXorbInv(s.db, s.be, tx);
    case DoAttach(t) => AttachInv(s.db, s.be, tx);
  }

  lemma ClaimKeepsInv(s: State, step: Step, s': State)
    requires Inv(s) && ClaimStep(s, step, s')
    ensures Inv(s')
  {
    ClaimGoesOn(s, step, s');
    ClaimStepInv(s, step, s');
    GoingOnKeepsInv(s, step.t, s');
  }

  lemma PointGoesOn(s: State, step: Step, s': State)
    requires PointStep(s, step, s')
    ensures GoesOn(s, step.t, s')
  {
  }

  lemma PointStepInv(s: State, step: Step, s': State)
    requires DbInv(s.db, s.be) && PointStep(s, step, s')
    requires step.t in s.txs && TxInv(s.db, s.be, s.txs[step.t]) && step.t in s'.txs
    ensures TxInv(s.db, s.be, s'.txs[step.t])
  {
    var tx := s.txs[step.t];
    match step
    case DoCopyCheck(t) =>
    case DoUpsert(t) => UpsertInv(s.db, s.be, tx);
    case DoRelease(t) => ReleaseInv(s.db, s.be, tx);
  }

  lemma PointKeepsInv(s: State, step: Step, s': State)
    requires Inv(s) && PointStep(s, step, s')
    ensures Inv(s')
  {
    PointGoesOn(s, step, s');
    PointStepInv(s, step, s');
    GoingOnKeepsInv(s, step.t, s');
  }

  lemma DetachGoesOn(s: State, step: Step, s': State)
    requires DetachStep(s, step, s')
    ensures GoesOn(s, step.t, s')
  {
  }

  lemma LockDetachedInv(db: Db, be: Backend, tx: Tx, x: Xorb)
    requires TxInv(db, be, tx) && tx.stage.Detaching? && x in tx.stage.todo
    ensures TxInv(db, be, tx.(xorbs := tx.xorbs + {x}, stage := Detaching(tx.stage.blob, tx.stage.todo - {x})))
  {
  }

  lemma DetachStepInv(s: State, step: Step, s': State)
    requires DbInv(s.db, s.be) && DetachStep(s, step, s')
    requires step.t in s.txs && TxInv(s.db, s.be, s.txs[step.t]) && step.t in s'.txs
    ensures TxInv(s.db, s.be, s'.txs[step.t])
  {
    var tx := s.txs[step.t];
    match step
    case DoLockDetached(t, x) => LockDetachedInv(s.db, s.be, tx, x);
    case DoDetach(t) => DetachInv(s.db, s.be, tx);
  }

  lemma DetachKeepsInv(s: State, step: Step, s': State)
    requires Inv(s) && DetachStep(s, step, s')
    ensures Inv(s')
  {
    DetachGoesOn(s, step, s');
    DetachStepInv(s, step, s');
    GoingOnKeepsInv(s, step.t, s');
  }

  lemma MoveGoesOn(s: State, step: Step, s': State)
    requires MoveStep(s, step, s')
    ensures GoesOn(s, step.t, s')
  {
  }

  lemma LockBlobInv(db: Db, be: Backend, tx: Tx, h: Blob)
    requires TxInv(db, be, tx) && tx.stage.LockingBlobs? && h in db.blobs
    ensures TxInv(db, be, tx.(blobs := tx.blobs + {h}))
  {
  }

  lemma BlobsLockedInv(db: Db, be: Backend, tx: Tx)
    requires TxInv(db, be, tx) && tx.stage.LockingBlobs?
    ensures TxInv(db, be, tx.(stage :=
      Claiming(Move(tx.stage.from, tx.stage.to, tx.stage.index), tx.stage.mine, {tx.stage.to})))
  {
    assert {tx.stage.to} - {tx.stage.to} == {};
  }

  lemma LockFromInv(db: Db, be: Backend, tx: Tx)
    requires DbInv(db, be) && TxInv(db, be, tx) && tx.stage.Claiming? && tx.stage.goal.Move?
    ensures TxInv(db, be, tx.(xorbs := tx.xorbs + {tx.stage.goal.from}))
  {
    var next := tx.(xorbs := tx.xorbs + {tx.stage.goal.from});
    forall x | x in Wanted(tx.stage.goal) - tx.stage.todo
      ensures Counted(db, next, x) && x in be.xorbs
    {
      assert Counted(db, tx, x);
    }
  }

  /** A transaction given up keeps only that its writes are to rows it has locked. */
  lemma DoomedInv(db: Db, be: Backend, tx: Tx)
    requires EditsLocked(tx)
    ensures TxInv(db, be, tx.(stage := Doomed))
  {
  }

  lemma MoveLocksInv(s: State, step: Step, s': State)
    requires DbInv(s.db, s.be) && MoveStep(s, step, s') && !step.DoRewrite?
    requires step.t in s.txs && TxInv(s.db, s.be, s.txs[step.t]) && step.t in s'.txs
    ensures TxInv(s.db, s.be, s'.txs[step.t])
  {
    var tx := s.txs[step.t];
    match step
    case DoLockBlob(t, h) => LockBlobInv(s.db, s.be, tx, h);
    case DoBlobsLocked(t) => BlobsLockedInv(s.db, s.be, tx);
    case DoLockFrom(t) =>
      LockFromInv(s.db, s.be, tx);
      DoomedInv(s.db, s.be, tx.(xorbs := tx.xorbs + {tx.stage.goal.from}));
  }

  lemma MoveRewriteInv(s: State, step: Step, s': State)
    requires DbInv(s.db, s.be) && MoveStep(s, step, s') && step.DoRewrite?
    requires step.t in s.txs && TxInv(s.db, s.be, s.txs[step.t]) && step.t in s'.txs
    ensures TxInv(s.db, s.be, s'.txs[step.t])
  {
    var tx := s.txs[step.t];
    DoomedInv(s.db, s.be, tx);
    if CanRewrite(s.db, s.be, tx) {
      RewriteInv(s.db, s.be, tx);
    }
  }

  lemma MoveKeepsInv(s: State, step: Step, s': State)
    requires Inv(s) && MoveStep(s, step, s')
    ensures Inv(s')
  {
    MoveGoesOn(s, step, s');
    if step.DoRewrite? {
      MoveRewriteInv(s, step, s');
    } else {
      MoveLocksInv(s, step, s');
    }
    GoingOnKeepsInv(s, step.t, s');
  }

  /** A transaction under way changes the backend under its locks, and takes no others. */
  ghost predicate ActsOn(s: State, t: TxId, s': State) {
    && t in s.txs && t in s'.txs && s' == With(s, t, s'.txs[t]).(be := s'.be)
    && s'.txs[t] == s.txs[t].(stage := s'.txs[t].stage)
  }

  lemma BytesActOn(s: State, step: Step, s': State)
    requires ByteStep(s, step, s')
    ensures ActsOn(s, step.t, s')
  {
  }

  lemma BytesShrink(s: State, step: Step, s': State)
    requires DbInv(s.db, s.be) && ByteStep(s, step, s')
    requires step.t in s.txs && TxInv(s.db, s.be, s.txs[step.t]) && step.t in s'.txs
    ensures Shrinks(s.db, s.be, s'.be, s'.txs[step.t])
  {
    if step.DoDiscard? {
      assert XorbOk(s.db, s.be, s.txs[step.t].stage.x);
    }
  }

  lemma PlacedInv(db: Db, be: Backend, tx: Tx, write: bool)
    requires TxInv(db, be, tx) && tx.stage.Placing? && (tx.stage.must ==> write)
    ensures TxInv(db, if write then be.(blobs := be.blobs + {tx.stage.blob}) else be,
                  tx.(stage := Upserting(tx.stage.key, tx.stage.blob)))
  {
    var be' := if write then be.(blobs := be.blobs + {tx.stage.blob}) else be;
    assert Kept(tx, db, be, db, be');
    XorbSideKept(tx, db, be, db, be');
  }

  lemma ByteStepInv(s: State, step: Step, s': State)
    requires DbInv(s.db, s.be) && ByteStep(s, step, s')
    requires step.t in s.txs && TxInv(s.db, s.be, s.txs[step.t]) && step.t in s'.txs
    ensures TxInv(s.db, s'.be, s'.txs[step.t])
  {
    var tx := s.txs[step.t];
    DoomedInv(s.db, s'.be, tx);
    match step
    case DoDiscard(t) =>
    case DoPlace(t, write) => PlacedInv(s.db, s.be, tx, write);
    case DoDropBlob(t) =>
      if !tx.stage.orphan {
        DroppedBlobInv(s.db, s.be, tx);
      }
    case DoDropXorb(t) =>
      if !tx.stage.orphan {
        DroppedXorbInv(s.db, s.be, tx);
      }
  }

  lemma BytesKeepInv(s: State, step: Step, s': State)
    requires Inv(s) && ByteStep(s, step, s')
    ensures Inv(s')
  {
    BytesActOn(s, step, s');
    ByteStepInv(s, step, s');
    BytesShrink(s, step, s');
    Advance(s, step.t, s'.txs[step.t], s'.be);
  }

  lemma EndKeepsInv(s: State, step: Step, s': State)
    requires Inv(s) && EndStep(s, step, s')
    ensures Inv(s')
  {
    match step
    case Commit(t) => CommitInv(s, t);
    case Abort(t) => AbortInv(s, t);
  }

  /** Every step, of any transaction or outside them, keeps the invariant. */
  lemma StepKeepsInv(lay: Layouts, s: State, step: Step, s': State)
    requires Inv(s) && StepTo(lay, s, step, s')
    ensures Inv(s')
  {
    if WriterStep(lay, s, step, s') {
      WriterKeepsInv(lay, s, step, s');
    } else if BeginStep(s, step, s') {
      BeginKeepsInv(s, step, s');
    } else if ClaimStep(s, step, s') {
      ClaimKeepsInv(s, step, s');
    } else if PointStep(s, step, s') {
      PointKeepsInv(s, step, s');
    } else if DetachStep(s, step, s') {
      DetachKeepsInv(s, step, s');
    } else if MoveStep(s, step, s') {
      MoveKeepsInv(s, step, s');
    } else if ByteStep(s, step, s') {
      BytesKeepInv(s, step, s');
    } else {
      EndKeepsInv(s, step, s');
    }
  }

  lemma InitInv(s: State)
    requires Init(s)
    ensures Inv(s)
  {
    forall x
      ensures XorbOk(s.db, s.be, x)
    {
      assert Users(s.db, x) == {};
    }
  }

  lemma {:induction false} RunKeepsInv(lay: Layouts, states: seq<State>, steps: seq<Step>, i: nat)
    requires Run(lay, states, steps) && i < |states|
    ensures Inv(states[i])
  {
    if i == 0 {
      InitInv(states[0]);
    } else {
      RunKeepsInv(lay, states, steps, i - 1);
      StepKeepsInv(lay, states[i - 1], steps[i - 1], states[i]);
    }
  }

  // ---------------------------------------------------------------------
  // What it gives
  // ---------------------------------------------------------------------

  /** All of a blob's bytes are in the backend, and for a chunked one its terms
      stand for exactly its content and every xorb they name has a row. */
  predicate Stored(db: Db, be: Backend, h: Blob) {
    && h in db.blobs
    && if db.blobs[h].chunked then
         Denotes(db.blobs[h].terms, h.chunks)
         && forall t :: t in db.blobs[h].terms ==> t.xorb in db.xorbs && t.xorb in be.xorbs
       else h in be.blobs
  }

  /** Durability: whatever interleaves with whatever, and wherever it crashes,
      every committed object's bytes are all there; and a chunked blob keeps its
      bytes even at refcount 0, so reviving it needs no rewrite. */
  lemma ObjectsAreStored(lay: Layouts, states: seq<State>, steps: seq<Step>, i: nat)
    requires Run(lay, states, steps) && i < |states|
    ensures var s := states[i];
      && (forall k :: k in s.db.objects ==> Stored(s.db, s.be, s.db.objects[k]))
      && (forall h :: h in s.db.blobs && s.db.blobs[h].chunked ==> Stored(s.db, s.be, h))
  {
    RunKeepsInv(lay, states, steps, i);
    var s := states[i];
    forall h | h in s.db.blobs && s.db.blobs[h].chunked
      ensures Stored(s.db, s.be, h)
    {
      assert BlobOk(s.db, s.be, h);
      forall t | t in s.db.blobs[h].terms
        ensures t.xorb in s.db.xorbs && t.xorb in s.be.xorbs
      {
        assert h in Users(s.db, t.xorb) && XorbOk(s.db, s.be, t.xorb);
      }
    }
    forall k | k in s.db.objects
      ensures Stored(s.db, s.be, s.db.objects[k])
    {
      var h := s.db.objects[k];
      assert k in Pointers(s.db, h) && BlobOk(s.db, s.be, h);
    }
  }

  /** Every count is exact: a blob's of the objects pointing at it, a xorb's of
      the blobs with a term on it. */
  lemma RefcountsAreExact(lay: Layouts, states: seq<State>, steps: seq<Step>, i: nat)
    requires Run(lay, states, steps) && i < |states|
    ensures var db := states[i].db;
      && (forall h :: h in db.blobs ==> db.blobs[h].refs == |Pointers(db, h)|)
      && (forall x :: x in db.xorbs ==> db.xorbs[x].refs == |Users(db, x)|)
  {
    RunKeepsInv(lay, states, steps, i);
    var s := states[i];
    forall h | h in s.db.blobs
      ensures s.db.blobs[h].refs == |Pointers(s.db, h)|
    {
      assert BlobOk(s.db, s.be, h);
    }
    forall x | x in s.db.xorbs
      ensures s.db.xorbs[x].refs == |Users(s.db, x)|
    {
      assert XorbOk(s.db, s.be, x);
    }
  }

  /** The branches that report a drifted refcount are never taken: a release
      finds a reference to drop, and so does a detach on each of its xorbs. */
  lemma NoDrift(lay: Layouts, states: seq<State>, steps: seq<Step>, i: nat, t: TxId)
    requires Run(lay, states, steps) && i < |states| && t in states[i].txs
    ensures var s := states[i];
      var tx := s.txs[t];
      && (tx.stage.Releasing? ==>
            See(s.db.blobs, tx.edits.blobs, tx.stage.prev).Some?
            && See(s.db.blobs, tx.edits.blobs, tx.stage.prev).value.refs > 0)
      && (tx.stage.Detaching? ==>
            tx.stage.blob in s.db.blobs
            && forall x :: x in Uses(s.db.blobs[tx.stage.blob].terms) ==> x in s.db.xorbs && s.db.xorbs[x].refs > 0)
  {
    RunKeepsInv(lay, states, steps, i);
    var s := states[i];
    var tx := s.txs[t];
    assert TxInv(s.db, s.be, tx);
    if tx.stage.Releasing? {
      ReleaseFindsReference(s.db, s.be, tx);
    }
    if tx.stage.Detaching? {
      DetachFindsReferences(s.db, s.be, tx.stage.blob);
    }
  }

  /** Row locks are exclusive in every reachable state. */
  lemma LocksExclude(lay: Layouts, states: seq<State>, steps: seq<Step>, i: nat, t: TxId, u: TxId)
    requires Run(lay, states, steps) && i < |states|
    requires t in states[i].txs && u in states[i].txs && t != u
    ensures Disjoint(states[i].txs[t], states[i].txs[u])
  {
    RunKeepsInv(lay, states, steps, i);
  }
}
