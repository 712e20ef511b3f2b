/** What transactions are for: a commit changes the tables as its transaction set out
    to, and in no other way, whatever ran in between. */
module ProtocolEffects {
  import opened Wrappers
  import opened Terms
  import opened Compaction
  import opened Protocol
  import opened ProtocolSafety

  // ---------------------------------------------------------------------
  // What a transaction sets out to do
  // ---------------------------------------------------------------------

  predicate Begins(step: Step, t: TxId) {
    match step
    case BeginCommit(u, _, _, _, _, _) => u == t
    case BeginCopy(u, _, _) => u == t
    case BeginLink(u, _, _) => u == t
    case BeginDelete(u, _) => u == t
    case BeginSweepBlob(u, _) => u == t
    case BeginSweepXorb(u, _) => u == t
    case BeginOrphanBlob(u, _) => u == t
    case BeginOrphanXorb(u, _) => u == t
    case BeginMove(u, _, _, _, _) => u == t
    case _ => false
  }

  predicate Closes(step: Step, t: TxId) {
    step == Commit(t) || step == Abort(t)
  }

  /** Every blob has its row and its terms still; counts may differ. */
  predicate KeepsTerms(db: Db, db': Db) {
    forall b :: b in db.blobs ==>
      b in db'.blobs && db'.blobs[b].terms == db.blobs[b].terms && db'.blobs[b].chunked == db.blobs[b].chunked
  }

  /** Every xorb has its row still, with its offsets and its mark; a new one has no mark. */
  predicate KeepsXorbs(db: Db, db': Db) {
    && (forall x :: x in db.xorbs ==>
          x in db'.xorbs && db'.xorbs[x].layout == db.xorbs[x].layout && db'.xorbs[x].damaged == db.xorbs[x].damaged)
    && (forall x :: x in db'.xorbs && x !in db.xorbs ==> !db'.xorbs[x].damaged)
  }

  /** What committing does to the tables, by how the transaction began. */
  predicate Effect(begin: Step, db: Db, db': Db) {
    match begin
    case BeginCommit(_, _, key, h, attach, plan) =>
      && db'.objects == db.objects[key := h]
      && KeepsTerms(db, db') && db'.blobs.Keys == db.blobs.Keys + {h} && KeepsXorbs(db, db')
      && (h in db.blobs ==> db'.xorbs == db.xorbs)
      && (h !in db.blobs ==>
            && attach && db'.blobs[h].chunked && db'.blobs[h].terms == plan
            && db'.xorbs.Keys == db.xorbs.Keys + Uses(plan))
    case BeginCopy(_, key, h) => PointsKey(key, h, db, db')
    case BeginLink(_, key, h) => PointsKey(key, h, db, db') && db.blobs[h].refs > 0
    case BeginDelete(_, key) =>
      && key in db.objects && db'.objects == db.objects - {key}
      && KeepsTerms(db, db') && db'.blobs.Keys == db.blobs.Keys && db'.xorbs == db.xorbs
    case BeginSweepBlob(_, h) =>
      && db'.objects == db.objects && h in db.blobs && db'.blobs == db.blobs - {h}
      && KeepsXorbs(db, db') && db'.xorbs.Keys == db.xorbs.Keys
    case BeginSweepXorb(_, x) =>
      db'.objects == db.objects && db'.blobs == db.blobs && x in db.xorbs && db'.xorbs == db.xorbs - {x}
    case BeginMove(_, _, from, to, index) =>
      && db'.objects == db.objects && db'.blobs.Keys == db.blobs.Keys && from in db.xorbs && db.xorbs[from].refs > 0
      && (forall b :: b in db.blobs ==> MovedRow(from, to, index, db.blobs[b], db'.blobs[b]))
      && KeepsXorbs(db, db') && db'.xorbs.Keys == db.xorbs.Keys + {to}
    case _ => false
  }

  /** A copy or a link: the blob has a row already, and only the key is pointed at it. */
  predicate PointsKey(key: Key, h: Blob, db: Db, db': Db) {
    && h in db.blobs && db'.objects == db.objects[key := h]
    && KeepsTerms(db, db') && db'.blobs.Keys == db.blobs.Keys && db'.xorbs == db.xorbs
  }

  /** A blob with a term on from has its terms moved; any other is as it was. */
  predicate MovedRow(from: Xorb, to: Xorb, index: seq<int>, row: BlobRow, row': BlobRow) {
    && row' == row.(terms := if from in Uses(row.terms) then MoveList(row.terms, from, to, index) else row.terms)
    && from !in Uses(row'.terms)
  }

  // ---------------------------------------------------------------------
  // How far it has got
  // ---------------------------------------------------------------------

  /** Given up, or about to be: such a transaction never commits. */
  predicate Lost(tx: Tx) {
    tx.stage.Doomed? || tx.stage.Discarding?
  }

  /** The writes to objects point the key at the blob, once it comes to that. */
  predicate Points(tx: Tx, key: Key, h: Blob) {
    match tx.stage
    case Claiming(goal, _, _) => goal.Attach? && goal.key == key && goal.blob == h && tx.edits.objects == map[]
    case Checking(goal, _, _, _) => goal.Attach? && goal.key == key && goal.blob == h && tx.edits.objects == map[]
    case Placing(k, b, _) => k == key && b == h && tx.edits.objects == map[]
    case CopyChecking(k, b) => k == key && b == h && tx.edits.objects == map[]
    case Upserting(k, b) => k == key && b == h && tx.edits.objects == map[]
    case Releasing(k, _) => k == key && tx.edits.objects == map[key := Some(h)]
    case Ready => tx.edits.objects == map[key := Some(h)]
    case _ => false
  }

  /** Row writes that keep every blob's row and terms. */
  predicate SameTerms(db: Db, e: Edits) {
    forall b :: b in e.blobs && b in db.blobs ==>
      e.blobs[b].Some? && e.blobs[b].value.terms == db.blobs[b].terms && e.blobs[b].value.chunked == db.blobs[b].chunked
  }

  predicate SameXorbs(db: Db, e: Edits) {
    forall x :: x in e.xorbs ==>
      && e.xorbs[x].Some?
      && (x in db.xorbs ==>
            e.xorbs[x].value.layout == db.xorbs[x].layout && e.xorbs[x].value.damaged == db.xorbs[x].damaged)
      && (x !in db.xorbs ==> !e.xorbs[x].value.damaged)
  }

  /** Writes for a blob that has a row: counts only. */
  predicate CountsOnly(db: Db, tx: Tx) {
    tx.edits.blobs.Keys <= db.blobs.Keys && SameTerms(db, tx.edits) && tx.edits.xorbs == map[]
  }

  /** Writes for a blob that has none: its row, with the planned terms once attached. */
  predicate NewBlob(db: Db, tx: Tx, h: Blob, plan: seq<Term>) {
    && h in tx.edits.blobs && tx.edits.blobs[h].Some? && tx.edits.blobs[h].value.chunked
    && tx.edits.blobs.Keys <= db.blobs.Keys + {h} && SameTerms(db, tx.edits)
    && SameXorbs(db, tx.edits) && tx.edits.xorbs.Keys <= Uses(plan)
    && match tx.stage
       case Claiming(goal, _, _) => goal.Attach? && goal.plan == plan
       case Checking(goal, _, todo, x) => goal.Attach? && goal.plan == plan && todo <= Uses(plan)
       case _ => tx.edits.blobs[h].value.terms == plan && tx.edits.xorbs.Keys == Uses(plan)
  }

  predicate ServesPut(db: Db, tx: Tx, key: Key, h: Blob, attach: bool, plan: seq<Term>) {
    || Lost(tx)
    || (h in tx.blobs && Points(tx, key, h)
        && if h in db.blobs then CountsOnly(db, tx) else attach && NewBlob(db, tx, h, plan))
  }

  predicate ServesPoint(db: Db, tx: Tx, key: Key, h: Blob) {
    Lost(tx) || (h in tx.blobs && Points(tx, key, h) && h in db.blobs && CountsOnly(db, tx))
  }

  predicate ServesDelete(db: Db, tx: Tx, key: Key) {
    && (tx.stage.Releasing? || tx.stage.Ready?) && (tx.stage.Releasing? ==> tx.stage.key == key)
    && key in db.objects && key in tx.keys && tx.edits.objects == map[key := None] && CountsOnly(db, tx)
  }

  predicate ServesSweepBlob(db: Db, tx: Tx, h: Blob) {
    && h in db.blobs && h in tx.blobs && tx.edits.objects == map[]
    && match tx.stage
       case Detaching(b, _) => b == h && tx.edits == NO_EDITS
       case DroppingBlob(b, orphan) => b == h && !orphan && tx.edits == NO_EDITS.(blobs := map[h := None])
       case Ready => tx.edits.blobs == map[h := None] && SameXorbs(db, tx.edits) && tx.edits.xorbs.Keys <= db.xorbs.Keys
       case _ => false
  }

  predicate ServesSweepXorb(db: Db, tx: Tx, x: Xorb) {
    && x in db.xorbs && x in tx.xorbs && tx.edits == NO_EDITS.(xorbs := map[x := None])
    && (tx.stage == DroppingXorb(x, false) || tx.stage.Ready?)
  }

  predicate ServesOrphan(tx: Tx) {
    match tx.stage
    case DroppingBlob(_, orphan) => orphan
    case DroppingXorb(_, orphan) => orphan
    case Doomed => true
    case _ => false
  }

  /** The rewrite of the locked blobs: all with a term on from, moved, are among them. */
  ghost predicate Moved(db: Db, tx: Tx, from: Xorb, to: Xorb, index: seq<int>) {
    && from in tx.xorbs && tx.edits.blobs.Keys <= db.blobs.Keys && Users(db, from) <= tx.edits.blobs.Keys
    && (forall b :: b in tx.edits.blobs && b in db.blobs ==>
          tx.edits.blobs[b].Some? && MovedRow(from, to, index, db.blobs[b], tx.edits.blobs[b].value))
    && SameXorbs(db, tx.edits) && to in tx.edits.xorbs && tx.edits.xorbs.Keys <= {from, to} && InUse(db, from)
  }

  predicate InUse(db: Db, x: Xorb) {
    x in db.xorbs && db.xorbs[x].refs > 0
  }

  /** No terms are rewritten yet; the old xorb, once it is locked, is in use. */
  predicate Unmoved(db: Db, tx: Tx, from: Xorb) {
    tx.edits.blobs == map[] && SameXorbs(db, tx.edits) && (from in tx.xorbs ==> InUse(db, from))
  }

  ghost predicate ServesMove(db: Db, tx: Tx, from: Xorb, to: Xorb, index: seq<int>) {
    || Lost(tx)
    || (tx.edits.objects == map[]
        && match tx.stage
           case LockingBlobs(f, g, i, _) => f == from && g == to && i == index && tx.edits == NO_EDITS
           case Claiming(goal, _, _) => goal == Move(from, to, index) && Unmoved(db, tx, from)
           case Checking(goal, _, _, _) => goal == Move(from, to, index) && Unmoved(db, tx, from)
           case Ready => Moved(db, tx, from, to, index)
           case _ => false)
  }

  /** The transaction that began with begin is on its way to do what it set out to. */
  ghost predicate Serves(begin: Step, db: Db, tx: Tx) {
    match begin
    case BeginCommit(_, _, key, h, attach, plan) => ServesPut(db, tx, key, h, attach, plan)
    case BeginCopy(_, key, h) => ServesPoint(db, tx, key, h)
    case BeginLink(_, key, h) => ServesPoint(db, tx, key, h) && (Lost(tx) || db.blobs[h].refs > 0)
    case BeginDelete(_, key) => ServesDelete(db, tx, key)
    case BeginSweepBlob(_, h) => ServesSweepBlob(db, tx, h)
    case BeginSweepXorb(_, x) => ServesSweepXorb(db, tx, x)
    case BeginOrphanBlob(_, h) => ServesOrphan(tx)
    case BeginOrphanXorb(_, x) => ServesOrphan(tx)
    case BeginMove(_, _, from, to, index) => ServesMove(db, tx, from, to, index)
    case _ => false
  }

  // ---------------------------------------------------------------------
  // Beginning
  // ---------------------------------------------------------------------

  lemma BegunPut(db: Db, key: Key, h: Blob, attach: bool, plan: seq<Term>, mine: map<Xorb, Wrote>)
    ensures ServesPut(db, ClaimBlob(db, key, h, attach, plan, mine), key, h, attach, plan)
  {
  }

  lemma BegunPoint(db: Db, key: Key, h: Blob)
    ensures ServesPoint(db, ClaimStored(db, key, h), key, h) && ServesPoint(db, ClaimExisting(db, key, h), key, h)
  {
  }

  lemma BegunServes(s: State, step: Step, s': State, t: TxId)
    requires BeginStep(s, step, s') && Begins(step, t)
    ensures t in s'.txs && Serves(step, s'.db, s'.txs[t])
  {
    match step
    case BeginCommit(_, w, key, h, attach, plan) => BegunPut(s.db, key, h, attach, plan, WroteBy(s, w));
    case BeginCopy(_, key, h) => BegunPoint(s.db, key, h);
    case BeginLink(_, key, h) => BegunPoint(s.db, key, h);
    case _ =>
  }

  // ---------------------------------------------------------------------
  // What others do
  // ---------------------------------------------------------------------

  lemma CountsKept(tx: Tx, db: Db, be: Backend, db': Db, be': Backend)
    requires EditsLocked(tx) && CountsOnly(db, tx) && ProtocolSafety.Kept(tx, db, be, db', be')
    ensures CountsOnly(db', tx)
  {
    forall b | b in tx.edits.blobs
      ensures b in db'.blobs && db'.blobs[b] == db.blobs[b]
    {
      assert b in tx.blobs && b in db.blobs;
    }
  }

  lemma PutKept(tx: Tx, db: Db, be: Backend, db': Db, be': Backend, key: Key, h: Blob, attach: bool, plan: seq<Term>)
    requires EditsLocked(tx) && ServesPut(db, tx, key, h, attach, plan) && ProtocolSafety.Kept(tx, db, be, db', be')
    ensures ServesPut(db', tx, key, h, attach, plan)
  {
    if !Lost(tx) {
      if h in db.blobs {
        CountsKept(tx, db, be, db', be');
      } else {
        NewBlobKept(tx, db, be, db', be', h, plan);
      }
    }
  }

  lemma NewBlobKept(tx: Tx, db: Db, be: Backend, db': Db, be': Backend, h: Blob, plan: seq<Term>)
    requires EditsLocked(tx) && NewBlob(db, tx, h, plan) && ProtocolSafety.Kept(tx, db, be, db', be')
    ensures NewBlob(db', tx, h, plan)
  {
    forall b | b in tx.edits.blobs
      ensures Lookup(db'.blobs, b) == Lookup(db.blobs, b)
    {
      assert b in tx.blobs;
    }
    forall x | x in tx.edits.xorbs
      ensures Lookup(db'.xorbs, x) == Lookup(db.xorbs, x)
    {
      assert x in tx.xorbs;
    }
  }

  lemma MoveKept(tx: Tx, db: Db, be: Backend, db': Db, be': Backend, from: Xorb, to: Xorb, index: seq<int>)
    requires EditsLocked(tx) && ServesMove(db, tx, from, to, index) && ProtocolSafety.Kept(tx, db, be, db', be')
    ensures ServesMove(db', tx, from, to, index)
  {
    forall b | b in tx.edits.blobs
      ensures Lookup(db'.blobs, b) == Lookup(db.blobs, b)
    {
      assert b in tx.blobs;
    }
    forall x | x in tx.edits.xorbs
      ensures Lookup(db'.xorbs, x) == Lookup(db.xorbs, x)
    {
      assert x in tx.xorbs;
    }
  }

  lemma SweepKept(tx: Tx, db: Db, be: Backend, db': Db, be': Backend, h: Blob)
    requires EditsLocked(tx) && ServesSweepBlob(db, tx, h) && ProtocolSafety.Kept(tx, db, be, db', be')
    ensures ServesSweepBlob(db', tx, h)
  {
    forall x | x in tx.edits.xorbs
      ensures Lookup(db'.xorbs, x) == Lookup(db.xorbs, x)
    {
      assert x in tx.xorbs;
    }
  }

  /** What another transaction does leaves this one on its way. */
  lemma ServesKept(begin: Step, db: Db, be: Backend, db': Db, be': Backend, tx: Tx)
    requires EditsLocked(tx) && Serves(begin, db, tx) && ProtocolSafety.Kept(tx, db, be, db', be')
    ensures Serves(begin, db', tx)
  {
    match begin
    case BeginCommit(_, _, key, h, attach, plan) => PutKept(tx, db, be, db', be', key, h, attach, plan);
    case BeginCopy(_, key, h) =>
      if !Lost(tx) { CountsKept(tx, db, be, db', be'); }
    case BeginLink(_, key, h) =>
      if !Lost(tx) { CountsKept(tx, db, be, db', be'); }
    case BeginDelete(_, key) => CountsKept(tx, db, be, db', be');
    case BeginSweepBlob(_, h) => SweepKept(tx, db, be, db', be', h);
    case BeginSweepXorb(_, x) =>
    case BeginOrphanBlob(_, h) =>
    case BeginOrphanXorb(_, x) =>
    case BeginMove(_, _, from, to, index) => MoveKept(tx, db, be, db', be', from, to, index);
  }

  // ---------------------------------------------------------------------
  // What it does itself
  // ---------------------------------------------------------------------

  lemma LockServesPut(db: Db, be: Backend, tx: Tx, x: Xorb, key: Key, h: Blob, attach: bool, plan: seq<Term>)
    requires TxInv(db, be, tx) && tx.stage.Claiming? && x in tx.stage.todo
    requires ServesPut(db, tx, key, h, attach, plan)
    ensures ServesPut(db, LockXorb(db, tx, x), key, h, attach, plan)
  {
    assert attach && NewBlob(db, tx, h, plan);
    LockServesNew(db, tx, x, h, plan);
  }

  lemma LockServesNew(db: Db, tx: Tx, x: Xorb, h: Blob, plan: seq<Term>)
    requires tx.stage.Claiming? && x in tx.stage.todo && tx.stage.todo <= Uses(plan) && NewBlob(db, tx, h, plan)
    ensures var next := LockXorb(db, tx, x);
      Lost(next) || NewBlob(db, next, h, plan)
  {
  }

  lemma LockServesMove(db: Db, be: Backend, tx: Tx, x: Xorb, from: Xorb, to: Xorb, index: seq<int>)
    requires TxInv(db, be, tx) && tx.stage.Claiming? && x in tx.stage.todo
    requires ServesMove(db, tx, from, to, index)
    ensures ServesMove(db, LockXorb(db, tx, x), from, to, index)
  {
  }

  lemma CheckServes(begin: Step, db: Db, be: Backend, tx: Tx)
    requires TxInv(db, be, tx) && tx.stage.Checking? && Serves(begin, db, tx)
    ensures Serves(begin, db, CheckXorb(be, tx))
  {
  }

  lemma AttachServes(db: Db, be: Backend, tx: Tx, key: Key, h: Blob, attach: bool, plan: seq<Term>)
    requires TxInv(db, be, tx) && tx.stage.Claiming? && tx.stage.goal.Attach? && tx.stage.todo == {}
    requires ServesPut(db, tx, key, h, attach, plan)
    ensures ServesPut(db, AttachTerms(db, tx), key, h, attach, plan)
  {
    AllClaimed(db, be, tx);
    AttachServesNew(db, tx, h, plan);
  }

  lemma AttachServesNew(db: Db, tx: Tx, h: Blob, plan: seq<Term>)
    requires tx.stage.Claiming? && tx.stage.goal.Attach? && tx.stage.goal.blob == h && NewBlob(db, tx, h, plan)
    requires forall x :: x in Uses(plan) ==> See(db.xorbs, tx.edits.xorbs, x).Some?
    requires h !in db.blobs
    ensures NewBlob(db, AttachTerms(db, tx), h, plan)
  {
    ReferencedRows(db, tx.edits, Uses(plan));
  }

  lemma AllClaimed(db: Db, be: Backend, tx: Tx)
    requires TxInv(db, be, tx) && tx.stage.Claiming? && tx.stage.goal.Attach? && tx.stage.todo == {}
    ensures forall x :: x in Uses(tx.stage.goal.plan) ==> See(db.xorbs, tx.edits.xorbs, x).Some?
  {
    forall x | x in Uses(tx.stage.goal.plan)
      ensures See(db.xorbs, tx.edits.xorbs, x).Some?
    {
      assert x in Wanted(tx.stage.goal) - {} && Counted(db, tx, x);
    }
  }

  lemma ReferencedRows(db: Db, e: Edits, used: set<Xorb>)
    requires SameXorbs(db, e) && e.xorbs.Keys <= used
    requires forall x :: x in used ==> See(db.xorbs, e.xorbs, x).Some?
    ensures Referenced(db, e, used).Keys == used
    ensures SameXorbs(db, e.(xorbs := Referenced(db, e, used)))
  {
  }

  lemma ClaimServes(begin: Step, s: State, step: Step, s': State, t: TxId)
    requires ClaimStep(s, step, s') && step.t == t && t in s.txs && t in s'.txs
    requires TxInv(s.db, s.be, s.txs[t]) && Serves(begin, s.db, s.txs[t])
    ensures Serves(begin, s.db, s'.txs[t])
  {
    var tx := s.txs[t];
    match step
    case DoLockXorb(_, x) =>
      if begin.BeginCommit? {
        LockServesPut(s.db, s.be, tx, x, begin.key, begin.h, begin.attach, begin.plan);
      } else {
        assert begin.BeginMove?;
        LockServesMove(s.db, s.be, tx, x, begin.from, begin.to, begin.index);
      }
    case DoCheckXorb(_) => CheckServes(begin, s.db, s.be, tx);
    case DoAttach(_) =>
      assert begin.BeginCommit?;
      AttachServes(s.db, s.be, tx, begin.key, begin.h, begin.attach, begin.plan);
  }

  lemma UpsertServes(begin: Step, db: Db, tx: Tx)
    requires tx.stage.Upserting? && Serves(begin, db, tx)
    ensures Serves(begin, db, Upsert(db, tx))
  {
  }

  lemma ReleaseServesPut(db: Db, tx: Tx, key: Key, h: Blob, attach: bool, plan: seq<Term>)
    requires tx.stage.Releasing? && ServesPut(db, tx, key, h, attach, plan)
    ensures ServesPut(db, Release(db, tx), key, h, attach, plan)
  {
  }

  lemma ReleaseServes(begin: Step, db: Db, tx: Tx)
    requires tx.stage.Releasing? && Serves(begin, db, tx)
    ensures Serves(begin, db, Release(db, tx))
  {
    if begin.BeginCommit? {
      ReleaseServesPut(db, tx, begin.key, begin.h, begin.attach, begin.plan);
    }
  }

  lemma PointServes(begin: Step, s: State, step: Step, s': State, t: TxId)
    requires PointStep(s, step, s') && step.t == t && t in s.txs && t in s'.txs
    requires Serves(begin, s.db, s.txs[t])
    ensures Serves(begin, s.db, s'.txs[t])
  {
    match step
    case DoCopyCheck(_) =>
    case DoUpsert(_) => UpsertServes(begin, s.db, s.txs[t]);
    case DoRelease(_) => ReleaseServes(begin, s.db, s.txs[t]);
  }

  lemma DetachServes(begin: Step, s: State, step: Step, s': State, t: TxId)
    requires DetachStep(s, step, s') && step.t == t && t in s.txs && t in s'.txs
    requires Serves(begin, s.db, s.txs[t])
    ensures Serves(begin, s.db, s'.txs[t])
  {
  }

  lemma ByteServes(begin: Step, s: State, step: Step, s': State, t: TxId)
    requires ByteStep(s, step, s') && step.t == t && t in s.txs && t in s'.txs
    requires Serves(begin, s.db, s.txs[t])
    ensures Serves(begin, s.db, s'.txs[t])
  {
  }

  /** A list with no term on from is not changed by moving from's. */
  lemma {:induction false} MoveListLeaves(terms: seq<Term>, from: Xorb, to: Xorb, index: seq<int>)
    requires from !in Uses(terms)
    ensures MoveList(terms, from, to, index) == terms
  {
    var moved := MoveList(terms, from, to, index);
    forall i | 0 <= i < |terms|
      ensures moved[i] == terms[i]
    {
      assert terms[i].xorb in Uses(terms);
    }
  }

  lemma RewriteMoves(db: Db, be: Backend, tx: Tx)
    requires CanRewrite(db, be, tx) && SameXorbs(db, tx.edits) && InUse(db, tx.stage.goal.from)
    ensures var goal := tx.stage.goal;
      Moved(db, Rewrite(db, tx), goal.from, goal.to, goal.index)
  {
    var Move(from, to, index) := tx.stage.goal;
    var next := Rewrite(db, tx);
    RewriteLocked(db, be, tx);
    forall b | b in next.edits.blobs
      ensures next.edits.blobs[b].Some? && MovedRow(from, to, index, db.blobs[b], next.edits.blobs[b].value)
    {
      RewriteUsers(db, tx, from, to, index, next.edits.blobs, b);
      if from !in Uses(db.blobs[b].terms) {
        MoveListLeaves(db.blobs[b].terms, from, to, index);
      }
    }
  }

  lemma MoveServes(begin: Step, s: State, step: Step, s': State, t: TxId)
    requires DbInv(s.db, s.be) && MoveStep(s, step, s') && step.t == t && t in s.txs && t in s'.txs
    requires TxInv(s.db, s.be, s.txs[t]) && Serves(begin, s.db, s.txs[t])
    ensures Serves(begin, s.db, s'.txs[t])
  {
    assert begin.BeginMove?;
    if step.DoRewrite? && CanRewrite(s.db, s.be, s.txs[t]) {
      RewriteMoves(s.db, s.be, s.txs[t]);
    }
  }

  // ---------------------------------------------------------------------
  // Any step
  // ---------------------------------------------------------------------

  /** s' is s with other transactions and perhaps the tables changed, but nothing tx has locked. */
  ghost predicate LeavesAlone(s: State, s': State, t: TxId) {
    && t in s.txs && t in s'.txs && s'.txs[t] == s.txs[t]
    && ProtocolSafety.Kept(s.txs[t], s.db, s.be, s'.db, s'.be)
  }

  lemma OutsideLeaves(lay: Layouts, s: State, step: Step, s': State, t: TxId)
    requires Inv(s) && t in s.txs && WriterStep(lay, s, step, s')
    ensures LeavesAlone(s, s', t)
  {
    if step.MarkXorb? {
      MarkKept(s.txs[t], s.db, s.be, step.x, step.damaged);
    }
  }

  lemma BeginLeaves(s: State, step: Step, s': State, t: TxId)
    requires t in s.txs && BeginStep(s, step, s')
    ensures LeavesAlone(s, s', t)
  {
  }

  lemma GoingOnLeaves(s: State, u: TxId, s': State, t: TxId)
    requires t in s.txs && t != u && GoesOn(s, u, s')
    ensures LeavesAlone(s, s', t)
  {
  }

  lemma BytesLeave(s: State, step: Step, s': State, t: TxId)
    requires Inv(s) && t in s.txs && ByteStep(s, step, s') && step.t != t
    ensures LeavesAlone(s, s', t)
  {
    BytesActOn(s, step, s');
    assert TxInv(s.db, s.be, s.txs[step.t]);
    BytesShrink(s, step, s');
    assert Disjoint(s.txs[step.t], s.txs[t]);
  }

  lemma EndLeaves(s: State, step: Step, s': State, t: TxId)
    requires Inv(s) && t in s.txs && EndStep(s, step, s') && !Closes(step, t)
    ensures LeavesAlone(s, s', t)
  {
    if step.Commit? {
      assert TxInv(s.db, s.be, s.txs[step.t]) && Disjoint(s.txs[step.t], s.txs[t]);
      KeptByCommit(s.db, s.be, s.txs[step.t], s.txs[t]);
    }
  }

  /** A step that is not one of t's own. */
  predicate Foreign(step: Step, t: TxId) {
    step.PutXorb? || step.MarkXorb? || step.t != t
  }

  lemma OthersLeave(lay: Layouts, s: State, step: Step, s': State, t: TxId)
    requires Inv(s) && t in s.txs && StepTo(lay, s, step, s') && Foreign(step, t)
    ensures LeavesAlone(s, s', t)
  {
    if WriterStep(lay, s, step, s') {
      OutsideLeaves(lay, s, step, s', t);
    } else if BeginStep(s, step, s') {
      BeginLeaves(s, step, s', t);
    } else if ClaimStep(s, step, s') {
      ClaimGoesOn(s, step, s');
      GoingOnLeaves(s, step.t, s', t);
    } else if PointStep(s, step, s') {
      PointGoesOn(s, step, s');
      GoingOnLeaves(s, step.t, s', t);
    } else if DetachStep(s, step, s') {
      DetachGoesOn(s, step, s');
      GoingOnLeaves(s, step.t, s', t);
    } else if MoveStep(s, step, s') {
      MoveGoesOn(s, step, s');
      GoingOnLeaves(s, step.t, s', t);
    } else if ByteStep(s, step, s') {
      BytesLeave(s, step, s', t);
    } else {
      EndLeaves(s, step, s', t);
    }
  }

  /** A step of a transaction already open that leaves it open. */
  ghost predicate UnderWay(s: State, step: Step, s': State) {
    || ClaimStep(s, step, s') || PointStep(s, step, s') || DetachStep(s, step, s')
    || MoveStep(s, step, s') || ByteStep(s, step, s')
  }

  lemma UnderWayGoesOn(s: State, step: Step, s': State)
    requires UnderWay(s, step, s')
    ensures step.t in s.txs && s'.txs.Keys == s.txs.Keys && s'.db == s.db
  {
    if ClaimStep(s, step, s') {
      ClaimGoesOn(s, step, s');
    } else if PointStep(s, step, s') {
      PointGoesOn(s, step, s');
    } else if DetachStep(s, step, s') {
      DetachGoesOn(s, step, s');
    } else if MoveStep(s, step, s') {
      MoveGoesOn(s, step, s');
    } else {
      BytesActOn(s, step, s');
    }
  }

  lemma OwnIsUnderWay(lay: Layouts, s: State, step: Step, s': State, t: TxId)
    requires t in s.txs && StepTo(lay, s, step, s') && !Foreign(step, t) && !Closes(step, t)
    ensures UnderWay(s, step, s')
  {
  }

  lemma OwnServes(begin: Step, s: State, step: Step, s': State, t: TxId)
    requires Inv(s) && t in s.txs && Serves(begin, s.db, s.txs[t])
    requires UnderWay(s, step, s') && step.t == t && t in s'.txs
    ensures Serves(begin, s'.db, s'.txs[t])
  {
    UnderWayGoesOn(s, step, s');
    assert TxInv(s.db, s.be, s.txs[t]);
    if ClaimStep(s, step, s') {
      ClaimServes(begin, s, step, s', t);
    } else if PointStep(s, step, s') {
      PointServes(begin, s, step, s', t);
    } else if DetachStep(s, step, s') {
      DetachServes(begin, s, step, s', t);
    } else if MoveStep(s, step, s') {
      MoveServes(begin, s, step, s', t);
    } else {
      ByteServes(begin, s, step, s', t);
    }
  }

  lemma StepServes(lay: Layouts, begin: Step, s: State, step: Step, s': State, t: TxId)
    requires Inv(s) && t in s.txs && Serves(begin, s.db, s.txs[t])
    requires StepTo(lay, s, step, s') && !Closes(step, t)
    ensures t in s'.txs && Serves(begin, s'.db, s'.txs[t])
  {
    if Foreign(step, t) {
      OthersLeave(lay, s, step, s', t);
      assert TxInv(s.db, s.be, s.txs[t]);
      ServesKept(begin, s.db, s.be, s'.db, s'.be, s.txs[t]);
    } else {
      OwnIsUnderWay(lay, s, step, s', t);
      UnderWayGoesOn(s, step, s');
      OwnServes(begin, s, step, s', t);
    }
  }

  // ---------------------------------------------------------------------
  // Committing
  // ---------------------------------------------------------------------

  lemma CountsEffect(db: Db, tx: Tx)
    requires CountsOnly(db, tx)
    ensures var db' := Apply(db, tx.edits);
      KeepsTerms(db, db') && db'.blobs.Keys == db.blobs.Keys && db'.xorbs == db.xorbs
  {
  }

  lemma NewBlobEffect(db: Db, tx: Tx, h: Blob, plan: seq<Term>)
    requires NewBlob(db, tx, h, plan) && tx.stage.Ready?
    ensures var db' := Apply(db, tx.edits);
      && KeepsTerms(db, db') && db'.blobs.Keys == db.blobs.Keys + {h}
      && db'.blobs[h].chunked && db'.blobs[h].terms == plan
      && KeepsXorbs(db, db') && db'.xorbs.Keys == db.xorbs.Keys + Uses(plan)
  {
  }

  lemma PutEffect(begin: Step, db: Db, tx: Tx)
    requires begin.BeginCommit? && Serves(begin, db, tx) && tx.stage.Ready?
    ensures Effect(begin, db, Apply(db, tx.edits))
  {
    if begin.h in db.blobs {
      CountsEffect(db, tx);
    } else {
      NewBlobEffect(db, tx, begin.h, begin.plan);
    }
  }

  lemma PointEffect(db: Db, tx: Tx, key: Key, h: Blob)
    requires ServesPoint(db, tx, key, h) && tx.stage.Ready?
    ensures PointsKey(key, h, db, Apply(db, tx.edits))
  {
    CountsEffect(db, tx);
  }

  lemma DeleteEffect(begin: Step, db: Db, tx: Tx)
    requires begin.BeginDelete? && Serves(begin, db, tx) && tx.stage.Ready?
    ensures Effect(begin, db, Apply(db, tx.edits))
  {
    CountsEffect(db, tx);
  }

  lemma SweepEffect(begin: Step, db: Db, tx: Tx)
    requires (begin.BeginSweepBlob? || begin.BeginSweepXorb?) && Serves(begin, db, tx) && tx.stage.Ready?
    ensures Effect(begin, db, Apply(db, tx.edits))
  {
  }

  lemma MoveEffect(begin: Step, db: Db, tx: Tx)
    requires begin.BeginMove? && Serves(begin, db, tx) && tx.stage.Ready?
    ensures Effect(begin, db, Apply(db, tx.edits))
  {
  }

  lemma ReadyEffect(begin: Step, db: Db, tx: Tx)
    requires Serves(begin, db, tx) && tx.stage.Ready?
    ensures Effect(begin, db, Apply(db, tx.edits))
  {
    match begin
    case BeginCommit(_, _, _, _, _, _) => PutEffect(begin, db, tx);
    case BeginSweepBlob(_, _) => SweepEffect(begin, db, tx);
    case BeginSweepXorb(_, _) => SweepEffect(begin, db, tx);
    case BeginMove(_, _, _, _, _) => MoveEffect(begin, db, tx);
    case BeginCopy(_, key, h) => PointEffect(db, tx, key, h);
    case BeginLink(_, key, h) => PointEffect(db, tx, key, h);
    case BeginDelete(_, _) => DeleteEffect(begin, db, tx);
    case BeginOrphanBlob(_, _) =>
    case BeginOrphanXorb(_, _) =>
  }

  // ---------------------------------------------------------------------
  // Over runs
  // ---------------------------------------------------------------------

  /** Step i began transaction t, and nothing up to step j ended it. */
  ghost predicate BegunAt(steps: seq<Step>, i: nat, j: nat, t: TxId) {
    i < j <= |steps| && Begins(steps[i], t) && forall k :: i < k < j ==> !Closes(steps[k], t)
  }

  lemma {:induction false} OnItsWay(lay: Layouts, states: seq<State>, steps: seq<Step>, i: nat, j: nat, t: TxId)
    requires Run(lay, states, steps) && BegunAt(steps, i, j, t)
    ensures t in states[j].txs && Serves(steps[i], states[j].db, states[j].txs[t])
  {
    if j == i + 1 {
      assert StepTo(lay, states[i], steps[i], states[i + 1]);
      BegunServes(states[i], steps[i], states[i + 1], t);
    } else {
      OnItsWay(lay, states, steps, i, j - 1, t);
      RunKeepsInv(lay, states, steps, j - 1);
      StepServes(lay, steps[i], states[j - 1], steps[j - 1], states[j], t);
    }
  }

  /** Whatever ran in between, a commit does to the tables what its transaction
      began to do: an upload, a copy or a link points its key at its blob, a
      delete removes its key, a sweep its row, a move rewrites terms and leaves
      every object where it was. */
  lemma CommitDoesWhatBegan(lay: Layouts, states: seq<State>, steps: seq<Step>, i: nat, j: nat, t: TxId)
    requires Run(lay, states, steps) && j < |steps| && BegunAt(steps, i, j, t) && steps[j] == Commit(t)
    ensures Effect(steps[i], states[j].db, states[j + 1].db)
  {
    OnItsWay(lay, states, steps, i, j, t);
    assert StepTo(lay, states[j], steps[j], states[j + 1]);
    ReadyEffect(steps[i], states[j].db, states[j].txs[t]);
  }

  lemma StillBegun(steps: seq<Step>, i: nat, j: nat, t: TxId)
    requires 0 < j <= |steps| && BegunAt(steps, i, j - 1, t) && !Closes(steps[j - 1], t)
    ensures BegunAt(steps, i, j, t)
  {
  }

  lemma {:induction false} OpenBegan(lay: Layouts, states: seq<State>, steps: seq<Step>, j: nat, t: TxId)
    requires Run(lay, states, steps) && j <= |steps| && t in states[j].txs
    ensures exists i: nat :: BegunAt(steps, i, j, t)
  {
    if j > 0 {
      assert StepTo(lay, states[j - 1], steps[j - 1], states[j]);
      if t in states[j - 1].txs {
        OpenBegan(lay, states, steps, j - 1, t);
        var i: nat :| BegunAt(steps, i, j - 1, t);
        if Closes(steps[j - 1], t) {
          ClosedIsGone(lay, states[j - 1], steps[j - 1], states[j]);
        }
        StillBegun(steps, i, j, t);
      } else {
        BeganJustNow(lay, states[j - 1], steps[j - 1], states[j], t);
        assert BegunAt(steps, j - 1, j, t);
      }
    }
  }

  lemma ClosedIsGone(lay: Layouts, s: State, step: Step, s': State)
    requires StepTo(lay, s, step, s') && (step.Commit? || step.Abort?)
    ensures step.t !in s'.txs
  {
  }

  lemma BeganJustNow(lay: Layouts, s: State, step: Step, s': State, t: TxId)
    requires StepTo(lay, s, step, s') && t !in s.txs && t in s'.txs
    ensures Begins(step, t)
  {
    if UnderWay(s, step, s') {
      UnderWayGoesOn(s, step, s');
    } else {
      NotUnderWay(lay, s, step, s', t);
    }
  }

  lemma NotUnderWay(lay: Layouts, s: State, step: Step, s': State, t: TxId)
    requires WriterStep(lay, s, step, s') || BeginStep(s, step, s') || EndStep(s, step, s')
    requires t !in s.txs && t in s'.txs
    ensures Begins(step, t)
  {
  }

  /** Every change to the tables is a commit of something begun, with its effect, or
      a mark of damage: what is given up or lost to a crash leaves no trace in them. */
  lemma OnlyCommitsChange(lay: Layouts, states: seq<State>, steps: seq<Step>, j: nat)
    requires Run(lay, states, steps) && j < |steps|
    ensures var db, db' := states[j].db, states[j + 1].db;
      match steps[j]
      case Commit(t) => exists i: nat :: BegunAt(steps, i, j, t) && Effect(steps[i], db, db')
      case MarkXorb(x, damaged) =>
        x in db.xorbs && db' == db.(xorbs := db.xorbs[x := db.xorbs[x].(damaged := damaged)])
      case _ => db' == db
  {
    assert StepTo(lay, states[j], steps[j], states[j + 1]);
    if steps[j].Commit? {
      OpenBegan(lay, states, steps, j, steps[j].t);
      var i: nat :| BegunAt(steps, i, j, steps[j].t);
      CommitDoesWhatBegan(lay, states, steps, i, j, steps[j].t);
    }
  }

  // ---------------------------------------------------------------------
  // The bytes of what is swept
  // ---------------------------------------------------------------------

  /** In some state from i on the backend was without what the transaction is to drop. */
  ghost predicate Emptied(begin: Step, states: seq<State>, i: nat, j: nat) {
    exists k: nat :: i < k <= j < |states| && Missing(begin, states[k].be)
  }

  predicate Missing(begin: Step, be: Backend) {
    match begin
    case BeginSweepBlob(_, h) => h !in be.blobs
    case BeginOrphanBlob(_, h) => h !in be.blobs
    case BeginSweepXorb(_, x) => x !in be.xorbs
    case BeginOrphanXorb(_, x) => x !in be.xorbs
    case _ => true
  }

  /** About to drop the bytes. */
  predicate Dropping(begin: Step, tx: Tx) {
    match begin
    case BeginSweepBlob(_, h) => tx.stage == DroppingBlob(h, false)
    case BeginOrphanBlob(_, h) => tx.stage == DroppingBlob(h, true)
    case BeginSweepXorb(_, x) => tx.stage == DroppingXorb(x, false)
    case BeginOrphanXorb(_, x) => tx.stage == DroppingXorb(x, true)
    case _ => false
  }

  /** A collection, but for one of a chunked blob, which has no file of its own. */
  predicate Drops(begin: Step, db: Db) {
    match begin
    case BeginSweepBlob(_, h) => h in db.blobs && !db.blobs[h].chunked
    case _ => begin.BeginOrphanBlob? || begin.BeginSweepXorb? || begin.BeginOrphanXorb?
  }

  lemma ClaimsDropNothing(s: State, step: Step, s': State)
    requires ClaimStep(s, step, s') || PointStep(s, step, s')
    ensures !At(s, step.t).DroppingBlob? && !At(s, step.t).DroppingXorb?
  {
  }

  lemma MovesDropNothing(s: State, step: Step, s': State)
    requires DetachStep(s, step, s') || MoveStep(s, step, s')
    ensures !At(s, step.t).DroppingBlob? && !At(s, step.t).DroppingXorb?
  {
  }

  lemma OwnDrops(begin: Step, s: State, step: Step, s': State, t: TxId)
    requires t in s.txs && t in s'.txs && Dropping(begin, s.txs[t]) && UnderWay(s, step, s') && step.t == t
    ensures Missing(begin, s'.be)
  {
    if ClaimStep(s, step, s') || PointStep(s, step, s') {
      ClaimsDropNothing(s, step, s');
    } else if DetachStep(s, step, s') || MoveStep(s, step, s') {
      MovesDropNothing(s, step, s');
    }
  }

  lemma {:induction false} DroppingOrEmptied(
      lay: Layouts, states: seq<State>, steps: seq<Step>, i: nat, j: nat, t: TxId)
    requires Run(lay, states, steps) && BegunAt(steps, i, j, t) && Drops(steps[i], states[i].db)
    ensures t in states[j].txs && (Dropping(steps[i], states[j].txs[t]) || Emptied(steps[i], states, i, j))
  {
    if j == i + 1 {
      assert StepTo(lay, states[i], steps[i], states[i + 1]);
    } else {
      DroppingOrEmptied(lay, states, steps, i, j - 1, t);
      OnItsWay(lay, states, steps, i, j, t);
      assert StepTo(lay, states[j - 1], steps[j - 1], states[j]);
      RunKeepsInv(lay, states, steps, j - 1);
      if !Emptied(steps[i], states, i, j - 1) {
        if Foreign(steps[j - 1], t) {
          OthersLeave(lay, states[j - 1], steps[j - 1], states[j], t);
        } else {
          OwnIsUnderWay(lay, states[j - 1], steps[j - 1], states[j], t);
          OwnDrops(steps[i], states[j - 1], steps[j - 1], states[j], t);
          assert Missing(steps[i], states[j].be);
        }
      }
    }
  }

  /** A sweep that commits has dropped its bytes first: the row never goes while
      they are left behind. */
  lemma SweptBytesWereDropped(lay: Layouts, states: seq<State>, steps: seq<Step>, i: nat, j: nat, t: TxId)
    requires Run(lay, states, steps) && j < |steps| && BegunAt(steps, i, j, t) && steps[j] == Commit(t)
    requires Drops(steps[i], states[i].db)
    ensures Emptied(steps[i], states, i, j)
  {
    DroppingOrEmptied(lay, states, steps, i, j, t);
    assert StepTo(lay, states[j], steps[j], states[j + 1]);
  }
}
