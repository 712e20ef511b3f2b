/** The row-lock protocol: committed tables, the bytes in the backend, and the
    open transactions with their locks and uncommitted writes. Every database
    statement, lock and byte operation is a step of its own, so transactions
    interleave anywhere, and may be lost to a crash anywhere. */
module Protocol {
  import opened Wrappers
  import opened Terms
  import opened Compaction

  /** A blob, named by the digest of its content and so identified with the
      chunks the content cuts into. */
  datatype Blob = Blob(chunks: seq<Chunk>)

  datatype Key = Key(namespace: int, name: string)

  /** A row of blobs, with its rows of blob_terms. */
  datatype BlobRow = BlobRow(refs: nat, chunked: bool, terms: seq<Term>)

  /** A row of xorbs. layout names the serialization its xorb_chunks offsets describe. */
  datatype XorbRow = XorbRow(refs: nat, damaged: bool, layout: nat)

  datatype Db = Db(objects: map<Key, Blob>, blobs: map<Blob, BlobRow>, xorbs: map<Xorb, XorbRow>)

  /** The backend: whole-file blobs, and xorbs with the serialization stored. */
  datatype Backend = Backend(blobs: set<Blob>, xorbs: map<Xorb, nat>)

  /** What a writer knows of a xorb it wrote: whether its write found the object
      already there, and the serialization it made. */
  datatype Wrote = Wrote(existed: bool, layout: nat)

  /** Uncommitted writes; None is a deleted row. */
  datatype Edits = Edits(
    objects: map<Key, Option<Blob>>,
    blobs: map<Blob, Option<BlobRow>>,
    xorbs: map<Xorb, Option<XorbRow>>)

  const NO_EDITS := Edits(map[], map[], map[])

  /** Why a transaction claims xorbs: to attach a new blob's terms and point key
      at it, or to move the terms on from to the xorb it rewrote it into. */
  datatype Goal =
    | Attach(key: Key, blob: Blob, plan: seq<Term>)
    | Move(from: Xorb, to: Xorb, index: seq<int>)

  /** Where a transaction stands. */
  datatype Stage =
    | Claiming(goal: Goal, mine: map<Xorb, Wrote>, todo: set<Xorb>)
    | Checking(goal: Goal, mine: map<Xorb, Wrote>, todo: set<Xorb>, x: Xorb)
    | Discarding(x: Xorb)
    | Placing(key: Key, blob: Blob, must: bool)
    | CopyChecking(key: Key, blob: Blob)
    | Upserting(key: Key, blob: Blob)
    | Releasing(key: Key, prev: Blob)
    | Detaching(blob: Blob, todo: set<Xorb>)
    | DroppingBlob(blob: Blob, orphan: bool)
    | DroppingXorb(x: Xorb, orphan: bool)
    | LockingBlobs(from: Xorb, to: Xorb, index: seq<int>, mine: map<Xorb, Wrote>)
    | Ready
    | Doomed

  /** An open transaction: the keys and rows it has locked, its writes, its stage. */
  datatype Tx = Tx(keys: set<Key>, blobs: set<Blob>, xorbs: set<Xorb>, edits: Edits, stage: Stage)

  type TxId = nat
  type WriterId = nat

  datatype State = State(db: Db, be: Backend, txs: map<TxId, Tx>, wrote: map<WriterId, map<Xorb, Wrote>>)

  // ---------------------------------------------------------------------
  // Views
  // ---------------------------------------------------------------------

  function Overlay<K, V>(m: map<K, V>, e: map<K, Option<V>>): map<K, V> {
    map k | k in m.Keys + e.Keys && (k in e ==> e[k].Some?) :: if k in e then e[k].value else m[k]
  }

  /** The tables once the writes are committed. */
  function Apply(db: Db, e: Edits): Db {
    Db(Overlay(db.objects, e.objects), Overlay(db.blobs, e.blobs), Overlay(db.xorbs, e.xorbs))
  }

  /** A row as a transaction with edits e sees it. */
  function See<K, V>(m: map<K, V>, e: map<K, Option<V>>, k: K): (r: Option<V>)
    ensures r == Lookup(Overlay(m, e), k)
  {
    if k in e then e[k] else Lookup(m, k)
  }

  function UsesOf(row: Option<BlobRow>): set<Xorb> {
    match row
    case None => {}
    case Some(r) => Uses(r.terms)
  }

  /** The objects pointing at a blob. */
  function Pointers(db: Db, h: Blob): set<Key> {
    set k | k in db.objects && db.objects[k] == h
  }

  /** The blobs with a term on a xorb. */
  function Users(db: Db, x: Xorb): set<Blob> {
    set h | h in db.blobs && x in Uses(db.blobs[h].terms)
  }

  // ---------------------------------------------------------------------
  // Transactions, one statement at a time
  // ---------------------------------------------------------------------

  /** ClaimBlob in a commit: the row is created with one reference, or gains one. */
  function ClaimBlob(db: Db, key: Key, h: Blob, attach: bool, plan: seq<Term>, mine: map<Xorb, Wrote>): Tx {
    match Lookup(db.blobs, h)
    case None =>
      var e := NO_EDITS.(blobs := map[h := Some(BlobRow(1, true, []))]);
      Tx({}, {h}, {}, e, if attach then Claiming(Attach(key, h, plan), mine, Uses(plan)) else Doomed)
    case Some(r) =>
      var e := NO_EDITS.(blobs := map[h := Some(r.(refs := r.refs + 1))]);
      Tx({}, {h}, {}, e, if r.chunked then Upserting(key, h) else Placing(key, h, r.refs == 0))
  }

  /** ClaimStoredBlob in a copy: the row must exist. */
  function ClaimStored(db: Db, key: Key, h: Blob): Tx {
    match Lookup(db.blobs, h)
    case None => Tx({}, {}, {}, NO_EDITS, Doomed)
    case Some(r) =>
      var e := NO_EDITS.(blobs := map[h := Some(r.(refs := r.refs + 1))]);
      Tx({}, {h}, {}, e, if r.refs == 0 && !r.chunked then CopyChecking(key, h) else Upserting(key, h))
  }

  /** ClaimExistingBlob in a link: the row must have a reference. */
  function ClaimExisting(db: Db, key: Key, h: Blob): Tx {
    match Lookup(db.blobs, h)
    case None => Tx({}, {}, {}, NO_EDITS, Doomed)
    case Some(r) =>
      if r.refs == 0 then Tx({}, {}, {}, NO_EDITS, Doomed)
      else Tx({}, {h}, {}, NO_EDITS.(blobs := map[h := Some(r.(refs := r.refs + 1))]), Upserting(key, h))
  }

  /** claimXorb up to its byte check: x's row is locked, and inserted if the
      claimer wrote x and it has none. */
  function LockXorb(db: Db, tx: Tx, x: Xorb): Tx
    requires tx.stage.Claiming?
  {
    var Claiming(goal, mine, todo) := tx.stage;
    var locked := tx.(xorbs := tx.xorbs + {x});
    match Lookup(db.xorbs, x)
    case None =>
      if x !in mine then locked.(stage := Doomed)
      else if mine[x].existed then locked.(stage := Discarding(x))
      else locked.(edits := tx.edits.(xorbs := tx.edits.xorbs[x := Some(XorbRow(0, false, mine[x].layout))]),
                   stage := Checking(goal, mine, todo, x))
    case Some(r) =>
      if x !in mine && r.damaged then locked.(stage := Doomed)
      else if r.refs == 0 then locked.(stage := Checking(goal, mine, todo, x))
      else locked.(stage := Claiming(goal, mine, todo - {x}))
  }

  /** claimXorb's check that a new row, or one at zero, has its bytes. */
  function CheckXorb(be: Backend, tx: Tx): Tx
    requires tx.stage.Checking?
  {
    var Checking(goal, mine, todo, x) := tx.stage;
    tx.(stage := if x in be.xorbs then Claiming(goal, mine, todo - {x}) else Doomed)
  }

  /** The references AttachTerms takes, on rows its claims left locked. */
  function Referenced(db: Db, e: Edits, used: set<Xorb>): map<Xorb, Option<XorbRow>> {
    e.xorbs + map x | x in used && See(db.xorbs, e.xorbs, x).Some? ::
      (var r := See(db.xorbs, e.xorbs, x).value; Some(r.(refs := r.refs + 1)))
  }

  /** AttachTerms once every xorb is claimed: references and terms. */
  function AttachTerms(db: Db, tx: Tx): Tx
    requires tx.stage.Claiming? && tx.stage.goal.Attach?
  {
    var Attach(key, h, plan) := tx.stage.goal;
    var e := tx.edits.(
      xorbs := Referenced(db, tx.edits, Uses(plan)),
      blobs := tx.edits.blobs[h := Some(BlobRow(1, true, plan))]);
    tx.(edits := e, stage := Upserting(key, h))
  }

  /** UpsertObject: the key is locked and pointed at the blob. */
  function Upsert(db: Db, tx: Tx): Tx
    requires tx.stage.Upserting?
  {
    var Upserting(key, h) := tx.stage;
    tx.(keys := tx.keys + {key},
        edits := tx.edits.(objects := tx.edits.objects[key := Some(h)]),
        stage := if key in db.objects then Releasing(key, db.objects[key]) else Ready)
  }

  /** DeleteObject: the row goes, and its blob is to be released. */
  function DeleteKey(db: Db, key: Key): Tx
    requires key in db.objects
  {
    Tx({key}, {}, {}, NO_EDITS.(objects := map[key := None]), Releasing(key, db.objects[key]))
  }

  /** ReleaseBlob: one reference fewer, unless there is none to drop. */
  function Release(db: Db, tx: Tx): Tx
    requires tx.stage.Releasing?
  {
    var prev := tx.stage.prev;
    var locked := tx.(blobs := tx.blobs + {prev}, stage := Ready);
    match See(db.blobs, tx.edits.blobs, prev)
    case None => locked
    case Some(r) =>
      if r.refs == 0 then locked
      else locked.(edits := tx.edits.(blobs := tx.edits.blobs[prev := Some(r.(refs := r.refs - 1))]))
  }

  /** GCSweep's pick: a chunked row has its xorbs detached, a whole one is
      deleted and then its file. */
  function SweepBlob(db: Db, h: Blob): Tx
    requires h in db.blobs
  {
    if db.blobs[h].chunked then Tx({}, {h}, {}, NO_EDITS, Detaching(h, Uses(db.blobs[h].terms)))
    else Tx({}, {h}, {}, NO_EDITS.(blobs := map[h := None]), DroppingBlob(h, false))
  }

  /** The references detachTerms drops. */
  function Dereferenced(db: Db, used: set<Xorb>): map<Xorb, Option<XorbRow>> {
    map x | x in used && x in db.xorbs && db.xorbs[x].refs > 0 ::
      Some(db.xorbs[x].(refs := db.xorbs[x].refs - 1))
  }

  /** detachTerms with its xorbs locked, and the row's deletion. */
  function DetachTerms(db: Db, tx: Tx): Tx
    requires tx.stage.Detaching? && tx.stage.blob in db.blobs
  {
    var h := tx.stage.blob;
    tx.(edits := Edits(map[], map[h := None], Dereferenced(db, Uses(db.blobs[h].terms))), stage := Ready)
  }

  /** MoveTerms' rewrite: every locked blob's terms, from's count to zero, and
      to's users counted. */
  function Rewrite(db: Db, tx: Tx): Tx
    requires tx.stage.Claiming? && tx.stage.goal.Move?
    requires See(db.xorbs, tx.edits.xorbs, tx.stage.goal.to).Some? && tx.stage.goal.from in db.xorbs
  {
    var Move(from, to, index) := tx.stage.goal;
    var moved := map b | b in tx.blobs && b in db.blobs ::
      Some(db.blobs[b].(terms := MoveList(db.blobs[b].terms, from, to, index)));
    var users := Users(Apply(db, tx.edits.(blobs := moved)), to);
    var row := See(db.xorbs, tx.edits.xorbs, to).value;
    tx.(edits := tx.edits.(blobs := moved,
                           xorbs := tx.edits.xorbs[from := Some(db.xorbs[from].(refs := 0))]
                                                  [to := Some(row.(refs := |users|))]),
        stage := Ready)
  }

  // ---------------------------------------------------------------------
  // Steps
  // ---------------------------------------------------------------------

  datatype Step =
    // Outside any transaction.
    | PutXorb(w: WriterId, x: Xorb, layout: nat)
    | MarkXorb(x: Xorb, damaged: bool)
    // Transactions begin with their first lock.
    | BeginCommit(t: TxId, w: WriterId, key: Key, h: Blob, attach: bool, plan: seq<Term>)
    | BeginCopy(t: TxId, key: Key, h: Blob)
    | BeginLink(t: TxId, key: Key, h: Blob)
    | BeginDelete(t: TxId, key: Key)
    | BeginSweepBlob(t: TxId, h: Blob)
    | BeginSweepXorb(t: TxId, x: Xorb)
    | BeginOrphanBlob(t: TxId, h: Blob)
    | BeginOrphanXorb(t: TxId, x: Xorb)
    | BeginMove(t: TxId, w: WriterId, from: Xorb, to: Xorb, index: seq<int>)
    // And go on.
    | DoLockXorb(t: TxId, x: Xorb)
    | DoCheckXorb(t: TxId)
    | DoDiscard(t: TxId)
    | DoAttach(t: TxId)
    | DoPlace(t: TxId, write: bool)
    | DoCopyCheck(t: TxId)
    | DoUpsert(t: TxId)
    | DoRelease(t: TxId)
    | DoLockDetached(t: TxId, x: Xorb)
    | DoDetach(t: TxId)
    | DoDropBlob(t: TxId)
    | DoDropXorb(t: TxId)
    | DoLockBlob(t: TxId, h: Blob)
    | DoBlobsLocked(t: TxId)
    | DoLockFrom(t: TxId)
    | DoRewrite(t: TxId)
    | Commit(t: TxId)
    | Abort(t: TxId)

  ghost predicate KeyFree(s: State, k: Key) { forall t :: t in s.txs ==> k !in s.txs[t].keys }
  ghost predicate BlobFree(s: State, h: Blob) { forall t :: t in s.txs ==> h !in s.txs[t].blobs }
  ghost predicate XorbFree(s: State, x: Xorb) { forall t :: t in s.txs ==> x !in s.txs[t].xorbs }

  /** A lock this transaction holds already, or that no other one does. */
  ghost predicate KeyAvailable(s: State, t: TxId, k: Key) {
    forall u :: u in s.txs && u != t ==> k !in s.txs[u].keys
  }
  ghost predicate BlobAvailable(s: State, t: TxId, h: Blob) {
    forall u :: u in s.txs && u != t ==> h !in s.txs[u].blobs
  }
  ghost predicate XorbAvailable(s: State, t: TxId, x: Xorb) {
    forall u :: u in s.txs && u != t ==> x !in s.txs[u].xorbs
  }

  function With(s: State, t: TxId, tx: Tx): State { s.(txs := s.txs[t := tx]) }
  function Without(s: State, t: TxId): State { s.(txs := map u | u in s.txs && u != t :: s.txs[u]) }
  function WroteBy(s: State, w: WriterId): map<Xorb, Wrote> { if w in s.wrote then s.wrote[w] else map[] }

  function At(s: State, t: TxId): Stage { if t in s.txs then s.txs[t].stage else Doomed }

  /** The serializations of a xorb that writers may make. */
  type Layouts = (Xorb, nat) -> bool

  /** Bytes written outside any transaction, and marks of damage found or repaired. */
  ghost predicate WriterStep(lay: Layouts, s: State, step: Step, s': State) {
    match step
    case PutXorb(w, x, layout) =>
      // PutOnce leaves an object already there alone, and says so.
      && lay(x, layout)
      && var existed := x in s.be.xorbs;
         s' == s.(be := if existed then s.be else s.be.(xorbs := s.be.xorbs[x := layout]),
                  wrote := s.wrote[w := WroteBy(s, w)[x := Wrote(existed, layout)]])
    case MarkXorb(x, damaged) =>
      && x in s.db.xorbs && XorbFree(s, x)
      && s' == s.(db := s.db.(xorbs := s.db.xorbs[x := s.db.xorbs[x].(damaged := damaged)]))
    case _ => false
  }

  /** A transaction begins with its first lock. */
  ghost predicate BeginStep(s: State, step: Step, s': State) {
    match step
    case BeginCommit(t, w, key, h, attach, plan) =>
      && t !in s.txs && BlobFree(s, h)
      && (attach ==> Denotes(plan, h.chunks))
      && s' == With(s, t, ClaimBlob(s.db, key, h, attach, plan, WroteBy(s, w)))
    case BeginCopy(t, key, h) =>
      t !in s.txs && BlobFree(s, h) && s' == With(s, t, ClaimStored(s.db, key, h))
    case BeginLink(t, key, h) =>
      t !in s.txs && BlobFree(s, h) && s' == With(s, t, ClaimExisting(s.db, key, h))
    case BeginDelete(t, key) =>
      t !in s.txs && KeyFree(s, key) && key in s.db.objects && s' == With(s, t, DeleteKey(s.db, key))
    case BeginSweepBlob(t, h) =>
      && t !in s.txs && BlobFree(s, h)
      && h in s.db.blobs && s.db.blobs[h].refs == 0 && Pointers(s.db, h) == {}
      && s' == With(s, t, SweepBlob(s.db, h))
    case BeginSweepXorb(t, x) =>
      && t !in s.txs && XorbFree(s, x)
      && x in s.db.xorbs && s.db.xorbs[x].refs == 0 && Users(s.db, x) == {}
      && s' == With(s, t, Tx({}, {}, {x}, NO_EDITS.(xorbs := map[x := None]), DroppingXorb(x, false)))
    case BeginOrphanBlob(t, h) =>
      // The insert waits for any uncommitted one, and conflicts with a committed row.
      && t !in s.txs && BlobFree(s, h) && h !in s.db.blobs
      && s' == With(s, t, Tx({}, {h}, {}, NO_EDITS, DroppingBlob(h, true)))
    case BeginOrphanXorb(t, x) =>
      && t !in s.txs && XorbFree(s, x) && x !in s.db.xorbs
      && s' == With(s, t, Tx({}, {}, {x}, NO_EDITS, DroppingXorb(x, true)))
    case BeginMove(t, w, from, to, index) =>
      && t !in s.txs && from != to && Relocates(from, to, index)
      && to in WroteBy(s, w)
      && s' == With(s, t, Tx({}, {}, {}, NO_EDITS, LockingBlobs(from, to, index, WroteBy(s, w))))
    case _ => false
  }

  /** Claims of xorbs, and the attachment of terms to the ones claimed. */
  ghost predicate ClaimStep(s: State, step: Step, s': State) {
    match step
    case DoLockXorb(t, x) =>
      && At(s, t).Claiming? && x in At(s, t).todo && XorbAvailable(s, t, x)
      && s' == With(s, t, LockXorb(s.db, s.txs[t], x))
    case DoCheckXorb(t) =>
      At(s, t).Checking? && s' == With(s, t, CheckXorb(s.be, s.txs[t]))
    case DoAttach(t) =>
      && At(s, t).Claiming? && At(s, t).goal.Attach? && At(s, t).todo == {}
      && s' == With(s, t, AttachTerms(s.db, s.txs[t]))
    case _ => false
  }

  /** A key is pointed at a claimed blob, and the one it pointed at released. */
  ghost predicate PointStep(s: State, step: Step, s': State) {
    match step
    case DoCopyCheck(t) =>
      && At(s, t).CopyChecking?
      && var CopyChecking(key, h) := At(s, t);
         s' == With(s, t, s.txs[t].(stage := if h in s.be.blobs then Upserting(key, h) else Doomed))
    case DoUpsert(t) =>
      && At(s, t).Upserting? && KeyAvailable(s, t, At(s, t).key)
      && s' == With(s, t, Upsert(s.db, s.txs[t]))
    case DoRelease(t) =>
      && At(s, t).Releasing? && BlobAvailable(s, t, At(s, t).prev)
      && s' == With(s, t, Release(s.db, s.txs[t]))
    case _ => false
  }

  /** A swept blob gives up its xorbs. */
  ghost predicate DetachStep(s: State, step: Step, s': State) {
    match step
    case DoLockDetached(t, x) =>
      && At(s, t).Detaching? && x in At(s, t).todo && XorbAvailable(s, t, x)
      && var Detaching(h, todo) := At(s, t);
         s' == With(s, t, s.txs[t].(xorbs := s.txs[t].xorbs + {x}, stage := Detaching(h, todo - {x})))
    case DoDetach(t) =>
      && At(s, t).Detaching? && At(s, t).todo == {} && At(s, t).blob in s.db.blobs
      && s' == With(s, t, DetachTerms(s.db, s.txs[t]))
    case _ => false
  }

  /** A compaction moves terms to the xorb it rewrote theirs into. */
  ghost predicate MoveStep(s: State, step: Step, s': State) {
    match step
    case DoLockBlob(t, h) =>
      && At(s, t).LockingBlobs? && BlobAvailable(s, t, h) && h in s.db.blobs
      && s' == With(s, t, s.txs[t].(blobs := s.txs[t].blobs + {h}))
    case DoBlobsLocked(t) =>
      && At(s, t).LockingBlobs?
      && var LockingBlobs(from, to, index, mine) := At(s, t);
         s' == With(s, t, s.txs[t].(stage := Claiming(Move(from, to, index), mine, {to})))
    case DoLockFrom(t) =>
      && At(s, t).Claiming? && At(s, t).goal.Move? && XorbAvailable(s, t, At(s, t).goal.from)
      && var from := At(s, t).goal.from;
         var locked := s.txs[t].(xorbs := s.txs[t].xorbs + {from});
         s' == With(s, t, if from in s.db.xorbs && s.db.xorbs[from].refs > 0 then locked
                          else locked.(stage := Doomed))
    case DoRewrite(t) =>
      && At(s, t).Claiming? && At(s, t).goal.Move? && At(s, t).todo == {}
      && var Move(from, to, index) := At(s, t).goal;
         && from in s.txs[t].xorbs && from in s.db.xorbs
         && See(s.db.xorbs, s.txs[t].edits.xorbs, to).Some?
         && s' == With(s, t,
              if Users(s.db, from) <= s.txs[t].blobs
                 && (forall b :: b in Users(s.db, from) ==> Movable(s.db.blobs[b].terms, from, index))
              then Rewrite(s.db, s.txs[t])
              else s.txs[t].(stage := Doomed))
    case _ => false
  }

  /** A transaction writes or deletes bytes under its locks. */
  ghost predicate ByteStep(s: State, step: Step, s': State) {
    match step
    case DoDiscard(t) =>
      && At(s, t).Discarding?
      && s' == With(s, t, s.txs[t].(stage := Doomed)).(be := s.be.(xorbs := s.be.xorbs - {At(s, t).x}))
    case DoPlace(t, write) =>
      && At(s, t).Placing? && (At(s, t).must ==> write)
      && var Placing(key, h, _) := At(s, t);
         s' == With(s, t, s.txs[t].(stage := Upserting(key, h)))
               .(be := if write then s.be.(blobs := s.be.blobs + {h}) else s.be)
    case DoDropBlob(t) =>
      && At(s, t).DroppingBlob?
      && var DroppingBlob(h, orphan) := At(s, t);
         s' == With(s, t, s.txs[t].(stage := if orphan then Doomed else Ready))
               .(be := s.be.(blobs := s.be.blobs - {h}))
    case DoDropXorb(t) =>
      && At(s, t).DroppingXorb?
      && var DroppingXorb(x, orphan) := At(s, t);
         s' == With(s, t, s.txs[t].(stage := if orphan then Doomed else Ready))
               .(be := s.be.(xorbs := s.be.xorbs - {x}))
    case _ => false
  }

  /** A transaction commits, or is given up or lost. */
  ghost predicate EndStep(s: State, step: Step, s': State) {
    match step
    case Commit(t) =>
      At(s, t).Ready? && t in s.txs && s' == Without(s, t).(db := Apply(s.db, s.txs[t].edits))
    case Abort(t) =>
      t in s.txs && s' == Without(s, t)
    case _ => false
  }

  /** One step of the system. */
  ghost predicate StepTo(lay: Layouts, s: State, step: Step, s': State) {
    || WriterStep(lay, s, step, s') || BeginStep(s, step, s') || ClaimStep(s, step, s') || PointStep(s, step, s')
    || DetachStep(s, step, s') || MoveStep(s, step, s') || ByteStep(s, step, s') || EndStep(s, step, s')
  }

  /** The state chunking was introduced in: every blob one file, counted right. */
  ghost predicate Init(s: State) {
    && s.txs == map[] && s.wrote == map[] && s.db.xorbs == map[] && s.be.xorbs == map[]
    && (forall k :: k in s.db.objects ==> s.db.objects[k] in s.db.blobs)
    && (forall h :: h in s.db.blobs ==>
          && !s.db.blobs[h].chunked && s.db.blobs[h].terms == []
          && s.db.blobs[h].refs == |Pointers(s.db, h)|
          && (s.db.blobs[h].refs > 0 ==> h in s.be.blobs))
  }

  /** A run from an initial state by the given steps. */
  ghost predicate Run(lay: Layouts, states: seq<State>, steps: seq<Step>) {
    && |states| == |steps| + 1
    && Init(states[0])
    && forall i :: 0 <= i < |steps| ==> StepTo(lay, states[i], steps[i], states[i + 1])
  }
}
