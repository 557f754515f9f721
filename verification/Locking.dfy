/** The transactions statement by statement (internal/store/store.go, Delete, DeleteSubject,
    rewriteIndex, PutMany), at READ COMMITTED. A statement sees what is committed and what its own
    transaction wrote; an UPDATE or a FOR UPDATE waits for the row lock, looks at the row again
    and keeps the lock to the end. A transaction buffers its writes and they land at COMMIT.
    Every committed state is one of the step machine of Vault: a transaction is worth one
    atomic step at its commit. */
module Locking {
  import opened Strings
  import opened Identity
  import opened Envelope
  import opened Tables
  import opened Vault
  import opened Guarantees
  import opened Erasure
  import opened Requests

  /** Delete and DeleteSubject. The UPDATE found candidates and takes them one by one (todo); got are
      the rows it locked and changed, rows what it made of them; then index rows are
      dropped and entries written for got, one after the other. */
  datatype ErasingTx = ErasingTx(actor: string, candidates: set<Ref>, todo: set<Ref>, got: seq<Ref>,
      rows: map<string, Row>,
                                 done: nat, dropped: set<IndexRow>, log: seq<AuditEntry>)

  /** rewriteIndex, from its FOR UPDATE of a live row on. */
  datatype RewritingTx = RewritingTx(p: nat, actor: string, key: Bytes, ref: Ref, values: map<string, string>,
                                     cleared: bool, dropped: set<IndexRow>, left: set<string>, added: set<IndexRow>)

  datatype PuttingTx = PuttingTx(p: nat, actor: string, keyId: string, key: Bytes, collection: string,
                                 items: seq<NewItem>, rows: map<string, Row>, added: set<IndexRow>,
                                     log: seq<AuditEntry>)

  datatype Tx = Erasing(e: ErasingTx) | Rewriting(r: RewritingTx) | Putting(u: PuttingTx)

  /** The committed world, and the open transactions with their buffers. */
  datatype Site = Site(w: World, txs: map<nat, Tx>)

  datatype Step =
    | BeginDelete(i: nat, actor: string, ref: Ref)
    | BeginDeleteSubject(i: nat, actor: string, subject: string)
    | UpdateRow(i: nat, ref: Ref)
    | DropAndLog(i: nat)
    | CommitErase(i: nat)
    | ForUpdate(i: nat, p: nat, actor: string)
    | ClearIndexRows(i: nat)
    | InsertIndexRow(i: nat, field: string)
    | CommitRewrite(i: nat)
    | BeginPut(i: nat, p: nat, actor: string, collection: string)
    | InsertItem(i: nat, item: NewItem)
    | CommitPut(i: nat)
    | Abort(i: nat)
    | Alone(a: Action)

  /** The rows a transaction has locked. */
  function Locks(tx: Tx): set<string>
  {
    match tx
    case Erasing(e) => e.rows.Keys
    case Rewriting(r) => {r.ref.id}
    case Putting(_) => {}
  }

  /** Nobody else holds the lock of row id. */
  ghost predicate Free(site: Site, i: nat, id: string)
  {
    forall j :: j in site.txs && j != i ==> id !in Locks(site.txs[j])
  }

  ghost predicate Unlocked(site: Site, id: string)
  {
    forall j :: j in site.txs ==> id !in Locks(site.txs[j])
  }

  /** The index rows that a delete by object finds. */
  function OwnRows(index: set<IndexRow>, r: Ref): set<IndexRow>
  {
    set x | x in index && x.collection == r.collection && x.objectId == r.id
  }

  // ---- the statements ----

  ghost function DoUpdateRow(site: Site, i: nat, ref: Ref): Site
  {
    if i !in site.txs || !site.txs[i].Erasing? || ref !in site.txs[i].e.todo || !Free(site, i, ref.id) then site else
      var e := site.txs[i].e;
      if !LiveRef(site.w.s.t, ref) then site.(txs := site.txs[i := Erasing(e.(todo := e.todo - {ref}))])
      else site.(txs := site.txs[i := Erasing(e.(todo := e.todo - {ref}, got := e.got + [ref],
                                                 rows := e.rows[ref.id := Shredded(site.w.s.t.objects[ref.id])]))])
  }

  function DoDropAndLog(site: Site, i: nat): Site
  {
    if i !in site.txs || !site.txs[i].Erasing? || site.txs[i].e.todo != {}
        || site.txs[i].e.done >= |site.txs[i].e.got| then site else
      var e := site.txs[i].e;
      var r := e.got[e.done];
      site.(txs := site.txs[i := Erasing(e.(done := e.done + 1, dropped := e.dropped + OwnRows(site.w.s.t.index, r),
          log := e.log + [DeleteEntry(e.actor, r)]))])
  }

  function ErasedState(s: State, e: ErasingTx): State
  {
    s.(t := Tables(s.t.objects + e.rows, s.t.index - e.dropped, s.t.keys, s.t.audit + e.log))
  }

  predicate MayErase(site: Site, i: nat)
  {
    i in site.txs && site.txs[i].Erasing? && site.txs[i].e.todo == {} && site.txs[i].e.done == |site.txs[i].e.got|
  }

  function DoCommitErase(site: Site, i: nat): Site
  {
    if !MayErase(site, i) then site else
      Site(Commit(site.w, ErasedState(site.w.s, site.txs[i].e)), site.txs - {i})
  }

  /** The process of a reindex waits with this rewrite. */
  predicate Waits(w: World, p: nat, ref: Ref, values: map<string, string>)
  {
    Ready(w, p) && w.procs[p].job.Reindexing? && w.procs[p].job.rewrite == Some(Rewrite(ref, values))
  }

  /** The locking read of rewriteIndex: a shredded row ends it, a live one stays locked. */
  ghost function DoForUpdate(site: Site, i: nat, p: nat, actor: string): Site
  {
    if i in site.txs || !Ready(site.w, p) || !site.w.procs[p].job.Reindexing?
        || site.w.procs[p].job.rewrite.None? then site else
      var r := site.w.procs[p].job.rewrite.value;
      if !Unlocked(site, r.ref.id) then site
      else if !Live(site.w.s.t, r.ref.id) then site.(w := DoReindexWrite(site.w, p, actor))
      else site.(txs := site.txs[i := Rewriting(RewritingTx(p, actor, site.w.procs[p].index.value, r.ref, r.values,
          false, {}, r.values.Keys, {}))])
  }

  function DoClear(site: Site, i: nat): Site
  {
    if i !in site.txs || !site.txs[i].Rewriting? || site.txs[i].r.cleared then site else
      var r := site.txs[i].r;
      site.(txs := site.txs[i := Rewriting(r.(cleared := true, dropped := OwnRows(site.w.s.t.index, r.ref)))])
  }

  function DoInsertRow(site: Site, i: nat, field: string): Site
  {
    if i !in site.txs || !site.txs[i].Rewriting? || !site.txs[i].r.cleared || field !in site.txs[i].r.left
        || field !in site.txs[i].r.values then site else
      var r := site.txs[i].r;
      site.(txs := site.txs[i := Rewriting(r.(left := r.left - {field},
                                              added := r.added + {IndexRowOf(r.key, r.ref.collection, r.ref.id, field,
                                                  r.values[field])}))])
  }

  function RewrittenState(s: State, r: RewritingTx): State
  {
    State(s.t.(index := s.t.index - r.dropped + r.added,
        audit := s.t.audit + [AuditEntry(r.actor, Reindex, r.ref.collection, r.ref.id, "")]),
          s.h.(values := s.h.values[r.ref.id := r.values]))
  }

  function RewrittenWorld(w: World, r: RewritingTx): World
    requires Waits(w, r.p, r.ref, r.values)
  {
    var job := w.procs[r.p].job;
    WithJob(Commit(w, RewrittenState(w.s, r)), r.p, Reindexing(job.filter, job.cursor, job.page, None))
  }

  predicate MayRewrite(w: World, r: RewritingTx)
  {
    r.cleared && r.left == {} && Waits(w, r.p, r.ref, r.values) && w.procs[r.p].index.value == r.key
  }

  function DoCommitRewrite(site: Site, i: nat): Site
  {
    if i !in site.txs || !site.txs[i].Rewriting? || !site.txs[i].r.cleared || site.txs[i].r.left != {} then site
    else if !MayRewrite(site.w, site.txs[i].r) then site.(txs := site.txs - {i})
    else Site(RewrittenWorld(site.w, site.txs[i].r), site.txs - {i})
  }

  function DoInsertItem(site: Site, i: nat, n: NewItem): Site
  {
    if i !in site.txs || !site.txs[i].Putting? then site else
      var u := site.txs[i].u;
      var row := Row(u.collection, SealedItem(u.keyId, u.collection, n), NullIf(n.subject), false);
      site.(txs := site.txs[i := Putting(u.(items := u.items + [n], rows := u.rows[n.id := row],
                                            added := u.added + IndexRows(u.key, u.collection, n.id, n.indexed),
                                            log := u.log + [AuditEntry(u.actor, Create, u.collection, n.id, "")]))])
  }

  function PutState(s: State, u: PuttingTx): State
  {
    State(Tables(s.t.objects + u.rows, s.t.index + u.added, s.t.keys, s.t.audit + u.log),
          InsertAll(s, u.keyId, u.key, u.actor, u.collection, u.items).h)
  }

  /** The process of a put still runs as it began, and what it drew is fresh. */
  predicate MayCommit(w: World, u: PuttingTx)
  {
    MayPut(w, u.p, u.items) && w.procs[u.p].env.current.id == u.keyId && w.procs[u.p].index.value == u.key
  }

  function DoCommitPut(site: Site, i: nat): Site
  {
    if i !in site.txs || !site.txs[i].Putting? then site
    else if !MayCommit(site.w, site.txs[i].u) then site.(txs := site.txs - {i})
    else Site(Commit(site.w, PutState(site.w.s, site.txs[i].u)), site.txs - {i})
  }

  /** A step outside these transactions; the UPDATE of a rotation waits for the row lock. */
  ghost predicate MayStep(site: Site, a: Action)
  {
    !a.Put? && !a.Erase? && !a.ReindexWrite? && forall id :: id in Updates(site.w, a) ==> Unlocked(site, id)
  }

  /** The object whose row the step updates. An UPDATE that matches no row waits for none. */
  function Updates(w: World, a: Action): set<string>
  {
    if !a.RotateWrite? || !Ready(w, a.p) || !w.procs[a.p].job.Rotating? || w.procs[a.p].job.held.None? then {}
    else if !GuardHolds(w.s.t, w.procs[a.p].job.held.value) then {}
    else
      match w.procs[a.p].job.held.value.target
      case KeyTarget => {}
      case ObjectTarget(r) => {r.id}
  }

  function NewErasing(actor: string, candidates: set<Ref>): Tx
  {
    Erasing(ErasingTx(actor, candidates, candidates, [], map[], 0, {}, []))
  }

  ghost function Take(site: Site, step: Step): Site
  {
    match step
    case BeginDelete(i, actor, ref) =>
      if i in site.txs then site
          else site.(txs := site.txs[i := NewErasing(actor, if LiveRef(site.w.s.t, ref) then {ref} else {})])
    case BeginDeleteSubject(i, actor, subject) =>
      if i in site.txs then site else site.(txs := site.txs[i := NewErasing(actor, SubjectRefs(site.w.s.t, subject))])
    case UpdateRow(i, ref) => DoUpdateRow(site, i, ref)
    case DropAndLog(i) => DoDropAndLog(site, i)
    case CommitErase(i) => DoCommitErase(site, i)
    case ForUpdate(i, p, actor) => DoForUpdate(site, i, p, actor)
    case ClearIndexRows(i) => DoClear(site, i)
    case InsertIndexRow(i, field) => DoInsertRow(site, i, field)
    case CommitRewrite(i) => DoCommitRewrite(site, i)
    case BeginPut(i, p, actor, collection) =>
      if i in site.txs || !Ready(site.w, p) then site
      else site.(txs := site.txs[i := Putting(PuttingTx(p, actor, site.w.procs[p].env.current.id,
          site.w.procs[p].index.value, collection, [], map[], {}, []))])
    case InsertItem(i, item) => DoInsertItem(site, i, item)
    case CommitPut(i) => DoCommitPut(site, i)
    case Abort(i) => site.(txs := site.txs - {i})
    case Alone(a) => if MayStep(site, a) then site.(w := Apply(site.w, a)) else site
  }

  /** The atomic step that a statement completes, if any. */
  ghost function Completes(site: Site, step: Step): seq<Action>
  {
    match step
    case CommitErase(i) => if MayErase(site, i) then [Erase(site.txs[i].e.actor, site.txs[i].e.got)] else []
    case ForUpdate(i, p, actor) => if DoForUpdate(site, i, p, actor).w == site.w then [] else [ReindexWrite(p, actor)]
    case CommitRewrite(i) =>
      if Rewrites(site, i) then [ReindexWrite(site.txs[i].r.p, site.txs[i].r.actor)] else []
    case CommitPut(i) =>
      if i in site.txs && site.txs[i].Putting? && MayCommit(site.w, site.txs[i].u)
      then [Put(site.txs[i].u.p, site.txs[i].u.actor, site.txs[i].u.collection, site.txs[i].u.items)] else []
    case Alone(a) => if MayStep(site, a) then [a] else []
    case _ => []
  }

  // ---- what locks are good for ----

  /** A candidate of an erasure is still to be tried, was taken, or was shredded by somebody else. */
  ghost predicate Settles(t: Tables, e: ErasingTx)
  {
    forall r :: r in e.candidates ==> r in e.todo || r in e.got || (r.id in t.objects && t.objects[r.id].deleted)
  }

  /** The first n of got. */
  function Firsts(got: seq<Ref>, n: nat): set<Ref>
    requires n <= |got|
  {
    set k | 0 <= k < n :: got[k]
  }

  ghost predicate ErasingGood(t: Tables, e: ErasingTx)
  {
    && e.done <= |e.got| && (e.done > 0 ==> e.todo == {})
    && (forall i, j :: 0 <= i < j < |e.got| ==> e.got[i] != e.got[j])
    && e.todo <= e.candidates && (forall k :: 0 <= k < |e.got| ==> e.got[k] in e.candidates)
    && (forall r :: r in e.todo ==> r !in e.got && r.id in t.objects && t.objects[r.id].collection == r.collection)
    && (forall k :: 0 <= k < |e.got| ==>
      LiveRef(t, e.got[k]) && e.got[k].id in e.rows && e.rows[e.got[k].id] == Shredded(t.objects[e.got[k].id]))
    && (forall id :: id in e.rows ==> id in t.objects && Ref(t.objects[id].collection, id) in e.got)
    && e.dropped == ErasedBy(t.index, Firsts(e.got, e.done))
    && e.log == DeleteEntries(e.actor, e.got[..e.done])
    && Settles(t, e)
  }

  /** The index rows of these objects. */
  function ErasedBy(index: set<IndexRow>, refs: set<Ref>): set<IndexRow>
  {
    set x | x in index && Ref(x.collection, x.objectId) in refs
  }

  ghost predicate RewritingGood(t: Tables, r: RewritingTx)
  {
    && LiveRef(t, r.ref) && r.left <= r.values.Keys
    && (r.cleared ==> r.dropped == OwnRows(t.index, r.ref)) && (!r.cleared ==> r.left == r.values.Keys)
    && (forall x :: x in r.added <==> x in IndexRows(r.key, r.ref.collection, r.ref.id, r.values) && x.field !in r.left)
  }

  function PutRows(keyId: string, collection: string, items: seq<NewItem>): map<string, Row>
  {
    if items == [] then map[] else
      var n := items[|items| - 1];
      PutRows(keyId, collection, items[..|items| - 1])[n.id := Row(collection, SealedItem(keyId, collection, n),
          NullIf(n.subject), false)]
  }

  function PutIndex(key: Bytes, collection: string, items: seq<NewItem>): set<IndexRow>
  {
    if items == [] then {} else
      var n := items[|items| - 1];
      PutIndex(key, collection, items[..|items| - 1]) + IndexRows(key, collection, n.id, n.indexed)
  }

  predicate PuttingGood(u: PuttingTx)
  {
    && u.rows == PutRows(u.keyId, u.collection, u.items) && u.added == PutIndex(u.key, u.collection, u.items)
    && u.log == CreateEntries(u.actor, u.collection, u.items)
  }

  ghost predicate TxGood(t: Tables, tx: Tx)
  {
    match tx
    case Erasing(e) => ErasingGood(t, e)
    case Rewriting(r) => RewritingGood(t, r)
    case Putting(u) => PuttingGood(u)
  }

  /** Buffers agree with the committed tables, and no row is locked twice. */
  ghost predicate SiteGood(site: Site)
  {
    && (forall i :: i in site.txs ==> TxGood(site.w.s.t, site.txs[i]))
    && (forall i, j :: i in site.txs && j in site.txs && i != j ==> Locks(site.txs[i]) !! Locks(site.txs[j]))
  }

  /** From t to t' nothing happened to these rows and their index rows. */
  ghost predicate Untouched(t: Tables, t': Tables, ids: set<string>)
  {
    && (forall id :: id in ids && id in t.objects ==> id in t'.objects && t'.objects[id] == t.objects[id])
    && (forall x: IndexRow :: x.objectId in ids ==> (x in t'.index <==> x in t.index))
  }

  // ---- a commit is worth one atomic step ----

  lemma CommitErases(s: State, e: ErasingTx)
    requires ErasingGood(s.t, e) && e.done == |e.got|
    ensures ErasedState(s, e) == ShredAll(s, e.actor, e.got)
  {
    assert forall r :: r in RefSet(e.got) ==> LiveRef(s.t, r);
    ShredAllIs(s, e.actor, e.got, RefSet(e.got));
    RowsAreErased(s.t, e);
    IndexIsErased(s.t, e);
    assert e.got[..|e.got|] == e.got;
  }

  lemma IndexIsErased(t: Tables, e: ErasingTx)
    requires ErasingGood(t, e) && e.done == |e.got|
    ensures t.index - e.dropped == ErasedIndex(t.index, RefSet(e.got))
  {
  }

  lemma RowsAreErased(t: Tables, e: ErasingTx)
    requires ErasingGood(t, e)
    ensures t.objects + e.rows == ErasedObjects(t.objects, RefSet(e.got))
  {
  }

  lemma CommitRewrites(s: State, r: RewritingTx)
    requires RewritingGood(s.t, r) && r.cleared && r.left == {}
    ensures RewrittenState(s, r) == RewriteIndex(s, r.key, r.actor, r.ref, r.values)
  {
  }

  lemma InsertOnto(s: State, mid: State, rows: map<string, Row>, added: set<IndexRow>, log: seq<AuditEntry>,
                   keyId: string, key: Bytes, actor: string, collection: string, n: NewItem)
    requires mid.t == Tables(s.t.objects + rows, s.t.index + added, s.t.keys, s.t.audit + log)
    ensures Insert(mid, keyId, key, actor, collection, n).t ==
      Tables(s.t.objects + rows[n.id := Row(collection, SealedItem(keyId, collection, n), NullIf(n.subject), false)],
             s.t.index + (added + IndexRows(key, collection, n.id, n.indexed)), s.t.keys,
             s.t.audit + (log + [AuditEntry(actor, Create, collection, n.id, "")]))
  {
    var row := Row(collection, SealedItem(keyId, collection, n), NullIf(n.subject), false);
    assert (s.t.objects + rows)[n.id := row] == s.t.objects + rows[n.id := row];
  }

  /** What a put buffers, item by item, is what the items insert. */
  lemma {:induction false} InsertAllIs(s: State, keyId: string, key: Bytes, actor: string, collection: string,
      items: seq<NewItem>)
    ensures InsertAll(s, keyId, key, actor, collection, items).t ==
      Tables(s.t.objects + PutRows(keyId, collection, items), s.t.index + PutIndex(key, collection, items), s.t.keys,
          s.t.audit + CreateEntries(actor, collection, items))
  {
    if items == [] {
      assert s.t.objects + map[] == s.t.objects && s.t.index + {} == s.t.index;
      assert s.t.audit + CreateEntries(actor, collection, items) == s.t.audit;
    } else {
      var before, n := items[..|items| - 1], items[|items| - 1];
      InsertAllIs(s, keyId, key, actor, collection, before);
      InsertOnto(s, InsertAll(s, keyId, key, actor, collection, before), PutRows(keyId, collection, before),
          PutIndex(key, collection, before),
                 CreateEntries(actor, collection, before), keyId, key, actor, collection, n);
      assert CreateEntries(actor, collection, items) == CreateEntries(actor, collection,
          before) + [AuditEntry(actor, Create, collection, n.id, "")];
    }
  }

  lemma CommitPuts(s: State, u: PuttingTx)
    requires PuttingGood(u)
    ensures PutState(s, u) == InsertAll(s, u.keyId, u.key, u.actor, u.collection, u.items)
  {
    InsertAllIs(s, u.keyId, u.key, u.actor, u.collection, u.items);
  }

  lemma CommitEraseIsAtomic(site: Site, i: nat)
    requires SiteGood(site)
    ensures DoCommitErase(site, i).w == Run(site.w, Completes(site, CommitErase(i)))
  {
    if MayErase(site, i) {
      var e := site.txs[i].e;
      assert TxGood(site.w.s.t, site.txs[i]);
      CommitErases(site.w.s, e);
      RunOne(site.w, Erase(e.actor, e.got));
      assert Completes(site, CommitErase(i)) == [Erase(e.actor, e.got)];
    }
  }

  lemma ForUpdateIsAtomic(site: Site, i: nat, p: nat, actor: string)
    ensures DoForUpdate(site, i, p, actor).w == Run(site.w, Completes(site, ForUpdate(i, p, actor)))
  {
    RunOne(site.w, ReindexWrite(p, actor));
  }

  lemma RewrittenWorldIs(w: World, r: RewritingTx)
    requires RewritingGood(w.s.t, r) && MayRewrite(w, r)
    ensures RewrittenWorld(w, r) == DoReindexWrite(w, r.p, r.actor)
  {
    CommitRewrites(w.s, r);
  }

  lemma RewrittenWorldIsRun(w: World, r: RewritingTx)
    requires RewritingGood(w.s.t, r) && MayRewrite(w, r)
    ensures RewrittenWorld(w, r) == Run(w, [ReindexWrite(r.p, r.actor)])
  {
    RewrittenWorldIs(w, r);
    RunOne(w, ReindexWrite(r.p, r.actor));
  }

  predicate Rewrites(site: Site, i: nat) { i in site.txs && site.txs[i].Rewriting?
      && MayRewrite(site.w, site.txs[i].r) }

  lemma CommitRewriteIs(site: Site, i: nat)
    ensures Rewrites(site, i) ==> DoCommitRewrite(site, i).w == RewrittenWorld(site.w, site.txs[i].r)
    ensures !Rewrites(site, i) ==> DoCommitRewrite(site, i).w == site.w
  {
  }

  lemma CommitRewriteIsAtomic(site: Site, i: nat)
    requires SiteGood(site)
    ensures DoCommitRewrite(site, i).w == Run(site.w, Completes(site, CommitRewrite(i)))
  {
    CommitRewriteIs(site, i);
    if Rewrites(site, i) {
      assert TxGood(site.w.s.t, site.txs[i]);
      RewrittenWorldIsRun(site.w, site.txs[i].r);
    }
  }

  lemma PutWorldIs(w: World, u: PuttingTx)
    requires PuttingGood(u) && MayCommit(w, u)
    ensures Commit(w, PutState(w.s, u)) == DoPut(w, u.p, u.actor, u.collection, u.items)
  {
    CommitPuts(w.s, u);
  }

  lemma CommitPutIsAtomic(site: Site, i: nat)
    requires SiteGood(site)
    ensures DoCommitPut(site, i).w == Run(site.w, Completes(site, CommitPut(i)))
  {
    if i in site.txs && site.txs[i].Putting? && MayCommit(site.w, site.txs[i].u) {
      var u := site.txs[i].u;
      assert TxGood(site.w.s.t, site.txs[i]);
      PutWorldIs(site.w, u);
      RunOne(site.w, Put(u.p, u.actor, u.collection, u.items));
      assert Completes(site, CommitPut(i)) == [Put(u.p, u.actor, u.collection, u.items)];
    }
  }

  /** Every statement leaves the committed world alone, or completes one atomic step. */
  lemma StatementIsAtomic(site: Site, step: Step)
    requires SiteGood(site)
    ensures Take(site, step).w == Run(site.w, Completes(site, step))
  {
    match step {
      case CommitErase(i) => CommitEraseIsAtomic(site, i);
      case ForUpdate(i, p, actor) => ForUpdateIsAtomic(site, i, p, actor);
      case CommitRewrite(i) => CommitRewriteIsAtomic(site, i);
      case CommitPut(i) => CommitPutIsAtomic(site, i);
      case Alone(a) => RunOne(site.w, a);
      case _ =>
    }
  }

  // ---- buffers stay in agreement ----

  lemma ErasingStays(t: Tables, t': Tables, e: ErasingTx)
    requires ErasingGood(t, e) && Untouched(t, t', e.rows.Keys) && Kept(t, t')
    ensures ErasingGood(t', e)
  {
    forall k | 0 <= k < |e.got|
      ensures LiveRef(t', e.got[k]) && e.got[k].id in e.rows && e.rows[e.got[k].id] == Shredded(t'.objects[e.got[k].id])
    {
      assert LiveRef(t, e.got[k]) && e.got[k].id in e.rows;
    }
    forall x ensures x in ErasedBy(t'.index, Firsts(e.got, e.done)) <==> x in e.dropped {
      if Ref(x.collection, x.objectId) in Firsts(e.got, e.done) {
        var k :| 0 <= k < e.done && e.got[k] == Ref(x.collection, x.objectId);
        assert x.objectId in e.rows;
      }
    }
    forall r | r in e.candidates && r !in e.todo && r !in e.got ensures r.id in t'.objects && t'.objects[r.id].deleted {
      assert RowKept(t.objects[r.id], t'.objects[r.id]);
    }
  }

  lemma RewritingStays(t: Tables, t': Tables, r: RewritingTx)
    requires RewritingGood(t, r) && Untouched(t, t', {r.ref.id})
    ensures RewritingGood(t', r)
  {
  }

  /** A transaction's view of its locked rows stays true while it holds the locks. */
  lemma TxStays(t: Tables, t': Tables, tx: Tx)
    requires TxGood(t, tx) && Untouched(t, t', Locks(tx)) && Kept(t, t')
    ensures TxGood(t', tx)
  {
    match tx {
      case Erasing(e) => ErasingStays(t, t', e);
      case Rewriting(r) => RewritingStays(t, t', r);
      case Putting(_) =>
    }
  }

  /** The committed tables change, but nothing that an open transaction has locked. */
  lemma SiteStays(site: Site, w': World, txs': map<nat, Tx>)
    requires SiteGood(site) && Kept(site.w.s.t, w'.s.t) && txs'.Keys <= site.txs.Keys
    requires forall j :: j in txs' ==> txs'[j] == site.txs[j] && Untouched(site.w.s.t, w'.s.t, Locks(site.txs[j]))
    ensures SiteGood(Site(w', txs'))
  {
    forall j | j in txs' ensures TxGood(w'.s.t, txs'[j]) { TxStays(site.w.s.t, w'.s.t, site.txs[j]); }
  }

  /** One transaction moves on, with no lock that another one has. */
  lemma TxMoves(site: Site, i: nat, tx: Tx)
    requires SiteGood(site) && TxGood(site.w.s.t, tx) && forall id :: id in Locks(tx) ==> Free(site, i, id)
    ensures SiteGood(site.(txs := site.txs[i := tx]))
  {
  }

  lemma OwnLocksAreFree(site: Site, i: nat)
    requires SiteGood(site) && i in site.txs
    ensures forall id :: id in Locks(site.txs[i]) ==> Free(site, i, id)
  {
  }

  lemma UpdateRowStays(site: Site, i: nat, ref: Ref)
    requires SiteGood(site)
    ensures SiteGood(DoUpdateRow(site, i, ref))
  {
    if DoUpdateRow(site, i, ref) != site {
      var e := site.txs[i].e;
      assert TxGood(site.w.s.t, site.txs[i]);
      OwnLocksAreFree(site, i);
      var tx := DoUpdateRow(site, i, ref).txs[i];
      if LiveRef(site.w.s.t, ref) { TookRow(site.w.s.t, e, ref); } else { PassedRow(site.w.s.t, e, ref); }
      TxMoves(site, i, tx);
    }
  }

  lemma TookRow(t: Tables, e: ErasingTx, ref: Ref)
    requires ErasingGood(t, e) && ref in e.todo && LiveRef(t, ref)
    ensures ErasingGood(t, e.(todo := e.todo - {ref}, got := e.got + [ref],
        rows := e.rows[ref.id := Shredded(t.objects[ref.id])]))
  {
    var e' := e.(todo := e.todo - {ref}, got := e.got + [ref], rows := e.rows[ref.id := Shredded(t.objects[ref.id])]);
    assert e'.got[..0] == e.got[..0];
    forall k | 0 <= k < |e'.got|
      ensures LiveRef(t, e'.got[k]) && e'.got[k].id in e'.rows
          && e'.rows[e'.got[k].id] == Shredded(t.objects[e'.got[k].id])
    {
      if k < |e.got| { assert e'.got[k] == e.got[k] && LiveRef(t, e.got[k]); }
    }
  }

  lemma PassedRow(t: Tables, e: ErasingTx, ref: Ref)
    requires ErasingGood(t, e) && ref in e.todo && !LiveRef(t, ref)
    ensures ErasingGood(t, e.(todo := e.todo - {ref}))
  {
  }

  lemma DropStays(site: Site, i: nat)
    requires SiteGood(site)
    ensures SiteGood(DoDropAndLog(site, i))
  {
    if DoDropAndLog(site, i) != site {
      assert TxGood(site.w.s.t, site.txs[i]);
      OwnLocksAreFree(site, i);
      Dropped(site.w.s.t, site.txs[i].e);
      TxMoves(site, i, DoDropAndLog(site, i).txs[i]);
    }
  }

  lemma Dropped(t: Tables, e: ErasingTx)
    requires ErasingGood(t, e) && e.done < |e.got| && e.todo == {}
    ensures ErasingGood(t, e.(done := e.done + 1, dropped := e.dropped + OwnRows(t.index, e.got[e.done]),
        log := e.log + [DeleteEntry(e.actor, e.got[e.done])]))
  {
  }

  ghost predicate CopiesGood(w: World) { Sound(w.s.h, w.s.t) && ProcsSound(w.s.h, w.procs) }

  lemma RewriteIsOfItsRow(w: World, p: nat)
    requires CopiesGood(w) && Ready(w, p) && w.procs[p].job.Reindexing? && w.procs[p].job.rewrite.Some?
    ensures var r := w.procs[p].job.rewrite.value; Live(w.s.t, r.ref.id) ==> LiveRef(w.s.t, r.ref)
  {
  }

  lemma RewriteOfShreddedIsNothing(w: World, p: nat, actor: string)
    requires Ready(w, p) && w.procs[p].job.Reindexing? && w.procs[p].job.rewrite.Some?
        && !Live(w.s.t, w.procs[p].job.rewrite.value.ref.id)
    ensures DoReindexWrite(w, p, actor).s == w.s
  {
  }

  lemma ForUpdateStays(site: Site, i: nat, p: nat, actor: string)
    requires SiteGood(site) && CopiesGood(site.w)
    ensures SiteGood(DoForUpdate(site, i, p, actor))
  {
    if i !in site.txs && Ready(site.w, p) && site.w.procs[p].job.Reindexing? && site.w.procs[p].job.rewrite.Some? {
      var r := site.w.procs[p].job.rewrite.value;
      RewriteIsOfItsRow(site.w, p);
      if Unlocked(site, r.ref.id) {
        if Live(site.w.s.t, r.ref.id) {
          LockedForUpdate(site, i, RewritingTx(p, actor, site.w.procs[p].index.value, r.ref, r.values, false, {},
              r.values.Keys, {}));
        } else {
          RewriteOfShreddedIsNothing(site.w, p, actor);
          SiteStays(site, DoReindexWrite(site.w, p, actor), site.txs);
        }
      }
    }
  }

  lemma LockedForUpdate(site: Site, i: nat, r: RewritingTx)
    requires SiteGood(site) && i !in site.txs && Unlocked(site, r.ref.id) && RewritingGood(site.w.s.t, r)
    ensures SiteGood(site.(txs := site.txs[i := Rewriting(r)]))
  {
    TxMoves(site, i, Rewriting(r));
  }

  lemma ClearStays(site: Site, i: nat)
    requires SiteGood(site)
    ensures SiteGood(DoClear(site, i))
  {
  }

  lemma InsertRowStays(site: Site, i: nat, field: string)
    requires SiteGood(site)
    ensures SiteGood(DoInsertRow(site, i, field))
  {
    if DoInsertRow(site, i, field) != site {
      assert TxGood(site.w.s.t, site.txs[i]);
      OwnLocksAreFree(site, i);
      TxMoves(site, i, DoInsertRow(site, i, field).txs[i]);
    }
  }

  lemma InsertItemStays(site: Site, i: nat, n: NewItem)
    requires SiteGood(site)
    ensures SiteGood(DoInsertItem(site, i, n))
  {
    if i in site.txs && site.txs[i].Putting? {
      var u := site.txs[i].u;
      assert TxGood(site.w.s.t, site.txs[i]);
      ItemBuffered(u, n);
      TxMoves(site, i, DoInsertItem(site, i, n).txs[i]);
    }
  }

  lemma ItemBuffered(u: PuttingTx, n: NewItem)
    requires PuttingGood(u)
    ensures PuttingGood(u.(items := u.items + [n],
        rows := u.rows[n.id := Row(u.collection, SealedItem(u.keyId, u.collection, n), NullIf(n.subject), false)],
                           added := u.added + IndexRows(u.key, u.collection, n.id, n.indexed),
                           log := u.log + [AuditEntry(u.actor, Create, u.collection, n.id, "")]))
  {
  }

  // ---- commits and other steps touch no row that another transaction has locked ----

  lemma EraseTouchesItsRows(s: State, e: ErasingTx, ids: set<string>)
    requires ErasingGood(s.t, e) && ids !! e.rows.Keys
    ensures Untouched(s.t, ErasedState(s, e).t, ids)
  {
  }

  lemma CommitEraseStays(site: Site, i: nat)
    requires SiteGood(site) && Follows(site.w, DoCommitErase(site, i).w)
    ensures SiteGood(DoCommitErase(site, i))
  {
    if DoCommitErase(site, i) != site {
      assert TxGood(site.w.s.t, site.txs[i]);
      forall j | j in site.txs && j != i
          ensures Untouched(site.w.s.t, ErasedState(site.w.s, site.txs[i].e).t, Locks(site.txs[j])) {
        EraseTouchesItsRows(site.w.s, site.txs[i].e, Locks(site.txs[j]));
      }
      SiteStays(site, DoCommitErase(site, i).w, site.txs - {i});
    }
  }

  lemma RewriteTouchesItsRow(s: State, r: RewritingTx, ids: set<string>)
    requires RewritingGood(s.t, r) && r.cleared && r.ref.id !in ids
    ensures Untouched(s.t, RewrittenState(s, r).t, ids)
  {
  }

  lemma CommitRewriteStays(site: Site, i: nat)
    requires SiteGood(site) && Follows(site.w, DoCommitRewrite(site, i).w)
    ensures SiteGood(DoCommitRewrite(site, i))
  {
    if DoCommitRewrite(site, i) != site {
      var site' := DoCommitRewrite(site, i);
      assert TxGood(site.w.s.t, site.txs[i]);
      forall j | j in site.txs && j != i ensures Untouched(site.w.s.t, site'.w.s.t, Locks(site.txs[j])) {
        assert site.txs[i].r.ref.id in Locks(site.txs[i]);
        RewriteTouchesItsRow(site.w.s, site.txs[i].r, Locks(site.txs[j]));
      }
      SiteStays(site, site'.w, site.txs - {i});
    }
  }

  lemma {:induction false} PutRowsAreNew(keyId: string, key: Bytes, collection: string, items: seq<NewItem>, id: string)
    requires forall k :: 0 <= k < |items| ==> items[k].id != id
    ensures id !in PutRows(keyId, collection, items) && forall x :: x in PutIndex(key, collection, items) ==>
      x.objectId != id
  {
    if items != [] { PutRowsAreNew(keyId, key, collection, items[..|items| - 1], id); }
  }

  lemma LockedRowsExist(t: Tables, tx: Tx, id: string)
    requires TxGood(t, tx) && id in Locks(tx)
    ensures id in t.objects
  {
  }

  lemma PutTouchesNewRows(s: State, u: PuttingTx, ids: set<string>)
    requires PuttingGood(u) && AllFresh(s, u.items) && ids <= s.t.objects.Keys
    ensures Untouched(s.t, PutState(s, u).t, ids)
  {
    forall id | id in ids ensures id !in u.rows && forall x :: x in u.added ==> x.objectId != id {
      assert forall k :: 0 <= k < |u.items| ==> FreshItem(s, u.items[k]);
      PutRowsAreNew(u.keyId, u.key, u.collection, u.items, id);
    }
  }

  lemma CommitPutStays(site: Site, i: nat)
    requires SiteGood(site) && Follows(site.w, DoCommitPut(site, i).w)
    ensures SiteGood(DoCommitPut(site, i))
  {
    if DoCommitPut(site, i) != site {
      assert TxGood(site.w.s.t, site.txs[i]);
      forall j | j in site.txs && j != i ensures Untouched(site.w.s.t, DoCommitPut(site, i).w.s.t, Locks(site.txs[j])) {
        forall id | id in Locks(site.txs[j])
            ensures id in site.w.s.t.objects { LockedRowsExist(site.w.s.t, site.txs[j], id); }
        if MayCommit(site.w, site.txs[i].u) { PutTouchesNewRows(site.w.s, site.txs[i].u, Locks(site.txs[j])); }
      }
      SiteStays(site, DoCommitPut(site, i).w, site.txs - {i});
    }
  }

  lemma RotateWriteTouches(w: World, p: nat, ids: set<string>)
    requires Updates(w, RotateWrite(p)) !! ids
    ensures Untouched(w.s.t, DoRotateWrite(w, p).s.t, ids)
  {
  }

  lemma BootTouchesNoRow(w: World, p: nat, env: Envelope, secret: Secret, outage: Outage, ids: set<string>)
    ensures Untouched(w.s.t, DoBoot(w, p, env, secret, outage).s.t, ids)
  {
  }

  lemma StepTouches(w: World, a: Action, ids: set<string>)
    requires !a.Put? && !a.Erase? && !a.ReindexWrite? && Updates(w, a) !! ids
    ensures Untouched(w.s.t, Apply(w, a).s.t, ids)
  {
    match a {
      case RotateWrite(p) => RotateWriteTouches(w, p, ids);
      case Boot(p, env, secret, outage) => BootTouchesNoRow(w, p, env, secret, outage, ids);
      case LogReads(_) =>
      case Snapshot =>
      case _ => OtherStepWritesNothing(w, a);
    }
  }

  lemma AloneStays(site: Site, a: Action)
    requires SiteGood(site) && MayStep(site, a) && Follows(site.w, Apply(site.w, a))
    ensures SiteGood(site.(w := Apply(site.w, a)))
  {
    forall j | j in site.txs ensures Untouched(site.w.s.t, Apply(site.w, a).s.t, Locks(site.txs[j])) {
      assert forall id :: id in Updates(site.w, a) ==> id !in Locks(site.txs[j]);
      StepTouches(site.w, a, Locks(site.txs[j]));
    }
    SiteStays(site, Apply(site.w, a), site.txs);
  }

  lemma BeginStays(site: Site, i: nat, tx: Tx)
    requires SiteGood(site) && Locks(tx) == {} && TxGood(site.w.s.t, tx)
    ensures SiteGood(site.(txs := site.txs[i := tx]))
  {
  }

  lemma NewErasingIsGood(t: Tables, actor: string, candidates: set<Ref>)
    requires forall r :: r in candidates ==> LiveRef(t, r)
    ensures TxGood(t, NewErasing(actor, candidates)) && Locks(NewErasing(actor, candidates)) == {}
  {
  }

  lemma NewPuttingIsGood(t: Tables, p: nat, actor: string, keyId: string, key: Bytes, collection: string)
    ensures TxGood(t, Putting(PuttingTx(p, actor, keyId, key, collection, [], map[], {}, [])))
  {
  }

  /** Every statement keeps the buffers in agreement with what is committed: locks make each
      transaction's view of its rows as good at its commit as when it looked. */
  lemma TakeStays(site: Site, step: Step)
    requires SiteGood(site) && CopiesGood(site.w) && Follows(site.w, Take(site, step).w)
    ensures SiteGood(Take(site, step))
  {
    match step {
      case BeginDelete(i, actor, ref) =>
        NewErasingIsGood(site.w.s.t, actor, if LiveRef(site.w.s.t, ref) then {ref} else {});
        BeginStays(site, i, NewErasing(actor, if LiveRef(site.w.s.t, ref) then {ref} else {}));
      case BeginDeleteSubject(i, actor, subject) =>
        NewErasingIsGood(site.w.s.t, actor, SubjectRefs(site.w.s.t, subject));
        BeginStays(site, i, NewErasing(actor, SubjectRefs(site.w.s.t, subject)));
      case UpdateRow(i, ref) => UpdateRowStays(site, i, ref);
      case DropAndLog(i) => DropStays(site, i);
      case CommitErase(i) => CommitEraseStays(site, i);
      case ForUpdate(i, p, actor) => ForUpdateStays(site, i, p, actor);
      case ClearIndexRows(i) => ClearStays(site, i);
      case InsertIndexRow(i, field) => InsertRowStays(site, i, field);
      case CommitRewrite(i) => CommitRewriteStays(site, i);
      case BeginPut(i, p, actor, collection) =>
        if i !in site.txs && Ready(site.w, p) {
          NewPuttingIsGood(site.w.s.t, p, actor, site.w.procs[p].env.current.id, site.w.procs[p].index.value,
              collection);
          BeginStays(site, i, Take(site, step).txs[i]);
        }
      case InsertItem(i, item) => InsertItemStays(site, i, item);
      case CommitPut(i) => CommitPutStays(site, i);
      case Abort(i) =>
      case Alone(a) => if MayStep(site, a) { AloneStays(site, a); }
    }
  }

  // ---- every run ----

  ghost function RunSite(site: Site, steps: seq<Step>): Site
    decreases |steps|
  {
    if steps == [] then site else RunSite(Take(site, steps[0]), steps[1..])
  }

  /** The atomic steps that a run completes, in order. */
  ghost function CompletedBy(site: Site, steps: seq<Step>): seq<Action>
    decreases |steps|
  {
    if steps == [] then [] else Completes(site, steps[0]) + CompletedBy(Take(site, steps[0]), steps[1..])
  }

  lemma RunSiteOne(site: Site, step: Step)
    ensures RunSite(site, [step]) == Take(site, step)
  {
    assert [step][1..] == [] && RunSite(Take(site, step), []) == Take(site, step);
  }

  lemma {:induction false} RunSiteConcat(site: Site, a: seq<Step>, b: seq<Step>)
    ensures RunSite(site, a + b) == RunSite(RunSite(site, a), b)
    decreases |a|
  {
    if a == [] {
      assert a + b == b;
    } else {
      assert (a + b)[0] == a[0] && (a + b)[1..] == a[1..] + b;
      RunSiteConcat(Take(site, a[0]), a[1..], b);
    }
  }

  /** However the statements of any number of transactions interleave with each other and with
      everything else, what is committed is what the atomic step machine reaches by the steps
      that were completed, in the order of their commits. So all that holds of every run of
      the machine holds of every committed state. */
  lemma {:induction false} LockedRunIsAtomic(site: Site, steps: seq<Step>)
    requires SiteGood(site) && Inv(site.w)
    ensures RunSite(site, steps).w == Run(site.w, CompletedBy(site, steps))
    ensures SiteGood(RunSite(site, steps)) && Inv(RunSite(site, steps).w) && Follows(site.w, RunSite(site, steps).w)
    decreases |steps|
  {
    if steps != [] {
      var next := Take(site, steps[0]);
      StatementIsAtomic(site, steps[0]);
      RunKeeps(site.w, Completes(site, steps[0]));
      TakeStays(site, steps[0]);
      LockedRunIsAtomic(next, steps[1..]);
      RunConcat(site.w, Completes(site, steps[0]), CompletedBy(next, steps[1..]));
      FollowsTransitive(site.w, next.w, RunSite(site, steps).w);
    }
  }

  /** The blind index is exact in every committed state, also between the statements of
      transactions that are taking index rows away and putting new ones in. */
  lemma IndexIsExactUnderRaces(steps: seq<Step>)
    ensures var s := RunSite(Site(START, map[]), steps).w.s; IndexExact(s) && AuditExact(s) && Sound(s.h, s.t)
  {
    StartIsGood();
    LockedRunIsAtomic(Site(START, map[]), steps);
  }

  lemma CandidateIsDeleted(s: State, e: ErasingTx, r: Ref)
    requires ErasingGood(s.t, e) && r in e.candidates && e.todo == {}
    ensures var t := ErasedState(s, e).t; r.id in t.objects && t.objects[r.id].deleted
  {
  }

  lemma DeletedIsLogged(w: World, id: string)
    requires Inv(w) && id in w.s.t.objects && w.s.t.objects[id].deleted
    ensures Count(w.s.t.audit, Delete, id) == 1
  {
    assert AuditedExactly(w.s, id);
  }

  /** DeleteSubject leaves no object live that its UPDATE found: each was shredded by it, or by
      somebody who was faster, and each has exactly one delete entry. */
  lemma CandidatesAreShredded(site: Site, i: nat, r: Ref)
    requires SiteGood(site) && Inv(site.w) && i in site.txs && site.txs[i].Erasing? && r in site.txs[i].e.candidates
    requires MayErase(site, i)
    ensures var w := DoCommitErase(site, i).w;
      r.id in w.s.t.objects && w.s.t.objects[r.id].deleted && Count(w.s.t.audit, Delete, r.id) == 1
  {
    assert TxGood(site.w.s.t, site.txs[i]);
    CommitEraseIsAtomic(site, i);
    RunKeeps(site.w, Completes(site, CommitErase(i)));
    CandidateIsDeleted(site.w.s, site.txs[i].e, r);
    DeletedIsLogged(DoCommitErase(site, i).w, r.id);
  }
}
