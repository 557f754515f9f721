/** The vault as a step machine: any number of servers, rotators, reindexers and starting
    replicas over one database (internal/store/store.go). Every transaction is one step;
    rotation and reindexing read a page in one step and act on its rows in later ones, so
    their copies grow stale. Apply is total: a step that is not enabled changes nothing,
    so a theorem about all sequences of actions is about all interleavings. */
module Vault {
  import opened Strings
  import opened Identity
  import opened Envelope
  import opened Tables

  const PAGE_ROWS := 500

  /** What a schema makes of a plaintext of a collection: its indexed values, if it can read it. */
  type Indexer = (string, Bytes) -> Option<map<string, string>>

  datatype Rewrite = Rewrite(ref: Ref, values: map<string, string>)

  datatype Job =
    | Idle
    | Rotating(cursor: string, page: seq<PageRow>, held: Option<Held>)
    | Reindexing(filter: string, cursor: string, page: seq<PageRow>, rewrite: Option<Rewrite>)

  /** A process: the wrappers it holds, the index key once it has loaded it, its job. */
  datatype Proc = Proc(env: Envelope, index: Option<Bytes>, job: Job)

  /** outbox holds committed entries that are not yet copied to an audit logger. */
  datatype World = World(s: State, engines: Engines, procs: map<nat, Proc>, outbox: multiset<AuditEntry>,
      emitted: seq<AuditEntry>)

  datatype Action =
    | Boot(p: nat, env: Envelope, secret: Secret, outage: Outage)
    | BootRead(p: nat, outage: Outage)
    | Put(p: nat, actor: string, collection: string, items: seq<NewItem>)
    | Erase(actor: string, refs: seq<Ref>)
    | RotateStart(p: nat)
    | RotateTake(p: nat, outage: Outage)
    | RotateWrite(p: nat)
    | RotatePage(p: nat)
    | ReindexStart(p: nat, filter: string)
    | ReindexTake(p: nat, outage: Outage, indexed: Indexer)
    | ReindexWrite(p: nat, actor: string)
    | ReindexPage(p: nat)
    | GiveUp(p: nat)
    | LogReads(entries: seq<AuditEntry>)
    | Snapshot
    | EngineRotate(id: string)
    | Emit(entry: AuditEntry)
    | Crash(p: nat, lost: multiset<AuditEntry>)

  // ---- statements and transactions of several rows ----

  function InsertAll(s: State, keyId: string, key: Bytes, actor: string, collection: string, items: seq<NewItem>): State
  {
    if items == [] then s else
      Insert(InsertAll(s, keyId, key, actor, collection, items[..|items| - 1]), keyId, key, actor, collection,
          items[|items| - 1])
  }

  function ShredAll(s: State, actor: string, refs: seq<Ref>): State
  {
    if refs == [] then s else Shred(ShredAll(s, actor, refs[..|refs| - 1]), actor, refs[|refs| - 1])
  }

  /** The ids and keys of the items are fresh and differ from each other. */
  predicate AllFresh(s: State, items: seq<NewItem>)
  {
    && (forall i :: 0 <= i < |items| ==> FreshItem(s, items[i]))
    && (forall i, j :: 0 <= i < j < |items| ==> items[i].id != items[j].id && items[i].dek != items[j].dek)
  }

  /** The rows a rotation asks for: live, and under another wrapper or under one that re-wraps in place. */
  function ToRotate(t: Tables, e: Envelope): set<string>
  {
    set id | id in t.objects && !t.objects[id].deleted
        && (t.objects[id].sealed.keyId != e.current.id || e.current.kind.Transit?)
  }

  /** The rows a reindex asks for: live, and in the collection, or in any when no collection is named. */
  function ToReindex(t: Tables, filter: string): set<string>
  {
    set id | id in t.objects && !t.objects[id].deleted && (t.objects[id].collection == filter || filter == "")
  }

  function RowCopy(t: Tables, id: string): PageRow
    requires id in t.objects
  {
    PageRow(ObjectTarget(Ref(t.objects[id].collection, id)), t.objects[id].sealed)
  }

  function RowCopies(t: Tables, ids: seq<string>): (rows: seq<PageRow>)
    requires forall i :: 0 <= i < |ids| ==> ids[i] in t.objects
  {
    seq(|ids|, i requires 0 <= i < |ids| => RowCopy(t, ids[i]))
  }

  /** One page: a copy of the first 500 matching rows after the cursor. */
  function ReadPage(t: Tables, matching: set<string>, cursor: string): seq<PageRow>
    requires matching <= t.objects.Keys
  {
    var ids := Page(matching, cursor, PAGE_ROWS);
    PageIsPrefix(matching, cursor, PAGE_ROWS);
    assert forall i :: 0 <= i < |ids| ==> ids[i] in ids;
    RowCopies(t, ids)
  }

  // ---- the steps ----

  /** Commit a new state; its new audit entries wait to be emitted. */
  function Commit(w: World, s: State): World
  {
    var n := |w.s.t.audit|;
    w.(s := s, outbox := w.outbox + if n <= |s.t.audit| then multiset(s.t.audit[n..]) else multiset{})
  }

  function WithJob(w: World, p: nat, job: Job): World
    requires p in w.procs
  {
    w.(procs := w.procs[p := w.procs[p].(job := job)])
  }

  /** loadIndexKey, first half: propose a fresh key; the first insert wins. */
  function DoBoot(w: World, p: nat, env: Envelope, secret: Secret, outage: Outage): World
  {
    if p in w.procs || !EnvelopeValid(env) || |secret.key| != KEY_SIZE || |secret.dek| != KEY_SIZE
        || !FreshKey(w.s.h, secret.dek) then w else
      match Seal(env, w.engines, outage, secret.dek, secret.key, INDEX_KEY_AAD)
      case Err(_) => w
      case Ok(sealed) =>
        var s := w.s.(h := w.s.h.(currents := w.s.h.currents + {env.current.id}));
        Commit(w, ProposeKey(s, sealed, secret)).(procs := w.procs[p := Proc(env, None, Idle)])
  }

  /** loadIndexKey, second half: read back and open whichever key won. */
  function DoBootRead(w: World, p: nat, outage: Outage): World
  {
    if p !in w.procs || w.procs[p].index.Some? || w.s.t.keys.None? then w else
      match Open(w.procs[p].env, outage, w.s.t.keys.value, INDEX_KEY_AAD)
      case Err(_) => w.(procs := w.procs - {p})
      case Ok(key) =>
        if |key| != KEY_SIZE then w.(procs := w.procs - {p})
        else w.(procs := w.procs[p := w.procs[p].(index := Some(key))])
  }

  predicate Ready(w: World, p: nat) { p in w.procs && w.procs[p].index.Some? }

  /** Items were sealed at a version that the key service had reached. */
  predicate AllVersioned(env: Envelope, engines: Engines, items: seq<NewItem>)
  {
    forall i :: 0 <= i < |items| ==> items[i].version <= VersionOf(env.current, engines)
  }

  predicate MayPut(w: World, p: nat, items: seq<NewItem>)
  {
    Ready(w, p) && AllFresh(w.s, items) && AllVersioned(w.procs[p].env, w.engines, items)
  }

  function DoPut(w: World, p: nat, actor: string, collection: string, items: seq<NewItem>): World
  {
    if !MayPut(w, p, items) then w else
      Commit(w, InsertAll(w.s, w.procs[p].env.current.id, w.procs[p].index.value, actor, collection, items))
  }

  function DoRotateStart(w: World, p: nat): World
  {
    if !Ready(w, p) || !w.procs[p].job.Idle? || w.s.t.keys.None? then w else
      WithJob(w, p, Rotating("", [PageRow(KeyTarget, w.s.t.keys.value)], None))
  }

  /** Re-wrap the next row copy in memory. A bad object row is skipped; a bad key row or a
      backend that does not answer ends the run. */
  function TakeToRotate(env: Envelope, engines: Engines, outage: Outage, job: Job): Job
    requires job.Rotating? && job.held.None? && job.page != []
  {
    var row := job.page[0];
    var cursor := if row.target.ObjectTarget? then row.target.ref.id else job.cursor;
    match Rewrap(env, engines, outage, row.sealed, AadOf(row.target))
    case Err(e) => if Stops(e) || row.target.KeyTarget? then Idle else Rotating(cursor, job.page[1..], None)
    case Ok((re, changed)) => Rotating(cursor, job.page[1..], if changed
        then Some(Held(row.target, row.sealed.keyId, re)) else None)
  }

  function DoRotateTake(w: World, p: nat, outage: Outage): World
  {
    if !Ready(w, p) || !w.procs[p].job.Rotating? || w.procs[p].job.held.Some? || w.procs[p].job.page == [] then w else
      WithJob(w, p, TakeToRotate(w.procs[p].env, w.engines, outage, w.procs[p].job))
  }

  function DoRotateWrite(w: World, p: nat): World
  {
    if !Ready(w, p) || !w.procs[p].job.Rotating? || w.procs[p].job.held.None? then w else
      var job := w.procs[p].job;
      WithJob(Commit(w, w.s.(t := WriteHeld(w.s.t, job.held.value))), p, Rotating(job.cursor, job.page, None))
  }

  function DoRotatePage(w: World, p: nat): World
  {
    if !Ready(w, p) || !w.procs[p].job.Rotating? || w.procs[p].job.held.Some? || w.procs[p].job.page != [] then w else
      var cursor := w.procs[p].job.cursor;
      var page := ReadPage(w.s.t, ToRotate(w.s.t, w.procs[p].env), cursor);
      WithJob(w, p, if page == [] then Idle else Rotating(cursor, page, None))
  }

  function DoReindexStart(w: World, p: nat, filter: string): World
  {
    if !Ready(w, p) || !w.procs[p].job.Idle? then w else WithJob(w, p, Reindexing(filter, "", [], None))
  }

  /** Open the next row copy and see what the schema makes of it. */
  function TakeToReindex(env: Envelope, outage: Outage, indexed: Indexer, job: Job): Job
    requires job.Reindexing? && job.rewrite.None? && job.page != [] && job.page[0].target.ObjectTarget?
  {
    var ref := job.page[0].target.ref;
    var next := Reindexing(job.filter, ref.id, job.page[1..], None);
    match Open(env, outage, job.page[0].sealed, AadOf(job.page[0].target))
    case Err(e) => if Stops(e) then Idle else next
    case Ok(plaintext) =>
      match indexed(ref.collection, plaintext)
      case None => next
      case Some(values) => Reindexing(job.filter, ref.id, job.page[1..], Some(Rewrite(ref, values)))
  }

  predicate MayTake(w: World, p: nat)
  {
    && Ready(w, p) && w.procs[p].job.Reindexing? && w.procs[p].job.rewrite.None?
    && w.procs[p].job.page != [] && w.procs[p].job.page[0].target.ObjectTarget?
  }

  function DoReindexTake(w: World, p: nat, outage: Outage, indexed: Indexer): World
  {
    if !MayTake(w, p) then w else WithJob(w, p, TakeToReindex(w.procs[p].env, outage, indexed, w.procs[p].job))
  }

  function DoReindexWrite(w: World, p: nat, actor: string): World
  {
    if !Ready(w, p) || !w.procs[p].job.Reindexing? || w.procs[p].job.rewrite.None? then w else
      var job := w.procs[p].job;
      var r := job.rewrite.value;
      WithJob(Commit(w, RewriteIndex(w.s, w.procs[p].index.value, actor, r.ref, r.values)), p,
          Reindexing(job.filter, job.cursor, job.page, None))
  }

  function DoReindexPage(w: World, p: nat): World
  {
    if !Ready(w, p) || !w.procs[p].job.Reindexing? || w.procs[p].job.rewrite.Some?
        || w.procs[p].job.page != [] then w else
      var job := w.procs[p].job;
      var page := ReadPage(w.s.t, ToReindex(w.s.t, job.filter), job.cursor);
      WithJob(w, p, if page == [] then Idle else Reindexing(job.filter, job.cursor, page, None))
  }

  /** A failing statement ends a run. */
  function DoGiveUp(w: World, p: nat): World { if p !in w.procs then w else WithJob(w, p, Idle) }

  /** AuditMany, as the reveal and search handlers use it. */
  function DoLogReads(w: World, entries: seq<AuditEntry>): World
  {
    if exists i :: 0 <= i < |entries| && !IsRead(entries[i]) then w else Commit(w, Log(w.s, entries))
  }

  function DoEmit(w: World, e: AuditEntry): World
  {
    if e !in w.outbox then w else w.(outbox := w.outbox - multiset{e}, emitted := w.emitted + [e])
  }

  function Apply(w: World, a: Action): World
  {
    match a
    case Boot(p, env, secret, outage) => DoBoot(w, p, env, secret, outage)
    case BootRead(p, outage) => DoBootRead(w, p, outage)
    case Put(p, actor, collection, items) => DoPut(w, p, actor, collection, items)
    case Erase(actor, refs) => Commit(w, ShredAll(w.s, actor, refs))
    case RotateStart(p) => DoRotateStart(w, p)
    case RotateTake(p, outage) => DoRotateTake(w, p, outage)
    case RotateWrite(p) => DoRotateWrite(w, p)
    case RotatePage(p) => DoRotatePage(w, p)
    case ReindexStart(p, filter) => DoReindexStart(w, p, filter)
    case ReindexTake(p, outage, indexed) => DoReindexTake(w, p, outage, indexed)
    case ReindexWrite(p, actor) => DoReindexWrite(w, p, actor)
    case ReindexPage(p) => DoReindexPage(w, p)
    case GiveUp(p) => DoGiveUp(w, p)
    case LogReads(entries) => DoLogReads(w, entries)
    case Snapshot => w.(s := w.s.(h := w.s.h.(snapshots := w.s.h.snapshots + [w.s.t])))
    case EngineRotate(id) => w.(engines := w.engines[id := 1 + if id in w.engines then w.engines[id] else 0])
    case Emit(e) => DoEmit(w, e)
    case Crash(p, lost) => w.(procs := w.procs - {p}, outbox := w.outbox - lost)
  }

  function Run(w: World, actions: seq<Action>): World
    decreases |actions|
  {
    if actions == [] then w else Run(Apply(w, actions[0]), actions[1..])
  }

  /** An empty database that no process has reached yet. */
  const START := World(EMPTY, map[], map[], multiset{}, [])

  // ---- the invariant ----

  ghost predicate CopiesSound(h: History, page: seq<PageRow>)
  {
    forall i :: 0 <= i < |page| ==> CopySound(h, page[i].target, page[i].sealed)
  }

  /** A held re-wrap is a box of the right key under the holder's current wrapper. */
  ghost predicate HeldSound(h: History, env: Envelope, held: Held)
  {
    CopySound(h, held.target, held.sealed) && held.sealed.keyId == env.current.id
  }

  ghost predicate JobSound(h: History, env: Envelope, job: Job)
  {
    match job
    case Idle => true
    case Rotating(_, page, held) => CopiesSound(h, page) && (held.Some? ==> HeldSound(h, env, held.value))
    case Reindexing(_, _, page, rewrite) =>
      CopiesSound(h, page) && (rewrite.Some? ==>
        rewrite.value.ref.id in h.born && h.born[rewrite.value.ref.id].collection == rewrite.value.ref.collection)
  }

  /** A process that has loaded an index key has loaded the one index key. */
  ghost predicate ProcSound(h: History, p: Proc)
  {
    && EnvelopeValid(p.env) && p.env.current.id in h.currents
    && (p.index.Some? ==> h.secret.Some? && p.index.value == h.secret.value.key)
    && JobSound(h, p.env, p.job)
  }

  ghost predicate ProcsSound(h: History, procs: map<nat, Proc>)
  {
    forall p :: p in procs ==> ProcSound(h, procs[p])
  }

  /** Whatever was or will be emitted is committed. */
  ghost predicate OutboxSound(w: World)
  {
    multiset(w.emitted) + w.outbox <= multiset(w.s.t.audit)
  }

  ghost predicate Inv(w: World)
  {
    StateInv(w.s) && ProcsSound(w.s.h, w.procs) && OutboxSound(w)
  }

  /** What one step, and so any run, preserves of the past. */
  ghost predicate Follows(w: World, w': World)
  {
    && Remembers(w.s.h, w'.s.h) && Kept(w.s.t, w'.s.t)
    && w.s.h.snapshots <= w'.s.h.snapshots && w.emitted <= w'.emitted
  }

  // ---- every step keeps the invariant ----

  lemma CopiesSoundLater(h: History, h': History, page: seq<PageRow>)
    requires CopiesSound(h, page) && Remembers(h, h')
    ensures CopiesSound(h', page)
  {
  }

  lemma ProcsSoundLater(h: History, h': History, procs: map<nat, Proc>)
    requires ProcsSound(h, procs) && Remembers(h, h')
    ensures ProcsSound(h', procs)
  {
  }

  /** Committing a good state that remembers and keeps the old one. */
  lemma CommitKeeps(w: World, s: State)
    requires Inv(w) && StateInv(s) && Remembers(w.s.h, s.h) && Kept(w.s.t, s.t) && s.h.snapshots == w.s.h.snapshots
    ensures Inv(Commit(w, s)) && Follows(w, Commit(w, s))
  {
    ProcsSoundLater(w.s.h, s.h, w.procs);
    var n := |w.s.t.audit|;
    assert s.t.audit == w.s.t.audit + s.t.audit[n..];
  }

  /** Changing the job of one process. */
  lemma WithJobKeeps(w: World, p: nat, job: Job)
    requires Inv(w) && p in w.procs && JobSound(w.s.h, w.procs[p].env, job)
    ensures Inv(WithJob(w, p, job)) && Follows(w, WithJob(w, p, job))
  {
    var w' := WithJob(w, p, job);
    forall q | q in w'.procs ensures ProcSound(w'.s.h, w'.procs[q]) {
      assert ProcSound(w.s.h, w.procs[q]);
    }
  }

  lemma FollowsTransitive(a: World, b: World, c: World)
    requires Follows(a, b) && Follows(b, c)
    ensures Follows(a, c)
  {
  }

  lemma {:induction false} InsertAllAdds(s: State, keyId: string, key: Bytes, actor: string, collection: string,
      items: seq<NewItem>)
    ensures var s' := InsertAll(s, keyId, key, actor, collection, items);
      && (forall id :: id in s'.t.objects ==> id in s.t.objects || exists i :: 0 <= i < |items| && items[i].id == id)
      && (forall id :: id in s'.h.born ==> (id in s.h.born && s'.h.born[id] == s.h.born[id]) || exists i
        :: 0 <= i < |items| && items[i].dek == s'.h.born[id].dek)
      && s'.h.secret == s.h.secret && s'.h.currents == s.h.currents && s'.h.snapshots == s.h.snapshots
  {
    if items != [] {
      var before, last := items[..|items| - 1], items[|items| - 1];
      InsertAllAdds(s, keyId, key, actor, collection, before);
      assert forall i :: 0 <= i < |before| ==> before[i] == items[i];
    }
  }

  lemma {:induction false} InsertAllKeeps(s: State, keyId: string, key: Bytes, actor: string, collection: string,
      items: seq<NewItem>)
    requires StateInv(s) && AllFresh(s, items) && keyId in s.h.currents
    requires s.h.secret.Some? && key == s.h.secret.value.key
    ensures var s' := InsertAll(s, keyId, key, actor, collection, items);
      StateInv(s') && Remembers(s.h, s'.h) && Kept(s.t, s'.t) && s'.h.snapshots == s.h.snapshots
  {
    if items != [] {
      var before, last := items[..|items| - 1], items[|items| - 1];
      InsertAllKeeps(s, keyId, key, actor, collection, before);
      var mid := InsertAll(s, keyId, key, actor, collection, before);
      InsertAllAdds(s, keyId, key, actor, collection, before);
      LastIsFresh(s, mid, items);
      InsertKeeps(mid, keyId, key, actor, collection, last);
      KeptTransitive(s.t, mid.t, Insert(mid, keyId, key, actor, collection, last).t);
    }
  }

  lemma LastIsFresh(s: State, mid: State, items: seq<NewItem>)
    requires items != [] && AllFresh(s, items) && mid.h.secret == s.h.secret
    requires var before := items[..|items| - 1];
      && (forall id :: id in mid.t.objects ==> id in s.t.objects || exists i :: 0 <= i < |before| && before[i].id == id)
      && (forall id :: id in mid.h.born ==> (id in s.h.born && mid.h.born[id] == s.h.born[id]) || exists i
        :: 0 <= i < |before| && before[i].dek == mid.h.born[id].dek)
    ensures FreshItem(mid, items[|items| - 1])
  {
  }

  lemma {:induction false} ShredAllKeeps(s: State, actor: string, refs: seq<Ref>)
    requires StateInv(s)
    ensures var s' := ShredAll(s, actor, refs);
      StateInv(s') && Remembers(s.h, s'.h) && Kept(s.t, s'.t) && s'.h == s.h
  {
    if refs != [] {
      var mid := ShredAll(s, actor, refs[..|refs| - 1]);
      ShredAllKeeps(s, actor, refs[..|refs| - 1]);
      ShredKeeps(mid, actor, refs[|refs| - 1]);
      KeptTransitive(s.t, mid.t, ShredAll(s, actor, refs).t);
    }
  }

  lemma BootKeeps(w: World, p: nat, env: Envelope, secret: Secret, outage: Outage)
    requires Inv(w)
    ensures var w' := DoBoot(w, p, env, secret, outage); Inv(w') && Follows(w, w')
  {
    var w' := DoBoot(w, p, env, secret, outage);
    if w' != w {
      var s := w.s.(h := w.s.h.(currents := w.s.h.currents + {env.current.id}));
      CurrentsKeep(w.s, env.current.id);
      ProposeKeyKeeps(s, env.current.id, VersionOf(env.current, w.engines), secret);
      var sealed := Seal(env, w.engines, outage, secret.dek, secret.key, INDEX_KEY_AAD).value;
      CommitKeeps(w, ProposeKey(s, sealed, secret));
    }
  }

  lemma CurrentsKeep(s: State, id: string)
    requires StateInv(s)
    ensures var s' := s.(h := s.h.(currents := s.h.currents + {id})); StateInv(s') && Remembers(s.h, s'.h)
  {
    var s' := s.(h := s.h.(currents := s.h.currents + {id}));
    SoundLater(s.h, s'.h, s.t);
    SnapshotsSoundLater(s.h, s'.h);
    forall r ensures BelongsInIndex(s', r) <==> BelongsInIndex(s, r) { }
    forall id ensures AuditedExactly(s', id) { assert AuditedExactly(s, id); }
  }

  /** A process that reads the index key back, whichever replica proposed it. */
  lemma BootReadIsSound(h: History, t: Tables, p: Proc, outage: Outage)
    requires Sound(h, t) && ProcSound(h, p) && t.keys.Some? && Open(p.env, outage, t.keys.value, INDEX_KEY_AAD).Ok?
    ensures ProcSound(h, p.(index := Some(Open(p.env, outage, t.keys.value, INDEX_KEY_AAD).value)))
  {
  }

  lemma WithProcKeeps(w: World, p: nat, proc: Proc)
    requires Inv(w) && ProcSound(w.s.h, proc)
    ensures var w' := w.(procs := w.procs[p := proc]); Inv(w') && Follows(w, w')
  {
  }

  lemma WithoutProcKeeps(w: World, p: nat)
    requires Inv(w)
    ensures var w' := w.(procs := w.procs - {p}); Inv(w') && Follows(w, w')
  {
  }

  lemma BootReadKeeps(w: World, p: nat, outage: Outage)
    requires Inv(w)
    ensures var w' := DoBootRead(w, p, outage); Inv(w') && Follows(w, w')
  {
    if p in w.procs && w.procs[p].index.None? && w.s.t.keys.Some? {
      assert ProcSound(w.s.h, w.procs[p]);
      var r := Open(w.procs[p].env, outage, w.s.t.keys.value, INDEX_KEY_AAD);
      BootReadIs(w, p, outage);
      if r.Ok? && |r.value| == KEY_SIZE {
        BootReadIsSound(w.s.h, w.s.t, w.procs[p], outage);
        WithProcKeeps(w, p, w.procs[p].(index := Some(r.value)));
      } else {
        WithoutProcKeeps(w, p);
      }
    }
  }

  lemma BootReadIs(w: World, p: nat, outage: Outage)
    requires p in w.procs && w.procs[p].index.None? && w.s.t.keys.Some?
    ensures var r := Open(w.procs[p].env, outage, w.s.t.keys.value, INDEX_KEY_AAD);
      DoBootRead(w, p, outage) ==
        if r.Ok? && |r.value| == KEY_SIZE then w.(procs := w.procs[p := w.procs[p].(index := Some(r.value))])
            else w.(procs := w.procs - {p})
  {
  }

  lemma PutKeeps(w: World, p: nat, actor: string, collection: string, items: seq<NewItem>)
    requires Inv(w)
    ensures var w' := DoPut(w, p, actor, collection, items); Inv(w') && Follows(w, w')
  {
    if MayPut(w, p, items) {
      assert ProcSound(w.s.h, w.procs[p]);
      InsertAllKeeps(w.s, w.procs[p].env.current.id, w.procs[p].index.value, actor, collection, items);
      CommitKeeps(w, InsertAll(w.s, w.procs[p].env.current.id, w.procs[p].index.value, actor, collection, items));
    }
  }

  /** A re-wrap of a sound copy is a sound copy under the current wrapper. */
  lemma RewrapOfCopy(h: History, env: Envelope, engines: Engines, outage: Outage, row: PageRow)
    requires EnvelopeValid(env) && CopySound(h, row.target, row.sealed)
    ensures var r := Rewrap(env, engines, outage, row.sealed, AadOf(row.target));
      r.Ok? ==> CopySound(h, row.target, r.value.0) && r.value.0.keyId == env.current.id
  {
  }

  lemma TakeToRotateIsSound(h: History, env: Envelope, engines: Engines, outage: Outage, job: Job)
    requires EnvelopeValid(env) && job.Rotating? && job.held.None? && job.page != [] && CopiesSound(h, job.page)
    ensures JobSound(h, env, TakeToRotate(env, engines, outage, job))
  {
    RewrapOfCopy(h, env, engines, outage, job.page[0]);
    assert CopiesSound(h, job.page[1..]);
  }

  lemma RotateTakeKeeps(w: World, p: nat, outage: Outage)
    requires Inv(w)
    ensures var w' := DoRotateTake(w, p, outage); Inv(w') && Follows(w, w')
  {
    if Ready(w, p) && w.procs[p].job.Rotating? && w.procs[p].job.held.None? && w.procs[p].job.page != [] {
      assert ProcSound(w.s.h, w.procs[p]);
      TakeToRotateIsSound(w.s.h, w.procs[p].env, w.engines, outage, w.procs[p].job);
      WithJobKeeps(w, p, TakeToRotate(w.procs[p].env, w.engines, outage, w.procs[p].job));
    }
  }

  /** A commit followed by a step of the committing process. */
  lemma CommitWithJobKeeps(w: World, s: State, p: nat, job: Job)
    requires Inv(w) && StateInv(s) && Remembers(w.s.h, s.h) && Kept(w.s.t, s.t) && s.h.snapshots == w.s.h.snapshots
    requires p in w.procs && JobSound(s.h, w.procs[p].env, job)
    ensures var w' := WithJob(Commit(w, s), p, job); Inv(w') && Follows(w, w')
  {
    CommitKeeps(w, s);
    WithJobKeeps(Commit(w, s), p, job);
    FollowsTransitive(w, Commit(w, s), WithJob(Commit(w, s), p, job));
  }

  lemma WriteForJob(s: State, p: Proc)
    requires StateInv(s) && ProcSound(s.h, p) && p.job.Rotating? && p.job.held.Some?
    ensures var s' := s.(t := WriteHeld(s.t, p.job.held.value));
      && StateInv(s') && Remembers(s.h, s'.h) && Kept(s.t, s'.t)
      && JobSound(s'.h, p.env, Rotating(p.job.cursor, p.job.page, None))
  {
    WriteHeldKeeps(s, p.job.held.value);
  }

  lemma RotateWriteKeeps(w: World, p: nat)
    requires Inv(w)
    ensures var w' := DoRotateWrite(w, p); Inv(w') && Follows(w, w')
  {
    if Ready(w, p) && w.procs[p].job.Rotating? && w.procs[p].job.held.Some? {
      var job := w.procs[p].job;
      WriteForJob(w.s, w.procs[p]);
      CommitWithJobKeeps(w, w.s.(t := WriteHeld(w.s.t, job.held.value)), p, Rotating(job.cursor, job.page, None));
    }
  }

  /** What a page holds: sound copies of live, matching rows after the cursor. */
  lemma ReadPageIsSound(s: State, matching: set<string>, cursor: string)
    requires Sound(s.h, s.t) && matching <= s.t.objects.Keys && forall id :: id in matching ==> Live(s.t, id)
    ensures CopiesSound(s.h, ReadPage(s.t, matching, cursor))
  {
    var ids := Page(matching, cursor, PAGE_ROWS);
    PageIsPrefix(matching, cursor, PAGE_ROWS);
    var page := ReadPage(s.t, matching, cursor);
    forall i | 0 <= i < |page| ensures CopySound(s.h, page[i].target, page[i].sealed) {
      assert ids[i] in ids;
      assert RowSound(s.h, ids[i], s.t.objects[ids[i]]);
    }
  }

  lemma RotatePageKeeps(w: World, p: nat)
    requires Inv(w)
    ensures var w' := DoRotatePage(w, p); Inv(w') && Follows(w, w')
  {
    if DoRotatePage(w, p) != w {
      ReadPageIsSound(w.s, ToRotate(w.s.t, w.procs[p].env), w.procs[p].job.cursor);
      WithJobKeeps(w, p, DoRotatePage(w, p).procs[p].job);
    }
  }

  lemma RotateStartKeeps(w: World, p: nat)
    requires Inv(w)
    ensures var w' := DoRotateStart(w, p); Inv(w') && Follows(w, w')
  {
    if DoRotateStart(w, p) != w {
      WithJobKeeps(w, p, DoRotateStart(w, p).procs[p].job);
    }
  }

  lemma TakeToReindexIsSound(h: History, env: Envelope, outage: Outage, indexed: Indexer, job: Job)
    requires job.Reindexing? && job.rewrite.None? && job.page != [] && job.page[0].target.ObjectTarget?
        && CopiesSound(h, job.page)
    ensures JobSound(h, env, TakeToReindex(env, outage, indexed, job))
  {
    assert CopySound(h, job.page[0].target, job.page[0].sealed);
    assert CopiesSound(h, job.page[1..]);
  }

  lemma ReindexTakeKeeps(w: World, p: nat, outage: Outage, indexed: Indexer)
    requires Inv(w)
    ensures var w' := DoReindexTake(w, p, outage, indexed); Inv(w') && Follows(w, w')
  {
    if MayTake(w, p) {
      assert ProcSound(w.s.h, w.procs[p]);
      TakeToReindexIsSound(w.s.h, w.procs[p].env, outage, indexed, w.procs[p].job);
      WithJobKeeps(w, p, TakeToReindex(w.procs[p].env, outage, indexed, w.procs[p].job));
    }
  }

  lemma GiveUpKeeps(w: World, p: nat)
    requires Inv(w)
    ensures var w' := DoGiveUp(w, p); Inv(w') && Follows(w, w')
  {
    if p in w.procs { WithJobKeeps(w, p, Idle); }
  }

  lemma RewriteForJob(s: State, key: Bytes, actor: string, env: Envelope, job: Job)
    requires StateInv(s) && s.h.secret.Some? && key == s.h.secret.value.key
    requires job.Reindexing? && job.rewrite.Some? && JobSound(s.h, env, job)
    ensures var s' := RewriteIndex(s, key, actor, job.rewrite.value.ref, job.rewrite.value.values);
      && StateInv(s') && Remembers(s.h, s'.h) && Kept(s.t, s'.t) && s'.h.snapshots == s.h.snapshots
      && JobSound(s'.h, env, Reindexing(job.filter, job.cursor, job.page, None))
  {
    var r := job.rewrite.value;
    assert Live(s.t, r.ref.id) ==> RowSound(s.h, r.ref.id, s.t.objects[r.ref.id]);
    RewriteKeeps(s, key, actor, r.ref, r.values);
    CopiesSoundLater(s.h, RewriteIndex(s, key, actor, r.ref, r.values).h, job.page);
  }

  function ReindexedState(w: World, p: nat, actor: string): State
    requires Ready(w, p) && w.procs[p].job.Reindexing? && w.procs[p].job.rewrite.Some?
  {
    var r := w.procs[p].job.rewrite.value;
    RewriteIndex(w.s, w.procs[p].index.value, actor, r.ref, r.values)
  }

  lemma ReindexWriteIs(w: World, p: nat, actor: string)
    requires Ready(w, p) && w.procs[p].job.Reindexing? && w.procs[p].job.rewrite.Some?
    ensures var job := w.procs[p].job;
      DoReindexWrite(w, p, actor) == WithJob(Commit(w, ReindexedState(w, p, actor)), p,
          Reindexing(job.filter, job.cursor, job.page, None))
  {
  }

  lemma RewriteForProc(w: World, p: nat, actor: string, job: Job, s': State)
    requires Inv(w) && Ready(w, p) && ProcSound(w.s.h, w.procs[p]) && job == w.procs[p].job && job.Reindexing?
        && job.rewrite.Some?
    requires s' == ReindexedState(w, p, actor)
    ensures var w' := WithJob(Commit(w, s'), p, Reindexing(job.filter, job.cursor, job.page, None));
      Inv(w') && Follows(w, w')
  {
    RewriteForJob(w.s, w.procs[p].index.value, actor, w.procs[p].env, job);
    CommitWithJobKeeps(w, s', p, Reindexing(job.filter, job.cursor, job.page, None));
  }

  lemma ReindexWriteKeeps(w: World, p: nat, actor: string)
    requires Inv(w)
    ensures var w' := DoReindexWrite(w, p, actor); Inv(w') && Follows(w, w')
  {
    if Ready(w, p) && w.procs[p].job.Reindexing? && w.procs[p].job.rewrite.Some? {
      assert ProcSound(w.s.h, w.procs[p]);
      ReindexWriteIs(w, p, actor);
      RewriteForProc(w, p, actor, w.procs[p].job, ReindexedState(w, p, actor));
    }
  }

  lemma ReindexPageKeeps(w: World, p: nat)
    requires Inv(w)
    ensures var w' := DoReindexPage(w, p); Inv(w') && Follows(w, w')
  {
    if DoReindexPage(w, p) != w {
      ReadPageIsSound(w.s, ToReindex(w.s.t, w.procs[p].job.filter), w.procs[p].job.cursor);
      WithJobKeeps(w, p, DoReindexPage(w, p).procs[p].job);
    }
  }

  lemma LogKeeps(s: State, entries: seq<AuditEntry>)
    requires StateInv(s) && forall i :: 0 <= i < |entries| ==> IsRead(entries[i])
    ensures var s' := Log(s, entries); StateInv(s') && Remembers(s.h, s'.h) && Kept(s.t, s'.t)
  {
    var s' := Log(s, entries);
    forall r ensures BelongsInIndex(s', r) <==> BelongsInIndex(s, r) { }
    forall id ensures AuditedExactly(s', id) {
      assert AuditedExactly(s, id);
      CountOfReads(s.t.audit, entries, Create, id);
      CountOfReads(s.t.audit, entries, Delete, id);
    }
    assert NoReindexAfterDelete(s'.t.audit) by {
      assert forall j :: |s.t.audit| <= j < |s'.t.audit| ==> s'.t.audit[j] == entries[j - |s.t.audit|];
    }
  }

  lemma LogReadsKeeps(w: World, entries: seq<AuditEntry>)
    requires Inv(w)
    ensures var w' := DoLogReads(w, entries); Inv(w') && Follows(w, w')
  {
    if forall i :: 0 <= i < |entries| ==> IsRead(entries[i]) {
      LogKeeps(w.s, entries);
      CommitKeeps(w, Log(w.s, entries));
    }
  }

  lemma SnapshotKeepsState(s: State)
    requires StateInv(s)
    ensures var s' := s.(h := s.h.(snapshots := s.h.snapshots + [s.t])); StateInv(s') && Remembers(s.h, s'.h)
  {
    var s' := s.(h := s.h.(snapshots := s.h.snapshots + [s.t]));
    SoundLater(s.h, s'.h, s.t);
    forall i | 0 <= i < |s'.h.snapshots| ensures Sound(s'.h, s'.h.snapshots[i]) {
      if i < |s.h.snapshots| { SoundLater(s.h, s'.h, s.h.snapshots[i]); }
    }
    forall r ensures BelongsInIndex(s', r) <==> BelongsInIndex(s, r) { }
    forall id ensures AuditedExactly(s', id) { assert AuditedExactly(s, id); }
  }

  lemma SnapshotKeeps(w: World)
    requires Inv(w)
    ensures var w' := Apply(w, Snapshot); Inv(w') && Follows(w, w')
  {
    SnapshotKeepsState(w.s);
    ProcsSoundLater(w.s.h, Apply(w, Snapshot).s.h, w.procs);
  }

  lemma EmitIsBounded(w: World, e: AuditEntry)
    requires OutboxSound(w)
    ensures OutboxSound(DoEmit(w, e))
  {
  }

  lemma EngineRotateKeeps(w: World, id: string)
    requires Inv(w)
    ensures var w' := Apply(w, EngineRotate(id)); Inv(w') && Follows(w, w')
  {
  }

  lemma EmitKeeps(w: World, e: AuditEntry)
    requires Inv(w)
    ensures var w' := DoEmit(w, e); Inv(w') && Follows(w, w')
  {
    EmitIsBounded(w, e);
    EmitIs(w, e);
  }

  lemma EmitIs(w: World, e: AuditEntry)
    ensures var w' := DoEmit(w, e); w'.s == w.s && w'.procs == w.procs && w.emitted <= w'.emitted
  {
  }

  lemma CrashKeeps(w: World, p: nat, lost: multiset<AuditEntry>)
    requires Inv(w)
    ensures var w' := Apply(w, Crash(p, lost)); Inv(w') && Follows(w, w')
  {
  }

  lemma EraseKeeps(w: World, actor: string, refs: seq<Ref>)
    requires Inv(w)
    ensures var w' := Apply(w, Erase(actor, refs)); Inv(w') && Follows(w, w')
  {
    ShredAllKeeps(w.s, actor, refs);
    CommitKeeps(w, ShredAll(w.s, actor, refs));
  }

  lemma ReindexStartKeeps(w: World, p: nat, filter: string)
    requires Inv(w)
    ensures var w' := DoReindexStart(w, p, filter); Inv(w') && Follows(w, w')
  {
    if DoReindexStart(w, p, filter) != w { WithJobKeeps(w, p, Reindexing(filter, "", [], None)); }
  }

  predicate IsRotateStep(a: Action) { a.RotateStart? || a.RotateTake? || a.RotateWrite? || a.RotatePage? }

  predicate IsReindexStep(a: Action) { a.ReindexStart? || a.ReindexTake? || a.ReindexWrite? || a.ReindexPage?
      || a.GiveUp? }

  predicate IsJobStep(a: Action) { IsRotateStep(a) || IsReindexStep(a) }

  lemma RotateStepKeeps(w: World, a: Action)
    requires Inv(w) && IsRotateStep(a)
    ensures Inv(Apply(w, a)) && Follows(w, Apply(w, a))
  {
    match a {
      case RotateStart(p) => RotateStartKeeps(w, p);
      case RotateTake(p, outage) => RotateTakeKeeps(w, p, outage);
      case RotateWrite(p) => RotateWriteKeeps(w, p);
      case RotatePage(p) => RotatePageKeeps(w, p);
    }
  }

  lemma ReindexStepKeeps(w: World, a: Action)
    requires Inv(w) && IsReindexStep(a)
    ensures Inv(Apply(w, a)) && Follows(w, Apply(w, a))
  {
    match a {
      case ReindexStart(p, filter) => ReindexStartKeeps(w, p, filter);
      case ReindexTake(p, outage, indexed) => ReindexTakeKeeps(w, p, outage, indexed);
      case ReindexWrite(p, actor) => ReindexWriteKeeps(w, p, actor);
      case ReindexPage(p) => ReindexPageKeeps(w, p);
      case GiveUp(p) => GiveUpKeeps(w, p);
    }
  }

  lemma RequestStepKeeps(w: World, a: Action)
    requires Inv(w) && !IsJobStep(a)
    ensures Inv(Apply(w, a)) && Follows(w, Apply(w, a))
  {
    match a {
      case Boot(p, env, secret, outage) => BootKeeps(w, p, env, secret, outage);
      case BootRead(p, outage) => BootReadKeeps(w, p, outage);
      case Put(p, actor, collection, items) => PutKeeps(w, p, actor, collection, items);
      case Erase(actor, refs) => EraseKeeps(w, actor, refs);
      case LogReads(entries) => LogReadsKeeps(w, entries);
      case Snapshot => SnapshotKeeps(w);
      case EngineRotate(id) => EngineRotateKeeps(w, id);
      case Emit(e) => EmitKeeps(w, e);
      case Crash(p, lost) => CrashKeeps(w, p, lost);
    }
  }

  /** Every step of every process keeps the invariant and everything of the past. */
  lemma ApplyKeeps(w: World, a: Action)
    requires Inv(w)
    ensures Inv(Apply(w, a)) && Follows(w, Apply(w, a))
  {
    if IsRotateStep(a) {
      RotateStepKeeps(w, a);
    } else if IsReindexStep(a) {
      ReindexStepKeeps(w, a);
    } else {
      RequestStepKeeps(w, a);
    }
  }

  predicate Writes(a: Action) { a.Put? || a.Erase? || a.ReindexWrite? || a.RotateWrite? || a.Boot? || a.LogReads?
      || a.Snapshot? }

  lemma OtherStepWritesNothing(w: World, a: Action)
    requires !Writes(a)
    ensures Apply(w, a).s == w.s
  {
  }

  lemma {:induction false} RunConcat(w: World, a: seq<Action>, b: seq<Action>)
    ensures Run(w, a + b) == Run(Run(w, a), b)
    decreases |a|
  {
    if a == [] {
      assert a + b == b;
    } else {
      assert (a + b)[0] == a[0] && (a + b)[1..] == a[1..] + b;
      RunConcat(Apply(w, a[0]), a[1..], b);
    }
  }

  lemma RunOne(w: World, a: Action)
    ensures Run(w, [a]) == Apply(w, a) && Run(w, []) == w
  {
    assert [a][1..] == [];
  }

  /** One step after a run. */
  lemma RunSnoc(w: World, before: seq<Action>, a: Action)
    ensures Run(w, before + [a]) == Apply(Run(w, before), a)
  {
    RunConcat(w, before, [a]);
    RunOne(Run(w, before), a);
  }

  lemma StartIsGood()
    ensures Inv(START)
  {
  }

  /** Every run keeps the invariant and everything of the past. */
  lemma {:induction false} RunKeeps(w: World, actions: seq<Action>)
    requires Inv(w)
    ensures Inv(Run(w, actions)) && Follows(w, Run(w, actions))
    decreases |actions|
  {
    if actions != [] {
      ApplyKeeps(w, actions[0]);
      RunKeeps(Apply(w, actions[0]), actions[1..]);
      FollowsTransitive(w, Apply(w, actions[0]), Run(w, actions));
    }
  }
}
