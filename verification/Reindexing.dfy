/** Rebuilding the blind index (internal/store/store.go, Reindex and rewriteIndex), with
    anything happening before each of its transactions. */
module Reindexing {
  import opened Strings
  import opened Identity
  import opened Envelope
  import opened Tables
  import opened Vault
  import opened Guarantees
  import opened Paging
  import opened Rotation

  /** The fixed parts of a run: who acts, with which envelope, index key and schema. */
  datatype Reindexer = Reindexer(env: Envelope, key: Bytes, actor: string, indexed: Indexer)

  /** What a run leaves behind: the copies of the rows it skipped, by id, the objects its own
      transactions rewrote, in order, and for every row that it took the world in which its
      transaction looked whether the object still lives. */
  datatype Trail = Trail(missed: map<string, Sealed>, own: seq<Ref>, checks: map<string, World>)

  const NO_TRAIL := Trail(map[], [], map[])

  datatype Tally = Tally(w: World, k: nat, done: nat, skipped: nat, last: string, err: Option<StoreError>, trail: Trail)

  function ReindexEntry(actor: string, ref: Ref): AuditEntry { AuditEntry(actor, Reindex, ref.collection, ref.id, "") }

  function ReindexEntries(actor: string, refs: seq<Ref>): seq<AuditEntry>
  {
    seq(|refs|, i requires 0 <= i < |refs| => ReindexEntry(actor, refs[i]))
  }

  /** Copy committed entries to the audit logger. */
  function EmitAll(w: World, entries: seq<AuditEntry>): World
    decreases |entries|
  {
    if entries == [] then w else EmitAll(DoEmit(w, entries[0]), entries[1..])
  }

  lemma {:induction false} EmitAllKeeps(w: World, entries: seq<AuditEntry>)
    requires Inv(w)
    ensures Inv(EmitAll(w, entries)) && Follows(w, EmitAll(w, entries)) && EmitAll(w, entries).s == w.s
    decreases |entries|
  {
    if entries != [] {
      EmitKeeps(w, entries[0]);
      EmitAllKeeps(DoEmit(w, entries[0]), entries[1..]);
      FollowsTransitive(w, DoEmit(w, entries[0]), EmitAll(w, entries));
    }
  }

  /** Entries that wait in the outbox are emitted in order, each once. */
  lemma {:induction false} EmitAllEmits(w: World, entries: seq<AuditEntry>)
    requires multiset(entries) <= w.outbox
    ensures EmitAll(w, entries).emitted == w.emitted + entries
    ensures EmitAll(w, entries).outbox == w.outbox - multiset(entries)
    decreases |entries|
  {
    if entries != [] {
      EmitFirst(w, entries);
      EmitAllEmits(DoEmit(w, entries[0]), entries[1..]);
    }
  }

  lemma EmitFirst(w: World, entries: seq<AuditEntry>)
    requires entries != [] && multiset(entries) <= w.outbox
    ensures var w' := DoEmit(w, entries[0]);
      && multiset(entries[1..]) <= w'.outbox && w'.outbox - multiset(entries[1..]) == w.outbox - multiset(entries)
      && w'.emitted + entries[1..] == w.emitted + entries
  {
    FirstWaits(entries, w.outbox);
    assert w.emitted + [entries[0]] + entries[1..] == w.emitted + entries;
  }

  lemma FirstWaits(entries: seq<AuditEntry>, outbox: multiset<AuditEntry>)
    requires entries != [] && multiset(entries) <= outbox
    ensures entries[0] in outbox && multiset(entries[1..]) <= outbox - multiset{entries[0]}
    ensures outbox - multiset{entries[0]} - multiset(entries[1..]) == outbox - multiset(entries)
  {
    assert entries == [entries[0]] + entries[1..];
    assert multiset(entries) == multiset{entries[0]} + multiset(entries[1..]);
  }

  /** The transaction of rewriteIndex, and its entry emitted. A shredded object is left alone. */
  function RewriteTx(w: World, c: Reindexer, ref: Ref, values: map<string, string>): World
  {
    if !Live(w.s.t, ref.id) then w else
      EmitAll(Commit(w, RewriteIndex(w.s, c.key, c.actor, ref, values)), [ReindexEntry(c.actor, ref)])
  }

  /** A row copy that cannot be opened now, one that is skipped, one with its indexed values. */
  datatype Reading = Stop(error: Error) | Skip | Take(values: map<string, string>)

  function ReadRow(c: Reindexer, outage: Outage, row: PageRow): Reading
    requires row.target.ObjectTarget?
  {
    match Open(c.env, outage, row.sealed, AadOf(row.target))
    case Err(e) => if Stops(e) then Stop(e) else Skip
    case Ok(plaintext) =>
      match c.indexed(row.target.ref.collection, plaintext)
      case None => Skip
      case Some(values) => Take(values)
  }

  /** The trail of a row that was taken: rewritten if it lives. */
  function TrailOf(t: Trail, w: World, ref: Ref): Trail
  {
    t.(own := if Live(w.s.t, ref.id) then t.own + [ref] else t.own, checks := t.checks[ref.id := w])
  }

  /** A row that was read: its transaction, after whatever the others did. */
  function AfterTake(c: Reindexer, w1: World, fails: bool, a: Tally, ref: Ref, values: map<string, string>): Tally
  {
    if fails then Tally(w1, a.k + 1, a.done, a.skipped, ref.id, Some(StatementFailed), a.trail)
    else if ref.id !in w1.s.t.objects then Tally(w1, a.k + 1, a.done, a.skipped, ref.id, Some(NotFound), a.trail)
    else Tally(RewriteTx(w1, c, ref, values), a.k + 1, a.done + 1, a.skipped, ref.id, None,
        TrailOf(a.trail, w1, ref))
  }

  function AfterSkip(a: Tally, row: PageRow): Tally
    requires row.target.ObjectTarget?
  {
    var id := row.target.ref.id;
    a.(last := id, skipped := a.skipped + 1, trail := a.trail.(missed := a.trail.missed[id := row.sealed]))
  }

  /** One row copy: open it, index it, rewrite its index rows. A row that does not open or
      that the schema cannot read is skipped; done counts also objects found shredded. */
  function AfterReindexRow(c: Reindexer, others: Others, net: nat -> Outage, a: Tally, row: PageRow): Tally
    requires row.target.ObjectTarget?
  {
    match ReadRow(c, net(a.k), row)
    case Stop(e) => a.(last := row.target.ref.id, err := Some(Sealing(e)))
    case Skip => AfterSkip(a, row)
    case Take(values) => AfterTake(c, others(a.w, a.k), DATABASE in net(a.k), a, row.target.ref, values)
  }

  /** The three cases of a row. */
  lemma RowIs(c: Reindexer, others: Others, net: nat -> Outage, a: Tally, row: PageRow)
    requires row.target.ObjectTarget?
    ensures var b := AfterReindexRow(c, others, net, a, row);
      match ReadRow(c, net(a.k), row)
      case Stop(e) => b == a.(last := row.target.ref.id, err := Some(Sealing(e)))
      case Skip => b == AfterSkip(a, row)
      case Take(values) => b == AfterTake(c, others(a.w, a.k), DATABASE in net(a.k), a, row.target.ref, values)
  {
  }

  function AfterReindexRows(c: Reindexer, others: Others, net: nat -> Outage, a: Tally, page: seq<PageRow>): Tally
    requires ObjectRows(page)
    decreases |page|
  {
    if page == [] then a else
      var b := AfterReindexRow(c, others, net, a, page[0]);
      if b.err.Some? then b else AfterReindexRows(c, others, net, b, page[1..])
  }

  lemma AfterReindexRowsStep(c: Reindexer, others: Others, net: nat -> Outage, a: Tally, page: seq<PageRow>, i: nat)
    requires ObjectRows(page) && i < |page|
    ensures var b := AfterReindexRow(c, others, net, a, page[i]);
      AfterReindexRows(c, others, net, a, page[i..]) == if b.err.Some? then b
          else AfterReindexRows(c, others, net, b, page[i + 1..])
  {
  }

  lemma ReadPageIsObjectRows(t: Tables, matching: set<string>, cursor: string)
    requires matching <= t.objects.Keys
    ensures ObjectRows(ReadPage(t, matching, cursor))
  {
  }

  /** One page: read it after whatever the others did, then its rows. more says that it was not the
      last, empty one. */
  datatype Turn = Turn(more: bool, a: Tally)

  function AfterSelect(c: Reindexer, others: Others, net: nat -> Outage, filter: string, b: Tally): Turn
  {
    var page := ReadPage(b.w.s.t, ToReindex(b.w.s.t, filter), b.last);
    ReadPageIsObjectRows(b.w.s.t, ToReindex(b.w.s.t, filter), b.last);
    if page == [] then Turn(false, b) else Turn(true, AfterReindexRows(c, others, net, b, page))
  }

  function AfterPage(c: Reindexer, others: Others, net: nat -> Outage, filter: string, a: Tally): Turn
  {
    var b := a.(w := others(a.w, a.k), k := a.k + 1);
    if DATABASE in net(a.k) then Turn(true, b.(err := Some(StatementFailed)))
        else AfterSelect(c, others, net, filter, b)
  }

  /** So many pages, or fewer when one is the last or the run stops. */
  function AfterPages(c: Reindexer, others: Others, net: nat -> Outage, filter: string, a: Tally, pages: nat): Turn
  {
    if pages == 0 then Turn(true, a) else
      var before := AfterPages(c, others, net, filter, a, pages - 1);
      if !before.more || before.a.err.Some? then before else AfterPage(c, others, net, filter, before.a)
  }

  lemma AfterPageIs(c: Reindexer, others: Others, net: nat -> Outage, filter: string, a: Tally)
    ensures var b := a.(w := others(a.w, a.k), k := a.k + 1);
      AfterPage(c, others, net, filter, a) ==
        if DATABASE in net(a.k) then Turn(true, b.(err := Some(StatementFailed)))
        else AfterSelect(c, others, net, filter, b)
  {
  }

  lemma AfterSelectIs(c: Reindexer, others: Others, net: nat -> Outage, filter: string, b: Tally, page: seq<PageRow>)
    requires page == ReadPage(b.w.s.t, ToReindex(b.w.s.t, filter), b.last)
    ensures ObjectRows(page)
    ensures AfterSelect(c, others, net, filter, b) ==
      if page == [] then Turn(false, b) else Turn(true, AfterReindexRows(c, others, net, b, page))
  {
    ReadPageIsObjectRows(b.w.s.t, ToReindex(b.w.s.t, filter), b.last);
  }

  lemma AfterPagesNext(c: Reindexer, others: Others, net: nat -> Outage, filter: string, a: Tally, pages: nat, z: Tally)
    requires AfterPages(c, others, net, filter, a, pages) == Turn(true, z) && z.err.None?
    ensures AfterPages(c, others, net, filter, a, pages + 1) == AfterPage(c, others, net, filter, z)
  {
  }

  lemma AfterPagesStays(c: Reindexer, others: Others, net: nat -> Outage, filter: string, a: Tally, pages: nat)
    requires !AfterPages(c, others, net, filter, a, pages).more
    ensures AfterPages(c, others, net, filter, a, pages + 1) == AfterPages(c, others, net, filter, a, pages)
  {
  }

  /** Where a run starts. */
  function FromStart(w: World): Tally { Tally(w, 0, 0, 0, "", None, NO_TRAIL) }

  // ---- always: the invariant and the past ----

  ghost predicate Able(c: Reindexer, w: World)
  {
    Started(w.s.h, c.env) && w.s.h.secret.Some? && c.key == w.s.h.secret.value.key
  }

  /** A full copy of an object row: also its ciphertext is that of the object. */
  ghost predicate FullCopySound(h: History, row: PageRow)
  {
    && row.target.ObjectTarget? && CopySound(h, row.target, row.sealed)
    && var b := h.born[row.target.ref.id];
    && row.sealed.ciphertext == Cipher(b.dek, b.plaintext, Aad(b.collection, row.target.ref.id)) && |b.dek| == KEY_SIZE
    && row.sealed.keyId in h.currents
  }

  ghost predicate FullCopies(h: History, page: seq<PageRow>)
  {
    forall i :: 0 <= i < |page| ==> FullCopySound(h, page[i])
  }

  lemma FullCopiesLater(h: History, h': History, page: seq<PageRow>)
    requires FullCopies(h, page) && Remembers(h, h')
    ensures FullCopies(h', page)
  {
  }

  lemma RewriteTxKeeps(w: World, c: Reindexer, ref: Ref, values: map<string, string>)
    requires Inv(w) && Able(c, w) && ref.id in w.s.h.born && w.s.h.born[ref.id].collection == ref.collection
    ensures Inv(RewriteTx(w, c, ref, values)) && Follows(w, RewriteTx(w, c, ref, values))
  {
    if Live(w.s.t, ref.id) {
      assert RowSound(w.s.h, ref.id, w.s.t.objects[ref.id]);
      var s := RewriteIndex(w.s, c.key, c.actor, ref, values);
      RewriteKeeps(w.s, c.key, c.actor, ref, values);
      CommitKeeps(w, s);
      var entries := [ReindexEntry(c.actor, ref)];
      EmitAllKeeps(Commit(w, s), entries);
      FollowsTransitive(w, Commit(w, s), EmitAll(Commit(w, s), entries));
    }
  }

  lemma AbleLater(c: Reindexer, w: World, w': World)
    requires Able(c, w) && Follows(w, w')
    ensures Able(c, w')
  {
  }

  // ---- what is indexed ----

  /** What is indexed for the object is what the current schema makes of its plaintext. */
  ghost predicate IndexedNow(c: Reindexer, w: World, id: string)
  {
    && id in w.s.h.born && id in w.s.h.values
    && c.indexed(w.s.h.born[id].collection, w.s.h.born[id].plaintext) == Some(w.s.h.values[id])
  }

  /** The current schema cannot read the object. */
  ghost predicate Unreadable(c: Reindexer, w: World, id: string)
  {
    id in w.s.h.born && c.indexed(w.s.h.born[id].collection, w.s.h.born[id].plaintext) == None
  }

  ghost predicate ValuesKept(w: World, w': World)
  {
    forall id :: id in w.s.h.values ==> id in w'.s.h.values && w'.s.h.values[id] == w.s.h.values[id]
  }

  /** What is indexed for an object stays, or becomes what the current schema makes of it. */
  ghost predicate ValuesKeptOrCurrent(c: Reindexer, w: World, w': World)
  {
    forall id :: id in w.s.h.values ==>
      id in w'.s.h.values && (w'.s.h.values[id] == w.s.h.values[id] || IndexedNow(c, w', id))
  }

  lemma ReadRowIsIndexed(c: Reindexer, h: History, outage: Outage, row: PageRow)
    requires FullCopySound(h, row) && EnvelopeValid(c.env) && ReadRow(c, outage, row).Take?
    ensures var b := h.born[row.target.ref.id];
      c.indexed(b.collection, b.plaintext) == Some(ReadRow(c, outage, row).values)
  {
  }

  /** A row is skipped only for a wrapper that is not held or a plaintext that cannot be read. */
  lemma SkippedForAReason(c: Reindexer, h: History, outage: Outage, row: PageRow)
    requires FullCopySound(h, row) && EnvelopeValid(c.env) && ReadRow(c, outage, row).Skip?
    ensures row.sealed.keyId !in c.env.all
        || c.indexed(h.born[row.target.ref.id].collection, h.born[row.target.ref.id].plaintext) == None
  {
  }

  lemma {:induction false} EmitAllSameState(w: World, entries: seq<AuditEntry>)
    ensures EmitAll(w, entries).s == w.s && EmitAll(w, entries).engines == w.engines
        && EmitAll(w, entries).procs == w.procs
    decreases |entries|
  {
    if entries != [] { EmitAllSameState(DoEmit(w, entries[0]), entries[1..]); }
  }

  lemma RewriteTxKeepsRows(c: Reindexer, w: World, ref: Ref, values: map<string, string>)
    ensures var w' := RewriteTx(w, c, ref, values);
      && w'.s.t.objects == w.s.t.objects && w'.s.h.born == w.s.h.born && w'.procs == w.procs
      && w'.s.h.secret == w.s.h.secret && w'.s.h.currents == w.s.h.currents
      && w'.s.h.values == (if Live(w.s.t, ref.id) then w.s.h.values[ref.id := values] else w.s.h.values)
      && w'.s.t.audit == w.s.t.audit + if Live(w.s.t, ref.id) then [ReindexEntry(c.actor, ref)] else []
  {
    if Live(w.s.t, ref.id) {
      EmitAllSameState(Commit(w, RewriteIndex(w.s, c.key, c.actor, ref, values)), [ReindexEntry(c.actor, ref)]);
    }
  }

  /** w' is w with the values of a live object replaced. */
  ghost predicate Rewritten(w: World, w': World, ref: Ref, values: map<string, string>)
  {
    && w'.s.t.objects == w.s.t.objects && w'.s.h.born == w.s.h.born
    && w'.s.h.values == (if Live(w.s.t, ref.id) then w.s.h.values[ref.id := values] else w.s.h.values)
  }

  // ---- schedules without a second reindexer ----

  /** Others do not change what is indexed for an object that exists. */
  ghost predicate KeepValues(others: Others)
  {
    forall w, k: nat :: Inv(w) ==> ValuesKept(w, others(w, k))
  }

  predicate NoReindexIn(actions: seq<Action>) { forall i :: 0 <= i < |actions| ==> !actions[i].ReindexWrite? }

  predicate NoOtherReindexer(sched: Schedule) { forall i :: 0 <= i < |sched| ==> NoReindexIn(sched[i]) }

  lemma {:induction false} InsertAllKeepsValues(s: State, keyId: string, key: Bytes, actor: string, collection: string,
      items: seq<NewItem>, id: string)
    requires id in s.h.values && forall i :: 0 <= i < |items| ==> items[i].id != id
    ensures var h := InsertAll(s, keyId, key, actor, collection, items).h;
      id in h.values && h.values[id] == s.h.values[id]
  {
    if items != [] { InsertAllKeepsValues(s, keyId, key, actor, collection, items[..|items| - 1], id); }
  }

  lemma PutKeepsValues(w: World, p: nat, actor: string, collection: string, items: seq<NewItem>)
    requires HistoryMatches(w.s)
    ensures ValuesKept(w, DoPut(w, p, actor, collection, items))
  {
    if MayPut(w, p, items) {
      forall id | id in w.s.h.values
        ensures var h := DoPut(w, p, actor, collection, items).s.h; id in h.values && h.values[id] == w.s.h.values[id]
      {
        assert forall i :: 0 <= i < |items| ==> FreshItem(w.s, items[i]);
        InsertAllKeepsValues(w.s, w.procs[p].env.current.id, w.procs[p].index.value, actor, collection, items, id);
      }
    }
  }

  lemma BootSameValues(w: World, p: nat, env: Envelope, secret: Secret, outage: Outage)
    ensures DoBoot(w, p, env, secret, outage).s.h.values == w.s.h.values
  {
  }

  lemma WriteSameValues(w: World, p: nat)
    ensures DoRotateWrite(w, p).s.h.values == w.s.h.values
  {
  }

  lemma StepKeepsValues(w: World, a: Action)
    requires HistoryMatches(w.s) && !a.ReindexWrite?
    ensures ValuesKept(w, Apply(w, a))
  {
    match a {
      case Put(p, actor, collection, items) => PutKeepsValues(w, p, actor, collection, items);
      case Erase(actor, refs) => ShredAllHistory(w.s, actor, refs);
      case Boot(p, env, secret, outage) => BootSameValues(w, p, env, secret, outage);
      case RotateWrite(p) => WriteSameValues(w, p);
      case LogReads(_) =>
      case Snapshot =>
      case _ => OtherStepWritesNothing(w, a);
    }
  }

  lemma GoodStepKeepsValues(w: World, a: Action, w': World)
    requires Inv(w) && !a.ReindexWrite? && w' == Apply(w, a)
    ensures Inv(w') && ValuesKept(w, w')
  {
    ApplyKeeps(w, a);
    StepKeepsValues(w, a);
  }

  lemma {:induction false} RunKeepsValues(w: World, actions: seq<Action>)
    requires Inv(w) && NoReindexIn(actions)
    ensures ValuesKept(w, Run(w, actions))
    decreases |actions|
  {
    if actions != [] {
      var w' := Apply(w, actions[0]);
      GoodStepKeepsValues(w, actions[0], w');
      assert NoReindexIn(actions[1..]);
      RunKeepsValues(w', actions[1..]);
      assert Run(w, actions) == Run(w', actions[1..]);
      ValuesKeptTransitive(w, w', Run(w, actions));
    }
  }

  lemma ValuesKeptTransitive(a: World, b: World, c: World)
    requires ValuesKept(a, b) && ValuesKept(b, c)
    ensures ValuesKept(a, c)
  {
  }

  lemma ScheduleKeepsValues(sched: Schedule)
    requires NoOtherReindexer(sched)
    ensures KeepValues(OthersOf(sched))
  {
    forall w, k: nat | Inv(w) ensures ValuesKept(w, OthersOf(sched)(w, k)) {
      if k < |sched| { RunKeepsValues(w, sched[k]); }
    }
  }

  // ---- the entries of reindexing ----

  /** The reindex entries of a log, in order. */
  function Reindexes(audit: seq<AuditEntry>): seq<AuditEntry>
  {
    if audit == [] then [] else
      var last := audit[|audit| - 1];
      Reindexes(audit[..|audit| - 1]) + if last.action == Reindex then [last] else []
  }

  /** Those that were added to a log. */
  function NewReindexes(before: seq<AuditEntry>, after: seq<AuditEntry>): seq<AuditEntry>
  {
    if |before| <= |after| then Reindexes(after[|before|..]) else []
  }

  lemma {:induction false} ReindexesConcat(a: seq<AuditEntry>, b: seq<AuditEntry>)
    ensures Reindexes(a + b) == Reindexes(a) + Reindexes(b)
  {
    if b == [] {
      assert a + b == a;
    } else {
      assert (a + b)[..|a + b| - 1] == a + b[..|b| - 1];
      ReindexesConcat(a, b[..|b| - 1]);
    }
  }

  lemma {:induction false} NoReindexAmong(entries: seq<AuditEntry>)
    requires forall i :: 0 <= i < |entries| ==> entries[i].action != Reindex
    ensures Reindexes(entries) == []
  {
    if entries != [] { NoReindexAmong(entries[..|entries| - 1]); }
  }

  lemma {:induction false} OwnEntriesAreReindexes(actor: string, own: seq<Ref>)
    ensures Reindexes(ReindexEntries(actor, own)) == ReindexEntries(actor, own)
  {
    if own != [] {
      var n := |own| - 1;
      assert ReindexEntries(actor, own)[..n] == ReindexEntries(actor, own[..n]);
      OwnEntriesAreReindexes(actor, own[..n]);
      assert ReindexEntries(actor, own) == ReindexEntries(actor, own[..n]) + [ReindexEntry(actor, own[n])];
    }
  }

  ghost predicate AddsNoReindex(w: World, w': World) { Reindexes(w'.s.t.audit) == Reindexes(w.s.t.audit) }

  /** Others write no reindex entry. */
  ghost predicate LogNoReindex(others: Others)
  {
    forall w, k: nat :: Inv(w) ==> AddsNoReindex(w, others(w, k))
  }

  lemma {:induction false} InsertAllAddsNoReindex(s: State, keyId: string, key: Bytes, actor: string,
      collection: string, items: seq<NewItem>)
    ensures Reindexes(InsertAll(s, keyId, key, actor, collection, items).t.audit) == Reindexes(s.t.audit)
  {
    if items != [] {
      var before, last := items[..|items| - 1], items[|items| - 1];
      var entry := AuditEntry(actor, Create, collection, last.id, "");
      InsertAllAddsNoReindex(s, keyId, key, actor, collection, before);
      ReindexesConcat(InsertAll(s, keyId, key, actor, collection, before).t.audit, [entry]);
      NoReindexAmong([entry]);
    }
  }

  lemma {:induction false} ShredAllAddsNoReindex(s: State, actor: string, refs: seq<Ref>)
    ensures Reindexes(ShredAll(s, actor, refs).t.audit) == Reindexes(s.t.audit)
  {
    if refs != [] {
      var before, last := refs[..|refs| - 1], refs[|refs| - 1];
      var entry := AuditEntry(actor, Delete, last.collection, last.id, "");
      ShredAllAddsNoReindex(s, actor, before);
      ReindexesConcat(ShredAll(s, actor, before).t.audit, [entry]);
      NoReindexAmong([entry]);
    }
  }

  lemma LogReadsAddsNoReindex(w: World, entries: seq<AuditEntry>)
    ensures AddsNoReindex(w, DoLogReads(w, entries))
  {
    if forall i :: 0 <= i < |entries| ==> IsRead(entries[i]) {
      ReindexesConcat(w.s.t.audit, entries);
      NoReindexAmong(entries);
    }
  }

  lemma PutAddsNoReindex(w: World, p: nat, actor: string, collection: string, items: seq<NewItem>)
    ensures AddsNoReindex(w, DoPut(w, p, actor, collection, items))
  {
    if MayPut(w, p, items) {
      InsertAllAddsNoReindex(w.s, w.procs[p].env.current.id, w.procs[p].index.value, actor, collection, items);
    }
  }

  lemma BootSameLog(w: World, p: nat, env: Envelope, secret: Secret, outage: Outage)
    ensures DoBoot(w, p, env, secret, outage).s.t.audit == w.s.t.audit
  {
  }

  lemma WriteSameLog(w: World, p: nat)
    ensures DoRotateWrite(w, p).s.t.audit == w.s.t.audit
  {
  }

  lemma StepAddsNoReindex(w: World, a: Action)
    requires !a.ReindexWrite?
    ensures AddsNoReindex(w, Apply(w, a))
  {
    match a {
      case Put(p, actor, collection, items) => PutAddsNoReindex(w, p, actor, collection, items);
      case Erase(actor, refs) => ShredAllAddsNoReindex(w.s, actor, refs);
      case Boot(p, env, secret, outage) => BootSameLog(w, p, env, secret, outage);
      case RotateWrite(p) => WriteSameLog(w, p);
      case LogReads(entries) => LogReadsAddsNoReindex(w, entries);
      case Snapshot =>
      case _ => OtherStepWritesNothing(w, a);
    }
  }

  lemma {:induction false} RunAddsNoReindex(w: World, actions: seq<Action>)
    requires NoReindexIn(actions)
    ensures AddsNoReindex(w, Run(w, actions))
    decreases |actions|
  {
    if actions != [] {
      StepAddsNoReindex(w, actions[0]);
      RunAddsNoReindex(Apply(w, actions[0]), actions[1..]);
    }
  }

  lemma ScheduleLogsNoReindex(sched: Schedule)
    requires NoOtherReindexer(sched)
    ensures LogNoReindex(OthersOf(sched))
  {
    forall w, k: nat | Inv(w) ensures AddsNoReindex(w, OthersOf(sched)(w, k)) {
      if k < |sched| { RunAddsNoReindex(w, sched[k]); }
    }
  }

  // ---- schedules in which others reindex by the same schema ----

  /** A pending rewrite of a reindexer is what the current schema makes of its object. */
  ghost predicate ProcRight(c: Reindexer, h: History, proc: Proc)
  {
    proc.job.Reindexing? ==>
      && FullCopies(h, proc.job.page)
      && (proc.job.rewrite.Some? ==> RewriteRight(c, h, proc.job.rewrite.value))
  }

  ghost predicate RewriteRight(c: Reindexer, h: History, r: Rewrite)
  {
    r.ref.id in h.born && c.indexed(h.born[r.ref.id].collection, h.born[r.ref.id].plaintext) == Some(r.values)
  }

  ghost predicate PendingRight(c: Reindexer, w: World)
  {
    forall p :: p in w.procs ==> ProcRight(c, w.s.h, w.procs[p])
  }

  /** Others may reindex, by the current schema. */
  ghost predicate SameSchema(c: Reindexer, others: Others)
  {
    forall w, k: nat :: Inv(w) && PendingRight(c, w) ==>
      PendingRight(c, others(w, k)) && ValuesKeptOrCurrent(c, w, others(w, k))
  }

  ghost predicate BySchema(c: Reindexer, a: Action)
  {
    a.ReindexTake? ==> forall collection, plaintext :: a.indexed(collection, plaintext) == c.indexed(collection,
        plaintext)
  }

  ghost predicate AllBySchema(c: Reindexer, actions: seq<Action>)
  {
    forall i :: 0 <= i < |actions| ==> BySchema(c, actions[i])
  }

  lemma PendingRightLater(c: Reindexer, w: World, h: History)
    requires PendingRight(c, w) && Remembers(w.s.h, h)
    ensures forall p :: p in w.procs ==> ProcRight(c, h, w.procs[p])
  {
    forall p | p in w.procs ensures ProcRight(c, h, w.procs[p]) {
      assert ProcRight(c, w.s.h, w.procs[p]);
      if w.procs[p].job.Reindexing? { FullCopiesLater(w.s.h, h, w.procs[p].job.page); }
    }
  }

  /** The jobs of a step: only that of one process changes, to one that is right. */
  lemma JobIsRight(c: Reindexer, w: World, p: nat, s: State, job: Job)
    requires PendingRight(c, w) && Remembers(w.s.h, s.h) && p in w.procs && ProcRight(c, s.h, w.procs[p].(job := job))
    ensures PendingRight(c, WithJob(Commit(w, s), p, job))
  {
    PendingRightLater(c, w, s.h);
  }

  lemma TakeIsRight(c: Reindexer, w: World, p: nat, outage: Outage, indexed: Indexer)
    requires PendingRight(c, w) && MayTake(w, p) && EnvelopeValid(w.procs[p].env)
    requires forall collection, plaintext :: indexed(collection, plaintext) == c.indexed(collection, plaintext)
    ensures ProcRight(c, w.s.h, w.procs[p].(job := TakeToReindex(w.procs[p].env, outage, indexed, w.procs[p].job)))
  {
    var job := w.procs[p].job;
    assert ProcRight(c, w.s.h, w.procs[p]);
    assert FullCopySound(w.s.h, job.page[0]);
    assert FullCopies(w.s.h, job.page[1..]);
    OpensToBorn(w.s.h, w.procs[p].env, outage, job.page[0]);
  }

  lemma OpensToBorn(h: History, env: Envelope, outage: Outage, row: PageRow)
    requires FullCopySound(h, row) && EnvelopeValid(env)
    ensures var r := Open(env, outage, row.sealed, AadOf(row.target)); r.Ok? ==>
      r.value == h.born[row.target.ref.id].plaintext
  {
  }

  lemma PageIsFullCopies(s: State, matching: set<string>, cursor: string)
    requires Sound(s.h, s.t) && matching <= s.t.objects.Keys && forall id :: id in matching ==> Live(s.t, id)
    ensures FullCopies(s.h, ReadPage(s.t, matching, cursor))
  {
    var ids, page := Page(matching, cursor, PAGE_ROWS), ReadPage(s.t, matching, cursor);
    PageIsPrefix(matching, cursor, PAGE_ROWS);
    forall i | 0 <= i < |page| ensures FullCopySound(s.h, page[i]) {
      assert ids[i] in ids;
      assert RowSound(s.h, ids[i], s.t.objects[ids[i]]);
    }
  }

  lemma SameJobIs(w: World, p: nat, job: Job)
    requires p in w.procs
    ensures WithJob(Commit(w, w.s), p, job) == WithJob(w, p, job)
  {
    assert multiset(w.s.t.audit[|w.s.t.audit|..]) == multiset{};
  }

  lemma ReindexTakeRight(c: Reindexer, w: World, p: nat, outage: Outage, indexed: Indexer)
    requires PendingRight(c, w) && ProcsSound(w.s.h, w.procs)
    requires forall collection, plaintext :: indexed(collection, plaintext) == c.indexed(collection, plaintext)
    ensures PendingRight(c, DoReindexTake(w, p, outage, indexed))
  {
    if MayTake(w, p) {
      assert ProcSound(w.s.h, w.procs[p]);
      TakeIsRight(c, w, p, outage, indexed);
      SameJobIs(w, p, TakeToReindex(w.procs[p].env, outage, indexed, w.procs[p].job));
      JobIsRight(c, w, p, w.s, TakeToReindex(w.procs[p].env, outage, indexed, w.procs[p].job));
    }
  }

  lemma ReindexPageRight(c: Reindexer, w: World, p: nat)
    requires PendingRight(c, w) && Sound(w.s.h, w.s.t)
    ensures PendingRight(c, DoReindexPage(w, p))
  {
    if DoReindexPage(w, p) != w {
      var job := w.procs[p].job;
      PageIsFullCopies(w.s, ToReindex(w.s.t, job.filter), job.cursor);
      var page := ReadPage(w.s.t, ToReindex(w.s.t, job.filter), job.cursor);
      var next := if page == [] then Idle else Reindexing(job.filter, job.cursor, page, None);
      SameJobIs(w, p, next);
      JobIsRight(c, w, p, w.s, next);
    }
  }

  lemma ReindexWriteJobsRight(c: Reindexer, w: World, p: nat, actor: string)
    requires PendingRight(c, w) && Remembers(w.s.h, DoReindexWrite(w, p, actor).s.h)
    ensures PendingRight(c, DoReindexWrite(w, p, actor))
  {
    if Ready(w, p) && w.procs[p].job.Reindexing? && w.procs[p].job.rewrite.Some? {
      var job, s := w.procs[p].job, ReindexedState(w, p, actor);
      assert ProcRight(c, w.s.h, w.procs[p]);
      ReindexWriteIs(w, p, actor);
      FullCopiesLater(w.s.h, s.h, job.page);
      JobIsRight(c, w, p, s, Reindexing(job.filter, job.cursor, job.page, None));
    }
  }

  lemma RewriteIsCurrent(c: Reindexer, w: World, w': World, s: State, key: Bytes, actor: string, r: Rewrite)
    requires RewriteRight(c, w.s.h, r) && w'.s == RewriteIndex(s, key, actor, r.ref, r.values) && s == w.s
    ensures ValuesKeptOrCurrent(c, w, w')
  {
  }

  lemma ReindexWriteValues(c: Reindexer, w: World, p: nat, actor: string)
    requires PendingRight(c, w)
    ensures ValuesKeptOrCurrent(c, w, DoReindexWrite(w, p, actor))
  {
    if Ready(w, p) && w.procs[p].job.Reindexing? && w.procs[p].job.rewrite.Some? {
      assert ProcRight(c, w.s.h, w.procs[p]);
      ReindexWriteIs(w, p, actor);
      RewriteIsCurrent(c, w, DoReindexWrite(w, p, actor), w.s, w.procs[p].index.value, actor,
          w.procs[p].job.rewrite.value);
    }
  }

  /** A step of anybody but a reindexer at work leaves no job of reindexing that was not there. */
  lemma OtherStepSameJobs(w: World, a: Action)
    requires !a.ReindexTake? && !a.ReindexPage? && !a.ReindexWrite?
    ensures forall p :: p in Apply(w, a).procs && Apply(w, a).procs[p].job.Reindexing? ==>
      (p in w.procs && Apply(w, a).procs[p].job == w.procs[p].job)
          || (Apply(w, a).procs[p].job.page == [] && Apply(w, a).procs[p].job.rewrite.None?)
  {
  }

  lemma OtherStepRight(c: Reindexer, w: World, a: Action)
    requires PendingRight(c, w) && Remembers(w.s.h, Apply(w, a).s.h) && !a.ReindexTake? && !a.ReindexPage?
        && !a.ReindexWrite?
    ensures PendingRight(c, Apply(w, a))
  {
    OtherStepSameJobs(w, a);
    PendingRightLater(c, w, Apply(w, a).s.h);
  }

  lemma StepRight(c: Reindexer, w: World, a: Action)
    requires Sound(w.s.h, w.s.t) && ProcsSound(w.s.h, w.procs) && PendingRight(c, w) && BySchema(c, a)
        && Remembers(w.s.h, Apply(w, a).s.h)
    ensures PendingRight(c, Apply(w, a))
  {
    match a {
      case ReindexTake(p, outage, indexed) => ReindexTakeRight(c, w, p, outage, indexed);
      case ReindexPage(p) => ReindexPageRight(c, w, p);
      case ReindexWrite(p, actor) => ReindexWriteJobsRight(c, w, p, actor);
      case _ => OtherStepRight(c, w, a);
    }
  }

  lemma StepKeepsOrIndexes(c: Reindexer, w: World, a: Action)
    requires HistoryMatches(w.s) && PendingRight(c, w)
    ensures ValuesKeptOrCurrent(c, w, Apply(w, a))
  {
    if a.ReindexWrite? { ReindexWriteValues(c, w, a.p, a.actor); } else { StepKeepsValues(w, a); }
  }

  lemma KeptOrCurrentTransitive(c: Reindexer, x: World, y: World, z: World)
    requires ValuesKeptOrCurrent(c, x, y) && ValuesKeptOrCurrent(c, y, z) && Remembers(y.s.h, z.s.h)
    ensures ValuesKeptOrCurrent(c, x, z)
  {
    forall id | id in x.s.h.values
        ensures id in z.s.h.values && (z.s.h.values[id] == x.s.h.values[id] || IndexedNow(c, z, id)) {
      assert id in y.s.h.values;
    }
  }

  lemma {:induction false} RunRight(c: Reindexer, w: World, actions: seq<Action>)
    requires Inv(w) && PendingRight(c, w) && AllBySchema(c, actions)
    ensures PendingRight(c, Run(w, actions)) && ValuesKeptOrCurrent(c, w, Run(w, actions))
    decreases |actions|
  {
    if actions != [] {
      var w' := Apply(w, actions[0]);
      ApplyKeeps(w, actions[0]);
      StepRight(c, w, actions[0]);
      StepKeepsOrIndexes(c, w, actions[0]);
      RunKeeps(w', actions[1..]);
      RunRight(c, w', actions[1..]);
      KeptOrCurrentTransitive(c, w, w', Run(w, actions));
    }
  }

  ghost predicate OneSchema(c: Reindexer, sched: Schedule) { forall i :: 0 <= i < |sched| ==> AllBySchema(c, sched[i]) }

  /** Any number of reindexers may run at once, as long as all go by one schema. */
  lemma ScheduleIsOfOneSchema(c: Reindexer, sched: Schedule)
    requires OneSchema(c, sched)
    ensures SameSchema(c, OthersOf(sched))
  {
    forall w, k: nat | Inv(w) && PendingRight(c, w)
      ensures PendingRight(c, OthersOf(sched)(w, k)) && ValuesKeptOrCurrent(c, w, OthersOf(sched)(w, k))
    {
      if k < |sched| { RunRight(c, w, sched[k]); }
    }
  }
}
