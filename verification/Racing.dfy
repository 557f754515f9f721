/** A reindex whose object is erased between the read of its page and its transaction
    (internal/store/store.go, Reindex and rewriteIndex). */
module Racing {
  import opened Strings
  import opened Identity
  import opened Envelope
  import opened Tables
  import opened Vault
  import opened Paging
  import opened Rotation
  import opened Reindexing
  import opened Rebuilding
  import opened Requests
  import opened Store

  /** The one row of a collection, which a reindex of it reads and can index. */
  predicate OneToReindex(t: Tables, c: Reindexer, ref: Ref)
  {
    LiveRef(t, ref) && ref.id != "" && ToReindex(t, ref.collection) == {ref.id} && Reads(c, t, ref.id)
  }

  /** Whatever object it is: erased just before its transaction looks, it is counted as done, nothing
      is rewritten and nothing logged. */
  method ReindexWhileErased(store: Store, c: Reindexer, ref: Ref)
    returns (done: nat, skipped: nat, err: Option<StoreError>, ghost trail: Trail)
    requires c.env == store.env && c.key == store.index && OneToReindex(store.db.T(), c, ref)
    modifies store.db
    ensures err.None? && done == 1 && skipped == 0 && trail.own == []
    ensures !Live(store.db.T(), ref.id) && NewReindexes(old(store.db.auditLog), store.db.auditLog) == []
  {
    ghost var w := store.db.W();
    var others, net := ErasedAt(1, c.actor, ref), (_: nat) => {};
    ErasedAtIsRely(1, c.actor, ref);
    ghost var seen, pages;
    done, skipped, err, trail, seen, pages := store.ReindexAmong(c, ref.collection, others, 2, net);
    ErasedRun(w, c, others, net, ref, pages);
    NothingIsLeft(w, c.actor, ref);
  }

  /** The world after the erase. */
  function Erased(w: World, actor: string, ref: Ref): World { Apply(w, Erase(actor, [ref])) }

  /** Where the run stands after its first page. */
  function AfterFirstPage(w: World, actor: string, ref: Ref): Tally
  {
    var at := Erased(w, actor, ref);
    Tally(at, 2, 1, 0, ref.id, None, Trail(map[], [], map[ref.id := at]))
  }

  lemma FirstPage(w: World, c: Reindexer, others: Others, net: nat -> Outage, ref: Ref)
    requires OneToReindex(w.s.t, c, ref) && others == ErasedAt(1, c.actor, ref) && forall n :: net(n) == {}
    ensures AfterPage(c, others, net, ref.collection, FromStart(w)) == Turn(true, AfterFirstPage(w, c.actor, ref))
  {
    var b := FromStart(w).(k := 1);
    var row := RowCopy(w.s.t, ref.id);
    ErasedAtIs(w, 1, 0, c.actor, ref);
    AfterPageIs(c, others, net, ref.collection, FromStart(w));
    PageOfOne(ref.id, PAGE_ROWS);
    AfterSelectIs(c, others, net, ref.collection, b, [row]);
    OneRow(w, c, others, net, ref, b, row);
  }

  lemma OneRow(w: World, c: Reindexer, others: Others, net: nat -> Outage, ref: Ref, b: Tally, row: PageRow)
    requires OneToReindex(w.s.t, c, ref) && others == ErasedAt(1, c.actor, ref) && forall n :: net(n) == {}
    requires b == FromStart(w).(k := 1) && row == RowCopy(w.s.t, ref.id)
    ensures AfterReindexRows(c, others, net, b, [row]) == AfterFirstPage(w, c.actor, ref)
  {
    AfterReindexRowsStep(c, others, net, b, [row], 0);
    assert [row][0..] == [row] && [row][1..] == [];
    RowIs(c, others, net, b, row);
    ErasedAtIs(w, 1, 1, c.actor, ref);
    ShredsOne(w.s, c.actor, ref);
  }

  lemma NothingIsLeft(w: World, actor: string, ref: Ref)
    requires LiveRef(w.s.t, ref) && ToReindex(w.s.t, ref.collection) == {ref.id}
    ensures var t := Erased(w, actor, ref).s.t;
      && ToReindex(t, ref.collection) == {} && !Live(t, ref.id) && w.s.t.audit <= t.audit
      && NewReindexes(w.s.t.audit, t.audit) == []
  {
    var t := Erased(w, actor, ref).s.t;
    ShredsOne(w.s, actor, ref);
    forall id | id in t.objects && id != ref.id ensures id !in ToReindex(t, ref.collection) {
      assert id !in ToReindex(w.s.t, ref.collection);
    }
    var entry := AuditEntry(actor, Delete, ref.collection, ref.id, "");
    assert t.audit[|w.s.t.audit|..] == [entry];
    NoReindexAmong([entry]);
  }

  lemma SecondPage(w: World, c: Reindexer, others: Others, net: nat -> Outage, ref: Ref)
    requires OneToReindex(w.s.t, c, ref) && others == ErasedAt(1, c.actor, ref) && forall n :: net(n) == {}
    ensures var a := AfterFirstPage(w, c.actor, ref);
      AfterPage(c, others, net, ref.collection, a) == Turn(false, a.(k := 3))
  {
    var a := AfterFirstPage(w, c.actor, ref);
    ErasedAtIs(a.w, 1, 2, c.actor, ref);
    AfterPageIs(c, others, net, ref.collection, a);
    NothingIsLeft(w, c.actor, ref);
    AfterSelectIs(c, others, net, ref.collection, a.(k := 3), []);
  }

  /** So the run has two pages, and ends as said. */
  lemma ErasedRun(w: World, c: Reindexer, others: Others, net: nat -> Outage, ref: Ref, pages: nat)
    requires OneToReindex(w.s.t, c, ref) && others == ErasedAt(1, c.actor, ref) && forall n :: net(n) == {}
    ensures var t := AfterPages(c, others, net, ref.collection, FromStart(w), pages);
      t.a.err.None? && (!t.more ==> t.a == AfterFirstPage(w, c.actor, ref).(k := 3))
  {
    FirstPage(w, c, others, net, ref);
    SecondPage(w, c, others, net, ref);
    assert AfterPages(c, others, net, ref.collection, FromStart(w), 0) == Turn(true, FromStart(w));
    AfterPagesNext(c, others, net, ref.collection, FromStart(w), 0, FromStart(w));
    AfterPagesNext(c, others, net, ref.collection, FromStart(w), 1, AfterFirstPage(w, c.actor, ref));
    if pages > 2 { LastPageStays(c, others, net, ref.collection, FromStart(w), 2, pages,
        Turn(false, AfterFirstPage(w, c.actor, ref).(k := 3))); }
  }

  lemma {:induction false} LastPageStays(c: Reindexer, others: Others, net: nat -> Outage, filter: string, a: Tally,
      n: nat, pages: nat, t: Turn)
    requires n <= pages && AfterPages(c, others, net, filter, a, n) == t && !t.more
    ensures AfterPages(c, others, net, filter, a, pages) == t
    decreases pages - n
  {
    if n < pages {
      AfterPagesStays(c, others, net, filter, a, n);
      LastPageStays(c, others, net, filter, a, n + 1, pages, t);
    }
  }
}
