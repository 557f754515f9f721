/** What a whole reindex achieves (internal/store/store.go, Reindex): row by row and page by page,
    with anything happening in between. */
module Rebuilding {
  import opened Strings
  import opened Identity
  import opened Envelope
  import opened Tables
  import opened Vault
  import opened Guarantees
  import opened Paging
  import opened Rotation
  import opened Reindexing

  // ---- the books: every row is counted once ----

  function Ids(refs: seq<Ref>): (ids: seq<string>)
    ensures |ids| == |refs|
  {
    seq(|refs|, i requires 0 <= i < |refs| => refs[i].id)
  }

  /** The objects whose transaction found them live, and those it found shredded. */
  function FoundLive(checks: map<string, World>): set<string>
  {
    set id | id in checks && Live(checks[id].s.t, id)
  }

  function FoundShredded(checks: map<string, World>): set<string>
  {
    set id | id in checks && !Live(checks[id].s.t, id)
  }

  /** q is the elements of s in ascending order. */
  ghost predicate Lists(q: seq<string>, s: set<string>)
  {
    IsAscending(q) && forall x :: x in q <==> x in s
  }

  lemma ListIsAscending(q: seq<string>, s: set<string>)
    requires Lists(q, s)
    ensures q == Ascending(s) && |q| == |s|
  {
    AscendingIsUnique(q, Ascending(s));
  }

  lemma ListGrows(q: seq<string>, s: set<string>, next: string)
    requires Lists(q, s) && forall x :: x in s ==> Less(x, next)
    ensures Lists(q + [next], s + {next})
  {
    assert forall i :: 0 <= i < |q| ==> q[i] in q;
  }

  /** Every id a run has dealt with is at or before the cursor and stands in the books once: it was
      skipped or taken, and of those that were taken the ones found live were rewritten. */
  ghost predicate Accounts(a: Tally)
  {
    && (forall id :: id in a.trail.missed || id in a.trail.checks ==> !Less(a.last, id))
    && a.trail.missed.Keys !! a.trail.checks.Keys
    && Lists(Ids(a.trail.own), FoundLive(a.trail.checks))
    && a.skipped == |a.trail.missed| && a.done == |a.trail.checks|
  }

  lemma BeforeNext(last: string, next: string)
    requires Less(last, next)
    ensures !Less(next, next)
    ensures forall id :: !Less(last, id) ==> Less(id, next) && !Less(next, id)
  {
    LessIsStrictTotalOrder();
    LessIrreflexive(next);
    forall id | !Less(last, id) ensures Less(id, next) && !Less(next, id) {
      if id != last { LessTransitive(id, last, next); }
    }
  }

  lemma SkipKeepsAccounts(a: Tally, row: PageRow)
    requires Accounts(a) && row.target.ObjectTarget? && Less(a.last, row.target.ref.id)
    ensures Accounts(AfterSkip(a, row))
  {
    BeforeNext(a.last, row.target.ref.id);
  }

  lemma OwnGrows(own: seq<Ref>, checks: map<string, World>, w: World, ref: Ref)
    requires Lists(Ids(own), FoundLive(checks)) && forall id :: id in checks ==> Less(id, ref.id)
    ensures var t := TrailOf(Trail(map[], own, checks), w, ref); Lists(Ids(t.own), FoundLive(t.checks))
  {
    LessIrreflexive(ref.id);
    assert ref.id !in checks;
    if Live(w.s.t, ref.id) {
      ListGrows(Ids(own), FoundLive(checks), ref.id);
      assert Ids(own + [ref]) == Ids(own) + [ref.id];
      assert FoundLive(checks[ref.id := w]) == FoundLive(checks) + {ref.id};
    } else {
      assert FoundLive(checks[ref.id := w]) == FoundLive(checks);
    }
  }

  lemma TakeKeepsAccounts(c: Reindexer, w1: World, fails: bool, a: Tally, ref: Ref, values: map<string, string>)
    requires Accounts(a) && Less(a.last, ref.id)
    ensures Accounts(AfterTake(c, w1, fails, a, ref, values))
  {
    BeforeNext(a.last, ref.id);
    OwnGrows(a.trail.own, a.trail.checks, w1, ref);
    assert ref.id !in a.trail.checks;
  }

  lemma RowKeepsAccounts(c: Reindexer, others: Others, net: nat -> Outage, a: Tally, row: PageRow)
    requires Accounts(a) && row.target.ObjectTarget? && Less(a.last, row.target.ref.id)
    ensures Accounts(AfterReindexRow(c, others, net, a, row))
    ensures AfterReindexRow(c, others, net, a, row).last == row.target.ref.id
  {
    RowIs(c, others, net, a, row);
    match ReadRow(c, net(a.k), row) {
      case Stop(_) => BeforeNext(a.last, row.target.ref.id);
      case Skip => SkipKeepsAccounts(a, row);
      case Take(values) =>
        TakeKeepsAccounts(c, others(a.w, a.k), DATABASE in net(a.k), a, row.target.ref, values);
    }
  }

  // ---- however others interfere ----

  /** The worlds that the pages were read from. */
  ghost predicate ReadsGood(w0: World, seen: seq<World>, w: World)
  {
    forall i :: 0 <= i < |seen| ==> Inv(seen[i]) && Follows(w0, seen[i]) && Follows(seen[i], w)
  }

  /** The row of object id was read as this. */
  ghost predicate WasRead(seen: seq<World>, id: string, sealed: Sealed)
  {
    exists i :: 0 <= i < |seen| && Live(seen[i].s.t, id) && seen[i].s.t.objects[id].sealed == sealed
  }

  ghost predicate WasLive(seen: seq<World>, id: string) { exists i :: 0 <= i < |seen| && Live(seen[i].s.t, id) }

  /** A skipped row was live when it was read, and named a wrapper that is not held or holds what
      the schema cannot read. */
  ghost predicate MissedFairly(c: Reindexer, w: World, seen: seq<World>, missed: map<string, Sealed>)
  {
    forall id :: id in missed ==>
      id in w.s.h.born && WasRead(seen, id, missed[id]) && (missed[id].keyId !in c.env.all || Unreadable(c, w, id))
  }

  /** The row of object id was live when a page was read, and its transaction looked at it after that. */
  ghost predicate ReadBefore(seen: seq<World>, id: string, at: World)
  {
    exists i :: 0 <= i < |seen| && Live(seen[i].s.t, id) && Follows(seen[i], at)
  }

  ghost predicate CheckGood(seen: seq<World>, w: World, id: string, at: World)
  {
    Inv(at) && Follows(at, w) && id in at.s.t.objects && ReadBefore(seen, id, at)
  }

  ghost predicate CheckedAfterRead(seen: seq<World>, w: World, checks: map<string, World>)
  {
    forall id :: id in checks ==> CheckGood(seen, w, id, checks[id])
  }

  /** Beside what was in the log before, it holds the entries of the run's own transactions. */
  ghost predicate OwnLogged(actor: string, audit0: seq<AuditEntry>, audit: seq<AuditEntry>, own: seq<Ref>)
  {
    multiset(audit0) + multiset(ReindexEntries(actor, own)) <= multiset(audit)
  }

  /** The run's entries name its objects with their collections. */
  ghost predicate OwnIsRight(w: World, own: seq<Ref>)
  {
    forall i :: 0 <= i < |own| ==> own[i].id in w.s.h.born && w.s.h.born[own[i].id].collection == own[i].collection
  }

  lemma OwnIsRightLater(w: World, w': World, own: seq<Ref>)
    requires OwnIsRight(w, own) && Follows(w, w')
    ensures OwnIsRight(w', own)
  {
  }

  lemma OwnIsRightThen(w: World, w': World, trail: Trail, ref: Ref)
    requires OwnIsRight(w, trail.own) && Follows(w, w') && ref.id in w.s.h.born
    requires w.s.h.born[ref.id].collection == ref.collection
    ensures OwnIsRight(w', TrailOf(trail, w, ref).own)
  {
  }

  ghost predicate Accounted(c: Reindexer, w0: World, w: World, seen: seq<World>, trail: Trail)
  {
    Booked(c, w0, w, seen, trail) && OwnIsRight(w, trail.own)
  }

  ghost predicate Booked(c: Reindexer, w0: World, w: World, seen: seq<World>, trail: Trail)
  {
    && ReadsGood(w0, seen, w) && MissedFairly(c, w, seen, trail.missed) && CheckedAfterRead(seen, w, trail.checks)
    && OwnLogged(c.actor, w0.s.t.audit, w.s.t.audit, trail.own)
  }

  ghost predicate Good(c: Reindexer, w0: World, w: World, seen: seq<World>, trail: Trail)
  {
    Able(c, w0) && Inv(w) && Follows(w0, w) && Accounted(c, w0, w, seen, trail)
  }

  lemma LongerLogHoldsMore(a: seq<AuditEntry>, b: seq<AuditEntry>)
    requires a <= b
    ensures multiset(a) <= multiset(b)
  {
    assert b == a + b[|a|..];
  }

  lemma ReadsLater(w0: World, seen: seq<World>, w: World, w': World)
    requires ReadsGood(w0, seen, w) && Follows(w, w')
    ensures ReadsGood(w0, seen, w')
  {
    forall i | 0 <= i < |seen| ensures Follows(seen[i], w') { FollowsTransitive(seen[i], w, w'); }
  }

  lemma CheckLater(seen: seq<World>, w: World, w': World, id: string, at: World)
    requires CheckGood(seen, w, id, at) && Follows(w, w')
    ensures CheckGood(seen, w', id, at)
  {
    FollowsTransitive(at, w, w');
  }

  lemma BooksLater(c: Reindexer, w: World, w': World, seen: seq<World>, trail: Trail)
    requires MissedFairly(c, w, seen, trail.missed) && CheckedAfterRead(seen, w, trail.checks) && Follows(w, w')
    ensures MissedFairly(c, w', seen, trail.missed) && CheckedAfterRead(seen, w', trail.checks)
  {
    forall id | id in trail.checks ensures CheckGood(seen, w', id, trail.checks[id]) {
      CheckLater(seen, w, w', id, trail.checks[id]);
    }
  }

  lemma GoodLater(c: Reindexer, w0: World, w: World, w': World, seen: seq<World>, trail: Trail)
    requires Good(c, w0, w, seen, trail) && Inv(w') && Follows(w, w')
    ensures Good(c, w0, w', seen, trail)
  {
    FollowsTransitive(w0, w, w');
    ReadsLater(w0, seen, w, w');
    BooksLater(c, w, w', seen, trail);
    OwnIsRightLater(w, w', trail.own);
    LongerLogHoldsMore(w.s.t.audit, w'.s.t.audit);
  }

  lemma OwnEntryIsLogged(actor: string, audit0: seq<AuditEntry>, audit: seq<AuditEntry>, own: seq<Ref>, ref: Ref)
    requires OwnLogged(actor, audit0, audit, own)
    ensures OwnLogged(actor, audit0, audit + [ReindexEntry(actor, ref)], own + [ref])
  {
    assert ReindexEntries(actor, own + [ref]) == ReindexEntries(actor, own) + [ReindexEntry(actor, ref)];
  }

  lemma CheckIsBooked(w0: World, w1: World, w2: World, seen: seq<World>, checks: map<string, World>, id: string)
    requires ReadsGood(w0, seen, w1) && CheckedAfterRead(seen, w2, checks) && WasLive(seen, id)
    requires Inv(w1) && Follows(w1, w2) && id in w1.s.t.objects
    ensures CheckedAfterRead(seen, w2, checks[id := w1])
  {
    ReadIsBefore(w0, w1, seen, id);
    var more := checks[id := w1];
    forall other | other in more ensures CheckGood(seen, w2, other, more[other]) {
      if other != id { assert CheckGood(seen, w2, other, checks[other]); }
    }
  }

  lemma ReadIsBefore(w0: World, w1: World, seen: seq<World>, id: string)
    requires ReadsGood(w0, seen, w1) && WasLive(seen, id)
    ensures ReadBefore(seen, id, w1)
  {
    var i :| 0 <= i < |seen| && Live(seen[i].s.t, id);
    assert Follows(seen[i], w1);
  }

  /** The transaction of a row: it rewrites a live object, or finds it shredded. */
  lemma TxIsBooked(c: Reindexer, w0: World, w1: World, w2: World, seen: seq<World>, trail: Trail, ref: Ref)
    requires Booked(c, w0, w1, seen, trail) && Inv(w1) && Follows(w1, w2) && ref.id in w1.s.t.objects
    requires WasLive(seen, ref.id)
    requires w2.s.t.audit == w1.s.t.audit + if Live(w1.s.t, ref.id) then [ReindexEntry(c.actor, ref)] else []
    ensures Booked(c, w0, w2, seen, TrailOf(trail, w1, ref))
  {
    ReadsLater(w0, seen, w1, w2);
    BooksLater(c, w1, w2, seen, trail);
    CheckIsBooked(w0, w1, w2, seen, trail.checks, ref.id);
    if Live(w1.s.t, ref.id) { OwnEntryIsLogged(c.actor, w0.s.t.audit, w1.s.t.audit, trail.own, ref); }
  }

  lemma TxIsAccounted(c: Reindexer, w0: World, w1: World, seen: seq<World>, trail: Trail, ref: Ref,
      values: map<string, string>)
    requires Good(c, w0, w1, seen, trail) && WasLive(seen, ref.id)
    requires ref.id in w1.s.t.objects && ref.id in w1.s.h.born && w1.s.h.born[ref.id].collection == ref.collection
    ensures var w2 := RewriteTx(w1, c, ref, values);
      Good(c, w0, w2, seen, TrailOf(trail, w1, ref)) && Follows(w1, w2)
  {
    var w2 := RewriteTx(w1, c, ref, values);
    AbleLater(c, w0, w1);
    RewriteTxKeeps(w1, c, ref, values);
    RewriteTxKeepsRows(c, w1, ref, values);
    FollowsTransitive(w0, w1, w2);
    OwnIsRightThen(w1, w2, trail, ref);
    TxIsBooked(c, w0, w1, w2, seen, trail, ref);
  }

  lemma TakeIsGood(c: Reindexer, w0: World, w1: World, fails: bool, a: Tally, seen: seq<World>, ref: Ref,
      values: map<string, string>)
    requires Good(c, w0, a.w, seen, a.trail) && Inv(w1) && Follows(a.w, w1)
    requires ref.id in a.w.s.h.born && a.w.s.h.born[ref.id].collection == ref.collection && WasLive(seen, ref.id)
    ensures var b := AfterTake(c, w1, fails, a, ref, values); Good(c, w0, b.w, seen, b.trail) && Follows(a.w, b.w)
  {
    GoodLater(c, w0, a.w, w1, seen, a.trail);
    if !fails && ref.id in w1.s.t.objects {
      TxIsAccounted(c, w0, w1, seen, a.trail, ref, values);
      FollowsTransitive(a.w, w1, RewriteTx(w1, c, ref, values));
    }
  }

  lemma SkipIsFair(c: Reindexer, w: World, outage: Outage, seen: seq<World>, missed: map<string, Sealed>, row: PageRow)
    requires MissedFairly(c, w, seen, missed) && FullCopySound(w.s.h, row)
        && WasRead(seen, row.target.ref.id, row.sealed)
    requires EnvelopeValid(c.env) && ReadRow(c, outage, row).Skip?
    ensures MissedFairly(c, w, seen, missed[row.target.ref.id := row.sealed])
  {
    SkippedForAReason(c, w.s.h, outage, row);
  }

  lemma RowIsGood(c: Reindexer, others: Others, net: nat -> Outage, w0: World, a: Tally, seen: seq<World>, row: PageRow)
    requires Good(c, w0, a.w, seen, a.trail) && Inv(others(a.w, a.k)) && Follows(a.w, others(a.w, a.k))
    requires FullCopySound(a.w.s.h, row) && WasRead(seen, row.target.ref.id, row.sealed)
    ensures var b := AfterReindexRow(c, others, net, a, row); Good(c, w0, b.w, seen, b.trail) && Follows(a.w, b.w)
  {
    RowIs(c, others, net, a, row);
    SameIsFollowed(a.w);
    match ReadRow(c, net(a.k), row) {
      case Stop(_) =>
      case Skip => SkipIsFair(c, a.w, net(a.k), seen, a.trail.missed, row);
      case Take(values) =>
        ReadIsLive(seen, row.target.ref.id, row.sealed);
        TakeIsGood(c, w0, others(a.w, a.k), DATABASE in net(a.k), a, seen, row.target.ref, values);
    }
  }

  lemma ReadIsLive(seen: seq<World>, id: string, sealed: Sealed)
    requires WasRead(seen, id, sealed)
    ensures WasLive(seen, id)
  {
  }

  lemma SameIsFollowed(w: World)
    ensures Follows(w, w)
  {
  }

  // ---- the log, when nobody else reindexes ----

  /** The reindex entries since w0 are those of the run's own transactions, in order. */
  ghost predicate LogIsOwn(actor: string, w0: World, w: World, own: seq<Ref>)
  {
    w0.s.t.audit <= w.s.t.audit && NewReindexes(w0.s.t.audit, w.s.t.audit) == ReindexEntries(actor, own)
  }

  lemma NewReindexesAre(before: seq<AuditEntry>, after: seq<AuditEntry>)
    requires before <= after
    ensures Reindexes(after) == Reindexes(before) + NewReindexes(before, after)
  {
    assert after == before + after[|before|..];
    ReindexesConcat(before, after[|before|..]);
  }

  lemma LogIsOwnLater(actor: string, w0: World, w: World, w': World, own: seq<Ref>)
    requires LogIsOwn(actor, w0, w, own) && w.s.t.audit <= w'.s.t.audit && AddsNoReindex(w, w')
    ensures LogIsOwn(actor, w0, w', own)
  {
    var old0, new1, new2 := Reindexes(w0.s.t.audit), NewReindexes(w0.s.t.audit, w.s.t.audit),
      NewReindexes(w0.s.t.audit, w'.s.t.audit);
    NewReindexesAre(w0.s.t.audit, w.s.t.audit);
    NewReindexesAre(w0.s.t.audit, w'.s.t.audit);
    assert new1 == (old0 + new1)[|old0|..] && new2 == (old0 + new2)[|old0|..];
  }

  lemma LogIsOwnGrows(actor: string, w0: World, w: World, w': World, own: seq<Ref>, ref: Ref)
    requires LogIsOwn(actor, w0, w, own) && w'.s.t.audit == w.s.t.audit + [ReindexEntry(actor, ref)]
    ensures LogIsOwn(actor, w0, w', own + [ref])
  {
    var before, entry := w0.s.t.audit, ReindexEntry(actor, ref);
    assert w'.s.t.audit[|before|..] == w.s.t.audit[|before|..] + [entry];
    assert ([entry])[..0] == [];
    ReindexesConcat(w.s.t.audit[|before|..], [entry]);
    assert ReindexEntries(actor, own + [ref]) == ReindexEntries(actor, own) + [entry];
  }

  lemma TakeLogsOwn(c: Reindexer, w0: World, a: Tally, w1: World, fails: bool, ref: Ref, values: map<string, string>)
    requires LogIsOwn(c.actor, w0, a.w, a.trail.own) && a.w.s.t.audit <= w1.s.t.audit && AddsNoReindex(a.w, w1)
    ensures var b := AfterTake(c, w1, fails, a, ref, values); LogIsOwn(c.actor, w0, b.w, b.trail.own)
  {
    LogIsOwnLater(c.actor, w0, a.w, w1, a.trail.own);
    RewriteTxKeepsRows(c, w1, ref, values);
    if Live(w1.s.t, ref.id) { LogIsOwnGrows(c.actor, w0, w1, RewriteTx(w1, c, ref, values), a.trail.own, ref); }
  }

  lemma RowLogsOwn(c: Reindexer, others: Others, net: nat -> Outage, w0: World, a: Tally, row: PageRow)
    requires row.target.ObjectTarget? && LogIsOwn(c.actor, w0, a.w, a.trail.own)
    requires Follows(a.w, others(a.w, a.k)) && AddsNoReindex(a.w, others(a.w, a.k))
    ensures var b := AfterReindexRow(c, others, net, a, row); LogIsOwn(c.actor, w0, b.w, b.trail.own)
  {
    RowIs(c, others, net, a, row);
    match ReadRow(c, net(a.k), row) {
      case Stop(_) =>
      case Skip =>
      case Take(values) =>
        TakeLogsOwn(c, w0, a, others(a.w, a.k), DATABASE in net(a.k), row.target.ref, values);
    }
  }

  // ---- every object in scope gets the values of the current schema ----

  /** Objects in scope from the start that still live are indexed by the current schema, or were
      skipped, or are still ahead. */
  ghost predicate IndexedOrAhead(c: Reindexer, w0: World, w: World, missed: set<string>, filter: string,
      ids: seq<string>, i: nat)
  {
    forall id :: id in ToReindex(w0.s.t, filter) && Live(w.s.t, id) ==>
      IndexedNow(c, w, id) || id in missed || StillAhead(ids, i, id)
  }

  ghost predicate IndexedOrPast(c: Reindexer, w0: World, w: World, missed: set<string>, filter: string, last: string)
  {
    forall id :: id in ToReindex(w0.s.t, filter) && Live(w.s.t, id) ==>
      IndexedNow(c, w, id) || id in missed || Less(last, id)
  }

  /** A live row of the collection, or of any if none is named. */
  predicate InScope(t: Tables, filter: string, id: string)
  {
    id in t.objects && !t.objects[id].deleted && (filter == "" || t.objects[id].collection == filter)
  }

  /** Every object in scope from the start that still lives is indexed by the current schema, but
      for those that were skipped. */
  ghost predicate AllIndexedBut(c: Reindexer, w0: World, w: World, missed: set<string>, filter: string)
  {
    forall id :: InScope(w0.s.t, filter, id) && Live(w.s.t, id) ==> IndexedNow(c, w, id) || id in missed
  }

  lemma LiveWasLive(w: World, w': World, id: string)
    requires Follows(w, w') && id in w.s.t.objects && Live(w'.s.t, id)
    ensures Live(w.s.t, id)
  {
  }

  lemma IndexedOrPastLater(c: Reindexer, w0: World, w: World, w': World, missed: set<string>, filter: string,
      last: string)
    requires IndexedOrPast(c, w0, w, missed, filter, last) && ValuesKeptOrCurrent(c, w, w') && Follows(w0, w)
        && Follows(w, w')
    ensures IndexedOrPast(c, w0, w', missed, filter, last)
  {
    forall id | id in ToReindex(w0.s.t, filter) && Live(w'.s.t, id)
        ensures IndexedNow(c, w', id) || id in missed || Less(last, id) {
      LiveWasLive(w, w', id);
    }
  }

  lemma IndexedOrAheadLater(c: Reindexer, w0: World, w: World, w': World, missed: set<string>, filter: string,
      ids: seq<string>, i: nat)
    requires IndexedOrAhead(c, w0, w, missed, filter, ids, i) && ValuesKeptOrCurrent(c, w, w') && Follows(w0, w)
        && Follows(w, w')
    ensures IndexedOrAhead(c, w0, w', missed, filter, ids, i)
  {
    forall id | id in ToReindex(w0.s.t, filter) && Live(w'.s.t, id)
      ensures IndexedNow(c, w', id) || id in missed || StillAhead(ids, i, id)
    {
      LiveWasLive(w, w', id);
    }
  }

  /** The transaction of row i: its object is shredded or indexed by the current schema. */
  lemma TxIndexes(c: Reindexer, w0: World, w1: World, w2: World, missed: set<string>, filter: string, ids: seq<string>,
      i: nat, ref: Ref, values: map<string, string>)
    requires Rewritten(w1, w2, ref, values) && ref.id in w1.s.h.born
    requires c.indexed(w1.s.h.born[ref.id].collection, w1.s.h.born[ref.id].plaintext) == Some(values)
    requires i < |ids| && ids[i] == ref.id && IndexedOrAhead(c, w0, w1, missed, filter, ids, i)
    ensures IndexedOrAhead(c, w0, w2, missed, filter, ids, i + 1)
  {
  }

  lemma TakeIndexes(c: Reindexer, w0: World, a: Tally, w1: World, fails: bool, filter: string, ids: seq<string>, i: nat,
                    ref: Ref, values: map<string, string>)
    requires Follows(w0, a.w) && Follows(a.w, w1) && ValuesKeptOrCurrent(c, a.w, w1) && ref.id in a.w.s.h.born
    requires c.indexed(a.w.s.h.born[ref.id].collection, a.w.s.h.born[ref.id].plaintext) == Some(values)
    requires i < |ids| && ids[i] == ref.id && IndexedOrAhead(c, w0, a.w, a.trail.missed.Keys, filter, ids, i)
    ensures var b := AfterTake(c, w1, fails, a, ref, values);
      b.err.None? ==> IndexedOrAhead(c, w0, b.w, b.trail.missed.Keys, filter, ids, i + 1)
  {
    IndexedOrAheadLater(c, w0, a.w, w1, a.trail.missed.Keys, filter, ids, i);
    RewriteTxKeepsRows(c, w1, ref, values);
    TxIndexes(c, w0, w1, RewriteTx(w1, c, ref, values), a.trail.missed.Keys, filter, ids, i, ref, values);
  }

  lemma RowIndexes(c: Reindexer, others: Others, net: nat -> Outage, w0: World, a: Tally, filter: string,
      ids: seq<string>, i: nat, row: PageRow)
    requires EnvelopeValid(c.env) && FullCopySound(a.w.s.h, row) && Follows(w0, a.w) && Follows(a.w, others(a.w, a.k))
    requires ValuesKeptOrCurrent(c, a.w, others(a.w, a.k))
    requires i < |ids| && ids[i] == row.target.ref.id && IndexedOrAhead(c, w0, a.w, a.trail.missed.Keys, filter, ids, i)
    ensures var b := AfterReindexRow(c, others, net, a, row);
      b.err.None? ==> IndexedOrAhead(c, w0, b.w, b.trail.missed.Keys, filter, ids, i + 1)
  {
    RowIs(c, others, net, a, row);
    match ReadRow(c, net(a.k), row) {
      case Stop(_) =>
      case Skip =>
      case Take(values) =>
        ReadRowIsIndexed(c, a.w.s.h, net(a.k), row);
        TakeIndexes(c, w0, a, others(a.w, a.k), DATABASE in net(a.k), filter, ids, i, row.target.ref, values);
    }
  }

  // ---- nothing else is reindexed ----

  predicate Covers(filter: string, collection: string) { collection == filter || filter == "" }

  /** Where an object from before has other values than before, it is in scope and they are
      those of the current schema; a skipped object keeps its own. */
  ghost predicate OnlyIndexed(c: Reindexer, w0: World, w: World, missed: set<string>, filter: string)
  {
    forall id :: id in w0.s.h.values ==>
      id in w.s.h.values && (w.s.h.values[id] == w0.s.h.values[id] || (id !in missed && ReindexedIn(c, w, filter, id)))
  }

  ghost predicate ReindexedIn(c: Reindexer, w: World, filter: string, id: string)
  {
    IndexedNow(c, w, id) && Covers(filter, w.s.h.born[id].collection)
  }

  lemma OnlyIndexedLater(c: Reindexer, w0: World, w: World, w': World, missed: set<string>, filter: string)
    requires OnlyIndexed(c, w0, w, missed, filter) && ValuesKept(w, w') && Follows(w, w')
    ensures OnlyIndexed(c, w0, w', missed, filter)
  {
  }

  lemma RewrittenOnlyIndexed(c: Reindexer, w0: World, w: World, w': World, missed: set<string>, filter: string,
      ref: Ref, values: map<string, string>)
    requires Rewritten(w, w', ref, values) && ref.id in w.s.h.born && Covers(filter, w.s.h.born[ref.id].collection)
    requires c.indexed(w.s.h.born[ref.id].collection, w.s.h.born[ref.id].plaintext) == Some(values)
    requires OnlyIndexed(c, w0, w, missed, filter) && ref.id !in missed
    ensures OnlyIndexed(c, w0, w', missed, filter)
  {
  }

  lemma TakeOnlyIndexes(c: Reindexer, w0: World, a: Tally, w1: World, fails: bool, filter: string, ref: Ref,
      values: map<string, string>)
    requires Follows(a.w, w1) && ValuesKept(a.w, w1) && ref.id in a.w.s.h.born
    requires a.w.s.h.born[ref.id].collection == ref.collection && Covers(filter, ref.collection)
    requires c.indexed(a.w.s.h.born[ref.id].collection, a.w.s.h.born[ref.id].plaintext) == Some(values)
    requires OnlyIndexed(c, w0, a.w, a.trail.missed.Keys, filter) && ref.id !in a.trail.missed
    ensures var b := AfterTake(c, w1, fails, a, ref, values); OnlyIndexed(c, w0, b.w, b.trail.missed.Keys, filter)
  {
    OnlyIndexedLater(c, w0, a.w, w1, a.trail.missed.Keys, filter);
    RewriteTxKeepsRows(c, w1, ref, values);
    RewrittenOnlyIndexed(c, w0, w1, RewriteTx(w1, c, ref, values), a.trail.missed.Keys, filter, ref, values);
  }

  /** A row past the cursor was not dealt with before, so what was indexed for it is from before. */
  ghost predicate PastIsFresh(w0: World, w: World, last: string)
  {
    forall id :: id in w0.s.h.values && Less(last, id) ==> id in w.s.h.values && w.s.h.values[id] == w0.s.h.values[id]
  }

  lemma RowOnlyIndexes(c: Reindexer, others: Others, net: nat -> Outage, w0: World, a: Tally, filter: string,
      row: PageRow)
    requires EnvelopeValid(c.env) && FullCopySound(a.w.s.h, row) && Follows(a.w, others(a.w, a.k))
        && ValuesKept(a.w, others(a.w, a.k))
    requires Covers(filter, row.target.ref.collection) && row.target.ref.id !in a.trail.missed
    requires OnlyIndexed(c, w0, a.w, a.trail.missed.Keys, filter) && PastIsFresh(w0, a.w, a.last)
        && Less(a.last, row.target.ref.id)
    ensures var b := AfterReindexRow(c, others, net, a, row); OnlyIndexed(c, w0, b.w, b.trail.missed.Keys, filter)
  {
    RowIs(c, others, net, a, row);
    match ReadRow(c, net(a.k), row) {
      case Stop(_) =>
      case Skip =>
      case Take(values) =>
        ReadRowIsIndexed(c, a.w.s.h, net(a.k), row);
        TakeOnlyIndexes(c, w0, a, others(a.w, a.k), DATABASE in net(a.k), filter, row.target.ref, values);
    }
  }

  lemma RowKeepsPastFresh(c: Reindexer, others: Others, net: nat -> Outage, w0: World, a: Tally, row: PageRow)
    requires row.target.ObjectTarget? && ValuesKept(a.w, others(a.w, a.k))
    requires PastIsFresh(w0, a.w, a.last) && Less(a.last, row.target.ref.id)
    ensures PastIsFresh(w0, AfterReindexRow(c, others, net, a, row).w, row.target.ref.id)
  {
    RowIs(c, others, net, a, row);
    var id := row.target.ref.id;
    LessIrreflexive(id);
    forall x | Less(id, x) ensures Less(a.last, x) { LessTransitive(a.last, id, x); }
    match ReadRow(c, net(a.k), row) {
      case Stop(_) =>
      case Skip =>
      case Take(values) => RewriteTxKeepsRows(c, others(a.w, a.k), row.target.ref, values);
    }
  }

  // ---- alone: exactly the rows that can be read are rewritten ----

  /** The object opens and the schema can read it, when every backend answers. */
  predicate Reads(c: Reindexer, t: Tables, id: string)
    requires id in t.objects
  {
    ReadRow(c, {}, RowCopy(t, id)).Take?
  }

  ghost function ReadUpTo(c: Reindexer, t: Tables, filter: string, last: string): set<string>
  {
    set id | id in t.objects && id in ToReindex(t, filter) && !Less(last, id) && Reads(c, t, id)
  }

  ghost function UnreadUpTo(c: Reindexer, t: Tables, filter: string, last: string): set<string>
  {
    set id | id in t.objects && id in ToReindex(t, filter) && !Less(last, id) && !Reads(c, t, id)
  }

  ghost function AllRead(c: Reindexer, t: Tables, filter: string): set<string>
  {
    set id | id in t.objects && id in ToReindex(t, filter) && Reads(c, t, id)
  }

  ghost function AllUnread(c: Reindexer, t: Tables, filter: string): set<string>
  {
    set id | id in t.objects && id in ToReindex(t, filter) && !Reads(c, t, id)
  }

  function ReadValues(c: Reindexer, t: Tables, id: string): map<string, string>
    requires id in t.objects && Reads(c, t, id)
  {
    ReadRow(c, {}, RowCopy(t, id)).values
  }

  /** The values after exactly these objects were rewritten. */
  ghost function Rebuilt(c: Reindexer, s: State, ids: set<string>): map<string, map<string, string>>
    requires forall id :: id in ids ==> id in s.t.objects && Reads(c, s.t, id)
  {
    map id | id in s.h.values.Keys + ids :: if id in ids then ReadValues(c, s.t, id) else s.h.values[id]
  }

  /** The run has rewritten exactly the rows of ids, in order, each with its entry, and skipped
      exactly the rows of unread. */
  ghost predicate RewroteExactly(c: Reindexer, s0: State, s: State, trail: Trail, ids: set<string>, unread: set<string>)
  {
    && (forall id :: id in ids ==> id in s0.t.objects && Reads(c, s0.t, id))
    && s.t.objects == s0.t.objects && s.h.values == Rebuilt(c, s0, ids)
    && s.t.audit == s0.t.audit + ReindexEntries(c.actor, trail.own)
    && Lists(Ids(trail.own), ids) && trail.missed.Keys == unread && FoundShredded(trail.checks) == {}
  }

  ghost predicate AloneTally(c: Reindexer, s0: State, filter: string, a: Tally)
  {
    && a.err.None?
    && RewroteExactly(c, s0, a.w.s, a.trail, ReadUpTo(c, s0.t, filter, a.last), UnreadUpTo(c, s0.t, filter, a.last))
  }

  lemma UpToGrows(c: Reindexer, t0: Tables, filter: string, last: string, next: string)
    requires NextIn(ToReindex(t0, filter), last, next)
    ensures next in t0.objects
    ensures ReadUpTo(c, t0, filter, next) == ReadUpTo(c, t0, filter, last) + if Reads(c, t0, next) then {next} else {}
    ensures UnreadUpTo(c, t0, filter, next) == UnreadUpTo(c, t0, filter, last) + if Reads(c, t0, next) then {}
        else {next}
    ensures forall id :: id in ReadUpTo(c, t0, filter, last) + UnreadUpTo(c, t0, filter, last) ==> Less(id, next)
  {
    UpToNext(ToReindex(t0, filter), last, next);
    BeforeNext(last, next);
  }

  lemma NeverStops(c: Reindexer, row: PageRow)
    requires row.target.ObjectTarget?
    ensures !ReadRow(c, {}, row).Stop?
  {
  }

  lemma AloneSkip(c: Reindexer, s0: State, filter: string, a: Tally, id: string)
    requires AloneTally(c, s0, filter, a) && NextIn(ToReindex(s0.t, filter), a.last, id)
    requires id in s0.t.objects && !Reads(c, s0.t, id)
    ensures AloneTally(c, s0, filter, AfterSkip(a, RowCopy(s0.t, id)))
  {
    UpToGrows(c, s0.t, filter, a.last, id);
    assert ReadUpTo(c, s0.t, filter, id) == ReadUpTo(c, s0.t, filter, a.last);
  }

  lemma RebuiltGrows(c: Reindexer, s0: State, ids: set<string>, id: string)
    requires forall x :: x in ids + {id} ==> x in s0.t.objects && Reads(c, s0.t, x)
    ensures Rebuilt(c, s0, ids + {id}) == Rebuilt(c, s0, ids)[id := ReadValues(c, s0.t, id)]
  {
  }

  lemma EntriesGrow(actor: string, own: seq<Ref>, ref: Ref)
    ensures Ids(own + [ref]) == Ids(own) + [ref.id]
    ensures ReindexEntries(actor, own + [ref]) == ReindexEntries(actor, own) + [ReindexEntry(actor, ref)]
  {
  }

  lemma RewritesOneMore(c: Reindexer, s0: State, s: State, s': State, trail: Trail, ids: set<string>,
      unread: set<string>, ref: Ref, w: World)
    requires RewroteExactly(c, s0, s, trail, ids, unread) && forall x :: x in ids ==> Less(x, ref.id)
    requires ref.id in s0.t.objects && Reads(c, s0.t, ref.id) && Live(w.s.t, ref.id)
    requires s'.t.objects == s.t.objects && s'.h.values == s.h.values[ref.id := ReadValues(c, s0.t, ref.id)]
    requires s'.t.audit == s.t.audit + [ReindexEntry(c.actor, ref)]
    ensures RewroteExactly(c, s0, s', TrailOf(trail, w, ref), ids + {ref.id}, unread)
  {
    assert FoundShredded(trail.checks[ref.id := w]) <= FoundShredded(trail.checks);
    ListGrows(Ids(trail.own), ids, ref.id);
    EntriesGrow(c.actor, trail.own, ref);
    RebuiltGrows(c, s0, ids, ref.id);
  }

  lemma AloneTake(c: Reindexer, s0: State, filter: string, a: Tally, id: string)
    requires AloneTally(c, s0, filter, a) && NextIn(ToReindex(s0.t, filter), a.last, id)
    requires id in s0.t.objects && Reads(c, s0.t, id) && !s0.t.objects[id].deleted
    ensures AloneTally(c, s0, filter, AfterTake(c, a.w, false, a, RowCopy(s0.t, id).target.ref,
        ReadValues(c, s0.t, id)))
  {
    var ref := RowCopy(s0.t, id).target.ref;
    UpToGrows(c, s0.t, filter, a.last, id);
    RewriteTxKeepsRows(c, a.w, ref, ReadValues(c, s0.t, id));
    RewritesOneMore(c, s0, a.w.s, RewriteTx(a.w, c, ref, ReadValues(c, s0.t, id)).s, a.trail,
                    ReadUpTo(c, s0.t, filter, a.last), UnreadUpTo(c, s0.t, filter, a.last), ref, a.w);
  }

  lemma AloneRow(c: Reindexer, others: Others, net: nat -> Outage, s0: State, filter: string, a: Tally, id: string)
    requires QuietFrom(others, 0) && net(a.k) == {} && AloneTally(c, s0, filter, a)
        && NextIn(ToReindex(s0.t, filter), a.last, id)
    ensures id in s0.t.objects
    ensures var b := AfterReindexRow(c, others, net, a, RowCopy(s0.t, id)); AloneTally(c, s0, filter, b) && b.last == id
  {
    var row := RowCopy(s0.t, id);
    NeverStops(c, row);
    RowIs(c, others, net, a, row);
    match ReadRow(c, {}, row) {
      case Stop(_) =>
      case Skip => AloneSkip(c, s0, filter, a, id);
      case Take(values) => AloneTake(c, s0, filter, a, id);
    }
  }

  // ---- a run ----

  /** Under which assumptions a run goes, from which world, over which collection: others keep the
      invariant; others that reindex do so by the same schema; nobody else changes what is indexed, or
      writes an entry that says so; nobody else does anything. */
  datatype Mandate = Mandate(w0: World, filter: string, good: bool, same: bool, keeping: bool, unlogged: bool,
      alone: bool)

  /** Whatever the world grants a run. */
  ghost function MandateOf(w: World, c: Reindexer, filter: string, others: Others, net: nat -> Outage): Mandate
  {
    var good := Rely(others) && Inv(w) && Able(c, w);
    Mandate(w, filter, good, good && SameSchema(c, others) && PendingRight(c, w), good && KeepValues(others),
      good && LogNoReindex(others), QuietFrom(others, 0) && (forall n :: net(n) == {}) && "" !in w.s.t.objects)
  }

  lemma MandateOfHolds(w: World, c: Reindexer, filter: string, others: Others, net: nat -> Outage)
    ensures MandateHolds(MandateOf(w, c, filter, others, net), c, others, net)
  {
  }

  lemma AloneMandate(w: World, c: Reindexer, filter: string, others: Others, net: nat -> Outage)
    requires Inv(w) && Able(c, w) && QuietFrom(others, 0) && forall n :: net(n) == {}
    ensures var m := MandateOf(w, c, filter, others, net); m.good && m.alone
  {
    QuietIsRely(others);
  }

  ghost predicate MandateHolds(m: Mandate, c: Reindexer, others: Others, net: nat -> Outage)
  {
    && (m.good ==> Rely(others) && Able(c, m.w0))
    && (m.same ==> m.good && SameSchema(c, others))
    && (m.keeping ==> m.good && KeepValues(others))
    && (m.unlogged ==> m.good && LogNoReindex(others))
    && (m.alone ==> QuietFrom(others, 0) && forall n :: net(n) == {})
  }

  /** What holds throughout, also of a run that stops. */
  ghost predicate Safe(m: Mandate, c: Reindexer, seen: seq<World>, a: Tally)
  {
    && Accounts(a)
    && (m.good ==> Good(c, m.w0, a.w, seen, a.trail))
    && (m.same ==> PendingRight(c, a.w))
    && (m.keeping ==> OnlyIndexed(c, m.w0, a.w, a.trail.missed.Keys, m.filter) && PastIsFresh(m.w0, a.w, a.last))
    && (m.unlogged ==> LogIsOwn(c.actor, m.w0, a.w, a.trail.own))
  }

  /** It does not depend on the statement counter or the error. */
  lemma SafeIsOfTheWorld(m: Mandate, c: Reindexer, seen: seq<World>, a: Tally, b: Tally)
    requires Safe(m, c, seen, a)
    requires b.w == a.w && b.done == a.done && b.skipped == a.skipped && b.last == a.last && b.trail == a.trail
    ensures Safe(m, c, seen, b)
  {
  }

  lemma StopIsSafe(m: Mandate, c: Reindexer, seen: seq<World>, a: Tally)
    requires Underway(m, c, seen, a)
    ensures Safe(m, c, seen, a.(err := Some(StatementFailed)))
  {
    SafeIsOfTheWorld(m, c, seen, a, a.(err := Some(StatementFailed)));
  }

  /** Between two pages. */
  ghost predicate Underway(m: Mandate, c: Reindexer, seen: seq<World>, a: Tally)
  {
    && Safe(m, c, seen, a) && a.err.None?
    && (m.keeping || m.same ==> IndexedOrPast(c, m.w0, a.w, a.trail.missed.Keys, m.filter, a.last))
    && (m.alone ==> AloneTally(c, m.w0.s, m.filter, a))
  }

  /** What a run that ends has achieved. */
  ghost predicate Finished(m: Mandate, c: Reindexer, a: Tally)
  {
    && (m.keeping || m.same ==> AllIndexedBut(c, m.w0, a.w, a.trail.missed.Keys, m.filter))
    && (m.alone ==> RewroteAll(c, m.w0.s, a.w.s, a.trail, a.done, a.skipped, m.filter))
  }

  /** Alone: exactly what can be read was rewritten, in order; the rest was skipped. */
  ghost predicate RewroteAll(c: Reindexer, s0: State, s: State, trail: Trail, done: nat, skipped: nat, filter: string)
  {
    && RewroteExactly(c, s0, s, trail, AllRead(c, s0.t, filter), AllUnread(c, s0.t, filter))
    && Ids(trail.own) == Ascending(AllRead(c, s0.t, filter))
    && done == |AllRead(c, s0.t, filter)| && skipped == |AllUnread(c, s0.t, filter)|
  }

  /** The rows of a page from i on: past the cursor, ascending, in scope. */
  ghost predicate PageRest(filter: string, last: string, page: seq<PageRow>, ids: seq<string>, i: nat)
  {
    && |page| == |ids| && i <= |page| && IsAscending(ids) && (i < |ids| ==> Less(last, ids[i]))
    && forall j :: 0 <= j < |page| ==>
         page[j].target.ObjectTarget? && page[j].target.ref.id == ids[j]
             && Covers(filter, page[j].target.ref.collection)
  }

  ghost predicate PageSeen(seen: seq<World>, page: seq<PageRow>)
  {
    forall j :: 0 <= j < |page| ==> page[j].target.ObjectTarget? && WasRead(seen, page[j].target.ref.id, page[j].sealed)
  }

  /** At row i of a page. */
  ghost predicate OnPage(m: Mandate, c: Reindexer, seen: seq<World>, a: Tally, page: seq<PageRow>, ids: seq<string>,
      i: nat)
  {
    && Safe(m, c, seen, a) && a.err.None? && PageRest(m.filter, a.last, page, ids, i)
    && (m.good ==> FullCopies(a.w.s.h, page) && PageSeen(seen, page))
    && (m.keeping || m.same ==> IndexedOrAhead(c, m.w0, a.w, a.trail.missed.Keys, m.filter, ids, i))
    && (m.alone ==> AloneTally(c, m.w0.s, m.filter, a) && PagePart(m.w0.s.t, ToReindex(m.w0.s.t, m.filter), a.last,
      page, ids, i))
  }

  /** What others do before a statement of ours. */
  ghost predicate Calm(m: Mandate, c: Reindexer, w: World, w': World)
  {
    && (m.good ==> Inv(w') && Follows(w, w'))
    && (m.same ==> PendingRight(c, w'))
    && (m.keeping ==> ValuesKept(w, w'))
    && (m.unlogged ==> AddsNoReindex(w, w'))
    && (m.keeping || m.same ==> ValuesKeptOrCurrent(c, w, w'))
  }

  lemma OthersAreCalm(m: Mandate, c: Reindexer, others: Others, net: nat -> Outage, w: World, k: nat)
    requires MandateHolds(m, c, others, net) && (m.good ==> Inv(w)) && (m.same ==> PendingRight(c, w))
    ensures Calm(m, c, w, others(w, k))
  {
  }

  lemma RowKeepsRight(c: Reindexer, others: Others, net: nat -> Outage, a: Tally, row: PageRow)
    requires row.target.ObjectTarget? && PendingRight(c, a.w) && PendingRight(c, others(a.w, a.k))
    ensures PendingRight(c, AfterReindexRow(c, others, net, a, row).w)
  {
    RowIs(c, others, net, a, row);
    match ReadRow(c, net(a.k), row) {
      case Stop(_) =>
      case Skip =>
      case Take(values) => TxKeepsRight(c, others(a.w, a.k), row.target.ref, values);
    }
  }

  lemma TxKeepsRight(c: Reindexer, w: World, ref: Ref, values: map<string, string>)
    requires PendingRight(c, w)
    ensures PendingRight(c, RewriteTx(w, c, ref, values))
  {
    RewriteTxKeepsRows(c, w, ref, values);
    PendingRightLater(c, w, RewriteTx(w, c, ref, values).s.h);
  }

  /** One row further: what holds throughout. */
  lemma RowIsSafe(m: Mandate, c: Reindexer, others: Others, net: nat -> Outage, seen: seq<World>, a: Tally,
      row: PageRow)
    requires Safe(m, c, seen, a) && (m.good ==> EnvelopeValid(c.env))
    requires (m.keeping || m.same || m.unlogged ==> m.good) && Calm(m, c, a.w, others(a.w, a.k))
    requires row.target.ObjectTarget? && Less(a.last, row.target.ref.id)
    requires Covers(m.filter, row.target.ref.collection)
    requires m.good ==> FullCopySound(a.w.s.h, row) && WasRead(seen, row.target.ref.id, row.sealed)
    ensures var b := AfterReindexRow(c, others, net, a, row);
      Safe(m, c, seen, b) && b.last == row.target.ref.id && (m.good ==> Follows(a.w, b.w))
  {
    RowKeepsAccounts(c, others, net, a, row);
    if m.good { RowIsGood(c, others, net, m.w0, a, seen, row); }
    if m.unlogged { RowLogsOwn(c, others, net, m.w0, a, row); }
    if m.same { RowKeepsRight(c, others, net, a, row); }
    if m.keeping {
      RowOnlyIndexes(c, others, net, m.w0, a, m.filter, row);
      RowKeepsPastFresh(c, others, net, m.w0, a, row);
    }
  }

  /** One row further on a page. */
  lemma RowGoesOn(m: Mandate, c: Reindexer, others: Others, net: nat -> Outage, seen: seq<World>, a: Tally,
                  page: seq<PageRow>, ids: seq<string>, i: nat)
    requires OnPage(m, c, seen, a, page, ids, i) && (m.good ==> EnvelopeValid(c.env))
        && (m.keeping || m.same || m.unlogged ==> m.good)
    requires Calm(m, c, a.w, others(a.w, a.k)) && i < |page| && (m.alone ==> QuietFrom(others, 0) && net(a.k) == {})
    ensures page[i].target.ObjectTarget?
    ensures var b := AfterReindexRow(c, others, net, a, page[i]);
      Safe(m, c, seen, b) && (b.err.None? ==> OnPage(m, c, seen, b, page, ids, i + 1)) && (m.alone ==> b.err.None?)
  {
    var b := AfterReindexRow(c, others, net, a, page[i]);
    if m.good { assert FullCopySound(a.w.s.h, page[i]) && WasRead(seen, page[i].target.ref.id, page[i].sealed); }
    RowIsSafe(m, c, others, net, seen, a, page[i]);
    if m.good { FullCopiesLater(a.w.s.h, b.w.s.h, page); }
    if m.keeping || m.same { RowIndexes(c, others, net, m.w0, a, m.filter, ids, i, page[i]); }
    if m.alone {
      PagePartNext(m.w0.s.t, ToReindex(m.w0.s.t, m.filter), a.last, page, ids, i);
      AloneRow(c, others, net, m.w0.s, m.filter, a, ids[i]);
    }
  }

  ghost predicate RowsGone(m: Mandate, c: Reindexer, seen: seq<World>, z: Tally, page: seq<PageRow>, ids: seq<string>,
      i: nat)
  {
    Safe(m, c, seen, z) && (z.err.None? ==> OnPage(m, c, seen, z, page, ids, i)) && (m.alone ==> z.err.None?)
  }

  lemma RowGoesOnAmong(m: Mandate, c: Reindexer, others: Others, net: nat -> Outage, seen: seq<World>, a: Tally,
      page: seq<PageRow>, ids: seq<string>, i: nat)
    requires MandateHolds(m, c, others, net) && OnPage(m, c, seen, a, page, ids, i) && ObjectRows(page) && i < |page|
    ensures RowsGone(m, c, seen, AfterReindexRow(c, others, net, a, page[i]), page, ids, i + 1)
  {
    OthersAreCalm(m, c, others, net, a.w, a.k);
    RowGoesOn(m, c, others, net, seen, a, page, ids, i);
  }

  lemma {:induction false} RowsGoOn(m: Mandate, c: Reindexer, others: Others, net: nat -> Outage, seen: seq<World>,
      a: Tally, page: seq<PageRow>, ids: seq<string>, i: nat)
    requires MandateHolds(m, c, others, net) && OnPage(m, c, seen, a, page, ids, i) && ObjectRows(page)
    ensures RowsGone(m, c, seen, AfterReindexRows(c, others, net, a, page[i..]), page, ids, |page|)
    decreases |page| - i
  {
    if i == |page| {
      assert page[i..] == [];
    } else {
      AfterReindexRowsStep(c, others, net, a, page, i);
      RowGoesOnAmong(m, c, others, net, seen, a, page, ids, i);
      var b := AfterReindexRow(c, others, net, a, page[i]);
      if b.err.None? { RowsGoOn(m, c, others, net, seen, b, page, ids, i + 1); }
    }
  }

  // ---- from page to page ----

  /** The rows of a page, in an order where nothing is missed: what one SELECT answers. */
  ghost predicate PageToReindex(filter: string, b: Tally, page: seq<PageRow>, ids: seq<string>)
  {
    PageOf(page, ids, b.w.s.t, ToReindex(b.w.s.t, filter), b.last)
  }

  lemma InterferenceStaysUnderway(m: Mandate, c: Reindexer, others: Others, net: nat -> Outage, seen: seq<World>,
      a: Tally)
    requires MandateHolds(m, c, others, net) && Underway(m, c, seen, a)
    ensures Underway(m, c, seen, a.(w := others(a.w, a.k), k := a.k + 1))
  {
    OthersAreCalm(m, c, others, net, a.w, a.k);
    CalmStaysUnderway(m, c, seen, a, others(a.w, a.k));
  }

  lemma PastIsFreshLater(w0: World, w: World, w': World, last: string)
    requires PastIsFresh(w0, w, last) && ValuesKept(w, w')
    ensures PastIsFresh(w0, w', last)
  {
  }

  lemma CalmStaysSafe(m: Mandate, c: Reindexer, seen: seq<World>, a: Tally, w1: World, k: nat)
    requires Safe(m, c, seen, a) && Calm(m, c, a.w, w1) && (m.keeping || m.unlogged ==> m.good)
    ensures Safe(m, c, seen, a.(w := w1, k := k))
  {
    if m.good { GoodLater(c, m.w0, a.w, w1, seen, a.trail); }
    if m.keeping {
      OnlyIndexedLater(c, m.w0, a.w, w1, a.trail.missed.Keys, m.filter);
      PastIsFreshLater(m.w0, a.w, w1, a.last);
    }
    if m.unlogged { LogIsOwnLater(c.actor, m.w0, a.w, w1, a.trail.own); }
  }

  lemma CalmStaysUnderway(m: Mandate, c: Reindexer, seen: seq<World>, a: Tally, w1: World)
    requires Underway(m, c, seen, a) && Calm(m, c, a.w, w1) && (m.keeping || m.same || m.unlogged ==> m.good)
    requires m.alone ==> w1 == a.w
    ensures Underway(m, c, seen, a.(w := w1, k := a.k + 1))
  {
    CalmStaysSafe(m, c, seen, a, w1, a.k + 1);
    if m.keeping || m.same {
      assert Good(c, m.w0, a.w, seen, a.trail);
      IndexedOrPastLater(c, m.w0, a.w, w1, a.trail.missed.Keys, m.filter, a.last);
    }
  }

  lemma SeenMore(c: Reindexer, w0: World, w: World, seen: seq<World>, trail: Trail)
    requires Good(c, w0, w, seen, trail)
    ensures Good(c, w0, w, seen + [w], trail)
  {
    SameIsFollowed(w);
    forall id | id in trail.missed ensures WasRead(seen + [w], id, trail.missed[id]) {
      var i :| 0 <= i < |seen| && Live(seen[i].s.t, id) && seen[i].s.t.objects[id].sealed == trail.missed[id];
      assert (seen + [w])[i] == seen[i];
    }
    CheckedMore(seen, w, trail.checks);
  }

  lemma CheckedMore(seen: seq<World>, w: World, checks: map<string, World>)
    requires CheckedAfterRead(seen, w, checks)
    ensures CheckedAfterRead(seen + [w], w, checks)
  {
    forall id | id in checks ensures CheckGood(seen + [w], w, id, checks[id]) {
      assert CheckGood(seen, w, id, checks[id]);
      ReadBeforeMore(seen, w, id, checks[id]);
    }
  }

  lemma ReadBeforeMore(seen: seq<World>, w: World, id: string, at: World)
    requires ReadBefore(seen, id, at)
    ensures ReadBefore(seen + [w], id, at)
  {
    var i :| 0 <= i < |seen| && Live(seen[i].s.t, id) && Follows(seen[i], at);
    assert (seen + [w])[i] == seen[i];
  }

  lemma PageIsSeen(filter: string, b: Tally, page: seq<PageRow>, ids: seq<string>, seen: seq<World>)
    requires PageToReindex(filter, b, page, ids) && Sound(b.w.s.h, b.w.s.t)
    ensures FullCopies(b.w.s.h, page) && PageSeen(seen + [b.w], page)
  {
    assert (seen + [b.w])[|seen|] == b.w;
    forall i | 0 <= i < |page|
      ensures FullCopySound(b.w.s.h, page[i]) && WasRead(seen + [b.w], page[i].target.ref.id, page[i].sealed)
    {
      assert RowSound(b.w.s.h, ids[i], b.w.s.t.objects[ids[i]]);
    }
  }

  lemma PageIsRest(filter: string, b: Tally, page: seq<PageRow>, ids: seq<string>)
    requires PageToReindex(filter, b, page, ids)
    ensures PageRest(filter, b.last, page, ids, 0) && ObjectRows(page)
  {
  }

  lemma AheadOnPage(c: Reindexer, w0: World, b: Tally, filter: string, page: seq<PageRow>, ids: seq<string>)
    requires PageToReindex(filter, b, page, ids) && Follows(w0, b.w)
    requires IndexedOrPast(c, w0, b.w, b.trail.missed.Keys, filter, b.last)
    ensures IndexedOrAhead(c, w0, b.w, b.trail.missed.Keys, filter, ids, 0)
  {
  }

  lemma AlonePage(c: Reindexer, s0: State, b: Tally, filter: string, page: seq<PageRow>, ids: seq<string>)
    requires AloneTally(c, s0, filter, b) && PageToReindex(filter, b, page, ids)
    ensures PagePart(s0.t, ToReindex(s0.t, filter), b.last, page, ids, 0)
  {
    assert forall j :: 0 <= j < |page| ==> page[j] == RowCopy(s0.t, ids[j]);
  }

  lemma PageBegins(m: Mandate, c: Reindexer, seen: seq<World>, b: Tally, page: seq<PageRow>, ids: seq<string>)
    requires Underway(m, c, seen, b) && PageToReindex(m.filter, b, page, ids) && (m.keeping || m.same ==> m.good)
    ensures OnPage(m, c, seen + [b.w], b, page, ids, 0) && ObjectRows(page)
  {
    PageIsRest(m.filter, b, page, ids);
    if m.good {
      SeenMore(c, m.w0, b.w, seen, b.trail);
      PageIsSeen(m.filter, b, page, ids, seen);
    }
    if m.keeping || m.same { AheadOnPage(c, m.w0, b, m.filter, page, ids); }
    if m.alone { AlonePage(c, m.w0.s, b, m.filter, page, ids); }
  }

  lemma PageEnds(m: Mandate, c: Reindexer, seen: seq<World>, z: Tally, page: seq<PageRow>, ids: seq<string>)
    requires OnPage(m, c, seen, z, page, ids, |page|) && page != [] && z.last == ids[|ids| - 1]
    ensures Underway(m, c, seen, z)
  {
  }

  lemma {:induction false} ReindexRowsAdvance(c: Reindexer, others: Others, net: nat -> Outage, a: Tally,
      page: seq<PageRow>)
    requires ObjectRows(page)
    ensures var z := AfterReindexRows(c, others, net, a, page);
      && z.k >= a.k && (page != [] && z.err.None? ==> z.last == page[|page| - 1].target.ref.id)
      && (QuietFrom(others, a.k) ==> z.w.s.t.objects.Keys == a.w.s.t.objects.Keys)
    decreases |page|
  {
    if page != [] {
      var b := AfterReindexRow(c, others, net, a, page[0]);
      RowAdvances(c, others, net, a, page[0]);
      if b.err.None? { ReindexRowsAdvance(c, others, net, b, page[1..]); }
    }
  }

  lemma RowAdvances(c: Reindexer, others: Others, net: nat -> Outage, a: Tally, row: PageRow)
    requires row.target.ObjectTarget?
    ensures var b := AfterReindexRow(c, others, net, a, row);
      && b.k >= a.k && b.last == row.target.ref.id
      && (QuietFrom(others, a.k) ==> b.w.s.t.objects.Keys == a.w.s.t.objects.Keys)
  {
    RowIs(c, others, net, a, row);
    match ReadRow(c, net(a.k), row) {
      case Stop(_) =>
      case Skip =>
      case Take(values) => RewriteTxKeepsRows(c, others(a.w, a.k), row.target.ref, values);
    }
  }

  /** What one page leaves: the next one may be read, and once the others are done it lies further up. */
  ghost predicate PageDone(m: Mandate, c: Reindexer, others: Others, seen: seq<World>, b: Tally, z: Tally)
  {
    && Safe(m, c, seen, z) && (z.err.None? ==> Underway(m, c, seen, z)) && (m.alone ==> z.err.None?) && z.k >= b.k
    && (z.err.None? && QuietFrom(others, b.k)
        ==> |After(z.w.s.t.objects.Keys, z.last)| < |After(b.w.s.t.objects.Keys, b.last)|)
  }

  /** Where a run stands after a turn, which may have been its last one. */
  ghost predicate Stands(m: Mandate, c: Reindexer, seen: seq<World>, t: Turn)
  {
    && Safe(m, c, seen, t.a) && (m.alone ==> t.a.err.None?)
    && (t.a.err.None? && !t.more ==> Finished(m, c, Tally(t.a.w, 0, t.a.done, t.a.skipped, "", None, t.a.trail)))
    && (t.a.err.None? && t.more ==> Underway(m, c, seen, t.a))
  }

  ghost predicate TurnDone(m: Mandate, c: Reindexer, others: Others, seen: seq<World>, b: Tally, t: Turn)
  {
    && Stands(m, c, seen, t) && t.a.k >= b.k
    && (t.a.err.None? && t.more && QuietFrom(others, b.k) ==>
          |After(t.a.w.s.t.objects.Keys, t.a.last)| < |After(b.w.s.t.objects.Keys, b.last)|)
  }

  lemma TurnDoneFrom(m: Mandate, c: Reindexer, others: Others, seen: seq<World>, a: Tally, t: Turn)
    requires TurnDone(m, c, others, seen, a.(w := others(a.w, a.k), k := a.k + 1), t)
    ensures TurnDone(m, c, others, seen, a, t)
  {
  }

  lemma PageGoes(m: Mandate, c: Reindexer, others: Others, net: nat -> Outage, seen: seq<World>, b: Tally,
                 page: seq<PageRow>, ids: seq<string>)
    requires MandateHolds(m, c, others, net) && Underway(m, c, seen, b) && PageToReindex(m.filter, b, page, ids)
        && page != []
    ensures ObjectRows(page) && PageDone(m, c, others, seen + [b.w], b, AfterReindexRows(c, others, net, b, page))
  {
    PageBegins(m, c, seen, b, page, ids);
    assert page[0..] == page;
    RowsGoOn(m, c, others, net, seen + [b.w], b, page, ids, 0);
    PageAdvancesCursor(m.filter, c, others, net, b, page, ids);
    var z := AfterReindexRows(c, others, net, b, page);
    if z.err.None? { PageEnds(m, c, seen + [b.w], z, page, ids); }
  }

  lemma PageAdvancesCursor(filter: string, c: Reindexer, others: Others, net: nat -> Outage, b: Tally,
      page: seq<PageRow>, ids: seq<string>)
    requires PageToReindex(filter, b, page, ids) && page != [] && ObjectRows(page)
    ensures var z := AfterReindexRows(c, others, net, b, page);
      && z.k >= b.k && (z.err.None? ==> z.last == ids[|ids| - 1])
      && (z.err.None? && QuietFrom(others, b.k)
          ==> |After(z.w.s.t.objects.Keys, z.last)| < |After(b.w.s.t.objects.Keys, b.last)|)
  {
    ReindexRowsAdvance(c, others, net, b, page);
    FewerAhead(b.w.s.t.objects.Keys, b.last, ids[|ids| - 1]);
  }

  /** The worlds that pages were read from, after one more page. */
  function SeenAfter(others: Others, net: nat -> Outage, filter: string, a: Tally, seen: seq<World>): seq<World>
  {
    var w1 := others(a.w, a.k);
    if DATABASE in net(a.k) || ReadPage(w1.s.t, ToReindex(w1.s.t, filter), a.last) == [] then seen else seen + [w1]
  }

  lemma SelectTurns(m: Mandate, c: Reindexer, others: Others, net: nat -> Outage, seen: seq<World>, b: Tally,
      page: seq<PageRow>, ids: seq<string>, t: Turn)
    requires MandateHolds(m, c, others, net) && Underway(m, c, seen, b) && PageToReindex(m.filter, b, page, ids)
    requires ObjectRows(page)
    requires t == if page == [] then Turn(false, b) else Turn(true, AfterReindexRows(c, others, net, b, page))
    ensures TurnDone(m, c, others, if page == [] then seen else seen + [b.w], b, t)
  {
    if page == [] {
      LastPageFinishes(m, c, seen, b, page, ids);
    } else {
      PageGoes(m, c, others, net, seen, b, page, ids);
    }
  }

  /** A turn, from one page to the next: it keeps whatever its mandate says. */
  lemma PageTurns(m: Mandate, c: Reindexer, others: Others, net: nat -> Outage, seen: seq<World>, a: Tally)
    requires MandateHolds(m, c, others, net) && Underway(m, c, seen, a)
    ensures var t := AfterPage(c, others, net, m.filter, a);
      TurnDone(m, c, others, SeenAfter(others, net, m.filter, a, seen), a, t) && t.a.k > a.k
  {
    var b := a.(w := others(a.w, a.k), k := a.k + 1);
    InterferenceStaysUnderway(m, c, others, net, seen, a);
    AfterPageIs(c, others, net, m.filter, a);
    if DATABASE in net(a.k) {
      StopIsSafe(m, c, seen, b);
    } else {
      var matching := ToReindex(b.w.s.t, m.filter);
      var page, ids := ReadPage(b.w.s.t, matching, b.last), Page(matching, b.last, PAGE_ROWS);
      ReadPageIsPage(b.w.s.t, matching, b.last);
      AfterSelectIs(c, others, net, m.filter, b, page);
      SelectTurns(m, c, others, net, seen, b, page, ids, AfterSelect(c, others, net, m.filter, b));
      TurnDoneFrom(m, c, others, SeenAfter(others, net, m.filter, a, seen), a,
          AfterSelect(c, others, net, m.filter, b));
    }
  }

  lemma NothingAhead(c: Reindexer, w0: World, w: World, missed: set<string>, filter: string, ids: seq<string>)
    requires IndexedOrAhead(c, w0, w, missed, filter, ids, 0) && ids == []
    ensures AllIndexedBut(c, w0, w, missed, filter)
  {
    assert forall x :: !StillAhead(ids, 0, x);
  }

  lemma AloneFinishes(c: Reindexer, s0: State, b: Tally, filter: string, page: seq<PageRow>, ids: seq<string>)
    requires AloneTally(c, s0, filter, b) && Accounts(b) && PageToReindex(filter, b, page, ids) && page == []
    ensures RewroteAll(c, s0, b.w.s, b.trail, b.done, b.skipped, filter)
  {
    AlonePage(c, s0, b, filter, page, ids);
    assert forall x :: !StillAhead(ids, 0, x);
    assert ReadUpTo(c, s0.t, filter, b.last) == AllRead(c, s0.t, filter);
    assert UnreadUpTo(c, s0.t, filter, b.last) == AllUnread(c, s0.t, filter);
    AllFoundLive(Ids(b.trail.own), b.trail.checks, AllRead(c, s0.t, filter));
  }

  lemma AllFoundLive(own: seq<string>, checks: map<string, World>, ids: set<string>)
    requires Lists(own, ids) && Lists(own, FoundLive(checks)) && FoundShredded(checks) == {}
    ensures own == Ascending(ids) && |checks| == |ids|
  {
    ListIsAscending(own, ids);
    FoundIsAll(checks);
    assert FoundLive(checks) == ids;
  }

  lemma FoundIsAll(checks: map<string, World>)
    ensures |checks| == |FoundLive(checks)| + |FoundShredded(checks)|
    ensures FoundShredded(checks) == {} <==> forall id :: id in checks ==> Live(checks[id].s.t, id)
  {
    assert checks.Keys == FoundLive(checks) + FoundShredded(checks) && FoundLive(checks) !! FoundShredded(checks);
    assert |checks| == |checks.Keys|;
    if forall id :: id in checks ==> Live(checks[id].s.t, id) {
      assert FoundShredded(checks) == {};
    } else {
      var id :| id in checks && !Live(checks[id].s.t, id);
      assert id in FoundShredded(checks);
    }
  }

  lemma LastPageFinishes(m: Mandate, c: Reindexer, seen: seq<World>, b: Tally, page: seq<PageRow>, ids: seq<string>)
    requires Underway(m, c, seen, b) && PageToReindex(m.filter, b, page, ids) && page == []
        && (m.keeping || m.same ==> m.good)
    ensures Finished(m, c, Tally(b.w, 0, b.done, b.skipped, "", None, b.trail))
  {
    if m.keeping || m.same {
      AheadOnPage(c, m.w0, b, m.filter, page, ids);
      NothingAhead(c, m.w0, b.w, b.trail.missed.Keys, m.filter, ids);
    }
    if m.alone { AloneFinishes(c, m.w0.s, b, m.filter, page, ids); }
  }

  lemma AloneStarts(c: Reindexer, s0: State, filter: string, a: Tally)
    requires "" !in s0.t.objects && a.w.s == s0 && a.done == a.skipped == 0 && a.last == "" && a.err.None?
        && a.trail == NO_TRAIL
    ensures AloneTally(c, s0, filter, a)
  {
    assert ReadUpTo(c, s0.t, filter, "") == {} && UnreadUpTo(c, s0.t, filter, "") == {};
    assert Rebuilt(c, s0, {}) == s0.h.values;
    assert s0.t.audit + ReindexEntries(c.actor, []) == s0.t.audit;
  }

  lemma StartsGood(c: Reindexer, w0: World)
    requires Inv(w0) && Able(c, w0)
    ensures Good(c, w0, w0, [], NO_TRAIL)
  {
    SameIsFollowed(w0);
    NothingIsOwn(c.actor, w0.s.t.audit);
  }

  lemma NothingIsPast(c: Reindexer, w0: World, filter: string)
    requires "" !in w0.s.t.objects
    ensures IndexedOrPast(c, w0, w0, {}, filter, "") && OnlyIndexed(c, w0, w0, {}, filter) && PastIsFresh(w0, w0, "")
  {
    assert forall id :: id in w0.s.t.objects ==> Less("", id);
  }

  lemma StartsUnderway(m: Mandate, c: Reindexer)
    requires (m.good ==> Inv(m.w0) && Able(c, m.w0)) && (m.keeping || m.same ==> m.good)
        && (m.same ==> PendingRight(c, m.w0))
    requires m.alone ==> "" !in m.w0.s.t.objects
    ensures Underway(m, c, [], FromStart(m.w0))
  {
    if m.good {
      StartsGood(c, m.w0);
      NothingIsPast(c, m.w0, m.filter);
    }
    if m.unlogged { NothingIsNew(c.actor, m.w0); }
    if m.alone { AloneStarts(c, m.w0.s, m.filter, FromStart(m.w0)); }
  }

  lemma NothingIsNew(actor: string, w0: World)
    ensures LogIsOwn(actor, w0, w0, [])
  {
    assert w0.s.t.audit[|w0.s.t.audit|..] == [];
  }

  lemma NothingIsOwn(actor: string, audit: seq<AuditEntry>)
    ensures OwnLogged(actor, audit, audit, [])
  {
    assert ReindexEntries(actor, []) == [];
  }

  /** Of a whole run beside which nobody else reindexes: the new reindex entries are about the objects
      found live and no others, one for each; done also counts those that were shredded between the
      read of their page and their transaction. So the two numbers agree exactly when there are none. */
  lemma DoneIsLoggedUnlessShredded(c: Reindexer, w0: World, a: Tally)
    requires Accounts(a) && LogIsOwn(c.actor, w0, a.w, a.trail.own)
    ensures var log := NewReindexes(w0.s.t.audit, a.w.s.t.audit);
      && a.done == |log| + |FoundShredded(a.trail.checks)|
      && (a.done == |log| <==> forall id :: id in a.trail.checks ==> Live(a.trail.checks[id].s.t, id))
      && (forall id :: id in FoundLive(a.trail.checks) <==> exists i :: 0 <= i < |log| && log[i].objectId == id)
  {
    ListIsAscending(Ids(a.trail.own), FoundLive(a.trail.checks));
    FoundIsAll(a.trail.checks);
    EntriesNameThem(c.actor, a.trail.own, FoundLive(a.trail.checks));
  }

  lemma EntriesNameThem(actor: string, own: seq<Ref>, ids: set<string>)
    requires Lists(Ids(own), ids)
    ensures var log := ReindexEntries(actor, own);
      |log| == |own| && forall id :: id in ids <==> exists i :: 0 <= i < |log| && log[i].objectId == id
  {
    var log := ReindexEntries(actor, own);
    forall id | id in ids ensures exists i :: 0 <= i < |log| && log[i].objectId == id {
      assert id in Ids(own);
      var i :| 0 <= i < |own| && Ids(own)[i] == id;
      assert log[i].objectId == id;
    }
    forall i | 0 <= i < |log| ensures log[i].objectId in ids { assert Ids(own)[i] in Ids(own); }
  }

  // ---- what a reindex alone does, object by object ----

  /** In scope, under a wrapper that is held, with a plaintext that the schema can read. */
  ghost predicate Readable(c: Reindexer, s: State, filter: string, id: string)
  {
    && InScope(s.t, filter, id) && s.t.objects[id].sealed.keyId in c.env.all
    && id in s.h.born && c.indexed(s.t.objects[id].collection, s.h.born[id].plaintext).Some?
  }

  ghost function AllReadable(c: Reindexer, s: State, filter: string): set<string>
  {
    set id | id in s.t.objects && Readable(c, s, filter, id)
  }

  ghost function AllUnreadable(c: Reindexer, s: State, filter: string): set<string>
  {
    set id | id in s.t.objects && InScope(s.t, filter, id) && !Readable(c, s, filter, id)
  }

  /** Every readable object in scope has the values that the schema makes of its plaintext, and any
      other those it had; each readable one has one new entry, in ascending order; no row changed. */
  ghost predicate ReindexedAlone(c: Reindexer, s0: State, s: State, filter: string, done: nat, skipped: nat)
  {
    && s.t.objects == s0.t.objects && s.h.values.Keys == s0.h.values.Keys
    && done == |AllReadable(c, s0, filter)| && skipped == |AllUnreadable(c, s0, filter)|
    && (forall id :: id in s0.h.values ==> ValueOf(c, s0, s, filter, id))
    && EntriesOf(c, s0, s, filter)
  }

  ghost predicate ValueOf(c: Reindexer, s0: State, s: State, filter: string, id: string)
    requires id in s0.h.values && id in s.h.values
  {
    if Readable(c, s0, filter, id)
    then c.indexed(s0.t.objects[id].collection, s0.h.born[id].plaintext) == Some(s.h.values[id])
    else s.h.values[id] == s0.h.values[id]
  }

  ghost predicate EntriesOf(c: Reindexer, s0: State, s: State, filter: string)
  {
    exists ids :: Lists(ids, AllReadable(c, s0, filter)) && HasEntries(c.actor, s0.t, s.t, ids)
  }

  ghost predicate HasEntries(actor: string, t0: Tables, t: Tables, ids: seq<string>)
  {
    && |t.audit| == |t0.audit| + |ids| && t0.audit <= t.audit
    && forall i :: 0 <= i < |ids| ==>
         ids[i] in t0.objects && t.audit[|t0.audit| + i] == AuditEntry(actor, Reindex, t0.objects[ids[i]].collection,
             ids[i], "")
  }

  lemma ReadsExactlyWhen(c: Reindexer, s: State, filter: string, id: string)
    requires Sound(s.h, s.t) && EnvelopeValid(c.env) && InScope(s.t, filter, id)
    ensures Reads(c, s.t, id) <==> Readable(c, s, filter, id)
    ensures Reads(c, s.t, id) ==>
      c.indexed(s.t.objects[id].collection, s.h.born[id].plaintext) == Some(ReadValues(c, s.t, id))
  {
    assert RowSound(s.h, id, s.t.objects[id]);
  }

  lemma ReadableAre(c: Reindexer, s: State, filter: string)
    requires Sound(s.h, s.t) && EnvelopeValid(c.env)
    ensures AllRead(c, s.t, filter) == AllReadable(c, s, filter)
    ensures AllUnread(c, s.t, filter) == AllUnreadable(c, s, filter)
  {
    forall id | InScope(s.t, filter, id) ensures Reads(c, s.t, id) <==> Readable(c, s, filter, id) {
      ReadsExactlyWhen(c, s, filter, id);
    }
  }

  lemma OwnEntriesAre(c: Reindexer, s0: State, w: World, trail: Trail)
    requires Sound(s0.h, s0.t) && Remembers(s0.h, w.s.h) && OwnIsRight(w, trail.own)
    requires w.s.t.audit == s0.t.audit + ReindexEntries(c.actor, trail.own)
    requires forall id :: id in Ids(trail.own) ==> id in s0.t.objects
    ensures HasEntries(c.actor, s0.t, w.s.t, Ids(trail.own))
  {
    var ids := Ids(trail.own);
    forall i | 0 <= i < |ids|
      ensures ids[i] in s0.t.objects
      ensures w.s.t.audit[|s0.t.audit| + i] == AuditEntry(c.actor, Reindex, s0.t.objects[ids[i]].collection, ids[i], "")
    {
      assert ids[i] in ids;
      assert RowSound(s0.h, ids[i], s0.t.objects[ids[i]]);
    }
  }

  lemma ValuesAre(c: Reindexer, w0: World, w: World, ids: set<string>, filter: string, id: string)
    requires Sound(w0.s.h, w0.s.t) && EnvelopeValid(c.env)
    requires ids == AllReadable(c, w0.s, filter) && ids == AllRead(c, w0.s.t, filter)
    requires w.s.h.values == Rebuilt(c, w0.s, ids) && id in w0.s.h.values
    ensures id in w.s.h.values && ValueOf(c, w0.s, w.s, filter, id)
  {
    if Readable(c, w0.s, filter, id) { ReadsExactlyWhen(c, w0.s, filter, id); }
  }

  lemma ReadableHaveValues(c: Reindexer, s: State, filter: string)
    requires StateInv(s)
    ensures AllReadable(c, s, filter) <= s.h.values.Keys
  {
    forall id | id in AllReadable(c, s, filter) ensures id in s.h.values { assert RowSound(s.h, id, s.t.objects[id]); }
  }

  lemma RebuiltValues(c: Reindexer, w0: World, w: World, ids: set<string>, filter: string)
    requires Inv(w0) && EnvelopeValid(c.env)
    requires ids == AllReadable(c, w0.s, filter) && ids == AllRead(c, w0.s.t, filter)
    requires w.s.h.values == Rebuilt(c, w0.s, ids)
    ensures w.s.h.values.Keys == w0.s.h.values.Keys
    ensures forall id :: id in w0.s.h.values ==> ValueOf(c, w0.s, w.s, filter, id)
  {
    ReadableHaveValues(c, w0.s, filter);
    forall id | id in w0.s.h.values ensures id in w.s.h.values && ValueOf(c, w0.s, w.s, filter, id) {
      ValuesAre(c, w0, w, ids, filter, id);
    }
  }

  lemma RebuiltEntries(c: Reindexer, w0: World, w: World, trail: Trail, ids: set<string>, filter: string)
    requires Inv(w0) && Follows(w0, w) && OwnIsRight(w, trail.own) && ids == AllReadable(c, w0.s, filter)
    requires Lists(Ids(trail.own), ids) && w.s.t.audit == w0.s.t.audit + ReindexEntries(c.actor, trail.own)
    ensures EntriesOf(c, w0.s, w.s, filter)
  {
    OwnEntriesAre(c, w0.s, w, trail);
  }

  lemma RewroteIsReindexed(c: Reindexer, w0: World, w: World, trail: Trail, done: nat, skipped: nat, filter: string)
    requires Inv(w0) && Follows(w0, w) && EnvelopeValid(c.env) && OwnIsRight(w, trail.own)
    requires RewroteAll(c, w0.s, w.s, trail, done, skipped, filter)
    ensures ReindexedAlone(c, w0.s, w.s, filter, done, skipped)
  {
    ReadableAre(c, w0.s, filter);
    RebuiltValues(c, w0, w, AllReadable(c, w0.s, filter), filter);
    RebuiltEntries(c, w0, w, trail, AllReadable(c, w0.s, filter), filter);
  }

  /** Nobody else reindexes, or all who do go by the same schema. */
  ghost predicate AllGoBySchema(c: Reindexer, w: World, others: Others)
  {
    KeepValues(others) || (SameSchema(c, others) && PendingRight(c, w))
  }

  /** The new reindex entries are those of the run, and as many as it counts as done exactly when
      no object was shredded before its transaction looked. */
  ghost predicate OnlyOwnEntries(c: Reindexer, before: seq<AuditEntry>, after: seq<AuditEntry>, done: nat,
      trail: Trail)
  {
    && NewReindexes(before, after) == ReindexEntries(c.actor, trail.own)
    && (forall i :: 0 <= i < |trail.own| ==>
      NewReindexes(before, after)[i] == AuditEntry(c.actor, Reindex, trail.own[i].collection, trail.own[i].id, ""))
    && (done == |NewReindexes(before, after)| <==> forall id :: id in trail.checks ==> Live(trail.checks[id].s.t, id))
  }

  /** What a run among others grants, whichever way it ended. */
  ghost predicate Rebuilds(c: Reindexer, w0: World, w: World, filter: string, others: Others, seen: seq<World>,
      trail: Trail, done: nat, err: Option<StoreError>)
  {
    && Inv(w) && Follows(w0, w) && Accounted(c, w0, w, seen, trail)
    && (err.None? && AllGoBySchema(c, w0, others) ==> AllIndexedBut(c, w0, w, trail.missed.Keys, filter))
    && (KeepValues(others) ==> OnlyIndexed(c, w0, w, trail.missed.Keys, filter))
    && (LogNoReindex(others) ==> OnlyOwnEntries(c, w0.s.t.audit, w.s.t.audit, done, trail))
  }

  lemma LogIsOfOwnEntries(c: Reindexer, w0: World, a: Tally)
    requires Accounts(a) && LogIsOwn(c.actor, w0, a.w, a.trail.own)
    ensures OnlyOwnEntries(c, w0.s.t.audit, a.w.s.t.audit, a.done, a.trail)
  {
    DoneIsLoggedUnlessShredded(c, w0, a);
  }

  lemma MandateGrantsAmong(m: Mandate, c: Reindexer, filter: string, others: Others, net: nat -> Outage,
      seen: seq<World>, z: Tally, err: Option<StoreError>)
    requires m == MandateOf(m.w0, c, filter, others, net) && Safe(m, c, seen, z) && (err.None? ==> Finished(m, c, z))
    requires m.good
    ensures Rebuilds(c, m.w0, z.w, filter, others, seen, z.trail, z.done, err)
  {
    assert Good(c, m.w0, z.w, seen, z.trail);
    if LogNoReindex(others) { LogIsOfOwnEntries(c, m.w0, z); }
  }

  lemma MandateGrantsAlone(m: Mandate, c: Reindexer, seen: seq<World>, z: Tally)
    requires m.good && m.alone && Inv(m.w0) && Safe(m, c, seen, z) && Finished(m, c, z)
    ensures ReindexedAlone(c, m.w0.s, z.w.s, m.filter, z.done, z.skipped)
  {
    RewroteIsReindexed(c, m.w0, z.w, z.trail, z.done, z.skipped, m.filter);
  }

  lemma MandateGrants(m: Mandate, c: Reindexer, filter: string, others: Others, net: nat -> Outage, seen: seq<World>,
      z: Tally, err: Option<StoreError>)
    requires m == MandateOf(m.w0, c, filter, others, net) && Safe(m, c, seen, z) && (err.None? ==> Finished(m, c, z))
    requires m.alone ==> err.None?
    ensures m.good ==> Rebuilds(c, m.w0, z.w, filter, others, seen, z.trail, z.done, err)
    ensures Inv(m.w0) && Able(c, m.w0) && QuietFrom(others, 0) && (forall n :: net(n) == {}) ==>
      err.None? && ReindexedAlone(c, m.w0.s, z.w.s, filter, z.done, z.skipped)
  {
    if m.good { MandateGrantsAmong(m, c, filter, others, net, seen, z, err); }
    if Inv(m.w0) && Able(c, m.w0) && QuietFrom(others, 0) && forall n :: net(n) == {} {
      AloneMandate(m.w0, c, filter, others, net);
      MandateGrantsAlone(m, c, seen, z);
    }
  }
}
