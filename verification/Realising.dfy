/** The converse of Locking: with nobody else around the statements of a transaction do reach its
    commit, and the atomic step is what they come to (internal/store/store.go, Delete, DeleteSubject,
    rewriteIndex, PutMany). */
module Realising {
  import opened Strings
  import opened Identity
  import opened Envelope
  import opened Tables
  import opened Vault
  import opened Erasure
  import opened Locking

  /** No transaction is open. */
  function Rest(w: World): Site { Site(w, map[]) }

  // ---- erasures ----

  function Updates(i: nat, refs: seq<Ref>): seq<Step>
  {
    if refs == [] then [] else [UpdateRow(i, refs[0])] + Updates(i, refs[1..])
  }

  function Drops(i: nat, n: nat): seq<Step> { if n == 0 then [] else [DropAndLog(i)] + Drops(i, n - 1) }

  /** The statements after the UPDATE has found these candidates. */
  function EraseStatements(i: nat, refs: seq<Ref>): seq<Step>
  {
    Updates(i, refs) + Drops(i, |refs|) + [CommitErase(i)]
  }

  function RefSet(refs: seq<Ref>): set<Ref> { set r | r in refs }

  /** Only erasure i is open: what is still to be tried, what it took, and of how much it has
      dropped the index rows. */
  ghost predicate AtErase(site: Site, w: World, i: nat, actor: string, todo: set<Ref>, got: seq<Ref>, done: nat)
  {
    && site.w == w && site.txs.Keys == {i} && site.txs[i].Erasing?
    && var e := site.txs[i].e; e.actor == actor && e.todo == todo && e.got == got && e.done == done
  }

  lemma UpdateHappens(site: Site, w: World, i: nat, actor: string, refs: seq<Ref>, got: seq<Ref>)
    requires refs != [] && Enumerates(refs, RefSet(refs)) && LiveRef(w.s.t, refs[0])
    requires AtErase(site, w, i, actor, RefSet(refs), got, 0)
    ensures AtErase(Take(site, UpdateRow(i, refs[0])), w, i, actor, RefSet(refs[1..]), got + [refs[0]], 0)
    ensures Enumerates(refs[1..], RefSet(refs[1..]))
  {
    assert refs == [refs[0]] + refs[1..];
    assert RefSet(refs) - {refs[0]} == RefSet(refs[1..]);
  }

  lemma {:induction false} UpdatesHappen(site: Site, w: World, i: nat, actor: string, refs: seq<Ref>, got: seq<Ref>)
    requires Enumerates(refs, RefSet(refs)) && forall r :: r in refs ==> LiveRef(w.s.t, r)
    requires AtErase(site, w, i, actor, RefSet(refs), got, 0)
    ensures AtErase(RunSite(site, Updates(i, refs)), w, i, actor, {}, got + refs, 0)
    decreases |refs|
  {
    if refs == [] {
      assert got + refs == got;
    } else {
      UpdateHappens(site, w, i, actor, refs, got);
      UpdatesHappen(Take(site, UpdateRow(i, refs[0])), w, i, actor, refs[1..], got + [refs[0]]);
      assert got + [refs[0]] + refs[1..] == got + refs;
      assert Updates(i, refs)[1..] == Updates(i, refs[1..]);
    }
  }

  lemma {:induction false} DropsHappen(site: Site, w: World, i: nat, actor: string, got: seq<Ref>, done: nat)
    requires done <= |got| && AtErase(site, w, i, actor, {}, got, done)
    ensures AtErase(RunSite(site, Drops(i, |got| - done)), w, i, actor, {}, got, |got|)
    decreases |got| - done
  {
    if done < |got| {
      DropsHappen(Take(site, DropAndLog(i)), w, i, actor, got, done + 1);
      assert Drops(i, |got| - done)[1..] == Drops(i, |got| - (done + 1));
    }
  }

  lemma EraseGetsReady(site: Site, w: World, i: nat, actor: string, refs: seq<Ref>)
    requires Enumerates(refs, RefSet(refs)) && forall r :: r in refs ==> LiveRef(w.s.t, r)
    requires AtErase(site, w, i, actor, RefSet(refs), [], 0)
    ensures AtErase(RunSite(site, Updates(i, refs) + Drops(i, |refs|)), w, i, actor, {}, refs, |refs|)
  {
    UpdatesHappen(site, w, i, actor, refs, []);
    assert [] + refs == refs;
    DropsHappen(RunSite(site, Updates(i, refs)), w, i, actor, refs, 0);
    RunSiteConcat(site, Updates(i, refs), Drops(i, |refs|));
  }

  lemma CommitHappens(site: Site, w: World, i: nat, actor: string, refs: seq<Ref>)
    requires SiteGood(site) && AtErase(site, w, i, actor, {}, refs, |refs|)
    ensures RunSite(site, [CommitErase(i)]) == Rest(Apply(w, Erase(actor, refs)))
  {
    RunSiteOne(site, CommitErase(i));
    CommitEraseIsAtomic(site, i);
    RunOne(w, Erase(actor, refs));
    assert site.txs - {i} == map[];
  }

  /** An erasure whose UPDATE found exactly refs takes them all and commits. */
  lemma ErasingHappens(site: Site, w: World, i: nat, actor: string, refs: seq<Ref>)
    requires SiteGood(site) && Inv(w) && Enumerates(refs, RefSet(refs)) && forall r :: r in refs ==> LiveRef(w.s.t, r)
    requires AtErase(site, w, i, actor, RefSet(refs), [], 0)
    ensures RunSite(site, EraseStatements(i, refs)) == Rest(Apply(w, Erase(actor, refs)))
  {
    var before := Updates(i, refs) + Drops(i, |refs|);
    EraseGetsReady(site, w, i, actor, refs);
    LockedRunIsAtomic(site, before);
    CommitHappens(RunSite(site, before), w, i, actor, refs);
    RunSiteConcat(site, before, [CommitErase(i)]);
  }

  lemma BegunErases(w: World, begin: Step, i: nat, actor: string, refs: seq<Ref>)
    requires Inv(w) && Enumerates(refs, RefSet(refs)) && forall r :: r in refs ==> LiveRef(w.s.t, r)
    requires Take(Rest(w), begin) == Site(w, map[i := NewErasing(actor, RefSet(refs))])
    ensures RunSite(Rest(w), [begin] + EraseStatements(i, refs)) == Rest(Apply(w, Erase(actor, refs)))
  {
    RunSiteOne(Rest(w), begin);
    LockedRunIsAtomic(Rest(w), [begin]);
    ErasingHappens(Take(Rest(w), begin), w, i, actor, refs);
    RunSiteConcat(Rest(w), [begin], EraseStatements(i, refs));
  }

  /** DeleteSubject alone: in whatever order its rows come, it erases them all. */
  lemma DeleteSubjectHappens(w: World, i: nat, actor: string, subject: string, refs: seq<Ref>)
    requires Inv(w) && Enumerates(refs, SubjectRefs(w.s.t, subject))
    ensures RunSite(Rest(w), [BeginDeleteSubject(i, actor, subject)] + EraseStatements(i, refs)) ==
      Rest(Apply(w, Erase(actor, refs)))
  {
    assert RefSet(refs) == SubjectRefs(w.s.t, subject);
    BegunErases(w, BeginDeleteSubject(i, actor, subject), i, actor, refs);
  }

  /** Delete alone: a live object is erased, of any other nothing is. */
  lemma DeleteHappens(w: World, i: nat, actor: string, ref: Ref)
    requires Inv(w)
    ensures var refs := if LiveRef(w.s.t, ref) then [ref] else [];
      RunSite(Rest(w), [BeginDelete(i, actor, ref)] + EraseStatements(i, refs)) == Rest(Apply(w, Erase(actor, refs)))
  {
    var refs := if LiveRef(w.s.t, ref) then [ref] else [];
    assert RefSet(refs) == if LiveRef(w.s.t, ref) then {ref} else {};
    BegunErases(w, BeginDelete(i, actor, ref), i, actor, refs);
  }

  // ---- puts ----

  function Inserts(i: nat, items: seq<NewItem>): seq<Step>
  {
    if items == [] then [] else [InsertItem(i, items[0])] + Inserts(i, items[1..])
  }

  /** Only a put is open: whose, and the items it has inserted. */
  ghost predicate AtPut(site: Site, w: World, i: nat, p: nat, actor: string, collection: string, items: seq<NewItem>)
  {
    && site.w == w && site.txs.Keys == {i} && site.txs[i].Putting? && Ready(w, p)
    && var u := site.txs[i].u;
      && u.p == p && u.actor == actor && u.collection == collection && u.items == items
      && u.keyId == w.procs[p].env.current.id && u.key == w.procs[p].index.value
  }

  lemma {:induction false} InsertsHappen(site: Site, w: World, i: nat, p: nat, actor: string, collection: string,
      before: seq<NewItem>, items: seq<NewItem>)
    requires AtPut(site, w, i, p, actor, collection, before)
    ensures AtPut(RunSite(site, Inserts(i, items)), w, i, p, actor, collection, before + items)
    decreases |items|
  {
    if items == [] {
      assert before + items == before;
    } else {
      InsertsHappen(Take(site, InsertItem(i, items[0])), w, i, p, actor, collection, before + [items[0]], items[1..]);
      assert before + [items[0]] + items[1..] == before + items;
      assert Inserts(i, items)[1..] == Inserts(i, items[1..]);
    }
  }

  lemma CommitPutEnds(site: Site, w: World, i: nat, p: nat, actor: string, collection: string, items: seq<NewItem>)
    requires AtPut(site, w, i, p, actor, collection, items) && MayPut(w, p, items)
    ensures DoCommitPut(site, i).txs == map[] && Completes(site, CommitPut(i)) == [Put(p, actor, collection, items)]
  {
    assert site.txs - {i} == map[];
  }

  lemma CommitPutLands(site: Site, w: World, i: nat, p: nat, actor: string, collection: string, items: seq<NewItem>)
    requires SiteGood(site) && site.w == w && Completes(site, CommitPut(i)) == [Put(p, actor, collection, items)]
    ensures DoCommitPut(site, i).w == Apply(w, Put(p, actor, collection, items))
  {
    CommitPutIsAtomic(site, i);
    RunOne(w, Put(p, actor, collection, items));
  }

  lemma PutCommitHappens(site: Site, w: World, i: nat, p: nat, actor: string, collection: string, items: seq<NewItem>)
    requires SiteGood(site) && AtPut(site, w, i, p, actor, collection, items) && MayPut(w, p, items)
    ensures RunSite(site, [CommitPut(i)]) == Rest(Apply(w, Put(p, actor, collection, items)))
  {
    CommitPutEnds(site, w, i, p, actor, collection, items);
    RunSiteOne(site, CommitPut(i));
    CommitPutLands(site, w, i, p, actor, collection, items);
  }

  /** PutMany alone: with fresh ids and keys its items land together. */
  lemma PutHappens(w: World, i: nat, p: nat, actor: string, collection: string, items: seq<NewItem>)
    requires Inv(w) && MayPut(w, p, items)
    ensures RunSite(Rest(w), [BeginPut(i, p, actor, collection)] + Inserts(i, items) + [CommitPut(i)]) ==
      Rest(Apply(w, Put(p, actor, collection, items)))
  {
    var begin, inserts := [BeginPut(i, p, actor, collection)], Inserts(i, items);
    var begun := Take(Rest(w), begin[0]);
    assert SiteGood(Rest(w));
    RunSiteOne(Rest(w), begin[0]);
    InsertsHappen(begun, w, i, p, actor, collection, [], items);
    assert [] + items == items;
    RunSiteConcat(Rest(w), begin, inserts);
    RunSiteConcat(Rest(w), begin + inserts, [CommitPut(i)]);
    LockedRunIsAtomic(Rest(w), begin + inserts);
    PutCommitHappens(RunSite(begun, inserts), w, i, p, actor, collection, items);
  }

  // ---- rewrites of index rows ----

  function InsertFields(i: nat, fields: seq<string>): seq<Step>
  {
    if fields == [] then [] else [InsertIndexRow(i, fields[0])] + InsertFields(i, fields[1..])
  }

  function FieldSet(fields: seq<string>): set<string> { set f | f in fields }

  /** Only a rewrite is open: the index rows it still has to insert. */
  ghost predicate AtRewrite(site: Site, w: World, i: nat, p: nat, actor: string, r: Rewrite, cleared: bool,
      left: set<string>)
  {
    && site.w == w && site.txs.Keys == {i} && site.txs[i].Rewriting? && Waits(w, p, r.ref, r.values)
    && var x := site.txs[i].r;
      && x.p == p && x.actor == actor && x.key == w.procs[p].index.value && x.ref == r.ref && x.values == r.values
      && x.cleared == cleared && x.left == left && left <= r.values.Keys
  }

  ghost predicate Distinct(fields: seq<string>)
  {
    forall i, j :: 0 <= i < j < |fields| ==> fields[i] != fields[j]
  }

  lemma FieldHappens(site: Site, w: World, i: nat, p: nat, actor: string, r: Rewrite, fields: seq<string>)
    requires fields != [] && Distinct(fields) && AtRewrite(site, w, i, p, actor, r, true, FieldSet(fields))
    ensures Distinct(fields[1..])
    ensures AtRewrite(Take(site, InsertIndexRow(i, fields[0])), w, i, p, actor, r, true, FieldSet(fields[1..]))
  {
    assert fields == [fields[0]] + fields[1..];
    assert FieldSet(fields) - {fields[0]} == FieldSet(fields[1..]);
  }

  lemma {:induction false} FieldsHappen(site: Site, w: World, i: nat, p: nat, actor: string, r: Rewrite,
      fields: seq<string>)
    requires Distinct(fields) && AtRewrite(site, w, i, p, actor, r, true, FieldSet(fields))
    ensures AtRewrite(RunSite(site, InsertFields(i, fields)), w, i, p, actor, r, true, {})
    decreases |fields|
  {
    if fields != [] {
      FieldHappens(site, w, i, p, actor, r, fields);
      FieldsHappen(Take(site, InsertIndexRow(i, fields[0])), w, i, p, actor, r, fields[1..]);
      assert InsertFields(i, fields)[1..] == InsertFields(i, fields[1..]);
    }
  }

  lemma RewriteCommitHappens(site: Site, w: World, i: nat, p: nat, actor: string, r: Rewrite)
    requires SiteGood(site) && AtRewrite(site, w, i, p, actor, r, true, {})
    ensures RunSite(site, [CommitRewrite(i)]) == Rest(Apply(w, ReindexWrite(p, actor)))
  {
    RunSiteOne(site, CommitRewrite(i));
    CommitRewriteIsAtomic(site, i);
    RunOne(w, ReindexWrite(p, actor));
    assert site.txs - {i} == map[];
  }

  lemma LockHappens(w: World, i: nat, p: nat, actor: string, r: Rewrite)
    requires Waits(w, p, r.ref, r.values) && Live(w.s.t, r.ref.id)
    ensures AtRewrite(RunSite(Rest(w), [ForUpdate(i, p, actor), ClearIndexRows(i)]), w, i, p, actor, r, true,
        r.values.Keys)
  {
    var locked := Take(Rest(w), ForUpdate(i, p, actor));
    assert AtRewrite(locked, w, i, p, actor, r, false, r.values.Keys);
    assert AtRewrite(Take(locked, ClearIndexRows(i)), w, i, p, actor, r, true, r.values.Keys);
    RunSiteConcat(Rest(w), [ForUpdate(i, p, actor)], [ClearIndexRows(i)]);
    RunSiteOne(Rest(w), ForUpdate(i, p, actor));
    RunSiteOne(locked, ClearIndexRows(i));
    assert [ForUpdate(i, p, actor)] + [ClearIndexRows(i)] == [ForUpdate(i, p, actor), ClearIndexRows(i)];
  }

  /** rewriteIndex alone, on a live object: in whatever order the fields come, it rewrites them. */
  lemma RewriteHappens(w: World, i: nat, p: nat, actor: string, r: Rewrite, fields: seq<string>)
    requires Inv(w) && Waits(w, p, r.ref, r.values) && Live(w.s.t, r.ref.id)
    requires Distinct(fields) && FieldSet(fields) == r.values.Keys
    ensures RunSite(Rest(w), [ForUpdate(i, p, actor), ClearIndexRows(i)] + InsertFields(i, fields) + [CommitRewrite(i)])
      == Rest(Apply(w, ReindexWrite(p, actor)))
  {
    var lock, inserts := [ForUpdate(i, p, actor), ClearIndexRows(i)], InsertFields(i, fields);
    assert SiteGood(Rest(w));
    LockHappens(w, i, p, actor, r);
    FieldsHappen(RunSite(Rest(w), lock), w, i, p, actor, r, fields);
    RunSiteConcat(Rest(w), lock, inserts);
    RunSiteConcat(Rest(w), lock + inserts, [CommitRewrite(i)]);
    LockedRunIsAtomic(Rest(w), lock + inserts);
    RewriteCommitHappens(RunSite(RunSite(Rest(w), lock), inserts), w, i, p, actor, r);
  }

  /** rewriteIndex alone, on an object shredded meanwhile: its locking read ends it. */
  lemma RewriteOfShreddedHappens(w: World, i: nat, p: nat, actor: string, r: Rewrite)
    requires Inv(w) && Waits(w, p, r.ref, r.values) && !Live(w.s.t, r.ref.id)
    ensures RunSite(Rest(w), [ForUpdate(i, p, actor)]) == Rest(Apply(w, ReindexWrite(p, actor)))
  {
    RunSiteOne(Rest(w), ForUpdate(i, p, actor));
  }

  // ---- every run of calls ----

  /** An erasure is of what its UPDATE finds: a subject's objects, or one object. */
  ghost predicate OfACall(w: World, a: Action)
  {
    a.Erase? ==>
      || (exists subject :: Enumerates(a.refs, SubjectRefs(w.s.t, subject)))
      || (exists ref :: a.refs == if LiveRef(w.s.t, ref) then [ref] else [])
  }

  ghost predicate AllOfCalls(w: World, actions: seq<Action>)
    decreases |actions|
  {
    actions == [] || (OfACall(w, actions[0]) && AllOfCalls(Apply(w, actions[0]), actions[1..]))
  }

  /** Some statements take the committed world from w to w', with nothing open before or after. */
  ghost predicate Reached(w: World, w': World) { exists steps :: RunSite(Rest(w), steps) == Rest(w') }

  lemma NothingReaches(w: World)
    ensures Reached(w, w)
  {
    assert RunSite(Rest(w), []) == Rest(w);
  }

  lemma EraseIsReached(w: World, a: Action)
    requires Inv(w) && a.Erase? && OfACall(w, a)
    ensures Reached(w, Apply(w, a))
  {
    if subject :| Enumerates(a.refs, SubjectRefs(w.s.t, subject)) {
      DeleteSubjectHappens(w, 0, a.actor, subject, a.refs);
    } else {
      var ref :| a.refs == if LiveRef(w.s.t, ref) then [ref] else [];
      DeleteHappens(w, 0, a.actor, ref);
    }
  }

  lemma ReachedBy(w: World, w': World, steps: seq<Step>)
    requires RunSite(Rest(w), steps) == Rest(w')
    ensures Reached(w, w')
  {
  }

  lemma LiveRewriteIsReached(w: World, p: nat, actor: string, r: Rewrite, fields: seq<string>)
    requires Inv(w) && Waits(w, p, r.ref, r.values) && Live(w.s.t, r.ref.id)
    requires Distinct(fields) && FieldSet(fields) == r.values.Keys
    ensures Reached(w, Apply(w, ReindexWrite(p, actor)))
  {
    RewriteHappens(w, 0, p, actor, r, fields);
    ReachedBy(w, Apply(w, ReindexWrite(p, actor)),
        [ForUpdate(0, p, actor), ClearIndexRows(0)] + InsertFields(0, fields) + [CommitRewrite(0)]);
  }

  lemma WaitingIsReached(w: World, p: nat, actor: string, r: Rewrite)
    requires Inv(w) && Waits(w, p, r.ref, r.values)
    ensures Reached(w, Apply(w, ReindexWrite(p, actor)))
  {
    if Live(w.s.t, r.ref.id) {
      AscendingListsEach(r.values.Keys);
      LiveRewriteIsReached(w, p, actor, r, Ascending(r.values.Keys));
    } else {
      RewriteOfShreddedHappens(w, 0, p, actor, r);
      ReachedBy(w, Apply(w, ReindexWrite(p, actor)), [ForUpdate(0, p, actor)]);
    }
  }

  lemma RewriteIsReached(w: World, p: nat, actor: string)
    requires Inv(w)
    ensures Reached(w, Apply(w, ReindexWrite(p, actor)))
  {
    if !Ready(w, p) || !w.procs[p].job.Reindexing? || w.procs[p].job.rewrite.None? {
      NothingReaches(w);
    } else {
      WaitingIsReached(w, p, actor, w.procs[p].job.rewrite.value);
    }
  }

  lemma AscendingListsEach(s: set<string>)
    ensures Distinct(Ascending(s)) && FieldSet(Ascending(s)) == s
  {
    var q := Ascending(s);
    forall i, j | 0 <= i < j < |q| ensures q[i] != q[j] { LessIrreflexive(q[i]); }
  }

  lemma AloneIsReached(w: World, a: Action)
    requires !a.Put? && !a.Erase? && !a.ReindexWrite?
    ensures Reached(w, Apply(w, a))
  {
    RunSiteOne(Rest(w), Alone(a));
    assert MayStep(Rest(w), a);
  }

  lemma StepIsReached(w: World, a: Action)
    requires Inv(w) && OfACall(w, a)
    ensures Reached(w, Apply(w, a))
  {
    match a {
      case Put(p, actor, collection, items) =>
        if MayPut(w, p, items) { PutHappens(w, 0, p, actor, collection, items); } else { NothingReaches(w); }
      case Erase(_, _) => EraseIsReached(w, a);
      case ReindexWrite(p, actor) => RewriteIsReached(w, p, actor);
      case _ => AloneIsReached(w, a);
    }
  }

  lemma ReachedThen(w: World, mid: World, w': World)
    requires Reached(w, mid) && Reached(mid, w')
    ensures Reached(w, w')
  {
    var first :| RunSite(Rest(w), first) == Rest(mid);
    var second :| RunSite(Rest(mid), second) == Rest(w');
    RunSiteConcat(Rest(w), first, second);
  }

  /** Every run of the step machine whose erasures are those of calls is one that statements, locks
      and commits come to: no step of it is one that transactions could not take. */
  lemma {:induction false} RunIsReached(w: World, actions: seq<Action>)
    requires Inv(w) && AllOfCalls(w, actions)
    ensures Reached(w, Run(w, actions))
    decreases |actions|
  {
    if actions == [] {
      NothingReaches(w);
    } else {
      StepIsReached(w, actions[0]);
      ApplyKeeps(w, actions[0]);
      RunIsReached(Apply(w, actions[0]), actions[1..]);
      ReachedThen(w, Apply(w, actions[0]), Run(w, actions));
    }
  }
}
