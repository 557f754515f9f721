/** What DeleteSubject leaves alone (internal/store/store.go): objects about the subject whose put
    commits after its UPDATE has looked for rows. */
module Latecomers {
  import opened Strings
  import opened Identity
  import opened Envelope
  import opened Tables
  import opened Vault
  import opened Erasure
  import opened Locking
  import opened Versions

  /** Transaction i is still open after the step. */
  predicate LeavesOpen(step: Step, i: nat) { step != CommitErase(i) && step != Abort(i) }

  ghost predicate ErasesFor(site: Site, i: nat, candidates: set<Ref>)
  {
    i in site.txs && site.txs[i].Erasing? && site.txs[i].e.candidates == candidates
  }

  lemma StepLeavesCandidates(site: Site, step: Step, i: nat, candidates: set<Ref>)
    requires ErasesFor(site, i, candidates) && LeavesOpen(step, i)
    ensures ErasesFor(Take(site, step), i, candidates)
  {
  }

  lemma {:induction false} RunLeavesCandidates(site: Site, steps: seq<Step>, i: nat, candidates: set<Ref>)
    requires ErasesFor(site, i, candidates) && forall k :: 0 <= k < |steps| ==> LeavesOpen(steps[k], i)
    ensures ErasesFor(RunSite(site, steps), i, candidates)
    decreases |steps|
  {
    if steps != [] {
      StepLeavesCandidates(site, steps[0], i, candidates);
      RunLeavesCandidates(Take(site, steps[0]), steps[1..], i, candidates);
    }
  }

  /** The live objects about a subject whose rows were not there at some earlier time. */
  function Latecomers(early: Tables, t: Tables, subject: string): set<Ref>
  {
    set r | r in SubjectRefs(t, subject) && r.id !in early.objects
  }

  lemma EarlyOnesWereCandidates(early: Tables, t: Tables, subject: string)
    requires Kept(early, t)
    ensures forall r :: r in SubjectRefs(t, subject) && r.id in early.objects ==> r in SubjectRefs(early, subject)
  {
    forall r | r in SubjectRefs(t, subject) && r.id in early.objects ensures r in SubjectRefs(early, subject) {
      assert RowKept(early.objects[r.id], t.objects[r.id]);
    }
  }

  lemma CommitLeavesLatecomers(early: Tables, s: State, e: ErasingTx, subject: string)
    requires Kept(early, s.t) && ErasingGood(s.t, e) && e.todo == {} && e.candidates == SubjectRefs(early, subject)
    ensures SubjectRefs(ErasedState(s, e).t, subject) == Latecomers(early, s.t, subject)
  {
    var t' := ErasedState(s, e).t;
    EarlyOnesWereCandidates(early, s.t, subject);
    forall r ensures r in SubjectRefs(t', subject) <==> r in SubjectRefs(s.t, subject) && r !in e.got { }
    forall r | r in SubjectRefs(s.t, subject) ensures r in e.candidates <==> r in e.got { }
  }

  lemma BegunIsGood(site: Site, i: nat, actor: string, subject: string, begun: Site)
    requires SiteGood(site) && Inv(site.w) && i !in site.txs
        && begun == Take(site, BeginDeleteSubject(i, actor, subject))
    ensures SiteGood(begun) && begun.w == site.w && ErasesFor(begun, i, SubjectRefs(site.w.s.t, subject))
  {
    TakeStays(site, BeginDeleteSubject(i, actor, subject));
  }

  /** DeleteSubject among anything else: right after its commit the live objects about the subject
      are exactly those whose row was not committed when its UPDATE looked. */
  lemma LateObjectsStayLive(site: Site, i: nat, actor: string, subject: string, steps: seq<Step>)
    requires SiteGood(site) && Inv(site.w) && i !in site.txs
    requires forall k :: 0 <= k < |steps| ==> LeavesOpen(steps[k], i)
    ensures var before := RunSite(Take(site, BeginDeleteSubject(i, actor, subject)), steps);
      MayErase(before, i) ==>
        SubjectRefs(DoCommitErase(before, i).w.s.t, subject) == Latecomers(site.w.s.t, before.w.s.t, subject)
  {
    var begun := Take(site, BeginDeleteSubject(i, actor, subject));
    BegunIsGood(site, i, actor, subject, begun);
    LockedRunIsAtomic(begun, steps);
    RunLeavesCandidates(begun, steps, i, SubjectRefs(site.w.s.t, subject));
    CommitIsOfLatecomers(site.w.s.t, RunSite(begun, steps), i, subject);
  }

  lemma CommitIsOfLatecomers(early: Tables, before: Site, i: nat, subject: string)
    requires SiteGood(before) && Kept(early, before.w.s.t) && ErasesFor(before, i, SubjectRefs(early, subject))
    ensures MayErase(before, i) ==>
      SubjectRefs(DoCommitErase(before, i).w.s.t, subject) == Latecomers(early, before.w.s.t, subject)
  {
    if MayErase(before, i) {
      assert TxGood(before.w.s.t, before.txs[i]);
      CommitLeavesLatecomers(early, before.w.s, before.txs[i].e, subject);
    }
  }

  // ---- such a run, from an empty database ----

  const SUBJECT := "employee 7"
  const LATE := ITEM.(subject := SUBJECT)

  const BOOTED := [Alone(BOOTS[0]), Alone(BOOTS[1])]
  const LATE_PUT := [BeginPut(2, 0, "client", ROW.ref.collection), InsertItem(2, LATE), CommitPut(2)]

  /** One server is up, and nothing is stored yet. */
  ghost predicate Fresh(w: World)
  {
    && w.s.t.objects == map[] && w.s.t.keys == Some(KeyAt(0)) && w.s.h.born == map[] && w.s.h.secret == Some(SECRET)
    && w.engines == map[] && w.procs == map[0 := Proc(HOLDER, Some(SECRET.key), Idle)]
  }

  lemma AloneIs(w: World, a: Action)
    requires a.Boot? || a.BootRead?
    ensures Take(Site(w, map[]), Alone(a)) == Site(Apply(w, a), map[])
  {
    assert MayStep(Site(w, map[]), a);
  }

  lemma AfterBooted()
    ensures RunSite(Site(START, map[]), BOOTED) == Site(Apply(Apply(START, BOOTS[0]), BOOTS[1]), map[])
    ensures Fresh(Apply(Apply(START, BOOTS[0]), BOOTS[1]))
  {
    AfterFirstBoot();
    AloneIs(START, BOOTS[0]);
    AloneIs(Apply(START, BOOTS[0]), BOOTS[1]);
    assert BOOTED[1..] == [Alone(BOOTS[1])] && BOOTED[1..][1..] == [];
    assert RunSite(Site(START, map[]), BOOTED) == RunSite(Site(Apply(START, BOOTS[0]), map[]), [Alone(BOOTS[1])]);
  }

  /** What the put has buffered when it commits. */
  const BUFFERED := PuttingTx(0, "client", SERVICE.id, SECRET.key, ROW.ref.collection, [LATE],
                              map[LATE.id := Row(ROW.ref.collection, RowAt(0), Some(SUBJECT), false)], {},
                              [AuditEntry("client", Create, ROW.ref.collection, LATE.id, "")])

  const BEGUN := PuttingTx(0, "client", SERVICE.id, SECRET.key, ROW.ref.collection, [], map[], {}, [])

  lemma PutBegins(w: World, erasing: Tx)
    requires Fresh(w)
    ensures Take(Site(w, map[1 := erasing]), LATE_PUT[0]) == Site(w, map[1 := erasing, 2 := Putting(BEGUN)])
  {
    assert map[1 := erasing][2 := Putting(BEGUN)] == map[1 := erasing, 2 := Putting(BEGUN)];
  }

  lemma ItemIsInserted(w: World, erasing: Tx)
    ensures Take(Site(w, map[1 := erasing, 2 := Putting(BEGUN)]), LATE_PUT[1]) ==
        Site(w, map[1 := erasing, 2 := Putting(BUFFERED)])
  {
    var site := Site(w, map[1 := erasing, 2 := Putting(BEGUN)]);
    assert IndexRows(SECRET.key, ROW.ref.collection, LATE.id, map[]) == {};
    assert DoInsertItem(site, 2, LATE).txs[2].u.rows == BUFFERED.rows;
    assert DoInsertItem(site, 2, LATE).txs[2] == Putting(BUFFERED);
    assert site.txs[2 := Putting(BUFFERED)] == map[1 := erasing, 2 := Putting(BUFFERED)];
  }

  lemma PutIsBuffered(w: World, erasing: Tx)
    requires Fresh(w)
    ensures RunSite(Site(w, map[1 := erasing]), LATE_PUT) ==
        DoCommitPut(Site(w, map[1 := erasing, 2 := Putting(BUFFERED)]), 2)
  {
    PutBegins(w, erasing);
    ItemIsInserted(w, erasing);
    RunSiteThree(Site(w, map[1 := erasing]), LATE_PUT[0], LATE_PUT[1], LATE_PUT[2]);
  }

  lemma RunSiteThree(site: Site, a: Step, b: Step, c: Step)
    ensures RunSite(site, [a, b, c]) == Take(Take(Take(site, a), b), c)
  {
    assert [a, b, c] == [a] + [b] + [c];
    RunSiteConcat(site, [a] + [b], [c]);
    RunSiteConcat(site, [a], [b]);
    RunSiteOne(site, a);
    RunSiteOne(Take(site, a), b);
    RunSiteOne(Take(Take(site, a), b), c);
  }

  lemma PutCommits(w: World, erasing: Tx)
    requires Fresh(w)
    ensures var site := DoCommitPut(Site(w, map[1 := erasing, 2 := Putting(BUFFERED)]), 2);
      site.txs == map[1 := erasing] && site.w.s.t.objects ==
          map[LATE.id := Row(ROW.ref.collection, RowAt(0), Some(SUBJECT), false)]
  {
    assert Drawn('i')[0] != Drawn('s')[0];
    assert AllFresh(w.s, [LATE]) && AllVersioned(HOLDER, w.engines, [LATE]);
    assert MayCommit(w, BUFFERED);
    assert map[1 := erasing, 2 := Putting(BUFFERED)] - {2} == map[1 := erasing];
  }

  /** A put that runs while DeleteSubject runs: the UPDATE finds nothing to erase, the put commits,
      the erasure commits, and an object about the subject is live. */
  lemma LatePutSurvives()
    ensures var site := RunSite(Site(START, map[]),
        BOOTED + [BeginDeleteSubject(1, "client", SUBJECT)] + LATE_PUT + [CommitErase(1)]);
      site.txs == map[] && SubjectRefs(site.w.s.t, SUBJECT) == {ROW.ref}
  {
    var erase := BeginDeleteSubject(1, "client", SUBJECT);
    var site1 := RunSite(Site(START, map[]), BOOTED);
    AfterBooted();
    var site2 := Take(site1, erase);
    assert SubjectRefs(site1.w.s.t, SUBJECT) == {};
    assert site2 == Site(site1.w, map[1 := NewErasing("client", {})]);
    PutIsBuffered(site1.w, NewErasing("client", {}));
    PutCommits(site1.w, NewErasing("client", {}));
    var site3 := RunSite(site2, LATE_PUT);
    ErasesNothing(site3);
    RunSiteConcat(Site(START, map[]), BOOTED, [erase]);
    RunSiteConcat(Site(START, map[]), BOOTED + [erase], LATE_PUT);
    RunSiteConcat(Site(START, map[]), BOOTED + [erase] + LATE_PUT, [CommitErase(1)]);
    RunSiteOne(site1, erase);
    RunSiteOne(site3, CommitErase(1));
  }

  lemma ErasesNothing(site: Site)
    requires site.txs == map[1 := NewErasing("client", {})]
    requires site.w.s.t.objects == map[LATE.id := Row(ROW.ref.collection, RowAt(0), Some(SUBJECT), false)]
    ensures var site' := Take(site, CommitErase(1));
      site'.txs == map[] && SubjectRefs(site'.w.s.t, SUBJECT) == {ROW.ref}
  {
    var t := DoCommitErase(site, 1).w.s.t;
    assert MayErase(site, 1);
    assert t.objects == site.w.s.t.objects + map[] == site.w.s.t.objects;
    assert LATE.id in t.objects && t.objects[LATE.id].subject == Some(SUBJECT);
  }
}
