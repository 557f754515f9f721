/** What a whole rotation keeps from statement to statement (internal/store/store.go, Rotate), on
    whatever terms it runs: among others, among others who share its wrapper, alone, or traced
    by a process of the step machine. */
module Courses {
  import opened Strings
  import opened Identity
  import opened Envelope
  import opened Tables
  import opened Vault
  import opened Guarantees
  import opened Paging
  import opened Rotation
  import opened Simulation

  /** Under which assumptions a rotation runs, from which world, and whether the index key moved. */
  datatype Terms = Terms(w0: World, good: bool, sharing: bool, held: bool, alone: bool, base: int,
      trace: Option<Tracer>)

  /** A process of the machine that is to do what this rotation does, among the others of a schedule. */
  datatype Tracer = Tracer(sched: Schedule, p: nat, key: Bytes)

  ghost predicate MayTrace(t: Tracer, others: Others, w0: World)
  {
    others == OthersOf(t.sched) && ForeignSchedule(t.sched, t.p) && t.p !in w0.procs
  }

  /** The process with nothing to do. */
  function Resting(t: Tracer, env: Envelope, w: World): World { With(w, t.p, Rotator(env, t.key, Idle)) }

  /** So far, it is a run of that process. */
  ghost predicate Traced(t: Tracer, env: Envelope, w0: World, a: Progress)
  {
    && t.p !in a.w.procs && a.err.None?
    && Reaches(Resting(t, env, w0), Carried(a, env, t.key, [], t.p), t.sched, t.p, 0, a.k)
  }

  /** From first to last, it is a run of that process among what the others do. */
  ghost predicate RanAs(t: Tracer, env: Envelope, w0: World, w: World)
  {
    exists k: nat :: Reaches(Resting(t, env, w0), Resting(t, env, w), t.sched, t.p, 0, k)
  }

  ghost predicate TermsHold(m: Terms, env: Envelope, others: Others, net: nat -> Outage)
  {
    && (m.good ==> Rely(others) && Started(m.w0.s.h, env))
    && (m.sharing ==> m.good && RelyUnder(others, env.current.id))
    && (m.held ==> m.good && RelyHeld(others, env))
    && (m.alone ==> QuietFrom(others, 0) && forall n :: net(n) == {})
    && (m.trace.Some? ==> MayTrace(m.trace.value, others, m.w0))
  }

  ghost predicate OnCourse(m: Terms, env: Envelope, a: Progress)
  {
    && (m.good ==> Inv(a.w) && Follows(m.w0, a.w))
    && (m.sharing ==> SharedProgress(env, a))
    && (m.held ==> HoldsCurrents(env, a.w) && a.skipped == 0)
    && (m.alone ==> AloneProgress(env, m.w0.engines, m.w0.s.t, a, m.base))
    && (m.trace.Some? ==> Traced(m.trace.value, env, m.w0, a))
  }

  // ---- tracing ----

  lemma InterferenceIsTraced(t: Tracer, env: Envelope, others: Others, w0: World, a: Progress)
    requires MayTrace(t, others, w0) && Traced(t, env, w0, a)
    ensures Traced(t, env, w0, a.(w := others(a.w, a.k), k := a.k + 1))
  {
    var b := a.(w := others(a.w, a.k), k := a.k + 1);
    ReachesBySlot(a.w, t.p, Rotator(env, t.key, Rotating(a.last, [], None)), t.sched, a.k);
    ReachesThen(Resting(t, env, w0), Carried(a, env, t.key, [], t.p), Carried(b, env, t.key, [], t.p), t.sched, t.p, 0,
        a.k, b.k);
  }

  lemma ReadsPage(w: World, p: nat, cursor: string, page: seq<PageRow>)
    requires Ready(w, p) && w.procs[p].job == Rotating(cursor, [], None)
    requires page == ReadPage(w.s.t, ToRotate(w.s.t, w.procs[p].env), cursor)
    ensures Apply(w, RotatePage(p)) == WithJob(w, p, if page == [] then Idle else Rotating(cursor, page, None))
  {
  }

  lemma NewJob(w: World, env: Envelope, key: Bytes, job: Job, p: nat, next: Job)
    ensures WithJob(With(w, p, Rotator(env, key, job)), p, next) == With(w, p, Rotator(env, key, next))
  {
  }

  lemma PageIsStep(w: World, env: Envelope, key: Bytes, cursor: string, p: nat, page: seq<PageRow>)
    requires page == ReadPage(w.s.t, ToRotate(w.s.t, env), cursor)
    ensures Apply(With(w, p, Rotator(env, key, Rotating(cursor, [], None))), RotatePage(p)) ==
      With(w, p, Rotator(env, key, if page == [] then Idle else Rotating(cursor, page, None)))
  {
    ReadsPage(With(w, p, Rotator(env, key, Rotating(cursor, [], None))), p, cursor, page);
    NewJob(w, env, key, Rotating(cursor, [], None), p, if page == [] then Idle else Rotating(cursor, page, None));
  }

  lemma PageIsTraced(t: Tracer, env: Envelope, others: Others, net: nat -> Outage, w0: World, b: Progress,
      page: seq<PageRow>)
    requires MayTrace(t, others, w0) && Traced(t, env, w0, b) && ObjectRows(page) && page != []
    requires page == ReadPage(b.w.s.t, ToRotate(b.w.s.t, env), b.last)
    ensures var z := AfterRows(env, others, net, b, page); z.err.None? ==> Traced(t, env, w0, z)
  {
    var z := AfterRows(env, others, net, b, page);
    var start, here, there := Resting(t, env, w0), Carried(b, env, t.key, [], t.p), Carried(b, env, t.key, page, t.p);
    PageIsStep(b.w, env, t.key, b.last, t.p, page);
    ReachesByStep(here, RotatePage(t.p), t.sched, t.p, b.k);
    ReachesThen(start, here, there, t.sched, t.p, 0, b.k, b.k);
    RowsAreRun(b, env, t.key, t.sched, net, page, t.p);
    ReachesThen(start, there, Carried(z, env, t.key, [], t.p), t.sched, t.p, 0, b.k, z.k);
  }

  lemma LastPageIsTraced(t: Tracer, env: Envelope, w0: World, b: Progress)
    requires Traced(t, env, w0, b) && ReadPage(b.w.s.t, ToRotate(b.w.s.t, env), b.last) == []
    ensures RanAs(t, env, w0, b.w)
  {
    var here := Carried(b, env, t.key, [], t.p);
    PageIsStep(b.w, env, t.key, b.last, t.p, []);
    ReachesByStep(here, RotatePage(t.p), t.sched, t.p, b.k);
    ReachesThen(Resting(t, env, w0), here, Resting(t, env, b.w), t.sched, t.p, 0, b.k, b.k);
  }

  lemma StartIsStep(t: Tracer, env: Envelope, w: World)
    requires w.s.t.keys.Some?
    ensures Apply(Resting(t, env, w), RotateStart(t.p)) ==
      With(w, t.p, Rotator(env, t.key, Rotating("", [PageRow(KeyTarget, w.s.t.keys.value)] + [], None)))
  {
    assert [PageRow(KeyTarget, w.s.t.keys.value)] + [] == [PageRow(KeyTarget, w.s.t.keys.value)];
  }

  lemma StartIsTraced(t: Tracer, env: Envelope, others: Others, w0: World)
    requires MayTrace(t, others, w0) && others(w0, 0).s.t.keys.Some?
    ensures var w1 := others(w0, 0);
      && t.p !in w1.procs
      && Reaches(Resting(t, env, w0), With(w1, t.p,
          Rotator(env, t.key, Rotating("", [PageRow(KeyTarget, w1.s.t.keys.value)] + [], None))), t.sched, t.p, 0, 1)
  {
    var w1 := others(w0, 0);
    ReachesBySlot(w0, t.p, Rotator(env, t.key, Idle), t.sched, 0);
    StartIsStep(t, env, w1);
    ReachesByStep(Resting(t, env, w1), RotateStart(t.p), t.sched, t.p, 1);
    ReachesThen(Resting(t, env, w0), Resting(t, env, w1), Apply(Resting(t, env, w1), RotateStart(t.p)), t.sched, t.p, 0,
        1, 1);
  }

  lemma KeyRowIsTraced(t: Tracer, env: Envelope, others: Others, net: nat -> Outage, w0: World)
    requires MayTrace(t, others, w0) && others(w0, 0).s.t.keys.Some?
    ensures var w1 := others(w0, 0);
      var r := RotateRowResult(w1, env, others, net, 1, PageRow(KeyTarget, w1.s.t.keys.value));
      !r.outcome.Failed? ==> forall moved: nat :: Traced(t, env, w0, Progress(r.w, r.k, moved, 0, "", None))
  {
    var w1 := others(w0, 0);
    var row := PageRow(KeyTarget, w1.s.t.keys.value);
    var r := RotateRowResult(w1, env, others, net, 1, row);
    StartIsTraced(t, env, others, w0);
    RowIsRun(w1, env, t.key, t.sched, net, 1, row, "", [], t.p);
    ReachesThen(Resting(t, env, w0), With(w1, t.p, Rotator(env, t.key, Rotating("", [row] + [], None))),
                With(r.w, t.p, Rotator(env, t.key, JobAfter(row, "", [], r.outcome))), t.sched, t.p, 0, 1, r.k);
  }

  // ---- from statement to statement ----

  lemma OnCourseFrom(m: Terms, env: Envelope, a: Progress)
    requires OnCourse(m.(base := a.rotated), env, a) && (m.alone ==> m.base == a.rotated)
    ensures OnCourse(m, env, a)
  {
  }

  lemma InterferenceStaysGood(w0: World, w: World, others: Others, k: nat)
    requires Rely(others) && Inv(w) && Follows(w0, w)
    ensures Inv(others(w, k)) && Follows(w0, others(w, k))
  {
    FollowsTransitive(w0, w, others(w, k));
  }

  lemma InterferenceStaysShared(env: Envelope, a: Progress, others: Others)
    requires RelyUnder(others, env.current.id) && Inv(a.w) && SharedProgress(env, a)
    ensures SharedProgress(env, a.(w := others(a.w, a.k), k := a.k + 1))
  {
    SharedInterference(env, a, others(a.w, a.k));
  }

  lemma InterferenceStaysAlone(env: Envelope, engines: Engines, t0: Tables, a: Progress, others: Others, base: int)
    requires QuietFrom(others, 0) && AloneProgress(env, engines, t0, a, base)
    ensures AloneProgress(env, engines, t0, a.(w := others(a.w, a.k), k := a.k + 1), base)
  {
  }

  lemma InterferenceStaysOnCourse(m: Terms, env: Envelope, others: Others, net: nat -> Outage, a: Progress)
    requires TermsHold(m, env, others, net) && OnCourse(m, env, a)
    ensures OnCourse(m, env, a.(w := others(a.w, a.k), k := a.k + 1))
  {
    if m.good { InterferenceStaysGood(m.w0, a.w, others, a.k); }
    if m.sharing { InterferenceStaysShared(env, a, others); }
    if m.alone { InterferenceStaysAlone(env, m.w0.engines, m.w0.s.t, a, others, m.base); }
    if m.trace.Some? { InterferenceIsTraced(m.trace.value, env, others, m.w0, a); }
  }

  /** Nothing can end the run before its end. */
  ghost predicate MustEnd(m: Terms, net: nat -> Outage) { m.alone || (m.held && forall n :: net(n) == {}) }

  lemma PageStaysOnCourse(m: Terms, env: Envelope, others: Others, net: nat -> Outage, b: Progress, page: seq<PageRow>,
      ids: seq<string>)
    requires TermsHold(m, env, others, net) && OnCourse(m, env, b)
    requires PageToRotate(env, b, page, ids) && page != []
    ensures ObjectRows(page)
    ensures var z := AfterRows(env, others, net, b, page);
      (z.err.None? ==> OnCourse(m, env, z)) && (m.good ==> Inv(z.w) && Follows(m.w0, z.w))
          && (MustEnd(m, net) ==> z.err.None?)
  {
    PageIsObjectRows(env, b, page, ids);
    if m.held { PageGoesLoaded(env, others, net, m.w0, b, page, ids); }
    if m.good { PageIsGood(env, others, net, m.w0, b, page, ids); }
    if m.sharing { PageClears(env, others, net, m.w0, b, page, ids); }
    if m.alone { PageAlone(env, others, m.w0.engines, m.w0.s.t, net, b, page, ids, m.base); }
    if m.trace.Some? { PageIsTraced(m.trace.value, env, others, net, m.w0, b, page); }
  }

  /** A whole page, from one SELECT to the next. */
  lemma PageTurn(m: Terms, env: Envelope, others: Others, net: nat -> Outage, b: Progress, page: seq<PageRow>,
      ids: seq<string>)
    requires TermsHold(m, env, others, net) && OnCourse(m, env, b) && PageToRotate(env, b, page, ids) && page != []
    ensures ObjectRows(page) && PageTurned(m, env, others, net, b, AfterRows(env, others, net, b, page))
  {
    PageStaysOnCourse(m, env, others, net, b, page, ids);
    PageAdvances(env, others, net, b, page, ids);
  }

  ghost predicate PageTurned(m: Terms, env: Envelope, others: Others, net: nat -> Outage, b: Progress, z: Progress)
  {
    && (m.good ==> Inv(z.w) && Follows(m.w0, z.w)) && (MustEnd(m, net) ==> z.err.None?)
    && (z.err.None? ==> OnCourse(m, env, z)) && z.k > b.k
    && (z.err.None? && QuietFrom(others, b.k)
        ==> |After(z.w.s.t.objects.Keys, z.last)| < |After(b.w.s.t.objects.Keys, b.last)|)
  }

  /** What a rotation that ends without an error has achieved. */
  ghost predicate Achieved(m: Terms, env: Envelope, z: Progress)
  {
    && (m.sharing ==> ProcsUnder(z.w.procs, env.current.id)) && (m.held ==> z.skipped == 0)
    && (m.sharing && z.skipped == 0 ==> AllUnder(z.w.s.t, env.current.id))
    && (m.alone ==> z.w.engines == m.w0.engines && RotatedAll(env, m.w0.engines, m.w0.s.t, z.w.s.t)
                    && z.rotated == m.base + |AllMoved(env, m.w0.engines, m.w0.s.t)|
                        && z.skipped == |AllSkipped(env, m.w0.engines, m.w0.s.t)|)
    && (m.trace.Some? ==> RanAs(m.trace.value, env, m.w0, z.w))
  }

  /** A rotation that has not failed: under way, or at its end. */
  ghost predicate UnderWay(m: Terms, env: Envelope, more: bool, a: Progress)
  {
    (m.good ==> Inv(a.w) && Follows(m.w0, a.w)) && if more then OnCourse(m, env, a) else Achieved(m, env, a)
  }

  lemma AchievedIs(m: Terms, env: Envelope, a: Progress, k: nat, last: string)
    ensures Achieved(m, env, a.(k := k, last := last)) <==> Achieved(m, env, a)
  {
  }

  lemma LastPageAchieves(m: Terms, env: Envelope, b: Progress, page: seq<PageRow>, ids: seq<string>)
    requires OnCourse(m, env, b) && PageToRotate(env, b, page, ids) && page == []
    ensures Achieved(m, env, b)
  {
    if m.sharing && b.skipped == 0 { LastPageClears(env, b, page, ids); }
    if m.alone { LastPageAlone(env, m.w0.engines, m.w0.s.t, b, page, ids, m.base); }
    if m.trace.Some? { LastPageIsTraced(m.trace.value, env, m.w0, b); }
  }

  predicate KeyIsBad(env: Envelope, w: World) { KeyRowIsBad(env, w.engines, w.s.t.keys) }

  predicate KeyMoves(env: Envelope, w: World) { KeyRowMoves(env, w.engines, w.s.t.keys) }

  /** The terms on which a rotation may start from its first world. */
  ghost predicate TermsStart(m: Terms, env: Envelope)
  {
    && (m.good ==> Inv(m.w0))
    && (m.sharing ==> ProcsUnder(m.w0.procs, env.current.id))
    && (m.held ==> HoldsCurrents(env, m.w0) && m.w0.s.h.secret.Some?)
    && (m.alone ==> "" !in m.w0.s.t.objects)
  }

  lemma KeyRowStaysOnCourse(m: Terms, env: Envelope, others: Others, net: nat -> Outage)
    requires EnvelopeValid(env) && TermsHold(m, env, others, net) && TermsStart(m, env)
    requires others(m.w0, 0).s.t.keys.Some?
    ensures var w1 := others(m.w0, 0);
      var r := RotateRowResult(w1, env, others, net, 1, PageRow(KeyTarget, w1.s.t.keys.value));
      var moved := if r.outcome == Written(true) then 1 else 0;
      && (m.good ==> Inv(r.w) && Follows(m.w0, r.w))
      && (!r.outcome.Failed? ==> OnCourse(m.(base := moved), env, Progress(r.w, r.k, moved, 0, "", None)))
      && (m.alone ==> (r.outcome.Failed? <==> KeyIsBad(env, m.w0)) && (moved == 1 <==> KeyMoves(env, m.w0)))
      && (m.held && (forall n :: net(n) == {}) ==> !r.outcome.Failed?)
  {
    var w1 := others(m.w0, 0);
    var row := PageRow(KeyTarget, w1.s.t.keys.value);
    if m.good { KeyRowIsGood(m, env, others, net, w1, row); }
    if m.sharing { KeyRowIsUnder(m, env, others, net, w1, row); }
    if m.held { KeyRowIsLoaded(m, env, others, net, w1, row); }
    if m.alone { KeyRowAlone(m, env, others, net, w1, row); }
    if m.trace.Some? { KeyRowIsTraced(m.trace.value, env, others, net, m.w0); }
  }

  lemma KeyRowIsGood(m: Terms, env: Envelope, others: Others, net: nat -> Outage, w1: World, row: PageRow)
    requires TermsHold(m, env, others, net) && TermsStart(m, env) && m.good
    requires w1 == others(m.w0, 0) && w1.s.t.keys.Some? && row == PageRow(KeyTarget, w1.s.t.keys.value)
    ensures var r := RotateRowResult(w1, env, others, net, 1, row); Inv(r.w) && Follows(m.w0, r.w)
  {
    assert KeySound(w1.s.h, w1.s.t.keys.value);
    RotateRowKeeps(w1, env, others, net, 1, row);
    FollowsTransitive(m.w0, w1, RotateRowResult(w1, env, others, net, 1, row).w);
  }

  lemma KeyRowIsLoaded(m: Terms, env: Envelope, others: Others, net: nat -> Outage, w1: World, row: PageRow)
    requires EnvelopeValid(env) && TermsHold(m, env, others, net) && TermsStart(m, env) && m.held
    requires w1 == others(m.w0, 0) && w1.s.t.keys.Some? && row == PageRow(KeyTarget, w1.s.t.keys.value)
    ensures var r := RotateRowResult(w1, env, others, net, 1, row);
      HoldsCurrents(env, r.w) && (net(1) == net(2) == {} ==> !r.outcome.Failed?)
  {
    assert KeySound(w1.s.h, w1.s.t.keys.value);
    LoadedRowGoes(w1, env, others, net, 1, row);
    RowHoldsCurrents(w1, env, others, net, 1, row);
  }

  /** A store that has started has an index key to rotate, whatever the others do. */
  lemma KeyRowIsThere(m: Terms, env: Envelope, others: Others, net: nat -> Outage)
    requires TermsHold(m, env, others, net) && TermsStart(m, env) && m.held
    ensures others(m.w0, 0).s.t.keys.Some?
  {
    assert Inv(others(m.w0, 0)) && Follows(m.w0, others(m.w0, 0));
  }

  lemma NoRowHasEmptyId(w: World, k: string)
    requires Inv(w)
    ensures AheadOf(w.s.t, k, "")
  {
  }

  lemma KeyRowIsUnder(m: Terms, env: Envelope, others: Others, net: nat -> Outage, w1: World, row: PageRow)
    requires EnvelopeValid(env) && TermsHold(m, env, others, net) && TermsStart(m, env) && m.sharing
    requires w1 == others(m.w0, 0) && w1.s.t.keys.Some? && row == PageRow(KeyTarget, w1.s.t.keys.value)
    requires Inv(w1) && UnderAndShrinking(m.w0, w1, env.current.id)
        && Inv(RotateRowResult(w1, env, others, net, 1, row).w)
    ensures var r := RotateRowResult(w1, env, others, net, 1, row);
      !r.outcome.Failed? ==> forall k, moved: nat :: SharedProgress(env, Progress(r.w, k, moved, 0, "", None))
  {
    RotateRowMoves(w1, env, others, net, 1, row);
    var r := RotateRowResult(w1, env, others, net, 1, row);
    NoRowHasEmptyId(r.w, env.current.id);
  }

  lemma KeyRowAlone(m: Terms, env: Envelope, others: Others, net: nat -> Outage, w1: World, row: PageRow)
    requires EnvelopeValid(env) && TermsHold(m, env, others, net) && TermsStart(m, env) && m.alone
    requires w1 == others(m.w0, 0) && w1.s.t.keys.Some? && row == PageRow(KeyTarget, w1.s.t.keys.value)
    ensures var r := RotateRowResult(w1, env, others, net, 1, row);
      && (r.outcome.Failed? <==> KeyIsBad(env, m.w0)) && (r.outcome == Written(true) <==> KeyMoves(env, m.w0))
      && (forall k, moved: nat :: !r.outcome.Failed? ==>
        AloneProgress(env, m.w0.engines, m.w0.s.t, Progress(r.w, k, moved, 0, "", None), moved))
  {
    var r := RotateRowResult(w1, env, others, net, 1, row);
    QuietKeyRow(m.w0, env, others, net, row);
    if !r.outcome.Failed? { NothingRotatedYet(env, m.w0.engines, m.w0.s.t, r.w.s.t); }
  }

  /** The index key with nobody else around. */
  lemma QuietKeyRow(w: World, env: Envelope, others: Others, net: nat -> Outage, row: PageRow)
    requires EnvelopeValid(env) && QuietFrom(others, 0) && net(1) == net(2) == {}
    requires w.s.t.keys.Some? && row == PageRow(KeyTarget, w.s.t.keys.value)
    ensures var r := RotateRowResult(w, env, others, net, 1, row);
      && (r.outcome.Failed? <==> KeyIsBad(env, w)) && (r.outcome == Written(true) <==> KeyMoves(env, w))
      && (!r.outcome.Failed? ==>
        r.w.engines == w.engines && r.w.s.t == w.s.t.(keys := RotatedKey(env, w.engines, w.s.t.keys)))
  {
    RotateRowIs(w, env, others, net, 1, row);
  }

  /** The terms on which a store rotates: whatever the world grants. */
  ghost function TermsOf(w: World, env: Envelope, index: Bytes, others: Others, net: nat -> Outage,
      trace: Option<Tracer>): Terms
  {
    var good := Rely(others) && Inv(w) && Started(w.s.h, env) && w.s.h.secret.Some? && index == w.s.h.secret.value.key;
    var sharing := good && RelyUnder(others, env.current.id) && ProcsUnder(w.procs, env.current.id);
    var held := good && RelyHeld(others, env) && HoldsCurrents(env, w);
    var alone := QuietFrom(others, 0) && (forall n :: net(n) == {}) && "" !in w.s.t.objects;
    var traced := trace.Some? && MayTrace(trace.value, others, w);
    Terms(w, good, sharing, held, alone, if KeyMoves(env, w) then 1 else 0, if traced then trace else None)
  }

  lemma TermsOfHold(w: World, env: Envelope, index: Bytes, others: Others, net: nat -> Outage, trace: Option<Tracer>)
    ensures var m := TermsOf(w, env, index, others, net, trace); TermsHold(m, env, others, net) && TermsStart(m, env)
  {
  }

  /** What a rotation that is alone and started well does: it ends well exactly when the wrapper of
      the index key is held; then all that is held is renewed, and what is not is skipped. */
  ghost predicate RenewsAlone(env: Envelope, engines: Engines, t0: Tables, t: Tables, rotated: nat, skipped: nat,
      ok: bool)
  {
    && t0.keys.Some? && (ok <==> Loaded(env, t0.keys.value))
    && (ok ==> RenewedAll(env, engines, t0, t))
    && (ok ==> skipped == |NotLoaded(env, t0)|)
    && (ok ==> rotated == |ToMove(env, engines, t0)| + if Behind(env, engines, t0.keys.value) then 1 else 0)
    && (ok && NotLoaded(env, t0) == {} ==> AllUnder(t, env.current.id))
  }

  lemma RotatedIsRenewed(w0: World, env: Envelope, t: Tables, rotated: nat, skipped: nat, ok: bool)
    requires Inv(w0) && EnvelopeValid(env) && w0.s.t.keys.Some? && (!ok <==> KeyIsBad(env, w0))
    requires ok ==> RotatedAll(env, w0.engines, w0.s.t, t) && skipped == |AllSkipped(env, w0.engines, w0.s.t)|
    requires ok ==> rotated == |AllMoved(env, w0.engines, w0.s.t)| + if KeyMoves(env, w0) then 1 else 0
    ensures RenewsAlone(env, w0.engines, w0.s.t, t, rotated, skipped, ok)
  {
    KeyMovesExactlyWhen(w0.s, env, w0.engines);
    if ok {
      RotationRenews(w0.s, env, w0.engines, t);
      RotationCounts(w0.s, env, w0.engines);
      if NotLoaded(env, w0.s.t) == {} { RenewedIsUnder(w0.s, env, w0.engines, t); }
    }
  }

  lemma StartedHasKey(w: World)
    requires Inv(w) && w.s.h.secret.Some?
    ensures w.s.t.keys.Some? && "" !in w.s.t.objects
  {
  }
}
