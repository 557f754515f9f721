/** Reindexing as the store does it, statement by statement (internal/store/store.go, Reindex and
    rewriteIndex), is a run of the step machine: the same tables, the same copies, one process more. */
module ReindexSimulation {
  import opened Strings
  import opened Identity
  import opened Envelope
  import opened Tables
  import opened Vault
  import opened Paging
  import opened Rotation
  import opened Simulation
  import opened Reindexing

  /** The reindexer as a process of the machine. */
  function Worker(c: Reindexer, job: Job): Proc { Proc(c.env, Some(c.key), job) }

  function Doing(w: World, c: Reindexer, job: Job, p: nat): World { With(w, p, Worker(c, job)) }

  /** Where a run stands, as a world of the machine; page is what is left of its page. */
  function Working(a: Tally, c: Reindexer, filter: string, page: seq<PageRow>, p: nat): World
  {
    Doing(a.w, c, if a.err.Some? then Idle else Reindexing(filter, a.last, page, None), p)
  }

  lemma NewDoing(w: World, c: Reindexer, job: Job, p: nat, next: Job)
    ensures WithJob(Doing(w, c, job, p), p, next) == Doing(w, c, next, p)
  {
  }

  /** Its job after it has looked at the next row copy. */
  function JobOf(c: Reindexer, filter: string, row: PageRow, rest: seq<PageRow>, reading: Reading): Job
    requires row.target.ObjectTarget?
  {
    var id := row.target.ref.id;
    match reading
    case Stop(_) => Idle
    case Skip => Reindexing(filter, id, rest, None)
    case Take(values) => Reindexing(filter, id, rest, Some(Rewrite(row.target.ref, values)))
  }

  lemma TakesRow(c: Reindexer, filter: string, cursor: string, row: PageRow, rest: seq<PageRow>, outage: Outage)
    requires row.target.ObjectTarget?
    ensures TakeToReindex(c.env, outage, c.indexed, Reindexing(filter, cursor, [row] + rest, None)) ==
      JobOf(c, filter, row, rest, ReadRow(c, outage, row))
  {
    assert ([row] + rest)[1..] == rest;
  }

  lemma TakeIsStep(w: World, c: Reindexer, filter: string, cursor: string, row: PageRow, rest: seq<PageRow>,
      outage: Outage, p: nat)
    requires row.target.ObjectTarget?
    ensures Apply(Doing(w, c, Reindexing(filter, cursor, [row] + rest, None), p), ReindexTake(p, outage, c.indexed)) ==
      Doing(w, c, JobOf(c, filter, row, rest, ReadRow(c, outage, row)), p)
  {
    var job := Reindexing(filter, cursor, [row] + rest, None);
    var here := Doing(w, c, job, p);
    assert here.procs[p] == Worker(c, job) && MayTake(here, p);
    TakesRow(c, filter, cursor, row, rest, outage);
    NewDoing(w, c, job, p, JobOf(c, filter, row, rest, ReadRow(c, outage, row)));
  }

  lemma GiveUpIsStep(w: World, c: Reindexer, job: Job, p: nat)
    ensures Apply(Doing(w, c, job, p), GiveUp(p)) == Doing(w, c, Idle, p)
  {
    NewDoing(w, c, job, p, Idle);
  }

  /** The transaction is the write of the machine, and, if it wrote something, the copy of its entry. */
  lemma WriteIsSteps(w: World, c: Reindexer, filter: string, at: string, rest: seq<PageRow>, ref: Ref,
      values: map<string, string>, p: nat)
    ensures var wrote := Apply(Doing(w, c, Reindexing(filter, at, rest, Some(Rewrite(ref, values))), p),
        ReindexWrite(p, c.actor));
      (if Live(w.s.t, ref.id) then Apply(wrote, Emit(ReindexEntry(c.actor, ref))) else wrote) ==
        Doing(RewriteTx(w, c, ref, values), c, Reindexing(filter, at, rest, None), p)
  {
    var job := Reindexing(filter, at, rest, Some(Rewrite(ref, values)));
    var here := Doing(w, c, job, p);
    assert here.procs[p] == Worker(c, job);
    ReindexWriteIs(here, p, c.actor);
    CommitCommutes(w, p, Worker(c, job), ReindexedState(here, p, c.actor));
    NewDoing(Commit(w, ReindexedState(here, p, c.actor)), c, job, p, Reindexing(filter, at, rest, None));
    var s := RewriteIndex(w.s, c.key, c.actor, ref, values);
    if Live(w.s.t, ref.id) {
      EmitCommutes(Commit(w, s), p, Worker(c, Reindexing(filter, at, rest, None)), ReindexEntry(c.actor, ref));
      EmitsOne(Commit(w, s), ReindexEntry(c.actor, ref));
    } else {
      CommitNothing(w);
    }
  }

  lemma CommitCommutes(w: World, p: nat, proc: Proc, s: State)
    ensures Commit(With(w, p, proc), s) == With(Commit(w, s), p, proc)
  {
  }

  lemma EmitCommutes(w: World, p: nat, proc: Proc, e: AuditEntry)
    ensures Apply(With(w, p, proc), Emit(e)) == With(DoEmit(w, e), p, proc)
  {
  }

  lemma EmitsOne(w: World, e: AuditEntry)
    ensures EmitAll(w, [e]) == DoEmit(w, e)
  {
    assert [e][1..] == [] && EmitAll(DoEmit(w, e), []) == DoEmit(w, e);
  }

  lemma CommitNothing(w: World)
    ensures Commit(w, w.s) == w
  {
    assert multiset(w.s.t.audit[|w.s.t.audit|..]) == multiset{};
  }

  // ---- one row ----

  lemma WriteReaches(w: World, c: Reindexer, filter: string, at: string, rest: seq<PageRow>, ref: Ref,
      values: map<string, string>, sched: Schedule, p: nat, k: nat)
    ensures Reaches(Doing(w, c, Reindexing(filter, at, rest, Some(Rewrite(ref, values))), p),
                    Doing(RewriteTx(w, c, ref, values), c, Reindexing(filter, at, rest, None), p), sched, p, k, k)
  {
    var here := Doing(w, c, Reindexing(filter, at, rest, Some(Rewrite(ref, values))), p);
    var wrote := Apply(here, ReindexWrite(p, c.actor));
    WriteIsSteps(w, c, filter, at, rest, ref, values, p);
    ReachesByStep(here, ReindexWrite(p, c.actor), sched, p, k);
    if Live(w.s.t, ref.id) {
      ReachesByStep(wrote, Emit(ReindexEntry(c.actor, ref)), sched, p, k);
      ReachesThen(here, wrote, Apply(wrote, Emit(ReindexEntry(c.actor, ref))), sched, p, k, k, k);
    }
  }

  /** After the others: the transaction, or the statement fails, or there is no such row. */
  lemma TxSteps(a: Tally, w1: World, c: Reindexer, filter: string, ref: Ref, rest: seq<PageRow>,
      values: map<string, string>, sched: Schedule, fails: bool, p: nat)
    requires p !in w1.procs
    ensures var z := AfterTake(c, w1, fails, a, ref, values);
      && p !in z.w.procs && z.k == a.k + 1
      && Reaches(Doing(w1, c, Reindexing(filter, ref.id, rest, Some(Rewrite(ref, values))), p),
                 Working(z, c, filter, rest, p), sched, p, z.k, z.k)
  {
    var job := Reindexing(filter, ref.id, rest, Some(Rewrite(ref, values)));
    if fails || ref.id !in w1.s.t.objects {
      GiveUpIsStep(w1, c, job, p);
      ReachesByStep(Doing(w1, c, job, p), GiveUp(p), sched, p, a.k + 1);
    } else {
      RewriteTxKeepsRows(c, w1, ref, values);
      WriteReaches(w1, c, filter, ref.id, rest, ref, values, sched, p, a.k + 1);
    }
  }

  lemma TxReaches(a: Tally, c: Reindexer, filter: string, ref: Ref, rest: seq<PageRow>, values: map<string, string>,
      sched: Schedule, fails: bool, z: Tally, p: nat)
    requires p !in a.w.procs && ForeignSchedule(sched, p)
    requires z == AfterTake(c, OthersOf(sched)(a.w, a.k), fails, a, ref, values)
    ensures p !in z.w.procs
    ensures Reaches(Doing(a.w, c, Reindexing(filter, ref.id, rest, Some(Rewrite(ref, values))), p),
                    Working(z, c, filter, rest, p), sched, p, a.k, z.k)
  {
    var job, w1 := Reindexing(filter, ref.id, rest, Some(Rewrite(ref, values))), OthersOf(sched)(a.w, a.k);
    ReachesBySlot(a.w, p, Worker(c, job), sched, a.k);
    TxSteps(a, w1, c, filter, ref, rest, values, sched, fails, p);
    ReachesThen(Doing(a.w, c, job, p), Doing(w1, c, job, p), Working(z, c, filter, rest, p), sched, p, a.k, z.k, z.k);
  }

  /** One row of the store is a run of the machine, whatever the others do before its transaction. */
  lemma ReindexRowIsRun(a: Tally, c: Reindexer, filter: string, row: PageRow, rest: seq<PageRow>, sched: Schedule,
      net: nat -> Outage, p: nat)
    requires p !in a.w.procs && ForeignSchedule(sched, p) && row.target.ObjectTarget? && a.err.None?
    ensures var z := AfterReindexRow(c, OthersOf(sched), net, a, row);
      p !in z.w.procs && Reaches(Working(a, c, filter, [row] + rest, p), Working(z, c, filter, rest, p), sched, p, a.k,
          z.k)
  {
    var here, reading := Working(a, c, filter, [row] + rest, p), ReadRow(c, net(a.k), row);
    var z := AfterReindexRow(c, OthersOf(sched), net, a, row);
    var took := Doing(a.w, c, JobOf(c, filter, row, rest, reading), p);
    RowIs(c, OthersOf(sched), net, a, row);
    TakeIsStep(a.w, c, filter, a.last, row, rest, net(a.k), p);
    ReachesByStep(here, ReindexTake(p, net(a.k), c.indexed), sched, p, a.k);
    match reading {
      case Stop(_) =>
      case Skip =>
      case Take(values) =>
        TxReaches(a, c, filter, row.target.ref, rest, values, sched, DATABASE in net(a.k), z, p);
        ReachesThen(here, took, Working(z, c, filter, rest, p), sched, p, a.k, a.k, z.k);
    }
  }

  lemma {:induction false} ReindexRowsAreRun(a: Tally, c: Reindexer, filter: string, page: seq<PageRow>,
      sched: Schedule,
      net: nat -> Outage, p: nat)
    requires p !in a.w.procs && ForeignSchedule(sched, p) && ObjectRows(page) && a.err.None?
    ensures var z := AfterReindexRows(c, OthersOf(sched), net, a, page);
      p !in z.w.procs && Reaches(Working(a, c, filter, page, p), Working(z, c, filter, [], p), sched, p, a.k, z.k)
    decreases |page|
  {
    if page == [] {
      ReachesByNothing(Working(a, c, filter, page, p), sched, p, a.k);
    } else {
      var b := AfterReindexRow(c, OthersOf(sched), net, a, page[0]);
      assert page == [page[0]] + page[1..];
      ReindexRowIsRun(a, c, filter, page[0], page[1..], sched, net, p);
      if b.err.None? {
        ReindexRowsAreRun(b, c, filter, page[1..], sched, net, p);
        var z := AfterReindexRows(c, OthersOf(sched), net, b, page[1..]);
        ReachesThen(Working(a, c, filter, page, p), Working(b, c, filter, page[1..], p), Working(z, c, filter, [], p),
          sched, p, a.k, b.k, z.k);
      }
    }
  }

  // ---- pages, and the run ----

  /** Where a run stands after a turn: between two pages, or at its end. */
  function AfterTurn(t: Turn, c: Reindexer, filter: string, p: nat): World
  {
    if t.more then Working(t.a, c, filter, [], p) else Doing(t.a.w, c, Idle, p)
  }

  lemma PageIsStep(b: Tally, c: Reindexer, filter: string, page: seq<PageRow>, p: nat)
    requires b.err.None? && page == ReadPage(b.w.s.t, ToReindex(b.w.s.t, filter), b.last)
    ensures Apply(Working(b, c, filter, [], p), ReindexPage(p)) ==
      if page == [] then Doing(b.w, c, Idle, p) else Working(b, c, filter, page, p)
  {
    var job := Reindexing(filter, b.last, [], None);
    var here := Doing(b.w, c, job, p);
    assert here.procs[p] == Worker(c, job) && here.s == b.w.s;
    NewDoing(b.w, c, job, p, if page == [] then Idle else Reindexing(filter, b.last, page, None));
  }

  lemma SelectIsRun(b: Tally, c: Reindexer, filter: string, sched: Schedule, net: nat -> Outage, p: nat)
    requires p !in b.w.procs && ForeignSchedule(sched, p) && b.err.None?
    ensures var t := AfterSelect(c, OthersOf(sched), net, filter, b);
      p !in t.a.w.procs && Reaches(Working(b, c, filter, [], p), AfterTurn(t, c, filter, p), sched, p, b.k, t.a.k)
  {
    var here, page := Working(b, c, filter, [], p), ReadPage(b.w.s.t, ToReindex(b.w.s.t, filter), b.last);
    AfterSelectIs(c, OthersOf(sched), net, filter, b, page);
    PageIsStep(b, c, filter, page, p);
    ReachesByStep(here, ReindexPage(p), sched, p, b.k);
    if page != [] {
      ReindexRowsAreRun(b, c, filter, page, sched, net, p);
      var z := AfterReindexRows(c, OthersOf(sched), net, b, page);
      ReachesThen(here, Working(b, c, filter, page, p), Working(z, c, filter, [], p), sched, p, b.k, b.k, z.k);
    }
  }

  /** A turn after what the others did before it. */
  lemma TurnAfterSlot(a: Tally, b: Tally, c: Reindexer, filter: string, sched: Schedule, t: Turn, p: nat)
    requires p !in a.w.procs && ForeignSchedule(sched, p) && a.err.None?
    requires b == a.(w := OthersOf(sched)(a.w, a.k), k := a.k + 1)
    requires Reaches(Working(b, c, filter, [], p), AfterTurn(t, c, filter, p), sched, p, b.k, t.a.k)
    ensures Reaches(Working(a, c, filter, [], p), AfterTurn(t, c, filter, p), sched, p, a.k, t.a.k)
  {
    ReachesBySlot(a.w, p, Worker(c, Reindexing(filter, a.last, [], None)), sched, a.k);
    ReachesThen(Working(a, c, filter, [], p), Working(b, c, filter, [], p), AfterTurn(t, c, filter, p), sched, p, a.k,
        b.k,
      t.a.k);
  }

  lemma StopReaches(b: Tally, c: Reindexer, filter: string, sched: Schedule, p: nat)
    requires b.err.None?
    ensures Reaches(Working(b, c, filter, [], p), AfterTurn(Turn(true, b.(err := Some(StatementFailed))), c, filter, p),
                    sched, p, b.k, b.k)
  {
    GiveUpIsStep(b.w, c, Reindexing(filter, b.last, [], None), p);
    ReachesByStep(Working(b, c, filter, [], p), GiveUp(p), sched, p, b.k);
  }

  lemma PageIsRun(a: Tally, c: Reindexer, filter: string, sched: Schedule, net: nat -> Outage, t: Turn, p: nat)
    requires p !in a.w.procs && ForeignSchedule(sched, p) && a.err.None?
    requires t == AfterPage(c, OthersOf(sched), net, filter, a)
    ensures p !in t.a.w.procs
    ensures Reaches(Working(a, c, filter, [], p), AfterTurn(t, c, filter, p), sched, p, a.k, t.a.k)
  {
    var b := a.(w := OthersOf(sched)(a.w, a.k), k := a.k + 1);
    AfterPageIs(c, OthersOf(sched), net, filter, a);
    ReachesBySlot(a.w, p, Worker(c, Idle), sched, a.k);
    if DATABASE in net(a.k) { StopReaches(b, c, filter, sched, p); } else { SelectIsRun(b, c, filter, sched, net, p); }
    TurnAfterSlot(a, b, c, filter, sched, t, p);
  }

  /** One more turn. */
  lemma TurnsThen(a: Tally, before: Turn, c: Reindexer, filter: string, sched: Schedule, net: nat -> Outage, t: Turn,
      p: nat)
    requires p !in before.a.w.procs && ForeignSchedule(sched, p) && before.more && before.a.err.None? && a.err.None?
    requires Reaches(Working(a, c, filter, [], p), AfterTurn(before, c, filter, p), sched, p, a.k, before.a.k)
    requires t == AfterPage(c, OthersOf(sched), net, filter, before.a)
    ensures p !in t.a.w.procs && Reaches(Working(a, c, filter, [], p), AfterTurn(t, c, filter, p), sched, p, a.k, t.a.k)
  {
    PageIsRun(before.a, c, filter, sched, net, t, p);
    ReachesThen(Working(a, c, filter, [], p), AfterTurn(before, c, filter, p), AfterTurn(t, c, filter, p), sched, p,
        a.k,
      before.a.k, t.a.k);
  }

  lemma {:induction false} PagesAreRun(a: Tally, c: Reindexer, filter: string, sched: Schedule, net: nat -> Outage,
      pages: nat, t: Turn, p: nat)
    requires p !in a.w.procs && ForeignSchedule(sched, p) && a.err.None?
    requires t == AfterPages(c, OthersOf(sched), net, filter, a, pages)
    ensures p !in t.a.w.procs && Reaches(Working(a, c, filter, [], p), AfterTurn(t, c, filter, p), sched, p, a.k, t.a.k)
    decreases pages
  {
    if pages == 0 {
      ReachesByNothing(Working(a, c, filter, [], p), sched, p, a.k);
    } else {
      var before := AfterPages(c, OthersOf(sched), net, filter, a, pages - 1);
      PagesAreRun(a, c, filter, sched, net, pages - 1, before, p);
      if before.more && before.a.err.None? { TurnsThen(a, before, c, filter, sched, net, t, p); }
    }
  }

  /** From first to last it is a run of one more process, which has nothing to do before and after. */
  ghost predicate RanAsWorker(sched: Schedule, p: nat, c: Reindexer, w0: World, w: World)
  {
    exists k: nat :: Reaches(Doing(w0, c, Idle, p), Doing(w, c, Idle, p), sched, p, 0, k)
  }

  lemma BeginsWork(w0: World, c: Reindexer, filter: string, sched: Schedule, p: nat)
    ensures Reaches(Doing(w0, c, Idle, p), Working(FromStart(w0), c, filter, [], p), sched, p, 0, 0)
  {
    NewDoing(w0, c, Idle, p, Reindexing(filter, "", [], None));
    ReachesByStep(Doing(w0, c, Idle, p), ReindexStart(p, filter), sched, p, 0);
  }

  lemma EndsWork(t: Turn, c: Reindexer, filter: string, p: nat)
    requires !t.more || t.a.err.Some?
    ensures AfterTurn(t, c, filter, p) == Doing(t.a.w, c, Idle, p)
  {
  }

  /** A whole reindex of the store, whether it comes to its end or stops. */
  lemma ReindexIsRun(w0: World, c: Reindexer, filter: string, sched: Schedule, net: nat -> Outage, pages: nat, t: Turn,
      p: nat)
    requires p !in w0.procs && ForeignSchedule(sched, p)
    requires t == AfterPages(c, OthersOf(sched), net, filter, FromStart(w0), pages) && (!t.more || t.a.err.Some?)
    ensures RanAsWorker(sched, p, c, w0, t.a.w)
  {
    BeginsWork(w0, c, filter, sched, p);
    PagesAreRun(FromStart(w0), c, filter, sched, net, pages, t, p);
    EndsWork(t, c, filter, p);
    ReachesThen(Doing(w0, c, Idle, p), Working(FromStart(w0), c, filter, [], p), Doing(t.a.w, c, Idle, p), sched, p, 0,
                0, t.a.k);
  }
}
