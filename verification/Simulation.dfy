/** Rotation as the store does it, statement by statement (internal/store/store.go, Rotate), is a
    run of the step machine: the same tables, the same copies, one process more. */
module Simulation {
  import opened Strings
  import opened Identity
  import opened Envelope
  import opened Tables
  import opened Vault
  import opened Guarantees
  import opened Paging
  import opened Rotation

  /** The world with one more process. */
  function With(w: World, p: nat, proc: Proc): World { w.(procs := w.procs[p := proc]) }

  /** Steps that neither are nor need a step of p. */
  predicate Foreign(a: Action, p: nat)
  {
    match a
    case Boot(q, _, _, _) => q != p
    case BootRead(q, _) => q != p
    case Put(q, _, _, _) => q != p
    case RotateStart(q) => q != p
    case RotateTake(q, _) => q != p
    case RotateWrite(q) => q != p
    case RotatePage(q) => q != p
    case ReindexStart(q, _) => q != p
    case ReindexTake(q, _, _) => q != p
    case ReindexWrite(q, _) => q != p
    case ReindexPage(q) => q != p
    case GiveUp(q) => q != p
    case Crash(q, _) => q != p
    case _ => true
  }

  predicate ForeignRun(actions: seq<Action>, p: nat) { forall i :: 0 <= i < |actions| ==> Foreign(actions[i], p) }

  predicate ForeignSchedule(sched: Schedule, p: nat) { forall k :: 0 <= k < |sched| ==> ForeignRun(sched[k], p) }

  // ---- steps of the others do not see p ----

  lemma PutInsertsCommute(procs: map<nat, Proc>, p: nat, proc: Proc, q: nat, other: Proc)
    requires p != q
    ensures procs[p := proc][q := other] == procs[q := other][p := proc]
    ensures procs[p := proc] - {q} == (procs - {q})[p := proc]
  {
  }

  lemma WithJobCommutes(w: World, p: nat, proc: Proc, q: nat, job: Job)
    requires q in w.procs && p != q
    ensures WithJob(With(w, p, proc), q, job) == With(WithJob(w, q, job), p, proc)
  {
    PutInsertsCommute(w.procs, p, proc, q, w.procs[q].(job := job));
  }

  lemma RotateStepCommutes(w: World, p: nat, proc: Proc, a: Action)
    requires p !in w.procs && IsRotateStep(a) && Foreign(a, p)
    ensures Apply(With(w, p, proc), a) == With(Apply(w, a), p, proc) && p !in Apply(w, a).procs
  {
    if Apply(w, a) != w { WithJobCommutes(w, p, proc, a.p, Apply(w, a).procs[a.p].job); }
  }

  lemma ReindexStepCommutes(w: World, p: nat, proc: Proc, a: Action)
    requires p !in w.procs && IsReindexStep(a) && Foreign(a, p)
    ensures Apply(With(w, p, proc), a) == With(Apply(w, a), p, proc) && p !in Apply(w, a).procs
  {
    if Apply(w, a) != w { WithJobCommutes(w, p, proc, a.p, Apply(w, a).procs[a.p].job); }
  }

  lemma BootStepCommutes(w: World, p: nat, proc: Proc, a: Action)
    requires p !in w.procs && (a.Boot? || a.BootRead?) && Foreign(a, p)
    ensures Apply(With(w, p, proc), a) == With(Apply(w, a), p, proc) && p !in Apply(w, a).procs
  {
    if a.p in Apply(w, a).procs {
      PutInsertsCommute(w.procs, p, proc, a.p, Apply(w, a).procs[a.p]);
    } else {
      PutInsertsCommute(w.procs, p, proc, a.p, proc);
    }
  }

  lemma StepCommutes(w: World, p: nat, proc: Proc, a: Action)
    requires p !in w.procs && Foreign(a, p)
    ensures Apply(With(w, p, proc), a) == With(Apply(w, a), p, proc) && p !in Apply(w, a).procs
  {
    if IsRotateStep(a) {
      RotateStepCommutes(w, p, proc, a);
    } else if IsReindexStep(a) {
      ReindexStepCommutes(w, p, proc, a);
    } else if a.Boot? || a.BootRead? {
      BootStepCommutes(w, p, proc, a);
    } else if a.Crash? {
      PutInsertsCommute(w.procs, p, proc, a.p, proc);
    }
  }

  lemma {:induction false} RunCommutes(w: World, p: nat, proc: Proc, actions: seq<Action>)
    requires p !in w.procs && ForeignRun(actions, p)
    ensures Run(With(w, p, proc), actions) == With(Run(w, actions), p, proc) && p !in Run(w, actions).procs
    decreases |actions|
  {
    if actions != [] {
      StepCommutes(w, p, proc, actions[0]);
      RunCommutes(Apply(w, actions[0]), p, proc, actions[1..]);
    }
  }

  // ---- runs of p among a schedule ----

  /** What the others do before our k-th statement. */
  function Slot(sched: Schedule, k: nat): seq<Action> { if k < |sched| then sched[k] else [] }

  function Slots(sched: Schedule, i: nat, k: nat): seq<Action>
    requires i <= k
    decreases k - i
  {
    if i == k then [] else Slots(sched, i, k - 1) + Slot(sched, k - 1)
  }

  /** A step that p may take: one of its job, or to copy an entry to the audit logger. */
  predicate Own(a: Action, p: nat) { !Foreign(a, p) || a.Emit? }

  /** The steps of a run that are not marked as steps of p, in order. */
  function Theirs(actions: seq<Action>, mine: seq<bool>): seq<Action>
    requires |mine| == |actions|
  {
    if actions == [] then [] else
      var n := |actions| - 1;
      Theirs(actions[..n], mine[..n]) + if mine[n] then [] else [actions[n]]
  }

  lemma {:induction false} TheirsConcat(a: seq<Action>, m: seq<bool>, b: seq<Action>, n: seq<bool>)
    requires |m| == |a| && |n| == |b|
    ensures Theirs(a + b, m + n) == Theirs(a, m) + Theirs(b, n)
  {
    if b == [] {
      assert a + b == a && m + n == m;
    } else {
      var k := |b| - 1;
      assert (a + b)[..|a| + k] == a + b[..k] && (m + n)[..|a| + k] == m + n[..k];
      TheirsConcat(a, m, b[..k], n[..k]);
    }
  }

  lemma {:induction false} AllTheirs(actions: seq<Action>, mine: seq<bool>)
    requires |mine| == |actions| && forall i :: 0 <= i < |mine| ==> !mine[i]
    ensures Theirs(actions, mine) == actions
  {
    if actions != [] { AllTheirs(actions[..|actions| - 1], mine[..|actions| - 1]); }
  }

  lemma {:induction false} SlotsConcat(sched: Schedule, i: nat, j: nat, k: nat)
    requires i <= j <= k
    ensures Slots(sched, i, j) + Slots(sched, j, k) == Slots(sched, i, k)
    decreases k - j
  {
    if j < k { SlotsConcat(sched, i, j, k - 1); }
  }

  /** The steps lead from w to w'. Those marked as mine are steps that p may take, and the others
      are what the others do before our statements i to k - 1. */
  ghost predicate Leads(steps: seq<Action>, mine: seq<bool>, w: World, w': World, sched: Schedule, p: nat, i: nat,
      k: nat)
  {
    && i <= k && |mine| == |steps| && Run(w, steps) == w' && Theirs(steps, mine) == Slots(sched, i, k)
    && forall j :: 0 <= j < |mine| && mine[j] ==> Own(steps[j], p)
  }

  ghost predicate Reaches(w: World, w': World, sched: Schedule, p: nat, i: nat, k: nat)
  {
    exists steps, mine :: Leads(steps, mine, w, w', sched, p, i, k)
  }

  lemma ReachesThen(w: World, w1: World, w2: World, sched: Schedule, p: nat, i: nat, j: nat, k: nat)
    requires Reaches(w, w1, sched, p, i, j) && Reaches(w1, w2, sched, p, j, k)
    ensures Reaches(w, w2, sched, p, i, k)
  {
    var a, m :| Leads(a, m, w, w1, sched, p, i, j);
    var b, n :| Leads(b, n, w1, w2, sched, p, j, k);
    LeadsThen(a, m, b, n, w, w1, w2, sched, p, i, j, k);
  }

  lemma LeadsThen(a: seq<Action>, m: seq<bool>, b: seq<Action>, n: seq<bool>, w: World, w1: World, w2: World,
      sched: Schedule, p: nat, i: nat, j: nat, k: nat)
    requires Leads(a, m, w, w1, sched, p, i, j) && Leads(b, n, w1, w2, sched, p, j, k)
    ensures Leads(a + b, m + n, w, w2, sched, p, i, k)
  {
    RunConcat(w, a, b);
    TheirsConcat(a, m, b, n);
    SlotsConcat(sched, i, j, k);
    BothOwn(a, m, b, n, p);
  }

  lemma BothOwn(a: seq<Action>, m: seq<bool>, b: seq<Action>, n: seq<bool>, p: nat)
    requires |m| == |a| && |n| == |b|
    requires (forall j :: 0 <= j < |m| && m[j] ==> Own(a[j], p)) && (forall j :: 0 <= j < |n| && n[j] ==> Own(b[j], p))
    ensures forall j :: 0 <= j < |m + n| && (m + n)[j] ==> Own((a + b)[j], p)
  {
    forall x | 0 <= x < |m + n| && (m + n)[x] ensures Own((a + b)[x], p) {
      if x < |m| { assert m[x] && (a + b)[x] == a[x]; } else { assert n[x - |m|] && (a + b)[x] == b[x - |m|]; }
    }
  }

  lemma ReachesByNothing(w: World, sched: Schedule, p: nat, i: nat)
    ensures Reaches(w, w, sched, p, i, i)
  {
    assert Leads([], [], w, w, sched, p, i, i);
  }

  lemma ReachesByStep(w: World, a: Action, sched: Schedule, p: nat, i: nat)
    requires Own(a, p)
    ensures Reaches(w, Apply(w, a), sched, p, i, i)
  {
    RunOne(w, a);
    assert [a][..0] == [];
    assert Leads([a], [true], w, Apply(w, a), sched, p, i, i);
  }

  /** The others act before our k-th statement. */
  lemma ReachesBySlot(w: World, p: nat, proc: Proc, sched: Schedule, k: nat)
    requires p !in w.procs && ForeignSchedule(sched, p)
    ensures var w1 := OthersOf(sched)(w, k);
      p !in w1.procs && Reaches(With(w, p, proc), With(w1, p, proc), sched, p, k, k + 1)
  {
    var slot := Slot(sched, k);
    var mine := seq(|slot|, _ => false);
    RunCommutes(w, p, proc, slot);
    AllTheirs(slot, mine);
    assert Slots(sched, k, k + 1) == Slots(sched, k, k) + slot;
    assert Leads(slot, mine, With(w, p, proc), With(OthersOf(sched)(w, k), p, proc), sched, p, k, k + 1);
  }

  // ---- one row ----

  /** The rotator as a process. */
  function Rotator(env: Envelope, key: Bytes, job: Job): Proc { Proc(env, Some(key), job) }

  function CursorAt(row: PageRow, cursor: string): string
      { if row.target.ObjectTarget? then row.target.ref.id else cursor }

  /** Its job after a row. */
  function JobAfter(row: PageRow, cursor: string, rest: seq<PageRow>, outcome: Outcome): Job
  {
    if outcome.Failed? && (Stops(outcome.error) || row.target.KeyTarget?) then Idle
        else Rotating(CursorAt(row, cursor), rest, None)
  }

  lemma TakeIsStep(w: World, env: Envelope, key: Bytes, outage: Outage, row: PageRow, cursor: string,
      rest: seq<PageRow>, p: nat)
    ensures var re := Rewrap(env, w.engines, outage, row.sealed, AadOf(row.target));
      Apply(With(w, p, Rotator(env, key, Rotating(cursor, [row] + rest, None))), RotateTake(p, outage)) ==
        With(w, p, Rotator(env, key,
          if re.Err? then JobAfter(row, cursor, rest, Failed(re.error))
          else Rotating(CursorAt(row, cursor), rest, if re.value.1
              then Some(Held(row.target, row.sealed.keyId, re.value.0)) else None)))
  {
    var job := Rotating(cursor, [row] + rest, None);
    assert ([row] + rest)[1..] == rest;
    assert With(w, p, Rotator(env, key, job)).procs[p].job == job;
  }

  lemma WriteIsStep(w: World, env: Envelope, key: Bytes, held: Held, at: string, rest: seq<PageRow>, p: nat)
    ensures Apply(With(w, p, Rotator(env, key, Rotating(at, rest, Some(held)))), RotateWrite(p)) ==
      With(WriteKey(w, held), p, Rotator(env, key, Rotating(at, rest, None)))
  {
  }

  lemma GiveUpIsStep(w: World, env: Envelope, key: Bytes, job: Job, p: nat)
    ensures Apply(With(w, p, Rotator(env, key, job)), GiveUp(p)) == With(w, p, Rotator(env, key, Idle))
  {
  }

  /** From the re-wrap on: the others act, then the write, or the statement fails. */
  lemma WriteReaches(w: World, env: Envelope, key: Bytes, sched: Schedule, fails: bool, k: nat, held: Held, at: string,
      rest: seq<PageRow>, p: nat)
    requires p !in w.procs && ForeignSchedule(sched, p)
    ensures var w2 := OthersOf(sched)(w, k);
      var w3 := if fails then With(w2, p, Rotator(env, key, Idle))
          else With(WriteKey(w2, held), p, Rotator(env, key, Rotating(at, rest, None)));
      p !in w2.procs && Reaches(With(w, p, Rotator(env, key, Rotating(at, rest, Some(held)))), w3, sched, p, k, k + 1)
  {
    var job := Rotating(at, rest, Some(held));
    var w2 := OthersOf(sched)(w, k);
    var a := if fails then GiveUp(p) else RotateWrite(p);
    ReachesBySlot(w, p, Rotator(env, key, job), sched, k);
    WriteIsStep(w2, env, key, held, at, rest, p);
    GiveUpIsStep(w2, env, key, job, p);
    ReachesByStep(With(w2, p, Rotator(env, key, job)), a, sched, p, k + 1);
    ReachesThen(With(w, p, Rotator(env, key, job)), With(w2, p, Rotator(env, key, job)),
        Apply(With(w2, p, Rotator(env, key, job)), a), sched, p, k, k + 1, k + 1);
  }

  lemma TakeReaches(w: World, env: Envelope, key: Bytes, sched: Schedule, outage: Outage, k: nat, row: PageRow,
      cursor: string, rest: seq<PageRow>, p: nat)
    requires p !in w.procs && ForeignSchedule(sched, p)
    ensures var w1 := OthersOf(sched)(w, k);
      var taken := Apply(With(w1, p, Rotator(env, key, Rotating(cursor, [row] + rest, None))), RotateTake(p, outage));
      p !in w1.procs && Reaches(With(w, p, Rotator(env, key, Rotating(cursor, [row] + rest, None))), taken, sched, p, k,
          k + 1)
  {
    var proc := Rotator(env, key, Rotating(cursor, [row] + rest, None));
    var w1 := OthersOf(sched)(w, k);
    ReachesBySlot(w, p, proc, sched, k);
    ReachesByStep(With(w1, p, proc), RotateTake(p, outage), sched, p, k + 1);
    ReachesThen(With(w, p, proc), With(w1, p, proc), Apply(With(w1, p, proc), RotateTake(p, outage)), sched, p, k,
        k + 1, k + 1);
  }

  /** One row of the store is a run of the machine, whatever the others do before its statements. */
  lemma RowIsRun(w: World, env: Envelope, key: Bytes, sched: Schedule, net: nat -> Outage, k: nat, row: PageRow,
                 cursor: string, rest: seq<PageRow>, p: nat)
    requires p !in w.procs && ForeignSchedule(sched, p)
    ensures var r := RotateRowResult(w, env, OthersOf(sched), net, k, row);
      && p !in r.w.procs
      && Reaches(With(w, p, Rotator(env, key, Rotating(cursor, [row] + rest, None))),
                 With(r.w, p, Rotator(env, key, JobAfter(row, cursor, rest, r.outcome))), sched, p, k, r.k)
  {
    var start := With(w, p, Rotator(env, key, Rotating(cursor, [row] + rest, None)));
    var w1 := OthersOf(sched)(w, k);
    var re := Rewrap(env, w1.engines, net(k), row.sealed, AadOf(row.target));
    RotateRowIs(w, env, OthersOf(sched), net, k, row);
    TakeReaches(w, env, key, sched, net(k), k, row, cursor, rest, p);
    TakeIsStep(w1, env, key, net(k), row, cursor, rest, p);
    if re.Ok? && re.value.1 {
      var held := Held(row.target, row.sealed.keyId, re.value.0);
      WriteReaches(w1, env, key, sched, DATABASE in net(k + 1), k + 1, held, CursorAt(row, cursor), rest, p);
      var r := RotateRowResult(w, env, OthersOf(sched), net, k, row);
      ReachesThen(start, With(w1, p, Rotator(env, key, Rotating(CursorAt(row, cursor), rest, Some(held)))),
                  With(r.w, p, Rotator(env, key, JobAfter(row, cursor, rest, r.outcome))), sched, p, k, k + 1, k + 2);
    }
  }

  // ---- the rows of a page, and the page ----

  /** Where the rotation stands, as a world of the machine; page is what is left of its page. */
  function Carried(a: Progress, env: Envelope, key: Bytes, page: seq<PageRow>, p: nat): World
  {
    With(a.w, p, Rotator(env, key, if a.err.Some? then Idle else Rotating(a.last, page, None)))
  }

  lemma {:induction false} RowsAreRun(a: Progress, env: Envelope, key: Bytes, sched: Schedule, net: nat -> Outage,
      page: seq<PageRow>, p: nat)
    requires p !in a.w.procs && ForeignSchedule(sched, p) && ObjectRows(page) && a.err.None?
    ensures var z := AfterRows(env, OthersOf(sched), net, a, page);
      p !in z.w.procs && Reaches(Carried(a, env, key, page, p), Carried(z, env, key, [], p), sched, p, a.k, z.k)
    decreases |page|
  {
    if page == [] {
      ReachesByNothing(Carried(a, env, key, page, p), sched, p, a.k);
    } else {
      var b := AfterRow(env, OthersOf(sched), net, a, page[0]);
      assert page == [page[0]] + page[1..];
      RowIsRun(a.w, env, key, sched, net, a.k, page[0], a.last, page[1..], p);
      if b.err.None? {
        RowsAreRun(b, env, key, sched, net, page[1..], p);
        var z := AfterRows(env, OthersOf(sched), net, b, page[1..]);
        ReachesThen(Carried(a, env, key, page, p), Carried(b, env, key, page[1..], p), Carried(z, env, key, [], p),
            sched, p, a.k, b.k, z.k);
      }
    }
  }
}
