/** Key versions under a key service that re-wraps in place (internal/store/store.go, Rotate;
    internal/envelope/transit.go). The guard of the write compares key ids and not versions,
    so one rotator at a time never lowers a version, and two at once can. */
module Versions {
  import opened Strings
  import opened Identity
  import opened Envelope
  import opened Tables
  import opened Vault
  import opened Rotation
  import opened Simulation
  import opened Courses

  function VersionIn(s: Sealed): nat
  {
    if s.wrapped.Some? && s.wrapped.value.Box? then s.wrapped.value.version else 0
  }

  /** What a rotation finds where its target stands: the index key, or a live row. */
  function At(t: Tables, target: Target): Option<Sealed>
  {
    match target
    case KeyTarget => t.keys
    case ObjectTarget(r) => if Live(t, r.id) then Some(t.objects[r.id].sealed) else None
  }

  predicate SameTarget(a: Target, b: Target)
  {
    if a.KeyTarget? || b.KeyTarget? then a == b else a.ref.id == b.ref.id
  }

  /** While its key id stays, the version at the target is not lowered. */
  predicate NeverLowers(t: Tables, t': Tables, target: Target)
  {
    At(t, target).Some? && At(t', target).Some? && At(t', target).value.keyId == At(t, target).value.keyId ==>
      VersionIn(At(t', target).value) >= VersionIn(At(t, target).value)
  }

  // ---- no version is ahead of its service ----

  function Top(engines: Engines, keyId: string): nat { if keyId in engines then engines[keyId] else 0 }

  predicate SealedBounded(engines: Engines, s: Sealed) { VersionIn(s) <= Top(engines, s.keyId) }

  ghost predicate RowsBounded(engines: Engines, t: Tables)
  {
    && (forall id :: id in t.objects ==> SealedBounded(engines, t.objects[id].sealed))
    && (t.keys.Some? ==> SealedBounded(engines, t.keys.value))
  }

  predicate JobBounded(engines: Engines, job: Job)
  {
    job.Rotating? && job.held.Some? ==> SealedBounded(engines, job.held.value.sealed)
  }

  /** Rows, the index key and what rotators are about to write. */
  ghost predicate Bounded(w: World)
  {
    RowsBounded(w.engines, w.s.t) && forall p :: p in w.procs ==> JobBounded(w.engines, w.procs[p].job)
  }

  lemma {:induction false} InsertAllBounded(s: State, engines: Engines, env: Envelope, key: Bytes, actor: string,
      collection: string, items: seq<NewItem>)
    requires RowsBounded(engines, s.t) && AllVersioned(env, engines, items)
    ensures RowsBounded(engines, InsertAll(s, env.current.id, key, actor, collection, items).t)
  {
    if items != [] { InsertAllBounded(s, engines, env, key, actor, collection, items[..|items| - 1]); }
  }

  lemma {:induction false} ShredAllBounded(s: State, engines: Engines, actor: string, refs: seq<Ref>)
    requires RowsBounded(engines, s.t)
    ensures RowsBounded(engines, ShredAll(s, actor, refs).t)
  {
    if refs != [] { ShredAllBounded(s, engines, actor, refs[..|refs| - 1]); }
  }

  lemma TakeBounded(env: Envelope, engines: Engines, outage: Outage, job: Job)
    requires job.Rotating? && job.held.None? && job.page != []
    ensures JobBounded(engines, TakeToRotate(env, engines, outage, job))
  {
  }

  lemma WriteBounded(engines: Engines, t: Tables, held: Held)
    requires RowsBounded(engines, t) && SealedBounded(engines, held.sealed)
    ensures RowsBounded(engines, WriteHeld(t, held))
  {
  }

  lemma RotateStepBounded(w: World, a: Action)
    requires Bounded(w) && IsRotateStep(a)
    ensures Bounded(Apply(w, a))
  {
    match a {
      case RotateTake(p, outage) =>
        if DoRotateTake(w, p, outage) != w { TakeBounded(w.procs[p].env, w.engines, outage, w.procs[p].job); }
      case RotateWrite(p) =>
        if DoRotateWrite(w, p) != w {
          assert JobBounded(w.engines, w.procs[p].job);
          WriteBounded(w.engines, w.s.t, w.procs[p].job.held.value);
        }
      case RotateStart(_) =>
      case RotatePage(_) =>
    }
  }

  lemma BootBounded(w: World, p: nat, env: Envelope, secret: Secret, outage: Outage)
    requires Bounded(w)
    ensures Bounded(DoBoot(w, p, env, secret, outage))
  {
  }

  lemma ReindexStepBounded(w: World, a: Action)
    requires Bounded(w) && IsReindexStep(a)
    ensures Bounded(Apply(w, a))
  {
    match a {
      case ReindexWrite(p, actor) => if DoReindexWrite(w, p, actor) != w { ReindexWriteIs(w, p, actor); }
      case _ =>
    }
  }

  lemma StepBounded(w: World, a: Action)
    requires Bounded(w)
    ensures Bounded(Apply(w, a))
  {
    if IsRotateStep(a) {
      RotateStepBounded(w, a);
    } else if IsReindexStep(a) {
      ReindexStepBounded(w, a);
    } else {
      match a {
        case Boot(p, env, secret, outage) => BootBounded(w, p, env, secret, outage);
        case Put(p, actor, collection, items) =>
          if MayPut(w, p, items) {
            InsertAllBounded(w.s, w.engines, w.procs[p].env, w.procs[p].index.value, actor, collection, items);
          }
        case Erase(actor, refs) => ShredAllBounded(w.s, w.engines, actor, refs);
        case _ =>
      }
    }
  }

  /** In every run no row is ahead of the key service that wrapped it. */
  lemma {:induction false} RunBounded(w: World, actions: seq<Action>)
    requires Bounded(w)
    ensures Bounded(Run(w, actions))
    decreases |actions|
  {
    if actions != [] {
      StepBounded(w, actions[0]);
      RunBounded(Apply(w, actions[0]), actions[1..]);
    }
  }

  // ---- what a step does at a target ----

  /** The row that a step writes a re-wrapped key over. */
  predicate WritesAt(w: World, a: Action, target: Target)
  {
    a.RotateWrite? && Ready(w, a.p) && Holding(w, a.p) && SameTarget(HeldBy(w, a.p).target, target)
        && GuardHolds(w.s.t, HeldBy(w, a.p))
  }

  predicate Holding(w: World, p: nat) { p in w.procs && w.procs[p].job.Rotating? && w.procs[p].job.held.Some? }

  function HeldBy(w: World, p: nat): Held
    requires Holding(w, p)
  {
    w.procs[p].job.held.value
  }

  /** There is such a row, or was. */
  predicate Known(w: World, target: Target)
  {
    match target
    case KeyTarget => w.s.t.keys.Some?
    case ObjectTarget(r) => r.id in w.s.t.objects
  }

  lemma {:induction false} InsertAllLeaves(s: State, keyId: string, key: Bytes, actor: string, collection: string,
      items: seq<NewItem>, target: Target)
    requires target.ObjectTarget? ==> forall i :: 0 <= i < |items| ==> items[i].id != target.ref.id
    ensures At(InsertAll(s, keyId, key, actor, collection, items).t, target) == At(s.t, target)
  {
    if items != [] { InsertAllLeaves(s, keyId, key, actor, collection, items[..|items| - 1], target); }
  }

  lemma {:induction false} ShredAllLeaves(s: State, actor: string, refs: seq<Ref>, target: Target)
    ensures var s' := ShredAll(s, actor, refs); At(s'.t, target) == At(s.t, target) || At(s'.t, target) == None
  {
    if refs != [] { ShredAllLeaves(s, actor, refs[..|refs| - 1], target); }
  }

  lemma PutLeaves(w: World, p: nat, actor: string, collection: string, items: seq<NewItem>, target: Target)
    requires Known(w, target)
    ensures At(DoPut(w, p, actor, collection, items).s.t, target) == At(w.s.t, target)
  {
    if MayPut(w, p, items) {
      assert forall i :: 0 <= i < |items| ==> FreshItem(w.s, items[i]);
      InsertAllLeaves(w.s, w.procs[p].env.current.id, w.procs[p].index.value, actor, collection, items, target);
    }
  }

  lemma BootLeaves(w: World, p: nat, env: Envelope, secret: Secret, outage: Outage, target: Target)
    requires Known(w, target)
    ensures At(DoBoot(w, p, env, secret, outage).s.t, target) == At(w.s.t, target)
  {
  }

  lemma ReindexLeaves(w: World, p: nat, actor: string, target: Target)
    ensures At(DoReindexWrite(w, p, actor).s.t, target) == At(w.s.t, target)
  {
  }

  lemma WriteSets(w: World, p: nat, target: Target)
    ensures At(DoRotateWrite(w, p).s.t, target) ==
      if WritesAt(w, RotateWrite(p), target) then Some(WithKey(At(w.s.t, target).value, HeldBy(w, p).sealed))
          else At(w.s.t, target)
  {
  }

  /** A step other than such a write leaves what it finds, or shreds it. */
  lemma StepLeaves(w: World, a: Action, target: Target)
    requires Known(w, target) && !WritesAt(w, a, target)
    ensures At(Apply(w, a).s.t, target) == At(w.s.t, target) || At(Apply(w, a).s.t, target) == None
  {
    match a {
      case Put(p, actor, collection, items) => PutLeaves(w, p, actor, collection, items, target);
      case Erase(actor, refs) => ShredAllLeaves(w.s, actor, refs, target);
      case Boot(p, env, secret, outage) => BootLeaves(w, p, env, secret, outage, target);
      case ReindexWrite(p, actor) => ReindexLeaves(w, p, actor, target);
      case RotateWrite(p) => WriteSets(w, p, target);
      case LogReads(_) =>
      case Snapshot =>
      case _ => OtherStepWritesNothing(w, a);
    }
  }

  lemma KnownStays(w: World, a: Action, target: Target)
    requires Inv(w) && Known(w, target)
    ensures Known(Apply(w, a), target) && (At(w.s.t, target).None? ==> At(Apply(w, a).s.t, target).None?)
  {
    ApplyKeeps(w, a);
    assert Kept(w.s.t, Apply(w, a).s.t);
    if target.ObjectTarget? { assert RowKept(w.s.t.objects[target.ref.id], Apply(w, a).s.t.objects[target.ref.id]); }
  }

  /** A held re-wrap is about a row that is there. */
  lemma HeldIsKnown(w: World, p: nat)
    requires Inv(w) && Holding(w, p)
    ensures Known(w, HeldBy(w, p).target)
  {
    assert ProcSound(w.s.h, w.procs[p]);
  }

  // ---- one rotator ----

  /** Steps that may change what p is doing. */
  predicate Acts(a: Action, p: nat)
  {
    match a
    case Boot(q, _, _, _) => q == p
    case BootRead(q, _) => q == p
    case RotateStart(q) => q == p
    case RotateTake(q, _) => q == p
    case RotateWrite(q) => q == p
    case RotatePage(q) => q == p
    case ReindexStart(q, _) => q == p
    case ReindexTake(q, _, _) => q == p
    case ReindexWrite(q, _) => q == p
    case ReindexPage(q) => q == p
    case GiveUp(q) => q == p
    case Crash(q, _) => q == p
    case _ => false
  }

  lemma ProcStays(w: World, a: Action, p: nat)
    requires p in w.procs && !Acts(a, p)
    ensures p in Apply(w, a).procs && Apply(w, a).procs[p] == w.procs[p]
  {
  }

  /** What p is about to write is not older than what it would overwrite. */
  ghost predicate HoldsNewest(w: World, p: nat)
  {
    Holding(w, p) ==>
      var held := HeldBy(w, p);
      At(w.s.t, held.target).Some? && At(w.s.t, held.target).value.keyId == held.sealed.keyId
          && held.fromKeyId == held.sealed.keyId ==>
        VersionIn(At(w.s.t, held.target).value) <= VersionIn(held.sealed)
  }

  /** A fresh re-wrap in place is at the version its service is at. */
  lemma TakeIsNewest(w: World, p: nat, outage: Outage)
    requires Bounded(w) && HoldsNewest(w, p)
    ensures HoldsNewest(DoRotateTake(w, p, outage), p)
  {
    var w' := DoRotateTake(w, p, outage);
    if w' != w && Holding(w', p) && HeldBy(w', p).fromKeyId == HeldBy(w', p).sealed.keyId {
      assert VersionIn(HeldBy(w', p).sealed) == Top(w.engines, HeldBy(w', p).sealed.keyId);
    }
  }

  lemma OwnStepIsNewest(w: World, a: Action, p: nat)
    requires Bounded(w) && HoldsNewest(w, p) && Acts(a, p)
    ensures HoldsNewest(Apply(w, a), p)
  {
    if a.RotateTake? {
      TakeIsNewest(w, p, a.outage);
    } else if a.Boot? || a.BootRead? {
      StartsWithoutHolding(w, a, p);
    } else if Holding(w, p) {
      BusyStep(w, a, p);
    } else {
      StepHoldsNothing(w, a, p);
    }
  }

  lemma StartsWithoutHolding(w: World, a: Action, p: nat)
    requires Acts(a, p) && (a.Boot? || a.BootRead?)
    ensures Holding(Apply(w, a), p) ==>
      Holding(w, p) && HeldBy(Apply(w, a), p) == HeldBy(w, p) && Apply(w, a).s.t == w.s.t
  {
  }

  lemma BusyStep(w: World, a: Action, p: nat)
    requires Acts(a, p) && Holding(w, p) && !a.Boot? && !a.BootRead?
    ensures Apply(w, a) == w || !Holding(Apply(w, a), p)
  {
  }

  lemma StepHoldsNothing(w: World, a: Action, p: nat)
    requires Acts(a, p) && !Holding(w, p) && !a.Boot? && !a.BootRead? && !a.RotateTake?
    ensures !Holding(Apply(w, a), p)
  {
  }

  /** A step of somebody else who writes no re-wrapped key. */
  lemma OtherStepIsNewest(w: World, a: Action, p: nat)
    requires Inv(w) && HoldsNewest(w, p) && !Acts(a, p) && !a.RotateWrite?
    ensures HoldsNewest(Apply(w, a), p)
  {
    if Holding(w, p) {
      HeldIsKnown(w, p);
      ProcStays(w, a, p);
      StepLeaves(w, a, HeldBy(w, p).target);
    } else {
      IdleStays(w, a, p);
    }
  }

  lemma StepNeverLowers(w: World, a: Action, p: nat, target: Target)
    requires HoldsNewest(w, p) && (a.RotateWrite? ==> a.p == p)
    ensures NeverLowers(w.s.t, Apply(w, a).s.t, target)
  {
    if WritesAt(w, a, target) {
      WriteSets(w, p, target);
    } else if Known(w, target) {
      StepLeaves(w, a, target);
    }
  }

  /** One step of a run in which p alone writes re-wrapped keys. */
  lemma SoleRotatorStep(w: World, a: Action, p: nat, target: Target)
    requires Inv(w) && Bounded(w) && HoldsNewest(w, p) && (a.RotateWrite? ==> a.p == p)
    ensures HoldsNewest(Apply(w, a), p) && NeverLowers(w.s.t, Apply(w, a).s.t, target)
  {
    StepNeverLowers(w, a, p, target);
    if Acts(a, p) {
      OwnStepIsNewest(w, a, p);
    } else {
      OtherStepIsNewest(w, a, p);
    }
  }

  lemma IdleStays(w: World, a: Action, p: nat)
    requires !Acts(a, p) && !Holding(w, p)
    ensures !Holding(Apply(w, a), p)
  {
  }

  predicate OnlyRotator(actions: seq<Action>, p: nat)
  {
    forall i :: 0 <= i < |actions| && actions[i].RotateWrite? ==> actions[i].p == p
  }

  lemma {:induction false} RunHoldsNewest(w: World, actions: seq<Action>, p: nat)
    requires Inv(w) && Bounded(w) && HoldsNewest(w, p) && OnlyRotator(actions, p)
    ensures Inv(Run(w, actions)) && Bounded(Run(w, actions)) && HoldsNewest(Run(w, actions), p)
    decreases |actions|
  {
    if actions != [] {
      SoleRotatorStep(w, actions[0], p, KeyTarget);
      ApplyKeeps(w, actions[0]);
      StepBounded(w, actions[0]);
      RunHoldsNewest(Apply(w, actions[0]), actions[1..], p);
    }
  }

  /** Step n of the run lowers nothing at the target. */
  predicate StepNeverLowersAt(w: World, actions: seq<Action>, n: nat, target: Target)
    requires n < |actions|
  {
    NeverLowers(Run(w, actions[..n]).s.t, Run(w, actions[..n + 1]).s.t, target)
  }

  /** Every step of the run leaves every version as it is or raises it. */
  ghost predicate NoStepLowers(w: World, actions: seq<Action>)
  {
    forall n: nat, target :: n < |actions| ==> StepNeverLowersAt(w, actions, n, target)
  }

  lemma SoleRunNeverLowers(w: World, actions: seq<Action>, p: nat)
    requires Inv(w) && Bounded(w) && HoldsNewest(w, p) && OnlyRotator(actions, p)
    ensures NoStepLowers(w, actions)
  {
    forall n: nat, target | n < |actions| ensures StepNeverLowersAt(w, actions, n, target) {
      RunHoldsNewest(w, actions[..n], p);
      assert actions[..n + 1] == actions[..n] + [actions[n]];
      RunSnoc(w, actions[..n], actions[n]);
      SoleRotatorStep(Run(w, actions[..n]), actions[n], p, target);
    }
  }

  /** A process that rotates alone never lowers a version, of a row or of the index key, however
      its statements interleave with everything else, and however often its service rotates. */
  lemma SoleRotatorNeverLowers(actions: seq<Action>, p: nat)
    requires OnlyRotator(actions, p)
    ensures NoStepLowers(START, actions)
  {
    StartIsGood();
    SoleRunNeverLowers(START, actions, p);
  }

  // ---- the rotation of a store ----

  predicate NoRotator(sched: Schedule)
  {
    forall k, i :: 0 <= k < |sched| && 0 <= i < |sched[k]| ==> !sched[k][i].RotateWrite?
  }

  lemma {:induction false} SlotsWriteNothing(sched: Schedule, i: nat, k: nat)
    requires i <= k && NoRotator(sched)
    ensures forall a :: a in Slots(sched, i, k) ==> !a.RotateWrite?
    decreases k - i
  {
    if i < k { SlotsWriteNothing(sched, i, k - 1); }
  }

  lemma {:induction false} UnmarkedIsTheirs(actions: seq<Action>, mine: seq<bool>, i: nat)
    requires |mine| == |actions| && i < |actions| && !mine[i]
    ensures actions[i] in Theirs(actions, mine)
  {
    var n := |actions| - 1;
    if i < n { UnmarkedIsTheirs(actions[..n], mine[..n], i); }
  }

  /** A store that rotates while nobody else does: it is a run in which no step lowers a version. */
  lemma StoreRotationNeverLowers(t: Tracer, env: Envelope, w0: World, w: World)
    requires RanAs(t, env, w0, w) && NoRotator(t.sched) && Inv(Resting(t, env, w0)) && Bounded(Resting(t, env, w0))
    ensures exists steps ::
      Run(Resting(t, env, w0), steps) == Resting(t, env, w) && NoStepLowers(Resting(t, env, w0), steps)
  {
    var k: nat :| Reaches(Resting(t, env, w0), Resting(t, env, w), t.sched, t.p, 0, k);
    var steps: seq<Action>, mine :| Leads(steps, mine, Resting(t, env, w0), Resting(t, env, w), t.sched, t.p, 0, k);
    SlotsWriteNothing(t.sched, 0, k);
    forall i | 0 <= i < |steps| && steps[i].RotateWrite? ensures steps[i].p == t.p {
      if !mine[i] { UnmarkedIsTheirs(steps, mine, i); }
    }
    SoleRunNeverLowers(Resting(t, env, w0), steps, t.p);
  }

  // ---- more rotators ----

  /** What the last re-wrapped key written at the target during a run was. */
  function LastWrite(w: World, actions: seq<Action>, target: Target): Option<Sealed>
    decreases |actions|
  {
    if actions == [] then None else
      var later := LastWrite(Apply(w, actions[0]), actions[1..], target);
      if later.Some? then later
      else if WritesAt(w, actions[0], target) then Some(HeldBy(w, actions[0].p).sealed)
      else None
  }

  predicate NoStepOf(actions: seq<Action>, p: nat) { forall i :: 0 <= i < |actions| ==> !Acts(actions[i], p) }

  lemma {:induction false} RunLeavesProc(w: World, actions: seq<Action>, p: nat)
    requires p in w.procs && NoStepOf(actions, p)
    ensures p in Run(w, actions).procs && Run(w, actions).procs[p] == w.procs[p]
    decreases |actions|
  {
    if actions != [] {
      ProcStays(w, actions[0], p);
      RunLeavesProc(Apply(w, actions[0]), actions[1..], p);
    }
  }

  /** What stands at the target after a last write. */
  predicate Stands(was: Option<Sealed>, now: Option<Sealed>, last: Option<Sealed>)
  {
    now.Some? ==> was.Some? && if last.None? then now == was else now == Some(WithKey(was.value, last.value))
  }

  lemma StepStands(w: World, a: Action, target: Target)
    requires Known(w, target)
    ensures Stands(At(w.s.t, target), At(Apply(w, a).s.t, target), if WritesAt(w, a, target)
        then Some(HeldBy(w, a.p).sealed) else None)
  {
    if WritesAt(w, a, target) {
      WriteSets(w, a.p, target);
    } else {
      StepLeaves(w, a, target);
    }
  }

  /** At the end of a run stands what was last written, or what stood at its start. */
  lemma {:induction false} LastWriteStands(w: World, actions: seq<Action>, target: Target)
    requires Inv(w) && Known(w, target)
    ensures Stands(At(w.s.t, target), At(Run(w, actions).s.t, target), LastWrite(w, actions, target))
    decreases |actions|
  {
    if actions != [] {
      KnownStays(w, actions[0], target);
      ApplyKeeps(w, actions[0]);
      LastWriteStands(Apply(w, actions[0]), actions[1..], target);
      StepStands(w, actions[0], target);
    }
  }

  /** p has just re-wrapped a row of its own current wrapper. */
  ghost predicate JustTook(w: World, p: nat, outage: Outage, w1: World)
  {
    && Inv(w) && Bounded(w) && Ready(w, p) && !Holding(w, p)
    && w1 == DoRotateTake(w, p, outage) && Holding(w1, p) && HeldBy(w1, p).fromKeyId == HeldBy(w1, p).sealed.keyId
  }

  /** Exactly when a write lowers a version: p re-wraps a row, the others do whatever they do, and
      then p writes. The version sinks if and only if the row is still live, somebody wrote it in
      between, and the last who did left it under the same wrapper at a later version. That takes
      a rotation of the service's key after the re-wrap. */
  lemma WriteLowersExactlyWhen(w: World, p: nat, outage: Outage, w1: World, between: seq<Action>)
    requires JustTook(w, p, outage, w1) && NoStepOf(between, p)
    ensures var held, last := HeldBy(w1, p), LastWrite(w1, between, HeldBy(w1, p).target);
      var w2 := Run(w1, between);
      var lowers := !NeverLowers(w2.s.t, Apply(w2, RotateWrite(p)).s.t, held.target);
      && (lowers <==> At(w2.s.t, held.target).Some? && last.Some?
                      && last.value.keyId == held.fromKeyId && VersionIn(last.value) > VersionIn(held.sealed))
      && (lowers ==> Top(w2.engines, held.fromKeyId) > Top(w.engines, held.fromKeyId))
  {
    var held := HeldBy(w1, p);
    var w2 := Run(w1, between);
    TakeIsAtTop(w, p, outage);
    TakeIsNewest(w, p, outage);
    TakeLeavesGoodWorld(w, p, outage, w1);
    RunLeavesProc(w1, between, p);
    LastWriteStands(w1, between, held.target);
    RunBounded(w1, between);
    LowersExactlyWhen(w2, p, At(w1.s.t, held.target), LastWrite(w1, between, held.target));
  }

  lemma TakeLeavesGoodWorld(w: World, p: nat, outage: Outage, w1: World)
    requires Inv(w) && Bounded(w) && w1 == DoRotateTake(w, p, outage) && Holding(w1, p)
    ensures Inv(w1) && Bounded(w1) && Known(w1, HeldBy(w1, p).target)
  {
    RotateTakeKeeps(w, p, outage);
    TakeStaysBounded(w, p, outage);
    HeldIsKnown(w1, p);
  }

  lemma TakeStaysBounded(w: World, p: nat, outage: Outage)
    requires Bounded(w)
    ensures Bounded(DoRotateTake(w, p, outage))
  {
    StepBounded(w, RotateTake(p, outage));
  }

  /** The write itself, when what stood at the target was not newer than what is held. */
  lemma LowersExactlyWhen(w2: World, p: nat, was: Option<Sealed>, last: Option<Sealed>)
    requires Ready(w2, p) && Holding(w2, p) && HeldBy(w2, p).fromKeyId == HeldBy(w2, p).sealed.keyId
    requires RowsBounded(w2.engines, w2.s.t)
    requires var held := HeldBy(w2, p);
      && (was.Some? && was.value.keyId == held.fromKeyId ==> VersionIn(was.value) <= VersionIn(held.sealed))
      && Stands(was, At(w2.s.t, held.target), last)
    ensures var held := HeldBy(w2, p);
      var lowers := !NeverLowers(w2.s.t, Apply(w2, RotateWrite(p)).s.t, held.target);
      && (lowers <==> At(w2.s.t, held.target).Some? && last.Some?
                      && last.value.keyId == held.fromKeyId && VersionIn(last.value) > VersionIn(held.sealed))
      && (lowers ==> Top(w2.engines, held.fromKeyId) > VersionIn(held.sealed))
  {
    WriteSets(w2, p, HeldBy(w2, p).target);
  }

  lemma TakeIsAtTop(w: World, p: nat, outage: Outage)
    requires Ready(w, p) && !Holding(w, p)
    ensures var w1 := DoRotateTake(w, p, outage);
      Holding(w1, p) && HeldBy(w1, p).fromKeyId == HeldBy(w1, p).sealed.keyId ==>
        VersionIn(HeldBy(w1, p).sealed) == Top(w.engines, HeldBy(w1, p).fromKeyId)
  {
  }

  // ---- a version that sinks, from an empty database ----

  const SERVICE := Wrapper("transit:objects", Transit(true))
  const HOLDER := Envelope(SERVICE, map[SERVICE.id := SERVICE])

  function Drawn(c: char): (r: Bytes)
    ensures |r| == KEY_SIZE && r[0] == c
  {
    seq(KEY_SIZE, _ => c)
  }

  const SECRET := Secret(Drawn('k'), Drawn('s'))
  const OTHER_SECRET := Secret(Drawn('o'), Drawn('p'))
  const ITEM := NewItem("a", Drawn('i'), 0, "", map[], "")
  const ROW := ObjectTarget(Ref("notes", ITEM.id))

  function SealedAt(version: nat, dek: Bytes, plaintext: Bytes, target: Target): Sealed
  {
    Sealed(SERVICE.id, Some(Box(SERVICE.id, version, dek, AadOf(target))), Cipher(dek, plaintext, AadOf(target)))
  }

  function RowAt(version: nat): Sealed { SealedAt(version, ITEM.dek, ITEM.plaintext, ROW) }

  function KeyAt(version: nat): Sealed { SealedAt(version, SECRET.dek, SECRET.key, KeyTarget) }

  /** One row, two servers; the row, the index key and the service are at these versions. */
  ghost predicate Stage(w: World, row: nat, key: nat, service: nat, job0: Job, job1: Job)
  {
    && w.s.t.objects == map[ITEM.id := Row(ROW.ref.collection, RowAt(row), None, false)]
        && w.s.t.keys == Some(KeyAt(key))
    && VersionOf(SERVICE, w.engines) == service
    && w.procs == map[0 := Proc(HOLDER, Some(SECRET.key), job0), 1 := Proc(HOLDER, Some(SECRET.key), job1)]
  }

  const BOOTS := [Boot(0, HOLDER, SECRET, {}), BootRead(0, {}), Boot(1, HOLDER, OTHER_SECRET, {}), BootRead(1, {})]
  const PUT := Put(0, "client", ROW.ref.collection, [ITEM])
  const READS := [RotateStart(0), RotateTake(0, {}), RotateWrite(0), RotatePage(0)]
  const RACE := [RotateStart(1), RotateTake(1, {}), RotatePage(1), RotateTake(0, {})]
  const LAST := [EngineRotate(SERVICE.id), RotateTake(1, {}), RotateWrite(1)]

  lemma RunFour(w: World, a: Action, b: Action, c: Action, d: Action)
    ensures Run(w, [a, b, c, d]) == Apply(Apply(Apply(Apply(w, a), b), c), d)
  {
    assert [a, b, c, d][1..] == [b, c, d] && [b, c, d][1..] == [c, d] && [c, d][1..] == [d] && [d][1..] == [];
    assert Run(w, [a, b, c, d]) == Run(Apply(w, a), [b, c, d]) == Run(Apply(Apply(w, a), b), [c, d]);
    RunConcat(Apply(Apply(w, a), b), [c], [d]);
    RunOne(Apply(Apply(w, a), b), c);
    RunOne(Apply(Apply(Apply(w, a), b), c), d);
    assert [c] + [d] == [c, d];
  }

  /** The first server boots and makes the index key; */
  lemma AfterFirstBoot()
    ensures var w := Apply(Apply(START, BOOTS[0]), BOOTS[1]);
      && w.s.t.objects == map[] && w.s.t.keys == Some(KeyAt(0)) && w.s.h.born == map[] && w.s.h.secret == Some(SECRET)
      && w.engines == map[] && w.procs == map[0 := Proc(HOLDER, Some(SECRET.key), Idle)]
  {
    var w1 := Apply(START, BOOTS[0]);
    assert w1.procs == map[0 := Proc(HOLDER, None, Idle)] && w1.s.t.keys == Some(KeyAt(0))
        && w1.s.h.secret == Some(SECRET);
  }

  /** the second one loads it. */
  lemma AfterSecondBoot(w: World)
    requires w.s.t.objects == map[] && w.s.t.keys == Some(KeyAt(0)) && w.s.h.born == map[]
        && w.s.h.secret == Some(SECRET)
    requires w.engines == map[] && w.procs == map[0 := Proc(HOLDER, Some(SECRET.key), Idle)]
    ensures var w' := Apply(Apply(w, BOOTS[2]), BOOTS[3]);
      w'.s.t == w.s.t && w'.s.h.born == map[] && w'.s.h.secret == Some(SECRET) && w'.engines == map[]
      && w'.procs == map[0 := Proc(HOLDER, Some(SECRET.key), Idle), 1 := Proc(HOLDER, Some(SECRET.key), Idle)]
  {
    assert Drawn('s')[0] != Drawn('p')[0];
    var w1 := Apply(w, BOOTS[2]);
    assert w1.procs == map[0 := Proc(HOLDER, Some(SECRET.key), Idle), 1 := Proc(HOLDER, None, Idle)];
    assert w1.s.t == w.s.t && w1.s.h.secret == w.s.h.secret;
  }

  lemma AfterPut(w: World)
    requires w == Run(START, BOOTS)
    ensures Stage(Apply(w, PUT), 0, 0, 0, Idle, Idle)
  {
    RunFour(START, BOOTS[0], BOOTS[1], BOOTS[2], BOOTS[3]);
    AfterFirstBoot();
    AfterSecondBoot(Apply(Apply(START, BOOTS[0]), BOOTS[1]));
    ItemIsStored(w);
  }

  lemma ItemIsStored(w: World)
    requires w.s.t.objects == map[] && w.s.t.keys == Some(KeyAt(0)) && w.s.h.born == map[]
        && w.s.h.secret == Some(SECRET)
    requires w.engines == map[] && w.procs == map[0 := Proc(HOLDER, Some(SECRET.key), Idle),
        1 := Proc(HOLDER, Some(SECRET.key), Idle)]
    ensures Stage(Apply(w, PUT), 0, 0, 0, Idle, Idle)
  {
    assert Drawn('i')[0] != Drawn('s')[0];
    assert AllFresh(w.s, [ITEM]) && AllVersioned(HOLDER, w.engines, [ITEM]);
    assert [ITEM][..0] == [];
    assert InsertAll(w.s, SERVICE.id, SECRET.key, "client", ROW.ref.collection, []) == w.s;
  }

  lemma AfterServiceRotates(w: World, row: nat, key: nat, service: nat, job0: Job, job1: Job)
    requires Stage(w, row, key, service, job0, job1)
    ensures Stage(Apply(w, EngineRotate(SERVICE.id)), row, key, service + 1, job0, job1)
  {
  }

  lemma PageIsRow(t: Tables, row: nat)
    requires t.objects == map[ITEM.id := Row(ROW.ref.collection, RowAt(row), None, false)]
    ensures ReadPage(t, ToRotate(t, HOLDER), "") == [PageRow(ROW, RowAt(row))]
  {
    assert ToRotate(t, HOLDER) == {ITEM.id};
    PageOfOne(ITEM.id, PAGE_ROWS);
  }

  function OnKey(key: nat): Job { Rotating("", [PageRow(KeyTarget, KeyAt(key))], None) }

  function HoldingKey(key: nat): Job { Rotating("", [], Some(Held(KeyTarget, SERVICE.id, KeyAt(key)))) }

  const KEY_DONE := Rotating("", [], None)

  function OnRow(row: nat): Job { Rotating("", [PageRow(ROW, RowAt(row))], None) }

  function HoldingRow(row: nat): Job { Rotating(ITEM.id, [], Some(Held(ROW, SERVICE.id, RowAt(row)))) }

  const ROW_DONE := Rotating(ITEM.id, [], None)

  lemma TakesKey(engines: Engines, key: nat)
    ensures TakeToRotate(HOLDER, engines, {}, OnKey(key)) ==
      if VersionOf(SERVICE, engines) == key then KEY_DONE else HoldingKey(VersionOf(SERVICE, engines))
  {
  }

  lemma TakesRow(engines: Engines, row: nat)
    requires VersionOf(SERVICE, engines) != row
    ensures TakeToRotate(HOLDER, engines, {}, OnRow(row)) == HoldingRow(VersionOf(SERVICE, engines))
  {
  }

  /** The job of server p, and the job of the other one. */
  ghost predicate Scene(w: World, row: nat, key: nat, service: nat, p: nat, job: Job, other: Job)
  {
    (p == 0 && Stage(w, row, key, service, job, other)) || (p == 1 && Stage(w, row, key, service, other, job))
  }

  lemma FirstGoesOn(w: World, row: nat, key: nat, service: nat, job0: Job, job1: Job, next: Job)
    requires Stage(w, row, key, service, job0, job1)
    ensures Stage(WithJob(w, 0, next), row, key, service, next, job1)
  {
    assert w.procs[0] == Proc(HOLDER, Some(SECRET.key), job0);
  }

  lemma SecondGoesOn(w: World, row: nat, key: nat, service: nat, job0: Job, job1: Job, next: Job)
    requires Stage(w, row, key, service, job0, job1)
    ensures Stage(WithJob(w, 1, next), row, key, service, job0, next)
  {
    assert w.procs[1] == Proc(HOLDER, Some(SECRET.key), job1);
  }

  lemma SceneGoesOn(w: World, row: nat, key: nat, service: nat, p: nat, job: Job, other: Job, next: Job)
    requires Scene(w, row, key, service, p, job, other)
    ensures p in w.procs && Scene(WithJob(w, p, next), row, key, service, p, next, other)
  {
    if p == 0 {
      FirstGoesOn(w, row, key, service, job, other, next);
    } else {
      SecondGoesOn(w, row, key, service, other, job, next);
    }
  }

  lemma SceneIs(w: World, row: nat, key: nat, service: nat, p: nat, job: Job, other: Job)
    requires Scene(w, row, key, service, p, job, other)
    ensures Ready(w, p) && w.procs[p].job == job && w.procs[p].env == HOLDER
    ensures w.s.t.keys == Some(KeyAt(key)) && VersionOf(SERVICE, w.engines) == service
    ensures At(w.s.t, ROW) == Some(RowAt(row)) && Live(w.s.t, ITEM.id)
  {
  }

  lemma StartsRotation(w: World, row: nat, key: nat, service: nat, p: nat, other: Job)
    requires Scene(w, row, key, service, p, Idle, other)
    ensures Scene(Apply(w, RotateStart(p)), row, key, service, p, OnKey(key), other)
  {
    SceneIs(w, row, key, service, p, Idle, other);
    SceneGoesOn(w, row, key, service, p, Idle, other, OnKey(key));
  }

  lemma TakeIs(w: World, p: nat, next: Job)
    requires Ready(w, p) && w.procs[p].job.Rotating? && w.procs[p].job.held.None? && w.procs[p].job.page != []
    requires next == TakeToRotate(w.procs[p].env, w.engines, {}, w.procs[p].job)
    ensures Apply(w, RotateTake(p, {})) == WithJob(w, p, next)
  {
  }

  lemma TakesTheKey(w: World, row: nat, key: nat, service: nat, p: nat, other: Job)
    requires Scene(w, row, key, service, p, OnKey(key), other)
    ensures Scene(Apply(w, RotateTake(p, {})), row, key, service, p, if service == key then KEY_DONE
        else HoldingKey(service), other)
  {
    var next := if service == key then KEY_DONE else HoldingKey(service);
    SceneIs(w, row, key, service, p, OnKey(key), other);
    TakesKey(w.engines, key);
    TakeIs(w, p, next);
    SceneGoesOn(w, row, key, service, p, OnKey(key), other, next);
  }

  lemma TakesTheRow(w: World, row: nat, key: nat, service: nat, p: nat, other: Job)
    requires Scene(w, row, key, service, p, OnRow(row), other) && service != row
    ensures Scene(Apply(w, RotateTake(p, {})), row, key, service, p, HoldingRow(service), other)
  {
    SceneIs(w, row, key, service, p, OnRow(row), other);
    TakesRow(w.engines, row);
    TakeIs(w, p, HoldingRow(service));
    SceneGoesOn(w, row, key, service, p, OnRow(row), other, HoldingRow(service));
  }

  lemma WriteIs(w: World, p: nat, t: Tables, next: Job)
    requires Ready(w, p) && Holding(w, p) && t == WriteHeld(w.s.t, HeldBy(w, p))
    requires next == Rotating(w.procs[p].job.cursor, w.procs[p].job.page, None)
    ensures Apply(w, RotateWrite(p)) == WithJob(Commit(w, w.s.(t := t)), p, next)
  {
  }

  lemma SceneCommits(w: World, row: nat, key: nat, service: nat, p: nat, job: Job, other: Job, t: Tables, row': nat,
      key': nat)
    requires Scene(w, row, key, service, p, job, other)
    requires t.objects == map[ITEM.id := Row(ROW.ref.collection, RowAt(row'), None, false)]
        && t.keys == Some(KeyAt(key'))
    ensures Scene(Commit(w, w.s.(t := t)), row', key', service, p, job, other)
  {
  }

  lemma KeyIsWritten(t: Tables, key: nat, key': nat)
    requires t.keys == Some(KeyAt(key))
    ensures WriteHeld(t, Held(KeyTarget, SERVICE.id, KeyAt(key'))) == t.(keys := Some(KeyAt(key')))
  {
  }

  lemma RowIsWritten(t: Tables, row: nat, row': nat)
    requires t.objects == map[ITEM.id := Row(ROW.ref.collection, RowAt(row), None, false)]
    ensures WriteHeld(t, Held(ROW, SERVICE.id, RowAt(row')))
         == t.(objects := map[ITEM.id := Row(ROW.ref.collection, RowAt(row'), None, false)])
  {
    assert map[ITEM.id := Row(ROW.ref.collection, RowAt(row), None, false)][ITEM.id := Row(ROW.ref.collection,
        RowAt(row'), None, false)]
        == map[ITEM.id := Row(ROW.ref.collection, RowAt(row'), None, false)];
  }

  lemma SceneTables(w: World, row: nat, key: nat, service: nat, p: nat, job: Job, other: Job)
    requires Scene(w, row, key, service, p, job, other)
    ensures w.s.t.objects == map[ITEM.id := Row(ROW.ref.collection, RowAt(row), None, false)]
        && w.s.t.keys == Some(KeyAt(key))
  {
  }

  lemma WritesTheKey(w: World, row: nat, key: nat, service: nat, p: nat, other: Job)
    requires Scene(w, row, key, service, p, HoldingKey(service), other)
    ensures Scene(Apply(w, RotateWrite(p)), row, service, service, p, KEY_DONE, other)
  {
    var t := w.s.t.(keys := Some(KeyAt(service)));
    SceneIs(w, row, key, service, p, HoldingKey(service), other);
    SceneTables(w, row, key, service, p, HoldingKey(service), other);
    KeyIsWritten(w.s.t, key, service);
    WriteIs(w, p, t, KEY_DONE);
    SceneCommits(w, row, key, service, p, HoldingKey(service), other, t, row, service);
    SceneGoesOn(Commit(w, w.s.(t := t)), row, service, service, p, HoldingKey(service), other, KEY_DONE);
  }

  lemma WritesTheRow(w: World, row: nat, key: nat, service: nat, p: nat, held: nat, other: Job)
    requires Scene(w, row, key, service, p, HoldingRow(held), other)
    ensures Scene(Apply(w, RotateWrite(p)), held, key, service, p, ROW_DONE, other)
  {
    var t := w.s.t.(objects := map[ITEM.id := Row(ROW.ref.collection, RowAt(held), None, false)]);
    SceneIs(w, row, key, service, p, HoldingRow(held), other);
    SceneTables(w, row, key, service, p, HoldingRow(held), other);
    RowIsWritten(w.s.t, row, held);
    WriteIs(w, p, t, ROW_DONE);
    SceneCommits(w, row, key, service, p, HoldingRow(held), other, t, held, key);
    SceneGoesOn(Commit(w, w.s.(t := t)), held, key, service, p, HoldingRow(held), other, ROW_DONE);
  }

  lemma ReadsTheRow(w: World, row: nat, key: nat, service: nat, p: nat, other: Job)
    requires Scene(w, row, key, service, p, KEY_DONE, other)
    ensures Scene(Apply(w, RotatePage(p)), row, key, service, p, OnRow(row), other)
  {
    SceneIs(w, row, key, service, p, KEY_DONE, other);
    SceneTables(w, row, key, service, p, KEY_DONE, other);
    PageIsRow(w.s.t, row);
    SceneGoesOn(w, row, key, service, p, KEY_DONE, other, OnRow(row));
  }

  /** The first rotator moves the index key and reads the row; */
  lemma AfterReads(w: World)
    requires Stage(w, 0, 0, 1, Idle, Idle)
    ensures Stage(Run(w, READS), 0, 1, 1, OnRow(0), Idle)
  {
    RunFour(w, READS[0], READS[1], READS[2], READS[3]);
    var w1 := Apply(w, READS[0]);
    StartsRotation(w, 0, 0, 1, 0, Idle);
    var w2 := Apply(w1, READS[1]);
    TakesTheKey(w1, 0, 0, 1, 0, Idle);
    WritesTheKey(w2, 0, 0, 1, 0, Idle);
    ReadsTheRow(Apply(w2, READS[2]), 0, 1, 1, 0, Idle);
  }

  /** the second one finds the key moved, and reads the row too; the first re-wraps it; */
  lemma AfterRace(w: World)
    requires Stage(w, 0, 1, 1, OnRow(0), Idle)
    ensures Stage(Run(w, RACE), 0, 1, 1, HoldingRow(1), OnRow(0))
  {
    RunFour(w, RACE[0], RACE[1], RACE[2], RACE[3]);
    var w1 := Apply(w, RACE[0]);
    StartsRotation(w, 0, 1, 1, 1, OnRow(0));
    var w2 := Apply(w1, RACE[1]);
    TakesTheKey(w1, 0, 1, 1, 1, OnRow(0));
    ReadsTheRow(w2, 0, 1, 1, 1, OnRow(0));
    TakesTheRow(Apply(w2, RACE[2]), 0, 1, 1, 0, OnRow(0));
  }

  /** the service rotates its key, and the second rotator re-wraps the row and writes it. */
  lemma AfterLast(w: World)
    requires Stage(w, 0, 1, 1, HoldingRow(1), OnRow(0))
    ensures Stage(Run(w, LAST), 2, 1, 2, HoldingRow(1), ROW_DONE)
  {
    RunThree(w, LAST[0], LAST[1], LAST[2]);
    var w1 := Apply(w, LAST[0]);
    AfterServiceRotates(w, 0, 1, 1, HoldingRow(1), OnRow(0));
    TakesTheRow(w1, 0, 1, 2, 1, HoldingRow(1));
    WritesTheRow(Apply(w1, LAST[1]), 0, 1, 2, 1, 2, HoldingRow(1));
  }

  lemma RunThree(w: World, a: Action, b: Action, c: Action)
    ensures Run(w, [a, b, c]) == Apply(Apply(Apply(w, a), b), c)
  {
    RunConcat(w, [a], [b, c]);
    assert [a] + [b, c] == [a, b, c];
    RunOne(w, a);
    RunConcat(Apply(w, a), [b], [c]);
    assert [b] + [c] == [b, c];
    RunOne(Apply(w, a), b);
    RunOne(Apply(Apply(w, a), b), c);
  }

  lemma LastWriteSinks(w: World)
    requires Stage(w, 2, 1, 2, HoldingRow(1), ROW_DONE)
    ensures var after := Apply(w, RotateWrite(0));
      && At(w.s.t, ROW) == Some(RowAt(2)) && At(after.s.t, ROW) == Some(RowAt(1)) && !NeverLowers(w.s.t, after.s.t, ROW)
  {
    SceneIs(w, 2, 1, 2, 0, HoldingRow(1), ROW_DONE);
    WritesTheRow(w, 2, 1, 2, 0, 1, ROW_DONE);
    SceneIs(Apply(w, RotateWrite(0)), 1, 1, 2, 0, ROW_DONE, ROW_DONE);
  }

  lemma RaceIsRun(w1: World)
    requires w1 == Run(START, BOOTS)
    ensures var w2 := Apply(Apply(w1, PUT), EngineRotate(SERVICE.id));
      Stage(Run(Run(Run(w2, READS), RACE), LAST), 2, 1, 2, HoldingRow(1), ROW_DONE)
  {
    AfterPut(w1);
    AfterServiceRotates(Apply(w1, PUT), 0, 0, 0, Idle, Idle);
    var w2 := Apply(Apply(w1, PUT), EngineRotate(SERVICE.id));
    AfterReads(w2);
    AfterRace(Run(w2, READS));
    AfterLast(Run(Run(w2, READS), RACE));
  }

  /** Two rotators of one service, from an empty database: the row is at version 2 before the last
      write, and at version 1 after it. */
  lemma TwoRotatorsLowerAVersion()
    ensures var before := Run(START, BOOTS + [PUT, EngineRotate(SERVICE.id)] + READS + RACE + LAST);
      var after := Apply(before, RotateWrite(0));
      && At(before.s.t, ROW) == Some(RowAt(2)) && At(after.s.t, ROW) == Some(RowAt(1))
      && !NeverLowers(before.s.t, after.s.t, ROW)
  {
    var w1 := Run(START, BOOTS);
    var w2 := Apply(Apply(w1, PUT), EngineRotate(SERVICE.id));
    var w3 := Run(w2, READS);
    RaceIsRun(w1);
    RunInParts(w1, w2, w3, Run(w3, RACE));
    LastWriteSinks(Run(Run(w3, RACE), LAST));
  }

  lemma RunInParts(w1: World, w2: World, w3: World, w4: World)
    requires w1 == Run(START, BOOTS) && w2 == Apply(Apply(w1, PUT), EngineRotate(SERVICE.id))
    requires w3 == Run(w2, READS) && w4 == Run(w3, RACE)
    ensures Run(START, BOOTS + [PUT, EngineRotate(SERVICE.id)] + READS + RACE + LAST) == Run(w4, LAST)
  {
    var put := [PUT, EngineRotate(SERVICE.id)];
    assert put == [PUT] + [EngineRotate(SERVICE.id)];
    RunSnoc(w1, [PUT], EngineRotate(SERVICE.id));
    RunOne(w1, PUT);
    RunConcat(START, BOOTS, put);
    RunConcat(START, BOOTS + put, READS);
    RunConcat(START, BOOTS + put + READS, RACE);
    RunConcat(START, BOOTS + put + READS + RACE, LAST);
  }
}
