/** One row of a rotation, with anything happening before its statements. */
module Rotation {
  import opened Strings
  import opened Identity
  import opened Envelope
  import opened Tables
  import opened Vault
  import opened Guarantees
  import opened Paging

  /** What the other processes do before our k-th statement. */
  type Others = (World, nat) -> World

  /** Statement by statement of ours, the actions of the others; after the last one all is quiet. */
  type Schedule = seq<seq<Action>>

  function Interfered(w: World, sched: Schedule, k: nat): World
  {
    if k < |sched| then Run(w, sched[k]) else w
  }

  function OthersOf(sched: Schedule): Others { (w: World, k: nat) => Interfered(w, sched, k) }

  /** All we rely on: others keep the invariant and the past; */
  ghost predicate Rely(others: Others)
  {
    forall w, k: nat :: Inv(w) ==> Inv(others(w, k)) && Follows(w, others(w, k))
  }

  /** if they share our current wrapper, they add no row that needs another one; */
  ghost predicate RelyUnder(others: Others, id: string)
  {
    forall w, k: nat :: Inv(w) && ProcsUnder(w.procs, id) ==> UnderAndShrinking(w, others(w, k), id)
  }

  /** and in the end they are quiet. */
  ghost predicate QuietFrom(others: Others, n: nat)
  {
    forall w, k: nat :: k >= n ==> others(w, k) == w
  }

  lemma QuietIsRely(others: Others)
    requires QuietFrom(others, 0)
    ensures Rely(others)
  {
    forall w, k: nat | Inv(w) ensures Inv(others(w, k)) && Follows(w, others(w, k)) { assert others(w, k) == w; }
  }

  /** Every schedule, that is every interleaving with our statements, is as we rely on. */
  lemma ScheduleIsRely(sched: Schedule, id: string)
    ensures Rely(OthersOf(sched)) && QuietFrom(OthersOf(sched), |sched|)
    ensures ScheduleUnder(sched, id) ==> RelyUnder(OthersOf(sched), id)
  {
    forall w, k: nat | Inv(w) ensures Inv(OthersOf(sched)(w, k)) && Follows(w, OthersOf(sched)(w, k)) {
      if k < |sched| { RunKeeps(w, sched[k]); }
    }
    if ScheduleUnder(sched, id) {
      forall w, k: nat | Inv(w) && ProcsUnder(w.procs, id) ensures UnderAndShrinking(w, OthersOf(sched)(w, k), id) {
        if k < |sched| { RunShrinksStragglers(w, sched[k], id); }
      }
    }
  }

  ghost predicate ScheduleUnder(sched: Schedule, k: string)
  {
    forall i :: 0 <= i < |sched| ==> ActionsUnder(sched[i], k)
  }

  /** Every wrapper that is or was anybody's current one is held here. */
  ghost predicate HoldsCurrents(env: Envelope, w: World) { w.s.h.currents <= env.all.Keys }

  /** Others start no process whose wrapper is not held here. */
  ghost predicate RelyHeld(others: Others, env: Envelope)
  {
    forall w, k: nat :: Inv(w) && HoldsCurrents(env, w) ==> HoldsCurrents(env, others(w, k))
  }

  predicate ActionsHeld(actions: seq<Action>, env: Envelope)
  {
    forall i :: 0 <= i < |actions| && actions[i].Boot? ==> actions[i].env.current.id in env.all
  }

  predicate ScheduleHeld(sched: Schedule, env: Envelope)
  {
    forall i :: 0 <= i < |sched| ==> ActionsHeld(sched[i], env)
  }

  lemma StepAddsNoCurrent(w: World, a: Action)
    ensures Apply(w, a).s.h.currents <= w.s.h.currents + if a.Boot? then {a.env.current.id} else {}
  {
    match a {
      case Put(p, actor, collection, items) =>
        if MayPut(w, p, items) {
          InsertAllAdds(w.s, w.procs[p].env.current.id, w.procs[p].index.value, actor, collection, items);
        }
      case Erase(actor, refs) => ShredAllHistory(w.s, actor, refs);
      case Boot(p, env, secret, outage) =>
      case RotateWrite(p) =>
      case ReindexWrite(p, actor) =>
      case LogReads(_) =>
      case Snapshot =>
      case _ => OtherStepWritesNothing(w, a);
    }
  }

  lemma {:induction false} RunHoldsCurrents(w: World, actions: seq<Action>, env: Envelope)
    requires HoldsCurrents(env, w) && ActionsHeld(actions, env)
    ensures HoldsCurrents(env, Run(w, actions))
    decreases |actions|
  {
    if actions != [] {
      StepAddsNoCurrent(w, actions[0]);
      RunHoldsCurrents(Apply(w, actions[0]), actions[1..], env);
    }
  }

  lemma ScheduleIsHeld(sched: Schedule, env: Envelope)
    requires ScheduleHeld(sched, env)
    ensures RelyHeld(OthersOf(sched), env)
  {
    forall w, k: nat | Inv(w) && HoldsCurrents(env, w) ensures HoldsCurrents(env, OthersOf(sched)(w, k)) {
      if k < |sched| { RunHoldsCurrents(w, sched[k], env); }
    }
  }

  datatype Outcome = Written(affected: bool) | Unchanged | Failed(error: Error)

  datatype RowResult = RowResult(w: World, k: nat, outcome: Outcome)

  function WriteKey(w: World, held: Held): World { Commit(w, w.s.(t := WriteHeld(w.s.t, held))) }

  /** Re-wrap one row copy and write it back under its guard. */
  function RotateRowResult(w: World, env: Envelope, others: Others, net: nat -> Outage, k: nat, row: PageRow): RowResult
  {
    var w1 := others(w, k);
    match Rewrap(env, w1.engines, net(k), row.sealed, AadOf(row.target))
    case Err(e) => RowResult(w1, k + 1, Failed(e))
    case Ok((re, changed)) =>
      if !changed then RowResult(w1, k + 1, Unchanged) else
        var w2 := others(w1, k + 1);
        var held := Held(row.target, row.sealed.keyId, re);
        if DATABASE in net(k + 1) then RowResult(w2, k + 2, Failed(ErrStatement)) else
        RowResult(WriteKey(w2, held), k + 2, Written(GuardHolds(w2.s.t, held)))
  }

  /** The process is one that has started: its wrapper was some process's current one. */
  predicate Started(h: History, env: Envelope) { EnvelopeValid(env) && env.current.id in h.currents }

  lemma WriteKeyKeeps(w: World, held: Held)
    requires Inv(w) && CopySound(w.s.h, held.target, held.sealed) && held.sealed.keyId in w.s.h.currents
    ensures Inv(WriteKey(w, held)) && Follows(w, WriteKey(w, held))
  {
    WriteHeldKeeps(w.s, held);
    CommitKeeps(w, w.s.(t := WriteHeld(w.s.t, held)));
  }

  /** The four ways a row can go. */
  lemma RotateRowIs(w: World, env: Envelope, others: Others, net: nat -> Outage, k: nat, row: PageRow)
    ensures var w1 := others(w, k);
      var w2, re, r := others(w1, k + 1), Rewrap(env, w1.engines, net(k), row.sealed, AadOf(row.target)),
          RotateRowResult(w, env, others, net, k, row);
      if re.Err? then r == RowResult(w1, k + 1, Failed(re.error))
      else if !re.value.1 then r == RowResult(w1, k + 1, Unchanged)
      else if DATABASE in net(k + 1) then r == RowResult(w2, k + 2, Failed(ErrStatement))
      else
        var held := Held(row.target, row.sealed.keyId, re.value.0);
        r == RowResult(WriteKey(w2, held), k + 2, Written(GuardHolds(w2.s.t, held)))
  {
  }

  lemma WriteOfCopyKeeps(w: World, w2: World, env: Envelope, engines: Engines, outage: Outage, row: PageRow, re: Sealed)
    requires Inv(w) && Inv(w2) && Follows(w, w2) && Started(w.s.h, env) && CopySound(w.s.h, row.target, row.sealed)
    requires Rewrap(env, engines, outage, row.sealed, AadOf(row.target)) == Ok((re, true))
    ensures var w' := WriteKey(w2, Held(row.target, row.sealed.keyId, re)); Inv(w') && Follows(w, w')
  {
    var held := Held(row.target, row.sealed.keyId, re);
    RewrapOfCopy(w.s.h, env, engines, outage, row);
    CopySoundLater(w.s.h, w2.s.h, row.target, re);
    WriteKeyKeeps(w2, held);
    FollowsTransitive(w, w2, WriteKey(w2, held));
  }

  lemma RelyTwice(w: World, others: Others, k: nat)
    requires Rely(others) && Inv(w)
    ensures var w1 := others(w, k); var w2 := others(w1, k + 1);
      Inv(w1) && Follows(w, w1) && Inv(w2) && Follows(w, w2)
  {
    var w1 := others(w, k);
    FollowsTransitive(w, w1, others(w1, k + 1));
  }

  lemma RotateRowKeeps(w: World, env: Envelope, others: Others, net: nat -> Outage, k: nat, row: PageRow)
    requires Rely(others) && Inv(w) && Started(w.s.h, env) && CopySound(w.s.h, row.target, row.sealed)
    ensures var r := RotateRowResult(w, env, others, net, k, row); Inv(r.w) && Follows(w, r.w)
  {
    var w1 := others(w, k);
    var re := Rewrap(env, w1.engines, net(k), row.sealed, AadOf(row.target));
    RelyTwice(w, others, k);
    RotateRowIs(w, env, others, net, k, row);
    if re.Ok? && re.value.1 && DATABASE !in net(k + 1) {
      WriteOfCopyKeeps(w, others(w1, k + 1), env, w1.engines, net(k), row, re.value.0);
    }
  }

  // ---- rotations that share one current wrapper ----

  lemma UnderAndShrinkingTransitive(a: World, b: World, c: World, k: string)
    requires UnderAndShrinking(a, b, k) && UnderAndShrinking(b, c, k)
    ensures UnderAndShrinking(a, c, k)
  {
  }

  /** The row copy names the key its row is still under, if the row still needs another one. */
  ghost predicate CopyCurrent(t: Tables, row: PageRow, k: string)
  {
    match row.target
    case KeyTarget => !KeyUnder(t, k) ==> t.keys.value.keyId == row.sealed.keyId
    case ObjectTarget(r) => r.id in Stragglers(t, k) ==> t.objects[r.id].sealed.keyId == row.sealed.keyId
  }

  ghost predicate RowUnder(t: Tables, target: Target, k: string)
  {
    match target
    case KeyTarget => KeyUnder(t, k)
    case ObjectTarget(r) => r.id !in Stragglers(t, k)
  }

  lemma CopyCurrentLater(w: World, w': World, row: PageRow, k: string)
    requires CopyCurrent(w.s.t, row, k) && UnderAndShrinking(w, w', k)
    ensures CopyCurrent(w'.s.t, row, k)
  {
  }

  lemma WriteKeyMovesRow(w: World, held: Held, row: PageRow, k: string)
    requires held.target == row.target && held.fromKeyId == row.sealed.keyId && held.sealed.keyId == k
    requires CopyCurrent(w.s.t, row, k) && ProcsUnder(w.procs, k)
    ensures UnderAndShrinking(w, WriteKey(w, held), k)
    ensures RowUnder(WriteKey(w, held).s.t, row.target, k)
  {
  }

  /** After a row was handled without an error it needs no wrapper but the current one, even
      when our write missed: then somebody else moved or shredded it. */
  lemma RotateRowMoves(w: World, env: Envelope, others: Others, net: nat -> Outage, i: nat, row: PageRow)
    requires Rely(others) && Inv(w) && EnvelopeValid(env)
    requires ProcsUnder(w.procs, env.current.id) && RelyUnder(others, env.current.id)
    requires CopyCurrent(w.s.t, row, env.current.id)
    ensures var r := RotateRowResult(w, env, others, net, i, row);
      && UnderAndShrinking(w, r.w, env.current.id)
      && (!r.outcome.Failed? ==> RowUnder(r.w.s.t, row.target, env.current.id))
  {
    var k, w1 := env.current.id, others(w, i);
    var re := Rewrap(env, w1.engines, net(i), row.sealed, AadOf(row.target));
    RotateRowIs(w, env, others, net, i, row);
    CopyCurrentLater(w, w1, row, k);
    if re.Ok? { RewrapKeepsMeaning(env, w1.engines, net(i), row.sealed, AadOf(row.target)); }
    if re.Ok? && re.value.1 {
      var w2 := others(w1, i + 1);
      CopyCurrentLater(w1, w2, row, k);
      UnderAndShrinkingTransitive(w, w1, w2, k);
      if DATABASE !in net(i + 1) {
        var held := Held(row.target, row.sealed.keyId, re.value.0);
        WriteKeyMovesRow(w2, held, row, k);
        UnderAndShrinkingTransitive(w, w2, WriteKey(w2, held), k);
      }
    }
  }

  // ---- a rotation with nobody else around ----

  /** What re-wrapping makes of a row when every backend answers. */
  function Verdict(env: Envelope, engines: Engines, t: Tables, id: string): Result<(Sealed, bool), Error>
    requires id in t.objects
  {
    Rewrap(env, engines, {}, t.objects[id].sealed, AadOf(RowCopy(t, id).target))
  }

  /** A row that a rotation moves, and one that it skips. */
  predicate Moves(env: Envelope, engines: Engines, t: Tables, id: string)
  {
    id in ToRotate(t, env) && Verdict(env, engines, t, id).Ok? && Verdict(env, engines, t, id).value.1
  }

  predicate Skips(env: Envelope, engines: Engines, t: Tables, id: string)
  {
    id in ToRotate(t, env) && Verdict(env, engines, t, id).Err?
  }

  function RotatedRow(env: Envelope, engines: Engines, t: Tables, id: string): Row
    requires id in t.objects
  {
    if Moves(env, engines, t, id)
        then t.objects[id].(sealed := WithKey(t.objects[id].sealed, Verdict(env, engines, t, id).value.0))
        else t.objects[id]
  }

  /** The rows a rotation moves and skips, up to an id. */
  ghost function MovedUpTo(env: Envelope, engines: Engines, t: Tables, last: string): set<string>
  {
    set id | id in t.objects && !Less(last, id) && Moves(env, engines, t, id)
  }

  ghost function SkippedUpTo(env: Envelope, engines: Engines, t: Tables, last: string): set<string>
  {
    set id | id in t.objects && !Less(last, id) && Skips(env, engines, t, id)
  }

  ghost function AllMoved(env: Envelope, engines: Engines, t: Tables): set<string>
  {
    set id | id in t.objects && Moves(env, engines, t, id)
  }

  ghost function AllSkipped(env: Envelope, engines: Engines, t: Tables): set<string>
  {
    set id | id in t.objects && Skips(env, engines, t, id)
  }

  /** The index key cannot be re-wrapped: it is not there, or does not open. */
  predicate KeyRowIsBad(env: Envelope, engines: Engines, keys: Option<Sealed>)
  {
    keys.None? || Rewrap(env, engines, {}, keys.value, INDEX_KEY_AAD).Err?
  }

  predicate KeyRowMoves(env: Envelope, engines: Engines, keys: Option<Sealed>)
  {
    !KeyRowIsBad(env, engines, keys) && Rewrap(env, engines, {}, keys.value, INDEX_KEY_AAD).value.1
  }

  function RotatedKey(env: Envelope, engines: Engines, keys: Option<Sealed>): Option<Sealed>
  {
    if KeyRowMoves(env, engines, keys)
    then Some(WithKey(keys.value, Rewrap(env, engines, {}, keys.value, INDEX_KEY_AAD).value.0))
    else keys
  }

  /** t is t0 with the index key and the rows up to last rotated. */
  ghost predicate RotatedUpTo(env: Envelope, engines: Engines, t0: Tables, t: Tables, last: string)
  {
    && t.objects.Keys == t0.objects.Keys && t.index == t0.index && t.audit == t0.audit
    && t.keys == RotatedKey(env, engines, t0.keys)
    && forall id :: id in t0.objects ==> t.objects[id] == if Less(last, id) then t0.objects[id]
        else RotatedRow(env, engines, t0, id)
  }

  /** t is t0 with the index key and every row rotated: what a whole rotation does. */
  ghost predicate RotatedAll(env: Envelope, engines: Engines, t0: Tables, t: Tables)
  {
    && t.objects.Keys == t0.objects.Keys && t.index == t0.index && t.audit == t0.audit
    && t.keys == RotatedKey(env, engines, t0.keys)
    && forall id :: id in t0.objects ==> t.objects[id] == RotatedRow(env, engines, t0, id)
  }

  /** Handling the next row takes the rotated part one row further. */
  lemma RotatedUpToNext(env: Envelope, engines: Engines, t0: Tables, t: Tables, last: string, next: string, t': Tables)
    requires RotatedUpTo(env, engines, t0, t, last) && NextIn(ToRotate(t0, env), last, next)
    requires t' == t.(objects := t.objects[next := RotatedRow(env, engines, t0, next)])
    ensures RotatedUpTo(env, engines, t0, t', next)
  {
    UpToNext(ToRotate(t0, env), last, next);
  }

  lemma CountsUpToNext(env: Envelope, engines: Engines, t0: Tables, last: string, next: string)
    requires NextIn(ToRotate(t0, env), last, next)
    ensures MovedUpTo(env, engines, t0, next) == MovedUpTo(env, engines, t0, last) + if Moves(env, engines, t0, next)
        then {next} else {}
    ensures SkippedUpTo(env, engines, t0, next) == SkippedUpTo(env, engines, t0, last) + if Skips(env, engines, t0,
        next) then {next} else {}
    ensures next !in MovedUpTo(env, engines, t0, last) && next !in SkippedUpTo(env, engines, t0, last)
  {
    UpToNext(ToRotate(t0, env), last, next);
  }

  lemma RotatedUpToEnd(env: Envelope, engines: Engines, t0: Tables, t: Tables, last: string)
    requires RotatedUpTo(env, engines, t0, t, last)
    requires forall x :: x in ToRotate(t, env) ==> !Less(last, x)
    ensures RotatedAll(env, engines, t0, t)
    ensures MovedUpTo(env, engines, t0, last) == AllMoved(env, engines, t0)
    ensures SkippedUpTo(env, engines, t0, last) == AllSkipped(env, engines, t0)
  {
  }

  /** A rotated row does not move again, and a skipped one is skipped again; nor does the index
      key: a second rotation moves nothing, skips the same rows and fails only if the first did. */
  lemma SecondRotationIsIdle(env: Envelope, engines: Engines, t0: Tables, t: Tables)
    requires EnvelopeValid(env) && RotatedAll(env, engines, t0, t)
    ensures AllMoved(env, engines, t) == {} && !KeyRowMoves(env, engines, t.keys)
    ensures AllSkipped(env, engines, t) == AllSkipped(env, engines, t0)
    ensures KeyRowIsBad(env, engines, t.keys) <==> KeyRowIsBad(env, engines, t0.keys)
  {
    forall id | id in t0.objects
      ensures !Moves(env, engines, t, id) && (Skips(env, engines, t, id) <==> Skips(env, engines, t0, id))
    {
      RotatedRowIsDone(env, engines, t0, t, id);
    }
    RotatedKeyIsDone(env, engines, t0.keys);
  }

  lemma RotatedKeyIsDone(env: Envelope, engines: Engines, keys: Option<Sealed>)
    requires EnvelopeValid(env)
    ensures var keys' := RotatedKey(env, engines, keys);
      !KeyRowMoves(env, engines, keys') && (KeyRowIsBad(env, engines, keys') <==> KeyRowIsBad(env, engines, keys))
  {
  }

  /** A rotation that has nothing to move leaves the tables alone. */
  lemma IdleRotationKeeps(env: Envelope, engines: Engines, t0: Tables, t: Tables)
    requires RotatedAll(env, engines, t0, t) && AllMoved(env, engines, t0) == {} && !KeyRowMoves(env, engines, t0.keys)
    ensures t == t0
  {
    forall id | id in t0.objects ensures t.objects[id] == t0.objects[id] {
      assert id !in AllMoved(env, engines, t0);
    }
    assert t.objects == t0.objects;
  }

  lemma RotatedRowIsDone(env: Envelope, engines: Engines, t0: Tables, t: Tables, id: string)
    requires EnvelopeValid(env) && id in t0.objects && id in t.objects
        && t.objects[id] == RotatedRow(env, engines, t0, id)
    ensures !Moves(env, engines, t, id) && (Skips(env, engines, t, id) <==> Skips(env, engines, t0, id))
  {
  }

  // ---- what a rotation alone does, row by row ----

  /** The version that new wrapped keys of the current wrapper have. */
  function ServiceVersion(env: Envelope, engines: Engines): nat
  {
    if env.current.kind.Transit? && env.current.id in engines then engines[env.current.id] else 0
  }

  /** A wrapped key that is not what the current wrapper would make now. */
  predicate Behind(env: Envelope, engines: Engines, s: Sealed)
  {
    || s.keyId != env.current.id
    || (env.current.kind.Transit? && s.wrapped.Some? && s.wrapped.value.Box?
        && s.wrapped.value.version != ServiceVersion(env, engines))
  }

  predicate Loaded(env: Envelope, s: Sealed) { s.keyId in env.all }

  /** The same key, under the current wrapper and its version of now. */
  function Renewed(env: Envelope, engines: Engines, s: Sealed): Sealed
  {
    if s.wrapped.Some? && s.wrapped.value.Box?
    then s.(keyId := env.current.id,
            wrapped := Some(s.wrapped.value.(keyId := env.current.id, version := ServiceVersion(env, engines))))
    else s
  }

  /** What a row becomes: renewed if it is live, behind and under a wrapper that is held. */
  function RenewedRow(env: Envelope, engines: Engines, row: Row): Row
  {
    if !row.deleted && Loaded(env, row.sealed) && Behind(env, engines, row.sealed)
    then row.(sealed := Renewed(env, engines, row.sealed)) else row
  }

  ghost function ToMove(env: Envelope, engines: Engines, t: Tables): set<string>
  {
    set id | id in t.objects && !t.objects[id].deleted && Loaded(env, t.objects[id].sealed)
             && Behind(env, engines, t.objects[id].sealed)
  }

  ghost function NotLoaded(env: Envelope, t: Tables): set<string>
  {
    set id | id in t.objects && !t.objects[id].deleted && !Loaded(env, t.objects[id].sealed)
  }

  /** From t0 to t everything that is held was renewed, and nothing else was touched. */
  ghost predicate RenewedAll(env: Envelope, engines: Engines, t0: Tables, t: Tables)
  {
    && t.objects.Keys == t0.objects.Keys && t.index == t0.index && t.audit == t0.audit
    && (forall id :: id in t0.objects ==> t.objects[id] == RenewedRow(env, engines, t0.objects[id]))
    && t0.keys.Some?
    && t.keys == if Behind(env, engines, t0.keys.value) then Some(Renewed(env, engines, t0.keys.value)) else t0.keys
  }

  lemma RowMovesExactlyWhen(s: State, env: Envelope, engines: Engines, id: string)
    requires Sound(s.h, s.t) && EnvelopeValid(env) && id in s.t.objects
    ensures Moves(env, engines, s.t, id) <==> id in ToMove(env, engines, s.t)
    ensures Skips(env, engines, s.t, id) <==> id in NotLoaded(env, s.t)
    ensures RotatedRow(env, engines, s.t, id) == RenewedRow(env, engines, s.t.objects[id])
  {
    var row := s.t.objects[id];
    assert RowSound(s.h, id, row);
    if !row.deleted {
      if row.sealed.keyId == env.current.id {
        RewrapInPlaceExactlyWhen(env, engines, {}, row.sealed, Aad(row.collection, id));
      } else {
        RewrapMovesExactlyWhen(env, engines, {}, row.sealed, Aad(row.collection, id));
      }
    }
  }

  lemma KeyMovesExactlyWhen(s: State, env: Envelope, engines: Engines)
    requires Sound(s.h, s.t) && EnvelopeValid(env) && s.t.keys.Some?
    ensures var key := s.t.keys.value;
      && (KeyRowIsBad(env, engines, s.t.keys) <==> !Loaded(env, key))
      && (KeyRowMoves(env, engines, s.t.keys) <==> Loaded(env, key) && Behind(env, engines, key))
      && (Loaded(env, key) ==>
            RotatedKey(env, engines, s.t.keys) ==
              if Behind(env, engines, key) then Some(Renewed(env, engines, key)) else s.t.keys)
  {
    var key := s.t.keys.value;
    assert KeySound(s.h, key);
    if key.keyId == env.current.id {
      RewrapInPlaceExactlyWhen(env, engines, {}, key, INDEX_KEY_AAD);
    } else {
      RewrapMovesExactlyWhen(env, engines, {}, key, INDEX_KEY_AAD);
    }
  }

  lemma RotationRenews(s: State, env: Envelope, engines: Engines, t: Tables)
    requires Sound(s.h, s.t) && EnvelopeValid(env) && s.t.keys.Some? && Loaded(env, s.t.keys.value)
    requires RotatedAll(env, engines, s.t, t)
    ensures RenewedAll(env, engines, s.t, t)
  {
    KeyMovesExactlyWhen(s, env, engines);
    forall id | id in s.t.objects ensures t.objects[id] == RenewedRow(env, engines, s.t.objects[id]) {
      RowMovesExactlyWhen(s, env, engines, id);
    }
  }

  lemma RotationCounts(s: State, env: Envelope, engines: Engines)
    requires Sound(s.h, s.t) && EnvelopeValid(env)
    ensures AllMoved(env, engines, s.t) == ToMove(env, engines, s.t)
    ensures AllSkipped(env, engines, s.t) == NotLoaded(env, s.t)
  {
    forall id | id in s.t.objects
      ensures Moves(env, engines, s.t, id) <==> id in ToMove(env, engines, s.t)
      ensures Skips(env, engines, s.t, id) <==> id in NotLoaded(env, s.t)
    {
      RowMovesExactlyWhen(s, env, engines, id);
    }
  }

  /** When every wrapper is held that something is under, all of it ends under the current one. */
  lemma RenewedIsUnder(s: State, env: Envelope, engines: Engines, t: Tables)
    requires Sound(s.h, s.t) && RenewedAll(env, engines, s.t, t) && NotLoaded(env, s.t) == {}
    ensures AllUnder(t, env.current.id)
  {
    forall id | id in s.t.objects && !s.t.objects[id].deleted ensures t.objects[id].sealed.keyId == env.current.id {
      assert id !in NotLoaded(env, s.t);
      assert RowSound(s.h, id, s.t.objects[id]);
    }
    assert KeySound(s.h, s.t.keys.value);
  }

  // ---- what the loops of a rotation keep ----

  /** However others interfere: the invariant, everything of the past, sound row copies. */
  ghost predicate RunIsGood(w0: World, w: World, page: seq<PageRow>)
  {
    Inv(w) && Follows(w0, w) && CopiesSound(w.s.h, page)
  }

  lemma RunIsGoodNext(w0: World, w: World, env: Envelope, others: Others, net: nat -> Outage, k: nat,
      page: seq<PageRow>, i: nat)
    requires Rely(others) && RunIsGood(w0, w, page) && Started(w0.s.h, env) && i < |page|
    ensures RunIsGood(w0, RotateRowResult(w, env, others, net, k, page[i]).w, page)
  {
    assert CopySound(w.s.h, page[i].target, page[i].sealed);
    RotateRowKeeps(w, env, others, net, k, page[i]);
    var w' := RotateRowResult(w, env, others, net, k, page[i]).w;
    FollowsTransitive(w0, w, w');
    CopiesSoundLater(w.s.h, w'.s.h, page);
  }

  /** Among processes that share the current wrapper: rows of the page from i on are under the
      key they were read with or moved; what still needs another key is ahead. */
  ghost predicate Clearing(w: World, k: string, page: seq<PageRow>, ids: seq<string>, i: nat)
  {
    && |page| == |ids| && (forall j :: 0 <= j < |page| ==>
      page[j].target.ObjectTarget? && page[j].target.ref.id == ids[j])
    && ProcsUnder(w.procs, k) && KeyUnder(w.s.t, k)
    && (forall j :: i <= j < |page| ==> CopyCurrent(w.s.t, page[j], k))
  }

  ghost predicate AllAhead(t: Tables, k: string, ids: seq<string>, i: nat)
  {
    forall x :: x in Stragglers(t, k) ==> StillAhead(ids, i, x)
  }

  lemma ClearingNext(w: World, env: Envelope, others: Others, net: nat -> Outage, n: nat, page: seq<PageRow>,
      ids: seq<string>, i: nat)
    requires Rely(others) && Inv(w) && EnvelopeValid(env) && RelyUnder(others, env.current.id)
    requires Clearing(w, env.current.id, page, ids, i) && i < |page|
    ensures var r := RotateRowResult(w, env, others, net, n, page[i]);
      && Clearing(r.w, env.current.id, page, ids, i + 1)
      && (!r.outcome.Failed? && AllAhead(w.s.t, env.current.id, ids, i)
          ==> AllAhead(r.w.s.t, env.current.id, ids, i + 1))
  {
    var r := RotateRowResult(w, env, others, net, n, page[i]);
    RotateRowMoves(w, env, others, net, n, page[i]);
    forall j | i + 1 <= j < |page| ensures CopyCurrent(r.w.s.t, page[j], env.current.id) {
      CopyCurrentLater(w, r.w, page[j], env.current.id);
    }
    if !r.outcome.Failed? && AllAhead(w.s.t, env.current.id, ids, i) {
      AheadNext(w, r.w, env.current.id, ids, i);
    }
  }

  lemma AheadNext(w: World, w': World, k: string, ids: seq<string>, i: nat)
    requires UnderAndShrinking(w, w', k) && i < |ids| && AllAhead(w.s.t, k, ids, i)
    requires ids[i] !in Stragglers(w'.s.t, k)
    ensures AllAhead(w'.s.t, k, ids, i + 1)
  {
  }

  /** Alone: the rows up to last are rotated; the page holds original rows. */
  ghost predicate Quiet(env: Envelope, engines: Engines, t0: Tables, w: World, last: string, page: seq<PageRow>,
      ids: seq<string>, i: nat)
  {
    w.engines == engines && RotatedUpTo(env, engines, t0, w.s.t, last)
        && PagePart(t0, ToRotate(t0, env), last, page, ids, i)
  }

  ghost predicate Counted(env: Envelope, engines: Engines, t0: Tables, last: string, moved: int, skipped: int)
  {
    moved == |MovedUpTo(env, engines, t0, last)| && skipped == |SkippedUpTo(env, engines, t0, last)|
  }

  lemma QuietNext(env: Envelope, others: Others, engines: Engines, t0: Tables, w: World, last: string,
      net: nat -> Outage, k: nat,
                  page: seq<PageRow>, ids: seq<string>, i: nat)
    requires Quiet(env, engines, t0, w, last, page, ids, i) && i < |ids| && net(k) == net(k + 1) == {}
        && QuietFrom(others, 0)
    ensures var r := RotateRowResult(w, env, others, net, k, page[i]);
      && Quiet(env, engines, t0, r.w, ids[i], page, ids, i + 1)
      && (r.outcome == Written(true) <==> Moves(env, engines, t0, ids[i]))
      && (r.outcome.Failed? <==> Skips(env, engines, t0, ids[i])) && !(r.outcome.Failed? && Stops(r.outcome.error))
      && r.outcome != Written(false)
  {
    var r := RotateRowResult(w, env, others, net, k, page[i]);
    PagePartNext(t0, ToRotate(t0, env), last, page, ids, i);
    QuietRow(env, others, engines, t0, w, last, net, k, page[i], ids[i]);
    RotatedUpToNext(env, engines, t0, w.s.t, last, ids[i], r.w.s.t);
  }

  /** One row with nobody else around. */
  lemma QuietRow(env: Envelope, others: Others, engines: Engines, t0: Tables, w: World, last: string,
      net: nat -> Outage, k: nat, row: PageRow, id: string)
    requires w.engines == engines && RotatedUpTo(env, engines, t0, w.s.t, last) && net(k) == net(k + 1) == {}
        && QuietFrom(others, 0)
    requires id in ToRotate(t0, env) && Less(last, id) && row == RowCopy(t0, id)
    ensures var r := RotateRowResult(w, env, others, net, k, row);
      && r.w.engines == engines
      && r.w.s.t == w.s.t.(objects := w.s.t.objects[id := RotatedRow(env, engines, t0, id)])
      && (r.outcome == Written(true) <==> Moves(env, engines, t0, id))
      && (r.outcome.Failed? <==> Skips(env, engines, t0, id)) && !(r.outcome.Failed? && Stops(r.outcome.error))
      && r.outcome != Written(false)
  {
    assert w.s.t.objects[id] == t0.objects[id];
    assert w.s.t.objects[id := t0.objects[id]] == w.s.t.objects;
  }

  lemma CountedNext(env: Envelope, engines: Engines, t0: Tables, last: string, next: string, moved: int, skipped: int)
    requires NextIn(ToRotate(t0, env), last, next) && Counted(env, engines, t0, last, moved, skipped)
    ensures Counted(env, engines, t0, next,
              moved + if Moves(env, engines, t0, next) then 1 else 0,
              skipped + if Skips(env, engines, t0, next) then 1 else 0)
  {
    CountsUpToNext(env, engines, t0, last, next);
  }

  /** Where a rotation stands: the world, our statement counter, the counts and the cursor. */
  datatype Progress = Progress(w: World, k: nat, rotated: nat, skipped: nat, last: string, err: Option<Error>)

  /** One row further: a row that does not open or names an unloaded key is counted and
      passed over, a backend that does not answer or a failing statement stops the run. */
  function AfterRow(env: Envelope, others: Others, net: nat -> Outage, a: Progress, row: PageRow): Progress
    requires row.target.ObjectTarget?
  {
    var r := RotateRowResult(a.w, env, others, net, a.k, row);
    Progress(r.w, r.k,
      a.rotated + if r.outcome == Written(true) then 1 else 0,
      a.skipped + if r.outcome.Failed? && !Stops(r.outcome.error) then 1 else 0,
      row.target.ref.id,
      if r.outcome.Failed? && Stops(r.outcome.error) then Some(r.outcome.error) else None)
  }

  function AfterRows(env: Envelope, others: Others, net: nat -> Outage, a: Progress, page: seq<PageRow>): Progress
    requires ObjectRows(page)
    decreases |page|
  {
    if page == [] then a else
      var b := AfterRow(env, others, net, a, page[0]);
      if b.err.Some? then b else AfterRows(env, others, net, b, page[1..])
  }

  lemma AfterRowsStep(env: Envelope, others: Others, net: nat -> Outage, a: Progress, page: seq<PageRow>, i: nat)
    requires ObjectRows(page) && i < |page|
    ensures var b := AfterRow(env, others, net, a, page[i]);
      AfterRows(env, others, net, a, page[i..]) == if b.err.Some? then b
          else AfterRows(env, others, net, b, page[i + 1..])
  {
  }

  /** Handling a row takes a statement or two; our own writes add and remove no rows. */
  lemma AfterRowAdvances(env: Envelope, others: Others, net: nat -> Outage, a: Progress, row: PageRow)
    requires row.target.ObjectTarget?
    ensures var b := AfterRow(env, others, net, a, row);
      && b.k > a.k && b.skipped >= a.skipped && b.last == row.target.ref.id
      && (QuietFrom(others, a.k) ==> b.w.s.t.objects.Keys == a.w.s.t.objects.Keys)
  {
    RotateRowIs(a.w, env, others, net, a.k, row);
  }

  lemma {:induction false} AfterRowsAdvances(env: Envelope, others: Others, net: nat -> Outage, a: Progress,
      page: seq<PageRow>)
    requires ObjectRows(page) && a.err.None?
    ensures var z := AfterRows(env, others, net, a, page);
      && z.k >= a.k + (if page == [] then 0 else 1) && z.skipped >= a.skipped
      && (page != [] && z.err.None? ==> z.last == page[|page| - 1].target.ref.id)
      && (QuietFrom(others, a.k) ==> z.w.s.t.objects.Keys == a.w.s.t.objects.Keys)
    decreases |page|
  {
    if page != [] {
      var b := AfterRow(env, others, net, a, page[0]);
      AfterRowAdvances(env, others, net, a, page[0]);
      if b.err.None? { AfterRowsAdvances(env, others, net, b, page[1..]); }
    }
  }

  lemma {:induction false} AfterRowsIsGood(env: Envelope, others: Others, net: nat -> Outage, w0: World, a: Progress,
      page: seq<PageRow>, i: nat)
    requires Rely(others) && ObjectRows(page) && i <= |page| && RunIsGood(w0, a.w, page) && Started(w0.s.h, env)
    ensures RunIsGood(w0, AfterRows(env, others, net, a, page[i..]).w, page)
    decreases |page| - i
  {
    if i < |page| {
      AfterRowsStep(env, others, net, a, page, i);
      RunIsGoodNext(w0, a.w, env, others, net, a.k, page, i);
      var b := AfterRow(env, others, net, a, page[i]);
      if b.err.None? { AfterRowsIsGood(env, others, net, w0, b, page, i + 1); }
    }
  }

  lemma AfterRowClears(env: Envelope, others: Others, net: nat -> Outage, w0: World, a: Progress, page: seq<PageRow>,
      ids: seq<string>, i: nat)
    requires Rely(others) && ObjectRows(page) && i < |page| && RunIsGood(w0, a.w, page) && Started(w0.s.h, env)
    requires RelyUnder(others, env.current.id) && Clearing(a.w, env.current.id, page, ids, i)
    ensures var b := AfterRow(env, others, net, a, page[i]);
      && RunIsGood(w0, b.w, page) && Clearing(b.w, env.current.id, page, ids, i + 1) && b.skipped >= a.skipped
      && (b.err.None? && b.skipped == a.skipped && AllAhead(a.w.s.t, env.current.id, ids, i)
          ==> AllAhead(b.w.s.t, env.current.id, ids, i + 1))
  {
    RunIsGoodNext(w0, a.w, env, others, net, a.k, page, i);
    ClearingNext(a.w, env, others, net, a.k, page, ids, i);
  }

  lemma {:induction false} AfterRowsClears(env: Envelope, others: Others, net: nat -> Outage, w0: World, a: Progress,
      page: seq<PageRow>, ids: seq<string>, i: nat)
    requires Rely(others) && ObjectRows(page) && i <= |page| && RunIsGood(w0, a.w, page) && Started(w0.s.h, env)
    requires RelyUnder(others, env.current.id) && Clearing(a.w, env.current.id, page, ids, i)
    ensures var z := AfterRows(env, others, net, a, page[i..]);
      && ProcsUnder(z.w.procs, env.current.id) && KeyUnder(z.w.s.t, env.current.id) && z.skipped >= a.skipped
      && (z.err.None? && z.skipped == a.skipped && AllAhead(a.w.s.t, env.current.id, ids, i)
          ==> AllAhead(z.w.s.t, env.current.id, ids, |ids|))
    decreases |page| - i
  {
    if i < |page| {
      AfterRowsStep(env, others, net, a, page, i);
      AfterRowClears(env, others, net, w0, a, page, ids, i);
      var b := AfterRow(env, others, net, a, page[i]);
      if b.err.None? { AfterRowsClears(env, others, net, w0, b, page, ids, i + 1); }
    }
  }

  lemma {:induction false} AfterRowsAlone(env: Envelope, others: Others, engines: Engines, t0: Tables,
      net: nat -> Outage, a: Progress, page: seq<PageRow>, ids: seq<string>, i: nat, base: int)
    requires ObjectRows(page) && (forall n :: net(n) == {}) && QuietFrom(others, 0) && a.err.None?
    requires Quiet(env, engines, t0, a.w, a.last, page, ids, i)
    requires Counted(env, engines, t0, a.last, a.rotated - base, a.skipped)
    ensures var z := AfterRows(env, others, net, a, page[i..]);
      z.err.None? && Quiet(env, engines, t0, z.w, z.last, page, ids, |ids|)
          && Counted(env, engines, t0, z.last, z.rotated - base, z.skipped)
    decreases |page| - i
  {
    if i < |page| {
      AfterRowsStep(env, others, net, a, page, i);
      QuietNext(env, others, engines, t0, a.w, a.last, net, a.k, page, ids, i);
      PagePartNext(t0, ToRotate(t0, env), a.last, page, ids, i);
      CountedNext(env, engines, t0, a.last, ids[i], a.rotated - base, a.skipped);
      AfterRowsAlone(env, others, engines, t0, net, AfterRow(env, others, net, a, page[i]), page, ids, i + 1, base);
    }
  }

  // ---- rows whose wrappers are held ----

  predicate AllLoaded(env: Envelope, page: seq<PageRow>) { forall i :: 0 <= i < |page| ==> Loaded(env, page[i].sealed) }

  lemma SoundCopyHasKey(s: State, row: PageRow)
    requires StateInv(s) && CopySound(s.h, row.target, row.sealed)
    ensures |row.sealed.wrapped.value.dek| == KEY_SIZE
  {
    match row.target {
      case KeyTarget => assert KeySound(s.h, s.t.keys.value);
      case ObjectTarget(r) => assert RowSound(s.h, r.id, s.t.objects[r.id]);
    }
  }

  /** A sound copy under a wrapper that is held is re-wrapped or left, unless something does not answer. */
  lemma LoadedRowGoes(w: World, env: Envelope, others: Others, net: nat -> Outage, k: nat, row: PageRow)
    requires Inv(w) && EnvelopeValid(env) && CopySound(w.s.h, row.target, row.sealed) && Loaded(env, row.sealed)
    ensures var r := RotateRowResult(w, env, others, net, k, row);
      && (r.outcome.Failed? ==> r.outcome.error == ErrBackend || r.outcome.error == ErrStatement)
      && (net(k) == net(k + 1) == {} ==> !r.outcome.Failed?)
  {
    var engines := others(w, k).engines;
    SoundCopyHasKey(w.s, row);
    RotateRowIs(w, env, others, net, k, row);
    if row.sealed.keyId == env.current.id {
      RewrapInPlaceExactlyWhen(env, engines, net(k), row.sealed, AadOf(row.target));
    } else {
      RewrapMovesExactlyWhen(env, engines, net(k), row.sealed, AadOf(row.target));
    }
  }

  lemma RowHoldsCurrents(w: World, env: Envelope, others: Others, net: nat -> Outage, k: nat, row: PageRow)
    requires Rely(others) && RelyHeld(others, env) && Inv(w) && HoldsCurrents(env, w)
    ensures HoldsCurrents(env, RotateRowResult(w, env, others, net, k, row).w)
  {
    RotateRowIs(w, env, others, net, k, row);
    RelyTwice(w, others, k);
  }

  lemma AfterRowLoaded(env: Envelope, others: Others, net: nat -> Outage, a: Progress, row: PageRow)
    requires Inv(a.w) && EnvelopeValid(env) && CopySound(a.w.s.h, row.target, row.sealed) && Loaded(env, row.sealed)
    requires row.target.ObjectTarget?
    ensures var b := AfterRow(env, others, net, a, row);
      b.skipped == a.skipped && ((forall n :: net(n) == {}) ==> b.err.None?)
  {
    LoadedRowGoes(a.w, env, others, net, a.k, row);
  }

  lemma {:induction false} AfterRowsLoaded(env: Envelope, others: Others, net: nat -> Outage, w0: World, a: Progress,
      page: seq<PageRow>, i: nat)
    requires Rely(others) && RelyHeld(others, env) && ObjectRows(page) && i <= |page| && a.err.None?
    requires RunIsGood(w0, a.w, page) && Started(w0.s.h, env) && AllLoaded(env, page) && HoldsCurrents(env, a.w)
    ensures var z := AfterRows(env, others, net, a, page[i..]);
      && HoldsCurrents(env, z.w) && z.skipped == a.skipped && ((forall n :: net(n) == {}) ==> z.err.None?)
    decreases |page| - i
  {
    if i < |page| {
      AfterRowsStep(env, others, net, a, page, i);
      AfterRowLoaded(env, others, net, a, page[i]);
      RowHoldsCurrents(a.w, env, others, net, a.k, page[i]);
      RunIsGoodNext(w0, a.w, env, others, net, a.k, page, i);
      var b := AfterRow(env, others, net, a, page[i]);
      if b.err.None? { AfterRowsLoaded(env, others, net, w0, b, page, i + 1); }
    } else {
      assert page[i..] == [];
    }
  }

  // ---- from page to page ----

  ghost predicate AheadOf(t: Tables, k: string, last: string)
  {
    forall x :: x in Stragglers(t, k) ==> Less(last, x)
  }

  /** A fresh page, among processes that share the current wrapper. */
  lemma SharedPage(w: World, env: Envelope, last: string, page: seq<PageRow>, ids: seq<string>)
    requires ProcsUnder(w.procs, env.current.id) && KeyUnder(w.s.t, env.current.id)
    requires PageOf(page, ids, w.s.t, ToRotate(w.s.t, env), last)
    ensures ObjectRows(page) && Clearing(w, env.current.id, page, ids, 0)
    ensures AheadOf(w.s.t, env.current.id, last) ==> AllAhead(w.s.t, env.current.id, ids, 0)
    ensures AheadOf(w.s.t, env.current.id, last) && page == [] ==> Stragglers(w.s.t, env.current.id) == {}
  {
  }

  lemma AheadOfPage(t: Tables, k: string, ids: seq<string>)
    requires ids != [] && AllAhead(t, k, ids, |ids|)
    ensures AheadOf(t, k, ids[|ids| - 1])
  {
  }

  /** A fresh page, with nobody else around. */
  lemma AlonePage(env: Envelope, engines: Engines, t0: Tables, w: World, last: string, page: seq<PageRow>,
      ids: seq<string>)
    requires w.engines == engines && RotatedUpTo(env, engines, t0, w.s.t, last)
    requires PageOf(page, ids, w.s.t, ToRotate(w.s.t, env), last)
    ensures ObjectRows(page) && Quiet(env, engines, t0, w, last, page, ids, 0)
    ensures page == [] ==> forall x :: x in ToRotate(w.s.t, env) ==> !Less(last, x)
  {
  }

  lemma NothingRotatedYet(env: Envelope, engines: Engines, t0: Tables, t: Tables)
    requires "" !in t0.objects && t.objects == t0.objects && t.index == t0.index && t.audit == t0.audit
    requires t.keys == RotatedKey(env, engines, t0.keys)
    ensures RotatedUpTo(env, engines, t0, t, "") && Counted(env, engines, t0, "", 0, 0)
  {
  }

  /** The rows of a page, in an order where nothing is missed: what one SELECT answers. */
  ghost predicate PageToRotate(env: Envelope, b: Progress, page: seq<PageRow>, ids: seq<string>)
  {
    && PageOf(page, ids, b.w.s.t, ToRotate(b.w.s.t, env), b.last) && b.err.None?
    && page == ReadPage(b.w.s.t, ToRotate(b.w.s.t, env), b.last)
  }

  lemma PageIsObjectRows(env: Envelope, b: Progress, page: seq<PageRow>, ids: seq<string>)
    requires PageToRotate(env, b, page, ids)
    ensures ObjectRows(page) && forall j :: 0 <= j < |page| ==> page[j].target.ref.id == ids[j]
  {
  }

  /** A page uses up statements and, once the others are done, moves the cursor up. */
  lemma PageAdvances(env: Envelope, others: Others, net: nat -> Outage, b: Progress, page: seq<PageRow>,
      ids: seq<string>)
    requires PageToRotate(env, b, page, ids) && page != []
    ensures ObjectRows(page)
    ensures var z := AfterRows(env, others, net, b, page);
      && z.k > b.k && z.skipped >= b.skipped && (z.err.None? ==> z.last == ids[|ids| - 1])
      && (QuietFrom(others, b.k) && z.err.None?
          ==> |After(z.w.s.t.objects.Keys, z.last)| < |After(b.w.s.t.objects.Keys, b.last)|)
  {
    PageIsObjectRows(env, b, page, ids);
    AfterRowsAdvances(env, others, net, b, page);
    FewerAhead(b.w.s.t.objects.Keys, b.last, ids[|ids| - 1]);
  }

  lemma PageIsSound(env: Envelope, b: Progress, page: seq<PageRow>, ids: seq<string>)
    requires PageToRotate(env, b, page, ids) && Sound(b.w.s.h, b.w.s.t)
    ensures CopiesSound(b.w.s.h, page)
  {
  }

  lemma PageIsGood(env: Envelope, others: Others, net: nat -> Outage, w0: World, b: Progress, page: seq<PageRow>,
      ids: seq<string>)
    requires PageToRotate(env, b, page, ids) && Rely(others)
    requires Inv(b.w) && Follows(w0, b.w) && Started(w0.s.h, env)
    ensures ObjectRows(page) && RunIsGood(w0, AfterRows(env, others, net, b, page).w, page)
  {
    PageIsObjectRows(env, b, page, ids);
    PageIsSound(env, b, page, ids);
    assert page[0..] == page;
    AfterRowsIsGood(env, others, net, w0, b, page, 0);
  }

  lemma PageIsLoaded(env: Envelope, b: Progress, page: seq<PageRow>, ids: seq<string>)
    requires PageToRotate(env, b, page, ids) && Sound(b.w.s.h, b.w.s.t) && HoldsCurrents(env, b.w)
    ensures AllLoaded(env, page)
  {
    forall i | 0 <= i < |page| ensures Loaded(env, page[i].sealed) {
      assert RowSound(b.w.s.h, ids[i], b.w.s.t.objects[ids[i]]);
    }
  }

  lemma PageGoesLoaded(env: Envelope, others: Others, net: nat -> Outage, w0: World, b: Progress, page: seq<PageRow>,
      ids: seq<string>)
    requires PageToRotate(env, b, page, ids) && Rely(others) && RelyHeld(others, env)
    requires Inv(b.w) && Follows(w0, b.w) && Started(w0.s.h, env) && HoldsCurrents(env, b.w)
    ensures ObjectRows(page)
    ensures var z := AfterRows(env, others, net, b, page);
      HoldsCurrents(env, z.w) && z.skipped == b.skipped && ((forall n :: net(n) == {}) ==> z.err.None?)
  {
    PageIsObjectRows(env, b, page, ids);
    PageIsSound(env, b, page, ids);
    PageIsLoaded(env, b, page, ids);
    assert page[0..] == page;
    AfterRowsLoaded(env, others, net, w0, b, page, 0);
  }

  /** While everybody shares the current wrapper and nothing was skipped, what still needs
      another one is past the cursor. */
  ghost predicate SharedProgress(env: Envelope, a: Progress)
  {
    && ProcsUnder(a.w.procs, env.current.id) && KeyUnder(a.w.s.t, env.current.id)
    && (a.skipped == 0 ==> AheadOf(a.w.s.t, env.current.id, a.last))
  }

  lemma SharedInterference(env: Envelope, a: Progress, w1: World)
    requires SharedProgress(env, a) && UnderAndShrinking(a.w, w1, env.current.id)
    ensures SharedProgress(env, a.(w := w1))
  {
  }

  lemma LastPageClears(env: Envelope, b: Progress, page: seq<PageRow>, ids: seq<string>)
    requires PageToRotate(env, b, page, ids) && page == [] && SharedProgress(env, b) && b.skipped == 0
    ensures AllUnder(b.w.s.t, env.current.id)
  {
  }

  lemma PageClears(env: Envelope, others: Others, net: nat -> Outage, w0: World, b: Progress, page: seq<PageRow>,
      ids: seq<string>)
    requires PageToRotate(env, b, page, ids) && page != [] && Rely(others) && RelyUnder(others, env.current.id)
    requires Inv(b.w) && Follows(w0, b.w) && Started(w0.s.h, env) && SharedProgress(env, b)
    ensures ObjectRows(page)
    ensures var z := AfterRows(env, others, net, b, page); z.err.None? ==> SharedProgress(env, z)
  {
    PageIsObjectRows(env, b, page, ids);
    PageIsSound(env, b, page, ids);
    SharedPage(b.w, env, b.last, page, ids);
    PageAdvances(env, others, net, b, page, ids);
    assert page[0..] == page;
    AfterRowsClears(env, others, net, w0, b, page, ids, 0);
    var z := AfterRows(env, others, net, b, page);
    if z.err.None? && z.skipped == 0 { AheadOfPage(z.w.s.t, env.current.id, ids); }
  }

  /** Alone, the rows up to the cursor are rotated and counted. */
  ghost predicate AloneProgress(env: Envelope, engines: Engines, t0: Tables, a: Progress, base: int)
  {
    && a.err.None? && a.w.engines == engines && RotatedUpTo(env, engines, t0, a.w.s.t, a.last)
    && Counted(env, engines, t0, a.last, a.rotated - base, a.skipped)
  }

  lemma LastPageAlone(env: Envelope, engines: Engines, t0: Tables, b: Progress, page: seq<PageRow>, ids: seq<string>,
      base: int)
    requires PageToRotate(env, b, page, ids) && page == [] && AloneProgress(env, engines, t0, b, base)
    ensures b.w.engines == engines && RotatedAll(env, engines, t0, b.w.s.t)
        && b.rotated == base + |AllMoved(env, engines, t0)| && b.skipped == |AllSkipped(env, engines, t0)|
  {
    AlonePage(env, engines, t0, b.w, b.last, page, ids);
    RotatedUpToEnd(env, engines, t0, b.w.s.t, b.last);
  }

  lemma PageAlone(env: Envelope, others: Others, engines: Engines, t0: Tables, net: nat -> Outage, b: Progress,
      page: seq<PageRow>, ids: seq<string>, base: int)
    requires PageToRotate(env, b, page, ids) && QuietFrom(others, 0) && (forall n :: net(n) == {})
        && AloneProgress(env, engines, t0, b, base)
    ensures ObjectRows(page) && AloneProgress(env, engines, t0, AfterRows(env, others, net, b, page), base)
  {
    AlonePage(env, engines, t0, b.w, b.last, page, ids);
    assert page[0..] == page;
    AfterRowsAlone(env, others, engines, t0, net, b, page, ids, 0, base);
  }
}
