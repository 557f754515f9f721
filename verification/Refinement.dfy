/** The store behaves like a plain map from ids to objects (the in-memory vault that the
    handlers are written against, internal/api/api.go). Every step of every process is one
    operation of that map, and every step of a rotation is none. */
module Refinement {
  import opened Strings
  import opened Identity
  import opened Envelope
  import opened Tables
  import opened Vault
  import opened Guarantees
  import opened Erasure
  import opened Requests

  /** A live object, in the clear: no keys, no index, no log. */
  datatype Entry = Entry(collection: string, content: Result<Bytes, Error>, values: map<string, string>,
      subject: Option<string>)

  type Plain = map<string, Entry>

  datatype Op = Keep(collection: string, items: seq<NewItem>) | Forget(refs: seq<Ref>) | Reindexed(id: string,
      values: map<string, string>) | Stutter

  function KeepOne(v: Plain, collection: string, n: NewItem): Plain
  {
    v[n.id := Entry(collection, Ok(n.plaintext), n.indexed, if n.subject == "" then None else Some(n.subject))]
  }

  function KeepAll(v: Plain, collection: string, items: seq<NewItem>): Plain
  {
    if items == [] then v else KeepOne(KeepAll(v, collection, items[..|items| - 1]), collection, items[|items| - 1])
  }

  function ForgetOne(v: Plain, r: Ref): Plain
  {
    if r.id in v && v[r.id].collection == r.collection then v - {r.id} else v
  }

  function ForgetAll(v: Plain, refs: seq<Ref>): Plain
  {
    if refs == [] then v else ForgetOne(ForgetAll(v, refs[..|refs| - 1]), refs[|refs| - 1])
  }

  function Do(v: Plain, op: Op): Plain
  {
    match op
    case Keep(collection, items) => KeepAll(v, collection, items)
    case Forget(refs) => ForgetAll(v, refs)
    case Reindexed(id, values) => if id in v then v[id := v[id].(values := values)] else v
    case Stutter => v
  }

  function DoAll(v: Plain, ops: seq<Op>): Plain
    decreases |ops|
  {
    if ops == [] then v else DoAll(Do(v, ops[0]), ops[1..])
  }

  /** What a step means to the map. */
  function Meaning(w: World, a: Action): Op
  {
    match a
    case Put(p, _, collection, items) => if MayPut(w, p, items) then Keep(collection, items) else Stutter
    case Erase(_, refs) => Forget(refs)
    case ReindexWrite(p, _) =>
      if Ready(w, p) && w.procs[p].job.Reindexing? && w.procs[p].job.rewrite.Some?
      then Reindexed(w.procs[p].job.rewrite.value.ref.id, w.procs[p].job.rewrite.value.values) else Stutter
    case _ => Stutter
  }

  function Meanings(w: World, actions: seq<Action>): seq<Op>
    decreases |actions|
  {
    if actions == [] then [] else [Meaning(w, actions[0])] + Meanings(Apply(w, actions[0]), actions[1..])
  }

  /** The map that the tables stand for: every live row, opened by a reader that holds every wrapper. */
  function Abstract(s: State, reader: Envelope): Plain
    requires s.h.values.Keys == s.t.objects.Keys
  {
    map id | id in s.t.objects && !s.t.objects[id].deleted ::
      Entry(s.t.objects[id].collection, OpenRow(s.t, reader, {}, id), s.h.values[id], s.t.objects[id].subject)
  }

  /** The same map, read off the history. */
  function Remembered(s: State): Plain
    requires s.h.values.Keys == s.t.objects.Keys == s.h.born.Keys
  {
    map id | id in s.t.objects && !s.t.objects[id].deleted ::
      Entry(s.h.born[id].collection, Ok(s.h.born[id].plaintext), s.h.values[id], s.h.born[id].subject)
  }

  predicate HoldsAll(reader: Envelope, h: History) { EnvelopeValid(reader) && h.currents <= reader.all.Keys }

  lemma AbstractIsRemembered(s: State, reader: Envelope)
    requires Sound(s.h, s.t) && HistoryMatches(s) && HoldsAll(reader, s.h)
    ensures Abstract(s, reader) == Remembered(s)
  {
    forall id | id in s.t.objects && !s.t.objects[id].deleted ensures Abstract(s, reader)[id] == Remembered(s)[id] {
      assert RowSound(s.h, id, s.t.objects[id]);
      LiveRowOpens(s, id, reader, {});
    }
  }

  lemma {:induction false} InsertAllRefines(s: State, keyId: string, key: Bytes, actor: string, collection: string,
      items: seq<NewItem>)
    requires HistoryMatches(s) && s.h.secret.Some? && forall i :: 0 <= i < |items| ==> items[i].id != ""
    ensures var s' := InsertAll(s, keyId, key, actor, collection, items);
      HistoryMatches(s') && s'.h.secret.Some? && Remembered(s') == KeepAll(Remembered(s), collection, items)
  {
    if items != [] {
      var before, last := items[..|items| - 1], items[|items| - 1];
      InsertAllRefines(s, keyId, key, actor, collection, before);
      InsertRefines(InsertAll(s, keyId, key, actor, collection, before), keyId, key, actor, collection, last);
    }
  }

  lemma InsertRefines(s: State, keyId: string, key: Bytes, actor: string, collection: string, n: NewItem)
    requires HistoryMatches(s) && s.h.secret.Some? && n.id != ""
    ensures HistoryMatches(Insert(s, keyId, key, actor, collection, n))
    ensures Remembered(Insert(s, keyId, key, actor, collection, n)) == KeepOne(Remembered(s), collection, n)
  {
  }

  lemma ShredRefines(s: State, actor: string, r: Ref)
    requires HistoryMatches(s) && (r.id in s.t.objects ==> RowSound(s.h, r.id, s.t.objects[r.id]))
    ensures HistoryMatches(Shred(s, actor, r))
    ensures Remembered(Shred(s, actor, r)) == ForgetOne(Remembered(s), r)
  {
  }

  lemma {:induction false} ShredAllRefines(s: State, actor: string, refs: seq<Ref>)
    requires StateInv(s)
    ensures var s' := ShredAll(s, actor, refs);
      HistoryMatches(s') && Remembered(s') == ForgetAll(Remembered(s), refs)
  {
    if refs != [] {
      var before := refs[..|refs| - 1];
      ShredAllKeeps(s, actor, before);
      ShredAllRefines(s, actor, before);
      ShredRefines(ShredAll(s, actor, before), actor, refs[|refs| - 1]);
    }
  }

  lemma RewriteRefines(s: State, key: Bytes, actor: string, r: Ref, values: map<string, string>)
    requires HistoryMatches(s) && HistoryMatches(RewriteIndex(s, key, actor, r, values))
    ensures Remembered(RewriteIndex(s, key, actor, r, values)) == Do(Remembered(s), Reindexed(r.id, values))
  {
  }

  /** Nothing that the map is about differs. */
  predicate SameMap(s: State, s': State)
  {
    && s'.h.born == s.h.born && s'.h.values == s.h.values && s'.t.objects.Keys == s.t.objects.Keys
    && forall id :: id in s.t.objects ==> s'.t.objects[id].deleted == s.t.objects[id].deleted
  }

  ghost predicate Refines(s: State, s': State, op: Op)
  {
    HistoryMatches(s) && HistoryMatches(s') && Remembered(s') == Do(Remembered(s), op)
  }

  lemma SameMapIsStutter(s: State, s': State)
    requires HistoryMatches(s) && HistoryMatches(s') && SameMap(s, s')
    ensures Refines(s, s', Stutter)
  {
  }

  /** Steps of a rotation write keys, and of a start the index key: the map stays the same. */
  lemma WriteIsStutter(w: World, p: nat)
    ensures SameMap(w.s, DoRotateWrite(w, p).s)
  {
  }

  lemma BootIsStutter(w: World, p: nat, env: Envelope, secret: Secret, outage: Outage)
    ensures SameMap(w.s, DoBoot(w, p, env, secret, outage).s)
  {
  }

  lemma KeyOrLogStepIsStutter(w: World, a: Action)
    requires a.RotateWrite? || a.Boot? || a.LogReads? || a.Snapshot? || !Writes(a)
    ensures SameMap(w.s, Apply(w, a).s)
  {
    match a {
      case RotateWrite(p) => WriteIsStutter(w, p);
      case Boot(p, env, secret, outage) => BootIsStutter(w, p, env, secret, outage);
      case LogReads(_) =>
      case Snapshot =>
      case _ => OtherStepWritesNothing(w, a);
    }
  }

  lemma PutStepRefines(w: World, p: nat, actor: string, collection: string, items: seq<NewItem>)
    requires HistoryMatches(w.s) && (p in w.procs ==> ProcSound(w.s.h, w.procs[p]))
    ensures Refines(w.s, DoPut(w, p, actor, collection, items).s, Meaning(w, Put(p, actor, collection, items)))
  {
    if MayPut(w, p, items) {
      assert forall i :: 0 <= i < |items| ==> FreshItem(w.s, items[i]);
      InsertAllRefines(w.s, w.procs[p].env.current.id, w.procs[p].index.value, actor, collection, items);
    }
  }

  lemma ReindexStepRefines(w: World, p: nat, actor: string)
    requires HistoryMatches(w.s) && HistoryMatches(DoReindexWrite(w, p, actor).s)
    ensures Refines(w.s, DoReindexWrite(w, p, actor).s, Meaning(w, ReindexWrite(p, actor)))
  {
    if Ready(w, p) && w.procs[p].job.Reindexing? && w.procs[p].job.rewrite.Some? {
      var r := w.procs[p].job.rewrite.value;
      RewriteRefines(w.s, w.procs[p].index.value, actor, r.ref, r.values);
    }
  }

  lemma EraseStepRefines(w: World, actor: string, refs: seq<Ref>)
    requires StateInv(w.s)
    ensures Refines(w.s, Commit(w, ShredAll(w.s, actor, refs)).s, Forget(refs))
  {
    ShredAllRefines(w.s, actor, refs);
  }

  predicate IsStutter(a: Action) { !a.Put? && !a.Erase? && !a.ReindexWrite? }

  lemma StutterRefines(w: World, a: Action)
    requires IsStutter(a) && HistoryMatches(w.s) && HistoryMatches(Apply(w, a).s)
    ensures Refines(w.s, Apply(w, a).s, Meaning(w, a))
  {
    KeyOrLogStepIsStutter(w, a);
    SameMapIsStutter(w.s, Apply(w, a).s);
    assert Meaning(w, a) == Stutter;
  }

  /** Every step is one operation of the map, or none. */
  lemma StepRefines(w: World, a: Action)
    requires StateInv(w.s) && ProcsSound(w.s.h, w.procs) && HistoryMatches(Apply(w, a).s)
    ensures Refines(w.s, Apply(w, a).s, Meaning(w, a))
  {
    match a {
      case Put(p, actor, collection, items) => PutStepRefines(w, p, actor, collection, items);
      case Erase(actor, refs) => EraseStepRefines(w, actor, refs);
      case ReindexWrite(p, actor) => ReindexStepRefines(w, p, actor);
      case _ => StutterRefines(w, a);
    }
  }

  lemma {:induction false} RunRefinesRemembered(w: World, actions: seq<Action>)
    requires Inv(w)
    ensures HistoryMatches(Run(w, actions).s) && Remembered(Run(w, actions).s) ==
        DoAll(Remembered(w.s), Meanings(w, actions))
    decreases |actions|
  {
    if actions != [] {
      var w' := Apply(w, actions[0]);
      ApplyKeeps(w, actions[0]);
      StepRefines(w, actions[0]);
      RunRefinesRemembered(w', actions[1..]);
      assert Meanings(w, actions)[0] == Meaning(w, actions[0])
          && Meanings(w, actions)[1..] == Meanings(w', actions[1..]);
    }
  }

  /** Every run refines the map: what a reader with every wrapper sees in the tables is what the
      operations of the run, in their order, make of the map. */
  lemma RunRefinesMap(w: World, actions: seq<Action>, reader: Envelope)
    requires Inv(w) && HoldsAll(reader, Run(w, actions).s.h)
    ensures w.s.h.values.Keys == w.s.t.objects.Keys && Run(w, actions).s.h.values.Keys ==
        Run(w, actions).s.t.objects.Keys
    ensures Abstract(Run(w, actions).s, reader) == DoAll(Abstract(w.s, reader), Meanings(w, actions))
  {
    RunKeeps(w, actions);
    RunRefinesRemembered(w, actions);
    AbstractIsRemembered(w.s, reader);
    AbstractIsRemembered(Run(w, actions).s, reader);
  }

  // ---- what is asked of the store is what the map answers ----

  function FindIn(v: Plain, collection: string, field: string, value: string): set<string>
  {
    set id | id in v && v[id].collection == collection && field in v[id].values && v[id].values[field] == value
  }

  function GetFrom(v: Plain, collection: string, ids: set<string>): map<string, Result<Bytes, Error>>
  {
    map id | id in ids && id in v && v[id].collection == collection :: v[id].content
  }

  function AboutSubject(v: Plain, subject: string): set<Ref>
  {
    set id | id in v && v[id].subject == Some(subject) :: Ref(v[id].collection, id)
  }

  /** Search asks an index of hashes and never the map, and agrees with it: a field that an
      object does not have is never found, whatever the value asked for. */
  lemma SearchRefines(s: State, reader: Envelope, collection: string, field: string, value: string)
    requires StateInv(s) && s.h.secret.Some?
    ensures SearchHits(s.t, s.h.secret.value.key, collection, field, value) ==
        FindIn(Abstract(s, reader), collection, field, value)
  {
    forall id ensures id in SearchHits(s.t, s.h.secret.value.key, collection, field, value)
        <==> id in FindIn(Abstract(s, reader), collection, field, value) {
      SearchFindsExactlyTheLive(s, collection, field, value, id);
    }
  }

  /** What GetMany opens is what the map holds, and every entry opens. */
  lemma GetRefines(s: State, reader: Envelope, collection: string, ids: set<string>)
    requires Sound(s.h, s.t) && HistoryMatches(s) && HoldsAll(reader, s.h)
    ensures var got := GetFrom(Abstract(s, reader), collection, ids);
      && got.Keys == Matching(s.t, collection, ids)
      && (forall id :: id in got ==> got[id].Ok? && OpenRow(s.t, reader, {}, id) == got[id])
  {
    forall id | Live(s.t, id) ensures OpenRow(s.t, reader, {}, id).Ok? {
      assert RowSound(s.h, id, s.t.objects[id]);
      LiveRowOpens(s, id, reader, {});
    }
  }

  lemma SubjectRefines(s: State, reader: Envelope, subject: string)
    requires HistoryMatches(s)
    ensures SubjectRefs(s.t, subject) == AboutSubject(Abstract(s, reader), subject)
  {
    var v := Abstract(s, reader);
    assert forall id :: id in v <==> Live(s.t, id);
    forall r ensures r in SubjectRefs(s.t, subject) <==> r in AboutSubject(v, subject) {
      assert Live(s.t, r.id) ==>
        v[r.id].collection == s.t.objects[r.id].collection && v[r.id].subject == s.t.objects[r.id].subject;
    }
  }
}
