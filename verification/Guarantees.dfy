/** What the vault promises, over every run of every interleaving of its processes. */
module Guarantees {
  import opened Strings
  import opened Identity
  import opened Envelope
  import opened Tables
  import opened Vault

  ghost predicate Reachable(w: World)
  {
    exists actions :: w == Run(START, actions)
  }

  lemma ReachableIsGood(w: World)
    requires Reachable(w)
    ensures Inv(w)
  {
    var actions :| w == Run(START, actions);
    RunKeeps(START, actions);
  }

  // ---- live rows open ----

  function RowAad(t: Tables, id: string): Bytes
    requires id in t.objects
  {
    Aad(t.objects[id].collection, id)
  }

  /** A live row opens to what the object was created with, for every reader that holds
      the wrapper the row names. */
  lemma LiveRowOpens(s: State, id: string, reader: Envelope, outage: Outage)
    requires Sound(s.h, s.t) && Live(s.t, id) && EnvelopeValid(reader)
    ensures id in s.h.born
    ensures var row := s.t.objects[id];
      Open(reader, outage, row.sealed, RowAad(s.t, id)) ==
        if row.sealed.keyId !in reader.all then Err(ErrUnknownKey)
        else if Down(reader.all[row.sealed.keyId], outage) then Err(ErrBackend)
        else Ok(s.h.born[id].plaintext)
  {
  }

  lemma {:induction false} InsertAllRecords(s: State, keyId: string, key: Bytes, actor: string, collection: string,
      items: seq<NewItem>, i: nat)
    requires i < |items| && AllFresh(s, items)
    ensures var h := InsertAll(s, keyId, key, actor, collection, items).h;
      items[i].id in h.born && h.born[items[i].id] == Birth(collection, items[i].plaintext, items[i].dek,
          NullIf(items[i].subject))
  {
    var before := items[..|items| - 1];
    if i < |before| {
      assert before[i] == items[i] && AllFresh(s, before);
      InsertAllRecords(s, keyId, key, actor, collection, before, i);
      assert items[i].id != items[|items| - 1].id;
    }
  }

  /** Whatever happens after an object was stored, it is either shredded or opens to the
      plaintext it was stored with, also through stale pages, several rotators with
      different current keys, and rows moved away and back. */
  lemma StoredObjectOpensOrIsShredded(w: World, p: nat, actor: string, collection: string, items: seq<NewItem>, i: nat,
                                      later: seq<Action>, reader: Envelope)
    requires Inv(w) && MayPut(w, p, items) && i < |items| && EnvelopeValid(reader)
    ensures var t := Run(Apply(w, Put(p, actor, collection, items)), later).s.t;
      var id := items[i].id;
      && id in t.objects && t.objects[id].collection == collection
      && (t.objects[id].deleted ||
          (t.objects[id].sealed.keyId in reader.all ==>
            Open(reader, {}, t.objects[id].sealed, Aad(collection, id)) == Ok(items[i].plaintext)))
  {
    var w1 := Apply(w, Put(p, actor, collection, items));
    PutIsRecorded(w, p, actor, collection, items, i);
    ApplyKeeps(w, Put(p, actor, collection, items));
    RunKeeps(w1, later);
    BornStaysOpen(w1, Run(w1, later), items[i].id, reader);
  }

  lemma PutIsRecorded(w: World, p: nat, actor: string, collection: string, items: seq<NewItem>, i: nat)
    requires MayPut(w, p, items) && i < |items|
    ensures var s := Apply(w, Put(p, actor, collection, items)).s; var n := items[i];
      n.id in s.h.born && s.h.born[n.id] == Birth(collection, n.plaintext, n.dek, NullIf(n.subject))
  {
    InsertAllRecords(w.s, w.procs[p].env.current.id, w.procs[p].index.value, actor, collection, items, i);
  }

  /** The row is shredded, or opens to what was put for whoever holds its wrapper. */
  predicate RowOpensAs(row: Row, id: string, b: Birth, reader: Envelope)
  {
    && row.collection == b.collection
    && (row.deleted || (row.sealed.keyId in reader.all
        ==> Open(reader, {}, row.sealed, Aad(b.collection, id)) == Ok(b.plaintext)))
  }

  lemma RowOpensAsBorn(s: State, id: string, b: Birth, reader: Envelope)
    requires Sound(s.h, s.t) && id in s.t.objects && id in s.h.born && s.h.born[id] == b && EnvelopeValid(reader)
    ensures RowOpensAs(s.t.objects[id], id, b, reader)
  {
    assert RowSound(s.h, id, s.t.objects[id]);
    if !s.t.objects[id].deleted { LiveRowOpens(s, id, reader, {}); }
  }

  lemma BornStaysOpen(w1: World, w2: World, id: string, reader: Envelope)
    requires Inv(w2) && Follows(w1, w2) && id in w1.s.h.born && EnvelopeValid(reader)
    ensures id in w2.s.t.objects && RowOpensAs(w2.s.t.objects[id], id, w1.s.h.born[id], reader)
  {
    assert id in w2.s.h.born && w2.s.h.born[id] == w1.s.h.born[id];
    assert HistoryMatches(w2.s);
    RowOpensAsBorn(w2.s, id, w1.s.h.born[id], reader);
  }

  /** Nothing sealed for one row opens as another, nor does any mixture of two rows: the wrapped
      key of a and the ciphertext of b open, for whoever holds whatever wrappers, only when
      both are one row and it is asked for as itself. */
  lemma NoMixtureOpens(s: State, a: string, b: string, keyId: string, reader: Envelope, outage: Outage,
      collection: string, id: string)
    requires Sound(s.h, s.t) && DistinctKeys(s.h) && Live(s.t, a) && b in s.t.objects && EnvelopeValid(reader)
    requires NUL !in s.t.objects[b].collection && NUL !in b
    requires Open(reader, outage, Sealed(keyId, s.t.objects[a].sealed.wrapped, s.t.objects[b].sealed.ciphertext),
        Aad(collection, id)).Ok?
    ensures a == b == id && collection == s.t.objects[a].collection
  {
    assert RowSound(s.h, a, s.t.objects[a]) && RowSound(s.h, b, s.t.objects[b]);
    MixtureHasOneKey(reader, outage, keyId, s.t.objects[a].sealed.wrapped, s.t.objects[b].sealed.ciphertext,
        Aad(collection, id));
    AadIsUniqueExactlyWithoutNul(s.t.objects[b].collection, b);
  }

  /** The row of a target, deleted or not: an object or the index key. */
  function PartOf(t: Tables, target: Target): Option<Sealed>
  {
    match target
    case KeyTarget => t.keys
    case ObjectTarget(r) => if LiveOrShredded(t, r) then Some(t.objects[r.id].sealed) else None
  }

  predicate LiveOrShredded(t: Tables, r: Ref) { r.id in t.objects && t.objects[r.id].collection == r.collection }

  /** The same with the index key among the rows: whoever copies a wrapped key or a ciphertext from one
      of them to another, or all of one over another, gets nothing that opens. Only a whole row opens, asked
      for as itself. */
  lemma NoMixtureWithKeyOpens(s: State, x: Target, y: Target, z: Target, keyId: string, reader: Envelope,
      outage: Outage)
    requires Sound(s.h, s.t) && DistinctKeys(s.h) && EnvelopeValid(reader)
    requires PartOf(s.t, x).Some? && PartOf(s.t, y).Some?
    requires y.ObjectTarget? ==> NUL !in y.ref.collection && NUL !in y.ref.id
    requires Open(reader, outage, Sealed(keyId, PartOf(s.t, x).value.wrapped, PartOf(s.t, y).value.ciphertext),
        AadOf(z)).Ok?
    ensures x == y == z
  {
    var wrapped, cipher := PartOf(s.t, x).value.wrapped, PartOf(s.t, y).value.ciphertext;
    MixtureHasOneKey(reader, outage, keyId, wrapped, cipher, AadOf(z));
    PartIsSound(s, x);
    PartIsSound(s, y);
    AadOfTargets(y, z);
  }

  /** What a part was made with. */
  function MadeWith(h: History, target: Target): Option<Bytes>
  {
    match target
    case KeyTarget => if h.secret.Some? then Some(h.secret.value.dek) else None
    case ObjectTarget(r) => if r.id in h.born then Some(h.born[r.id].dek) else None
  }

  lemma PartIsSound(s: State, x: Target)
    requires Sound(s.h, s.t) && PartOf(s.t, x).Some?
    ensures var part := PartOf(s.t, x).value;
      && MadeWith(s.h, x).Some? && part.ciphertext.Cipher? && part.ciphertext.dek == MadeWith(s.h, x).value
      && part.ciphertext.aad == AadOf(x)
      && (part.wrapped.Some? ==> part.wrapped.value.Box? && part.wrapped.value.dek == MadeWith(s.h, x).value)
  {
    if x.ObjectTarget? { assert RowSound(s.h, x.ref.id, s.t.objects[x.ref.id]); }
  }

  lemma AadOfTargets(y: Target, z: Target)
    requires y.ObjectTarget? ==> NUL !in y.ref.collection && NUL !in y.ref.id
    requires AadOf(y) == AadOf(z)
    ensures y == z
  {
    assert forall t: Target :: AadOf(t)[0] == if t.KeyTarget? then 'k' else 'o';
    if y.ObjectTarget? { AadIsUniqueExactlyWithoutNul(y.ref.collection, y.ref.id); }
  }

  lemma MixtureHasOneKey(reader: Envelope, outage: Outage, keyId: string, wrapped: Option<Wrapped>, c: Ciphertext,
      aad: Bytes)
    requires Open(reader, outage, Sealed(keyId, wrapped, c), aad).Ok?
    ensures wrapped.Some? && wrapped.value.Box? && c.Cipher? && wrapped.value.dek == c.dek && c.aad == aad
  {
  }

  // ---- a shred is permanent ----

  /** Once shredded, a row is never touched again and opens for nobody, with no wrapper
      and as no row, even while rotators hold re-wraps computed before the delete. */
  lemma ShredIsPermanent(w: World, id: string, later: seq<Action>, reader: Envelope, outage: Outage, aad: Bytes)
    requires Inv(w) && id in w.s.t.objects && w.s.t.objects[id].deleted
    ensures var t := Run(w, later).s.t;
      id in t.objects && t.objects[id] == w.s.t.objects[id] && t.objects[id].sealed.wrapped.None?
      && Open(reader, outage, t.objects[id].sealed, aad).Err?
  {
    RunKeeps(w, later);
    DeletedRowStays(w, Run(w, later), id);
    NoKeyOpensNothing(reader, outage, w.s.t.objects[id].sealed, aad);
  }

  lemma DeletedRowStays(w: World, w': World, id: string)
    requires Sound(w.s.h, w.s.t) && Kept(w.s.t, w'.s.t) && id in w.s.t.objects && w.s.t.objects[id].deleted
    ensures id in w'.s.t.objects && w'.s.t.objects[id] == w.s.t.objects[id] && w.s.t.objects[id].sealed.wrapped.None?
  {
  }

  lemma NoKeyOpensNothing(reader: Envelope, outage: Outage, s: Sealed, aad: Bytes)
    requires s.wrapped.None?
    ensures Open(reader, outage, s, aad).Err?
  {
  }

  /** Being shredded, having no wrapped key and having a delete entry are the same thing. */
  lemma ShreddedThreeWays(w: World, id: string)
    requires Reachable(w) && id in w.s.t.objects
    ensures w.s.t.objects[id].deleted <==> w.s.t.objects[id].sealed.wrapped.None?
    ensures w.s.t.objects[id].deleted <==> Count(w.s.t.audit, Delete, id) == 1
    ensures !w.s.t.objects[id].deleted <==> Count(w.s.t.audit, Delete, id) == 0
  {
    ReachableIsGood(w);
    assert RowSound(w.s.h, id, w.s.t.objects[id]);
    assert AuditedExactly(w.s, id);
  }

  // ---- the audit log ----

  /** The log only grows, holds one create entry per row and one delete entry per shredded
      row, no reindex after a delete, and everything emitted is in it. */
  lemma AuditLogIsExact(w: World, later: seq<Action>)
    requires Reachable(w)
    ensures var w' := Run(w, later);
      && w.s.t.audit <= w'.s.t.audit
      && AuditExact(w'.s)
      && multiset(w'.emitted) <= multiset(w'.s.t.audit)
  {
    ReachableIsGood(w);
    RunKeeps(w, later);
  }

  // ---- search ----

  /** The lookup of a search: the index alone is asked, and nothing tests for deletion. */
  function SearchHits(t: Tables, key: Bytes, collection: string, field: string, value: string): set<string>
  {
    set r | r in t.index && r.collection == collection && r.field == field
        && r.hash == HashOf(key, collection, field, value) :: r.objectId
  }

  /** Search: at most 100 ids after the cursor, ascending. */
  const SEARCH_PAGE := 100

  function SearchPage(t: Tables, key: Bytes, collection: string, field: string, value: string,
      after: string): seq<string>
  {
    Page(SearchHits(t, key, collection, field, value), after, SEARCH_PAGE)
  }

  lemma HashTellsValuesApart(key: Bytes, collection: string, field: string, v1: string, v2: string)
    ensures HashOf(key, collection, field, v1) == HashOf(key, collection, field, v2) <==> v1 == v2
  {
    var prefix := collection + [NUL] + field + [NUL];
    assert HashInput(collection, field, v1) == prefix + v1 && HashInput(collection, field, v2) == prefix + v2;
    assert v1 == (prefix + v1)[|prefix|..] && v2 == (prefix + v2)[|prefix|..];
  }

  /** Search never looks at deleted_at, and still finds exactly the live objects of the
      collection whose value last committed for the field is the one asked for. */
  lemma SearchFindsExactlyTheLive(s: State, collection: string, field: string, value: string, id: string)
    requires StateInv(s) && s.h.secret.Some?
    ensures id in SearchHits(s.t, s.h.secret.value.key, collection, field, value) <==>
      && Live(s.t, id) && s.t.objects[id].collection == collection
      && field in s.h.values[id] && s.h.values[id][field] == value
  {
    var key := s.h.secret.value.key;
    if id in SearchHits(s.t, key, collection, field, value) {
      var r :| r in s.t.index && r.collection == collection && r.field == field
          && r.hash == HashOf(key, collection, field, value) && r.objectId == id;
      assert BelongsInIndex(s, r);
      HashTellsValuesApart(key, collection, field, value, s.h.values[id][field]);
    }
    if Live(s.t, id) && s.t.objects[id].collection == collection && field in s.h.values[id]
        && s.h.values[id][field] == value {
      var r := IndexRowOf(key, collection, id, field, value);
      assert BelongsInIndex(s, r);
      assert r in s.t.index;
    }
  }

  // ---- one index key ----

  /** However replicas interleave their start with each other and with rotations of the keys
      row, every index key ever loaded is the same one. */
  lemma ReplicasAgreeOnIndexKey(w: World, later: seq<Action>, p: nat, q: nat)
    requires Reachable(w) && Ready(w, p) && Ready(Run(w, later), q)
    ensures w.procs[p].index == Run(w, later).procs[q].index
  {
    ReachableIsGood(w);
    RunKeeps(w, later);
    assert ProcSound(w.s.h, w.procs[p]);
    assert ProcSound(Run(w, later).s.h, Run(w, later).procs[q]);
  }

  /** What one replica indexed, any other finds, after any number of rotations, reindexes
      that leave the field alone, and restarts. */
  lemma EveryReplicaFinds(w: World, q: nat, collection: string, field: string, value: string, id: string)
    requires Reachable(w) && Ready(w, q)
    requires Live(w.s.t, id) && w.s.t.objects[id].collection == collection
    ensures id in w.s.h.values
    ensures id in SearchHits(w.s.t, w.procs[q].index.value, collection, field, value) <==>
      field in w.s.h.values[id] && w.s.h.values[id][field] == value
  {
    ReachableIsGood(w);
    assert ProcSound(w.s.h, w.procs[q]);
    SearchFindsExactlyTheLive(w.s, collection, field, value, id);
  }

  // ---- erasure reaches backups ----

  /** Every wrapped key in a database or backup. */
  ghost predicate HoldsWrapped(t: Tables, b: Wrapped)
  {
    (exists id :: id in t.objects && t.objects[id].sealed.wrapped == Some(b))
        || (t.keys.Some? && t.keys.value.wrapped == Some(b))
  }

  /** Object o has no wrapped key under wrapper k here. */
  predicate NotUnder(t: Tables, o: string, k: string)
  {
    o in t.objects && t.objects[o].sealed.wrapped.Some? ==> t.objects[o].sealed.keyId != k
  }

  lemma {:induction false} ShredAllHistory(s: State, actor: string, refs: seq<Ref>)
    ensures ShredAll(s, actor, refs).h == s.h
  {
    if refs != [] { ShredAllHistory(s, actor, refs[..|refs| - 1]); }
  }

  lemma SnapshotsChangeOnlyBySnapshot(w: World, a: Action)
    ensures Apply(w, a).s.h.snapshots == w.s.h.snapshots + if a.Snapshot? then [w.s.t] else []
  {
    match a {
      case Put(p, actor, collection, items) =>
        if Ready(w, p) { InsertAllAdds(w.s, w.procs[p].env.current.id, w.procs[p].index.value, actor, collection,
            items); }
      case Erase(actor, refs) => ShredAllHistory(w.s, actor, refs);
      case RotateWrite(_) =>
      case ReindexWrite(_, _) =>
      case Boot(_, _, _, _) =>
      case LogReads(_) =>
      case Snapshot =>
      case _ => OtherStepWritesNothing(w, a);
    }
  }

  ghost predicate NoSnapshotHas(w: World, o: string, k: string)
  {
    forall i :: 0 <= i < |w.s.h.snapshots| ==> NotUnder(w.s.h.snapshots[i], o, k)
  }

  lemma DeletedHasNoKey(w: World, o: string, k: string)
    requires Inv(w) && o in w.s.t.objects && w.s.t.objects[o].deleted
    ensures NotUnder(w.s.t, o, k)
  {
  }

  lemma DeletedStays(w: World, w': World, o: string)
    requires Follows(w, w') && o in w.s.t.objects && w.s.t.objects[o].deleted
    ensures o in w'.s.t.objects && w'.s.t.objects[o].deleted
  {
  }

  lemma StepAddsNoSnapshotUnder(w: World, o: string, k: string, a: Action)
    requires NotUnder(w.s.t, o, k) && NoSnapshotHas(w, o, k)
    ensures NoSnapshotHas(Apply(w, a), o, k)
  {
    SnapshotsChangeOnlyBySnapshot(w, a);
  }

  lemma {:induction false} NoSnapshotUnder(w: World, o: string, k: string, later: seq<Action>)
    requires Inv(w) && o in w.s.t.objects && w.s.t.objects[o].deleted && NoSnapshotHas(w, o, k)
    ensures NoSnapshotHas(Run(w, later), o, k)
    decreases |later|
  {
    if later != [] {
      var w' := Apply(w, later[0]);
      ApplyKeeps(w, later[0]);
      DeletedHasNoKey(w, o, k);
      DeletedStays(w, w', o);
      StepAddsNoSnapshotUnder(w, o, k, later[0]);
      NoSnapshotUnder(w', o, k, later[1..]);
    }
  }

  lemma NoOldSnapshotUnder(w: World, o: string, k: string)
    requires Inv(w) && k !in w.s.h.currents
    ensures NoSnapshotHas(w, o, k)
  {
  }

  /** A key box opens a ciphertext only with the key that the ciphertext was made with. */
  lemma WrongKeyDoesNotOpen(reader: Envelope, outage: Outage, k: string, keyId: string, b: Wrapped, c: Ciphertext,
      dek: Bytes, aad: Bytes)
    requires EnvelopeValid(reader) && reader.all.Keys == {k}
    requires c.Cipher? && c.dek == dek && (b.Box? && b.keyId == k ==> b.dek != dek)
    ensures Open(reader, outage, Sealed(keyId, Some(b), c), aad).Err?
  {
  }

  lemma BoxedKeyIsOwn(h: History, t: Tables, o: string, k: string, b: Wrapped)
    requires Sound(h, t) && DistinctKeys(h) && o in h.born && NotUnder(t, o, k)
    requires HoldsWrapped(t, b) && b.Box? && b.keyId == k
    ensures b.dek != h.born[o].dek
  {
  }

  /** If an object was shredded before wrapper k first became any process's current one, then
      no backup, whenever taken, holds its key under k: nothing in any backup, tried with k,
      opens its ciphertext. */
  lemma ErasureReachesBackups(w: World, o: string, k: string, later: seq<Action>, i: nat, b: Wrapped,
                              reader: Envelope, outage: Outage, keyId: string, aad: Bytes)
    requires Inv(w) && o in w.s.t.objects && w.s.t.objects[o].deleted && k !in w.s.h.currents
    requires i < |Run(w, later).s.h.snapshots| && HoldsWrapped(Run(w, later).s.h.snapshots[i], b)
    requires EnvelopeValid(reader) && reader.all.Keys == {k}
    ensures Open(reader, outage, Sealed(keyId, Some(b), w.s.t.objects[o].sealed.ciphertext), aad).Err?
  {
    var w' := Run(w, later);
    NoOldSnapshotUnder(w, o, k);
    NoSnapshotUnder(w, o, k, later);
    RunKeeps(w, later);
    RowOfBirth(w, w', o);
    if b.Box? && b.keyId == k {
      assert NotUnder(w'.s.h.snapshots[i], o, k);
      BoxedKeyIsOwn(w'.s.h, w'.s.h.snapshots[i], o, k, b);
    }
    WrongKeyDoesNotOpen(reader, outage, k, keyId, b, w.s.t.objects[o].sealed.ciphertext, w'.s.h.born[o].dek, aad);
  }

  lemma RowOfBirth(w: World, w': World, o: string)
    requires Inv(w) && Follows(w, w') && o in w.s.t.objects
    ensures o in w'.s.h.born && w.s.t.objects[o].sealed.ciphertext.Cipher?
    ensures w.s.t.objects[o].sealed.ciphertext.dek == w'.s.h.born[o].dek
  {
  }

  // ---- after a rotation ----

  /** Every process seals and rotates to k. */
  ghost predicate ProcsUnder(procs: map<nat, Proc>, k: string)
  {
    forall p :: p in procs ==> procs[p].env.current.id == k
  }

  predicate ActionUnder(a: Action, k: string) { a.Boot? ==> a.env.current.id == k }

  predicate ActionsUnder(actions: seq<Action>, k: string)
  {
    forall i :: 0 <= i < |actions| ==> ActionUnder(actions[i], k)
  }

  /** The live rows that still need some wrapper other than k. */
  function Stragglers(t: Tables, k: string): set<string>
  {
    set id | id in t.objects && !t.objects[id].deleted && t.objects[id].sealed.keyId != k
  }

  /** No row becomes a straggler, and one that stays keeps its key id. */
  ghost predicate Shrinks(t: Tables, t': Tables, k: string)
  {
    forall id :: id in Stragglers(t', k) ==>
      id in Stragglers(t, k) && t'.objects[id].sealed.keyId == t.objects[id].sealed.keyId
  }

  predicate KeyUnder(t: Tables, k: string) { t.keys.Some? ==> t.keys.value.keyId == k }

  /** The index key moves nowhere but to k. */
  predicate KeyShrinks(t: Tables, t': Tables, k: string)
  {
    !KeyUnder(t', k) ==> t.keys.Some? && t'.keys.value.keyId == t.keys.value.keyId
  }

  /** Nothing live, and not the index key, needs any wrapper but k. */
  predicate AllUnder(t: Tables, k: string) { Stragglers(t, k) == {} && KeyUnder(t, k) }

  lemma {:induction false} InsertAllAddsNoStraggler(s: State, k: string, key: Bytes, actor: string, collection: string,
      items: seq<NewItem>)
    ensures var t := InsertAll(s, k, key, actor, collection, items).t;
      Shrinks(s.t, t, k) && t.keys == s.t.keys
  {
    if items != [] {
      InsertAllAddsNoStraggler(s, k, key, actor, collection, items[..|items| - 1]);
    }
  }

  lemma {:induction false} ShredAllAddsNoStraggler(s: State, k: string, actor: string, refs: seq<Ref>)
    ensures var t := ShredAll(s, actor, refs).t; Shrinks(s.t, t, k) && t.keys == s.t.keys
  {
    if refs != [] { ShredAllAddsNoStraggler(s, k, actor, refs[..|refs| - 1]); }
  }

  lemma WriteHeldAddsNoStraggler(t: Tables, held: Held, k: string)
    requires held.sealed.keyId == k
    ensures var t' := WriteHeld(t, held); Shrinks(t, t', k) && KeyShrinks(t, t', k)
  {
  }

  ghost predicate UnderAndShrinking(w: World, w': World, k: string)
  {
    && ProcsUnder(w'.procs, k)
    && Shrinks(w.s.t, w'.s.t, k)
    && KeyShrinks(w.s.t, w'.s.t, k)
  }

  lemma WriteStepShrinks(w: World, p: nat, k: string)
    requires Inv(w) && ProcsUnder(w.procs, k)
    ensures UnderAndShrinking(w, DoRotateWrite(w, p), k)
  {
    if Ready(w, p) && w.procs[p].job.Rotating? && w.procs[p].job.held.Some? {
      assert ProcSound(w.s.h, w.procs[p]);
      WriteHeldAddsNoStraggler(w.s.t, w.procs[p].job.held.value, k);
    }
  }

  lemma PutStepShrinks(w: World, p: nat, actor: string, collection: string, items: seq<NewItem>, k: string)
    requires ProcsUnder(w.procs, k)
    ensures UnderAndShrinking(w, DoPut(w, p, actor, collection, items), k)
  {
    if Ready(w, p) { InsertAllAddsNoStraggler(w.s, k, w.procs[p].index.value, actor, collection, items); }
  }

  lemma BootStepShrinks(w: World, p: nat, env: Envelope, secret: Secret, outage: Outage, k: string)
    requires ProcsUnder(w.procs, k) && env.current.id == k
    ensures UnderAndShrinking(w, DoBoot(w, p, env, secret, outage), k)
  {
  }

  lemma SameRowsShrink(w: World, w': World, k: string)
    requires ProcsUnder(w'.procs, k) && w'.s.t.objects == w.s.t.objects && w'.s.t.keys == w.s.t.keys
    ensures UnderAndShrinking(w, w', k)
  {
  }

  lemma ReindexStepSameRows(w: World, p: nat, actor: string)
    ensures var t := DoReindexWrite(w, p, actor).s.t; t.objects == w.s.t.objects && t.keys == w.s.t.keys
  {
  }

  lemma RotateStepSameEnvelopes(w: World, a: Action, k: string)
    requires ProcsUnder(w.procs, k) && IsRotateStep(a)
    ensures ProcsUnder(Apply(w, a).procs, k)
  {
  }

  lemma ReindexStepSameEnvelopes(w: World, a: Action, k: string)
    requires ProcsUnder(w.procs, k) && IsReindexStep(a)
    ensures ProcsUnder(Apply(w, a).procs, k)
  {
  }

  lemma OtherStepSameEnvelopes(w: World, a: Action, k: string)
    requires ProcsUnder(w.procs, k) && !a.Boot?
    ensures ProcsUnder(Apply(w, a).procs, k)
  {
    if IsRotateStep(a) {
      RotateStepSameEnvelopes(w, a, k);
    } else if IsReindexStep(a) {
      ReindexStepSameEnvelopes(w, a, k);
    }
  }

  lemma OtherStepShrinks(w: World, a: Action, k: string)
    requires ProcsUnder(w.procs, k) && !a.RotateWrite? && !a.Put? && !a.Boot?
    ensures UnderAndShrinking(w, Apply(w, a), k)
  {
    OtherStepSameEnvelopes(w, a, k);
    match a {
      case Erase(actor, refs) => ShredAllAddsNoStraggler(w.s, k, actor, refs);
      case ReindexWrite(p, actor) =>
        ReindexStepSameRows(w, p, actor);
        SameRowsShrink(w, Apply(w, a), k);
      case LogReads(_) => SameRowsShrink(w, Apply(w, a), k);
      case Snapshot => SameRowsShrink(w, Apply(w, a), k);
      case _ =>
        OtherStepWritesNothing(w, a);
        SameRowsShrink(w, Apply(w, a), k);
    }
  }

  /** When every process seals and rotates to k, no step makes a row need another wrapper. */
  lemma StepShrinksStragglers(w: World, a: Action, k: string)
    requires Inv(w) && ProcsUnder(w.procs, k) && ActionUnder(a, k)
    ensures UnderAndShrinking(w, Apply(w, a), k)
  {
    match a {
      case RotateWrite(p) => WriteStepShrinks(w, p, k);
      case Put(p, actor, collection, items) => PutStepShrinks(w, p, actor, collection, items, k);
      case Boot(p, env, secret, outage) => BootStepShrinks(w, p, env, secret, outage, k);
      case _ => OtherStepShrinks(w, a, k);
    }
  }

  lemma {:induction false} RunShrinksStragglers(w: World, actions: seq<Action>, k: string)
    requires Inv(w) && ProcsUnder(w.procs, k) && ActionsUnder(actions, k)
    ensures UnderAndShrinking(w, Run(w, actions), k)
    decreases |actions|
  {
    if actions != [] {
      assert ActionUnder(actions[0], k);
      StepShrinksStragglers(w, actions[0], k);
      ApplyKeeps(w, actions[0]);
      RunShrinksStragglers(Apply(w, actions[0]), actions[1..], k);
    }
  }

  /** With every live row under k, an envelope over k alone opens every one of them, and the
      index key: every other wrapper can be retired. */
  lemma CurrentKeyAloneOpensEverything(s: State, w: Wrapper, id: string)
    requires Sound(s.h, s.t) && AllUnder(s.t, w.id)
    ensures var e := Envelope(w, map[w.id := w]);
      && (Live(s.t, id) ==>
            id in s.h.born && Open(e, {}, s.t.objects[id].sealed, RowAad(s.t, id)) == Ok(s.h.born[id].plaintext))
      && (s.t.keys.Some? ==> s.h.secret.Some? && Open(e, {}, s.t.keys.value, INDEX_KEY_AAD) == Ok(s.h.secret.value.key))
  {
    if Live(s.t, id) {
      assert id !in Stragglers(s.t, w.id);
      LiveRowOpens(s, id, Envelope(w, map[w.id := w]), {});
    }
    if s.t.keys.Some? { assert KeySound(s.h, s.t.keys.value); }
  }

  /** Once nothing needs another wrapper, nothing ever does again: while all processes use k,
      every object that is live at any later time opens with k alone. */
  lemma RetiredKeyIsNeverNeededAgain(s: World, w: Wrapper, later: seq<Action>, id: string)
    requires Inv(s) && AllUnder(s.s.t, w.id) && ProcsUnder(s.procs, w.id) && ActionsUnder(later, w.id)
    ensures var e, s' := Envelope(w, map[w.id := w]), Run(s, later).s;
      && (Live(s'.t, id) ==>
            id in s'.h.born && Open(e, {}, s'.t.objects[id].sealed, RowAad(s'.t, id)) == Ok(s'.h.born[id].plaintext))
      && (s'.t.keys.Some? ==>
            s'.h.secret.Some? && Open(e, {}, s'.t.keys.value, INDEX_KEY_AAD) == Ok(s'.h.secret.value.key))
  {
    RunKeeps(s, later);
    RunShrinksStragglers(s, later, w.id);
    CurrentKeyAloneOpensEverything(Run(s, later).s, w, id);
  }

  /** The envelope opens every live row, and the index key, to what was sealed. */
  ghost predicate OpensEverything(s: State, e: Envelope)
  {
    && (forall id :: Live(s.t, id) ==>
          id in s.h.born && Open(e, {}, s.t.objects[id].sealed, RowAad(s.t, id)) == Ok(s.h.born[id].plaintext))
    && (s.t.keys.Some? ==>
          s.h.secret.Some? && Open(e, {}, s.t.keys.value, INDEX_KEY_AAD) == Ok(s.h.secret.value.key))
  }

  lemma RetiredForGood(s: World, w: Wrapper, later: seq<Action>)
    requires Inv(s) && AllUnder(s.s.t, w.id) && ProcsUnder(s.procs, w.id) && ActionsUnder(later, w.id)
    ensures OpensEverything(Run(s, later).s, Envelope(w, map[w.id := w]))
  {
    forall id { RetiredKeyIsNeverNeededAgain(s, w, later, id); }
  }

  /** An envelope of no previous wrappers holds the current one alone. */
  lemma OnlyCurrent(e: Envelope)
    requires EnvelopeValid(e) && forall k :: k in e.all ==> FirstWithId([e.current] + [], k) == Some(e.all[k])
    ensures e == Envelope(e.current, map[e.current.id := e.current])
  {
    assert [e.current] + [] == [e.current] && [e.current][1..] == [];
    forall k | k in e.all ensures k == e.current.id {
      assert FirstWithId([e.current], k) == Some(e.all[k]) && FirstWithId([e.current][1..], k) == None;
    }
  }
}
