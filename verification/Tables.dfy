/** The Postgres tables and the statements that change them (internal/store/store.go,
    internal/store/migrations). Beside the tables stands a history that no statement
    reads: what every object was created with, and what was last indexed for it. */
module Tables {
  import opened Strings
  import opened Identity
  import opened Envelope

  datatype AuditAction = Create | RevealMasked | RevealFull | Search | Delete | Reindex

  datatype AuditEntry = AuditEntry(client: string, action: AuditAction, collection: string, objectId: string,
      field: string)

  /** One row of objects. deleted stands for deleted_at IS NOT NULL. */
  datatype Row = Row(collection: string, sealed: Sealed, subject: Option<string>, deleted: bool)

  /** HMAC-SHA256, taken to be one-to-one in its key and its input. */
  datatype Hash = Hmac(key: Bytes, input: Bytes)

  datatype IndexRow = IndexRow(collection: string, field: string, hash: Hash, objectId: string)

  /** keys holds the one row named blind-index, or nothing yet. */
  datatype Tables = Tables(objects: map<string, Row>, index: set<IndexRow>, keys: Option<Sealed>,
      audit: seq<AuditEntry>)

  /** What PutMany was given for an object, and the key it was sealed under. */
  datatype Birth = Birth(collection: string, plaintext: Bytes, dek: Bytes, subject: Option<string>)

  datatype Secret = Secret(key: Bytes, dek: Bytes)

  datatype History = History(
    born: map<string, Birth>,                // by object id
    values: map<string, map<string, string>>, // the indexed values last committed for an object
    secret: Option<Secret>,                   // the blind-index key
    currents: set<string>,                    // every wrapper id that was ever some process's current one
    snapshots: seq<Tables>)                   // every backup ever taken

  datatype State = State(t: Tables, h: History)

  /** An item about to be stored: its id and key are fresh random values. */
  datatype NewItem = NewItem(id: string, dek: Bytes, version: nat, plaintext: Bytes, indexed: map<string, string>,
      subject: string)

  datatype Ref = Ref(collection: string, id: string)

  /** A row that is not there, a key that cannot be used, a statement that fails, tables of another
      version of the program. */
  datatype StoreError = NotFound | Sealing(error: Error) | StatementFailed | BadIndexKey | WrongSchema

  const EMPTY := State(Tables(map[], {}, None, []), History(map[], map[], None, {}, []))

  function HashOf(key: Bytes, collection: string, field: string, value: string): Hash
  {
    Hmac(key, HashInput(collection, field, value))
  }

  function IndexRowOf(key: Bytes, collection: string, id: string, field: string, value: string): IndexRow
  {
    IndexRow(collection, field, HashOf(key, collection, field, value), id)
  }

  /** The index rows of one object. */
  function IndexRows(key: Bytes, collection: string, id: string, values: map<string, string>): set<IndexRow>
  {
    set field | field in values :: IndexRowOf(key, collection, id, field, values[field])
  }

  function NullIf(s: string): Option<string> { if s == "" then None else Some(s) }

  function SealedItem(keyId: string, collection: string, n: NewItem): Sealed
  {
    var aad := Aad(collection, n.id);
    Sealed(keyId, Some(Box(keyId, n.version, n.dek, aad)), Cipher(n.dek, n.plaintext, aad))
  }

  /** INSERT of one item with its index rows and its audit entry. */
  function Insert(s: State, keyId: string, key: Bytes, actor: string, collection: string, n: NewItem): State
  {
    var row := Row(collection, SealedItem(keyId, collection, n), NullIf(n.subject), false);
    State(
      s.t.(objects := s.t.objects[n.id := row],
           index := s.t.index + IndexRows(key, collection, n.id, n.indexed),
           audit := s.t.audit + [AuditEntry(actor, Create, collection, n.id, "")]),
      s.h.(born := s.h.born[n.id := Birth(collection, n.plaintext, n.dek, NullIf(n.subject))],
           values := s.h.values[n.id := n.indexed]))
  }

  predicate Live(t: Tables, id: string) { id in t.objects && !t.objects[id].deleted }

  /** The guard of a shred: the object is live, and in this collection. */
  predicate LiveRef(t: Tables, r: Ref) { Live(t, r.id) && t.objects[r.id].collection == r.collection }

  function Shredded(row: Row): Row { row.(sealed := row.sealed.(wrapped := None), deleted := true) }

  /** The index after its rows of one object are dropped. */
  function WithoutIndexRows(index: set<IndexRow>, collection: string, id: string): set<IndexRow>
  {
    set r | r in index && !(r.collection == collection && r.objectId == id)
  }

  /** Destroy the wrapped key, drop the index rows, log it. Nothing happens to a row that is
      not live or not in this collection. */
  function Shred(s: State, actor: string, r: Ref): State
  {
    if !LiveRef(s.t, r) then s else
      s.(t := s.t.(
        objects := s.t.objects[r.id := Shredded(s.t.objects[r.id])],
        index := WithoutIndexRows(s.t.index, r.collection, r.id),
        audit := s.t.audit + [AuditEntry(actor, Delete, r.collection, r.id, "")]))
  }

  /** The transaction of rewriteIndex. */
  function RewriteIndex(s: State, key: Bytes, actor: string, r: Ref, values: map<string, string>): State
  {
    if !Live(s.t, r.id) then s else
      State(
        s.t.(index := WithoutIndexRows(s.t.index, r.collection, r.id) + IndexRows(key, r.collection, r.id, values),
             audit := s.t.audit + [AuditEntry(actor, Reindex, r.collection, r.id, "")]),
        s.h.(values := s.h.values[r.id := values]))
  }

  /** A row that rotation handles: the blind-index key or an object. */
  datatype Target = KeyTarget | ObjectTarget(ref: Ref)

  /** A row copy in memory, and a re-wrapped key that waits to be written over it. */
  datatype PageRow = PageRow(target: Target, sealed: Sealed)
  datatype Held = Held(target: Target, fromKeyId: string, sealed: Sealed)

  function AadOf(target: Target): Bytes
  {
    match target
    case KeyTarget => INDEX_KEY_AAD
    case ObjectTarget(r) => Aad(r.collection, r.id)
  }

  /** Whether the guarded UPDATE of a re-wrapped key matches: the row is still under the
      key it was read under, and, for an object, still live. */
  predicate GuardHolds(t: Tables, held: Held)
  {
    match held.target
    case KeyTarget => t.keys.Some? && t.keys.value.keyId == held.fromKeyId
    case ObjectTarget(r) => Live(t, r.id) && t.objects[r.id].sealed.keyId == held.fromKeyId
  }

  function WithKey(was: Sealed, re: Sealed): Sealed { was.(keyId := re.keyId, wrapped := re.wrapped) }

  /** The guarded write of a re-wrapped key; the ciphertext stays. */
  function WriteHeld(t: Tables, held: Held): Tables
  {
    if !GuardHolds(t, held) then t else
      match held.target
      case KeyTarget => t.(keys := Some(WithKey(t.keys.value, held.sealed)))
      case ObjectTarget(r) =>
        var row := t.objects[r.id];
        t.(objects := t.objects[r.id := row.(sealed := WithKey(row.sealed, held.sealed))])
  }

  /** Propose an index key: the first insert wins. */
  function ProposeKey(s: State, sealed: Sealed, secret: Secret): State
  {
    if s.t.keys.Some? then s else State(s.t.(keys := Some(sealed)), s.h.(secret := Some(secret)))
  }

  function Log(s: State, entries: seq<AuditEntry>): State { s.(t := s.t.(audit := s.t.audit + entries)) }

  // ---- what every state satisfies ----

  /** The wrapped key is a box of the wrapper the row names, made for this key and row. */
  predicate Boxes(s: Sealed, dek: Bytes, aad: Bytes)
  {
    s.wrapped.Some? && s.wrapped.value.Box? && s.wrapped.value.keyId == s.keyId && s.wrapped.value.dek == dek
        && s.wrapped.value.aad == aad
  }

  predicate RowSound(h: History, id: string, row: Row)
  {
    && id in h.born
    && var b := h.born[id];
    && |b.dek| == KEY_SIZE
    && row.collection == b.collection && row.subject == b.subject
    && row.sealed.ciphertext == Cipher(b.dek, b.plaintext, Aad(b.collection, id))
    && (row.deleted <==> row.sealed.wrapped.None?)
    && (!row.deleted ==> Boxes(row.sealed, b.dek, Aad(b.collection, id)) && row.sealed.keyId in h.currents)
  }

  predicate KeySound(h: History, s: Sealed)
  {
    && h.secret.Some?
    && var k := h.secret.value;
    && |k.dek| == KEY_SIZE && |k.key| == KEY_SIZE
    && Boxes(s, k.dek, INDEX_KEY_AAD) && s.ciphertext == Cipher(k.dek, k.key, INDEX_KEY_AAD)
    && s.keyId in h.currents
  }

  /** Every row is what its history says; holds of the tables and of every snapshot. */
  ghost predicate Sound(h: History, t: Tables)
  {
    && (forall id :: id in t.objects ==> RowSound(h, id, t.objects[id]))
    && (t.keys.Some? ==> KeySound(h, t.keys.value))
  }

  ghost predicate DistinctKeys(h: History)
  {
    && (forall a, b :: a in h.born && b in h.born && h.born[a].dek == h.born[b].dek ==> a == b)
    && (forall a :: a in h.born && h.secret.Some? ==> h.born[a].dek != h.secret.value.dek)
  }

  ghost predicate HistoryMatches(s: State)
  {
    && s.h.born.Keys == s.t.objects.Keys && s.h.values.Keys == s.t.objects.Keys
    && (s.h.secret.Some? <==> s.t.keys.Some?) && (s.h.secret.None? ==> s.t.objects == map[])
    && "" !in s.t.objects
  }

  /** The row that the blind index must hold for field of object id. */
  ghost predicate BelongsInIndex(s: State, r: IndexRow)
  {
    && s.h.secret.Some? && Live(s.t, r.objectId)
    && r.objectId in s.h.values && r.field in s.h.values[r.objectId]
    && r == IndexRowOf(s.h.secret.value.key, s.t.objects[r.objectId].collection, r.objectId, r.field,
        s.h.values[r.objectId][r.field])
  }

  /** A live object's index rows are exactly the hashed image of the values last committed
      for it, and a shredded object has none. */
  ghost predicate IndexExact(s: State)
  {
    forall r :: r in s.t.index <==> BelongsInIndex(s, r)
  }

  function Count(audit: seq<AuditEntry>, action: AuditAction, id: string): nat
  {
    if audit == [] then 0 else
      var last := audit[|audit| - 1];
      Count(audit[..|audit| - 1], action, id) + if last.action == action && last.objectId == id then 1 else 0
  }

  ghost predicate AuditedExactly(s: State, id: string)
  {
    && Count(s.t.audit, Create, id) == (if id in s.t.objects then 1 else 0)
    && Count(s.t.audit, Delete, id) == (if id in s.t.objects && s.t.objects[id].deleted then 1 else 0)
  }

  ghost predicate NoReindexAfterDelete(audit: seq<AuditEntry>)
  {
    forall i, j :: 0 <= i < j < |audit| && audit[i].action == Delete && audit[j].action == Reindex
        ==> audit[i].objectId != audit[j].objectId
  }

  /** One create entry per row, one delete entry exactly for a shredded row, and no
      reindex of an object after its delete. */
  ghost predicate AuditExact(s: State)
  {
    (forall id :: AuditedExactly(s, id)) && NoReindexAfterDelete(s.t.audit)
  }

  ghost predicate SnapshotsSound(h: History)
  {
    forall i :: 0 <= i < |h.snapshots| ==> Sound(h, h.snapshots[i])
  }

  ghost predicate StateInv(s: State)
  {
    && Sound(s.h, s.t) && DistinctKeys(s.h) && HistoryMatches(s)
    && IndexExact(s) && AuditExact(s) && SnapshotsSound(s.h)
  }

  // ---- what every step keeps ----

  /** Facts of the past stay. */
  ghost predicate Remembers(h: History, h': History)
  {
    && (forall id :: id in h.born ==> id in h'.born && h'.born[id] == h.born[id])
    && (h.secret.Some? ==> h'.secret == h.secret)
    && h.currents <= h'.currents
  }

  /** What never changes in a row: collection, subject, ciphertext, and that it is shredded. */
  predicate RowKept(row: Row, row': Row)
  {
    && row'.collection == row.collection && row'.subject == row.subject
    && row'.sealed.ciphertext == row.sealed.ciphertext
    && (row.deleted ==> row' == row)
  }

  ghost predicate Kept(t: Tables, t': Tables)
  {
    && (forall id :: id in t.objects ==> id in t'.objects && RowKept(t.objects[id], t'.objects[id]))
    && (t.keys.Some? ==> t'.keys.Some? && t'.keys.value.ciphertext == t.keys.value.ciphertext)
    && t.audit <= t'.audit
  }

  lemma KeptTransitive(a: Tables, b: Tables, c: Tables)
    requires Kept(a, b) && Kept(b, c)
    ensures Kept(a, c)
  {
  }

  lemma SoundLater(h: History, h': History, t: Tables)
    requires Sound(h, t) && Remembers(h, h')
    ensures Sound(h', t)
  {
  }

  lemma SnapshotsSoundLater(h: History, h': History)
    requires SnapshotsSound(h) && Remembers(h, h') && h'.snapshots == h.snapshots
    ensures SnapshotsSound(h')
  {
  }

  lemma CountOfSnoc(audit: seq<AuditEntry>, e: AuditEntry, action: AuditAction, id: string)
    ensures Count(audit + [e], action, id) == Count(audit, action, id) + if e.action == action
        && e.objectId == id then 1 else 0
  {
  }

  lemma {:induction false} CountZeroMeansAbsent(audit: seq<AuditEntry>, action: AuditAction, id: string)
    requires Count(audit, action, id) == 0
    ensures forall i :: 0 <= i < |audit| && audit[i].action == action ==> audit[i].objectId != id
  {
    if audit != [] { CountZeroMeansAbsent(audit[..|audit| - 1], action, id); }
  }

  predicate IsRead(e: AuditEntry) { e.action in {RevealMasked, RevealFull, Search} }

  lemma {:induction false} CountOfReads(audit: seq<AuditEntry>, entries: seq<AuditEntry>, action: AuditAction,
      id: string)
    requires action in {Create, Delete} && forall i :: 0 <= i < |entries| ==> IsRead(entries[i])
    ensures Count(audit + entries, action, id) == Count(audit, action, id)
  {
    if entries == [] {
      assert audit + entries == audit;
    } else {
      var before, last := entries[..|entries| - 1], entries[|entries| - 1];
      assert audit + entries == audit + before + [last];
      CountOfSnoc(audit + before, last, action, id);
      CountOfReads(audit, before, action, id);
    }
  }

  // ---- Insert ----

  /** Ids and keys are random: neither was seen before. */
  predicate FreshItem(s: State, n: NewItem)
  {
    && n.id != "" && n.id !in s.t.objects && |n.dek| == KEY_SIZE && FreshKey(s.h, n.dek)
  }

  predicate FreshKey(h: History, dek: Bytes)
  {
    (forall id :: id in h.born ==> h.born[id].dek != dek) && (h.secret.Some? ==> h.secret.value.dek != dek)
  }

  lemma InsertKeepsIndex(s: State, keyId: string, key: Bytes, actor: string, collection: string, n: NewItem)
    requires IndexExact(s) && n.id !in s.t.objects && s.h.secret.Some? && key == s.h.secret.value.key
    ensures IndexExact(Insert(s, keyId, key, actor, collection, n))
  {
  }

  lemma InsertKeepsAudit(s: State, keyId: string, key: Bytes, actor: string, collection: string, n: NewItem)
    requires AuditExact(s) && n.id !in s.t.objects
    ensures AuditExact(Insert(s, keyId, key, actor, collection, n))
  {
    var s' := Insert(s, keyId, key, actor, collection, n);
    var e := AuditEntry(actor, Create, collection, n.id, "");
    forall id ensures AuditedExactly(s', id) {
      assert AuditedExactly(s, id);
      CountOfSnoc(s.t.audit, e, Create, id);
      CountOfSnoc(s.t.audit, e, Delete, id);
    }
  }

  lemma InsertKeepsDistinct(s: State, keyId: string, key: Bytes, actor: string, collection: string, n: NewItem)
    requires DistinctKeys(s.h) && FreshItem(s, n) && s.h.born.Keys == s.t.objects.Keys
    ensures var h := Insert(s, keyId, key, actor, collection, n).h; DistinctKeys(h) && Remembers(s.h, h)
  {
  }

  lemma InsertKeepsHistory(s: State, keyId: string, key: Bytes, actor: string, collection: string, n: NewItem)
    requires HistoryMatches(s) && FreshItem(s, n) && s.h.secret.Some?
    ensures var s' := Insert(s, keyId, key, actor, collection, n); HistoryMatches(s') && Kept(s.t, s'.t)
  {
  }

  lemma InsertKeepsSound(s: State, keyId: string, key: Bytes, actor: string, collection: string, n: NewItem)
    requires Sound(s.h, s.t) && FreshItem(s, n) && keyId in s.h.currents
    requires Remembers(s.h, Insert(s, keyId, key, actor, collection, n).h)
    ensures var s' := Insert(s, keyId, key, actor, collection, n); Sound(s'.h, s'.t)
  {
  }

  lemma InsertKeeps(s: State, keyId: string, key: Bytes, actor: string, collection: string, n: NewItem)
    requires StateInv(s) && FreshItem(s, n) && keyId in s.h.currents
    requires s.h.secret.Some? && key == s.h.secret.value.key
    ensures var s' := Insert(s, keyId, key, actor, collection, n);
      StateInv(s') && Remembers(s.h, s'.h) && Kept(s.t, s'.t)
  {
    InsertKeepsDistinct(s, keyId, key, actor, collection, n);
    InsertKeepsHistory(s, keyId, key, actor, collection, n);
    InsertKeepsSound(s, keyId, key, actor, collection, n);
    InsertKeepsIndex(s, keyId, key, actor, collection, n);
    InsertKeepsAudit(s, keyId, key, actor, collection, n);
    SnapshotsSoundLater(s.h, Insert(s, keyId, key, actor, collection, n).h);
  }

  // ---- Shred ----

  lemma ShredKeepsIndex(s: State, actor: string, r: Ref)
    requires IndexExact(s)
    ensures IndexExact(Shred(s, actor, r))
  {
  }

  lemma ShredKeepsAudit(s: State, actor: string, r: Ref)
    requires AuditExact(s)
    ensures AuditExact(Shred(s, actor, r))
  {
    var s' := Shred(s, actor, r);
    var e := AuditEntry(actor, Delete, r.collection, r.id, "");
    forall id ensures AuditedExactly(s', id) {
      assert AuditedExactly(s, id);
      CountOfSnoc(s.t.audit, e, Create, id);
      CountOfSnoc(s.t.audit, e, Delete, id);
    }
  }

  lemma ShredKeepsSound(s: State, actor: string, r: Ref)
    requires Sound(s.h, s.t) && HistoryMatches(s)
    ensures var s' := Shred(s, actor, r); Sound(s.h, s'.t) && HistoryMatches(s') && Kept(s.t, s'.t)
  {
    var s' := Shred(s, actor, r);
    assert LiveRef(s.t, r) ==> RowSound(s.h, r.id, s.t.objects[r.id]);
  }

  lemma ShredKeeps(s: State, actor: string, r: Ref)
    requires StateInv(s)
    ensures var s' := Shred(s, actor, r); StateInv(s') && Remembers(s.h, s'.h) && Kept(s.t, s'.t)
  {
    ShredKeepsSound(s, actor, r);
    ShredKeepsIndex(s, actor, r);
    ShredKeepsAudit(s, actor, r);
  }

  // ---- RewriteIndex ----

  lemma RewriteKeepsIndex(s: State, key: Bytes, actor: string, r: Ref, values: map<string, string>)
    requires IndexExact(s) && s.h.secret.Some? && key == s.h.secret.value.key
    requires Live(s.t, r.id) ==> s.t.objects[r.id].collection == r.collection
    ensures IndexExact(RewriteIndex(s, key, actor, r, values))
  {
  }

  lemma RewriteKeepsAudit(s: State, key: Bytes, actor: string, r: Ref, values: map<string, string>)
    requires AuditExact(s)
    ensures AuditExact(RewriteIndex(s, key, actor, r, values))
  {
    if Live(s.t, r.id) {
      var s' := RewriteIndex(s, key, actor, r, values);
      var e := AuditEntry(actor, Reindex, r.collection, r.id, "");
      forall id ensures AuditedExactly(s', id) {
        assert AuditedExactly(s, id);
        CountOfSnoc(s.t.audit, e, Create, id);
        CountOfSnoc(s.t.audit, e, Delete, id);
      }
      assert AuditedExactly(s, r.id);
      CountZeroMeansAbsent(s.t.audit, Delete, r.id);
    }
  }

  lemma RewriteRemembers(s: State, key: Bytes, actor: string, r: Ref, values: map<string, string>)
    ensures var s' := RewriteIndex(s, key, actor, r, values);
      && s'.h.born == s.h.born && s'.h.secret == s.h.secret && s'.h.currents == s.h.currents
          && s'.h.snapshots == s.h.snapshots
      && s'.t.objects == s.t.objects && s'.t.keys == s.t.keys && s.t.audit <= s'.t.audit
  {
  }

  lemma RewriteKeepsSound(s: State, key: Bytes, actor: string, r: Ref, values: map<string, string>)
    requires Sound(s.h, s.t) && DistinctKeys(s.h) && HistoryMatches(s)
    ensures var s' := RewriteIndex(s, key, actor, r, values);
      Sound(s'.h, s'.t) && DistinctKeys(s'.h) && HistoryMatches(s') && Remembers(s.h, s'.h) && Kept(s.t, s'.t)
  {
    RewriteRemembers(s, key, actor, r, values);
    SameBirthsKeep(s, RewriteIndex(s, key, actor, r, values));
    RewriteMatches(s, key, actor, r, values);
  }

  lemma SameBirthsKeep(s: State, s': State)
    requires Sound(s.h, s.t) && DistinctKeys(s.h)
    requires s'.h.born == s.h.born && s'.h.secret == s.h.secret && s'.h.currents == s.h.currents
    requires s'.t.objects == s.t.objects && s'.t.keys == s.t.keys && s.t.audit <= s'.t.audit
    ensures Sound(s'.h, s'.t) && DistinctKeys(s'.h) && Remembers(s.h, s'.h) && Kept(s.t, s'.t)
  {
    SoundLater(s.h, s'.h, s'.t);
  }

  lemma RewriteMatches(s: State, key: Bytes, actor: string, r: Ref, values: map<string, string>)
    requires HistoryMatches(s)
    ensures HistoryMatches(RewriteIndex(s, key, actor, r, values))
  {
  }

  lemma RewriteKeeps(s: State, key: Bytes, actor: string, r: Ref, values: map<string, string>)
    requires StateInv(s) && s.h.secret.Some? && key == s.h.secret.value.key
    requires Live(s.t, r.id) ==> s.t.objects[r.id].collection == r.collection
    ensures var s' := RewriteIndex(s, key, actor, r, values);
      StateInv(s') && Remembers(s.h, s'.h) && Kept(s.t, s'.t)
  {
    RewriteKeepsSound(s, key, actor, r, values);
    RewriteKeepsIndex(s, key, actor, r, values);
    RewriteKeepsAudit(s, key, actor, r, values);
    SnapshotsSoundLater(s.h, RewriteIndex(s, key, actor, r, values).h);
  }

  // ---- WriteHeld ----

  /** A row copy, fresh or stale, is a box of the key of the row it was read from. */
  ghost predicate CopySound(h: History, target: Target, sealed: Sealed)
  {
    match target
    case KeyTarget => h.secret.Some? && Boxes(sealed, h.secret.value.dek, INDEX_KEY_AAD)
    case ObjectTarget(r) => r.id in h.born && h.born[r.id].collection == r.collection && Boxes(sealed, h.born[r.id].dek,
        Aad(r.collection, r.id))
  }

  lemma CopySoundLater(h: History, h': History, target: Target, sealed: Sealed)
    requires CopySound(h, target, sealed) && Remembers(h, h')
    ensures CopySound(h', target, sealed)
  {
  }

  lemma WriteHeldKeepsSound(h: History, t: Tables, held: Held)
    requires Sound(h, t) && CopySound(h, held.target, held.sealed) && held.sealed.keyId in h.currents
    ensures Sound(h, WriteHeld(t, held)) && Kept(t, WriteHeld(t, held))
  {
    if GuardHolds(t, held) && held.target.ObjectTarget? {
      assert RowSound(h, held.target.ref.id, t.objects[held.target.ref.id]);
    }
  }

  lemma WriteHeldKeepsRest(s: State, held: Held)
    requires IndexExact(s) && AuditExact(s) && HistoryMatches(s)
    ensures var s' := s.(t := WriteHeld(s.t, held)); IndexExact(s') && AuditExact(s') && HistoryMatches(s')
  {
    var s' := s.(t := WriteHeld(s.t, held));
    forall r ensures BelongsInIndex(s', r) <==> BelongsInIndex(s, r) { }
    forall id ensures AuditedExactly(s', id) { assert AuditedExactly(s, id); }
  }

  /** A guarded write of a re-wrapped key keeps everything, however stale the copy it
      was computed from: a shredded row stays shredded, a live row stays its own. */
  lemma WriteHeldKeeps(s: State, held: Held)
    requires StateInv(s) && CopySound(s.h, held.target, held.sealed) && held.sealed.keyId in s.h.currents
    ensures var s' := s.(t := WriteHeld(s.t, held)); StateInv(s') && Kept(s.t, s'.t)
  {
    WriteHeldKeepsSound(s.h, s.t, held);
    WriteHeldKeepsRest(s, held);
  }

  // ---- the other statements ----

  lemma ProposeKeyKeeps(s: State, keyId: string, version: nat, secret: Secret)
    requires StateInv(s) && keyId in s.h.currents
    requires |secret.key| == KEY_SIZE && |secret.dek| == KEY_SIZE && FreshKey(s.h, secret.dek)
    ensures var sealed := Sealed(keyId, Some(Box(keyId, version, secret.dek, INDEX_KEY_AAD)),
        Cipher(secret.dek, secret.key, INDEX_KEY_AAD));
      var s' := ProposeKey(s, sealed, secret);
      StateInv(s') && Remembers(s.h, s'.h) && Kept(s.t, s'.t) && s'.t.keys.Some?
  {
    var sealed := Sealed(keyId, Some(Box(keyId, version, secret.dek, INDEX_KEY_AAD)),
        Cipher(secret.dek, secret.key, INDEX_KEY_AAD));
    var s' := ProposeKey(s, sealed, secret);
    if s.t.keys.None? {
      SnapshotsSoundLater(s.h, s'.h);
      forall id ensures AuditedExactly(s', id) { assert AuditedExactly(s, id); }
      // before the first key nothing is indexed
      assert forall r :: !BelongsInIndex(s, r);
      assert s.t.index == {} by { assert forall r :: r !in s.t.index; }
      assert IndexExact(s');
    }
  }
}
