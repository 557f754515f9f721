/** What one request of a server leaves behind: a commit, and its entries copied to the audit
    logger (internal/store/store.go, PutMany, Delete, DeleteSubject, AuditMany). */
module Requests {
  import opened Strings
  import opened Identity
  import opened Envelope
  import opened Tables
  import opened Vault
  import opened Guarantees
  import opened Rotation
  import opened Reindexing
  import opened Erasure

  /** One object to store, and the id and key that are drawn for it. */
  datatype Item = Item(plaintext: Bytes, indexed: map<string, string>, subject: string)
  datatype Draw = Draw(id: string, dek: Bytes)

  function NewItems(items: seq<Item>, draws: seq<Draw>, version: nat): (r: seq<NewItem>)
    requires |draws| >= |items|
    ensures |r| == |items|
  {
    seq(|items|, i requires 0 <= i < |items| => NewItem(draws[i].id, draws[i].dek, version, items[i].plaintext,
        items[i].indexed, items[i].subject))
  }

  function CreateEntries(actor: string, collection: string, items: seq<NewItem>): seq<AuditEntry>
  {
    seq(|items|, i requires 0 <= i < |items| => AuditEntry(actor, Create, collection, items[i].id, ""))
  }

  /** Commit s and copy its new entries to the audit logger. */
  function CommitAndEmit(w: World, s: State, entries: seq<AuditEntry>): World { EmitAll(Commit(w, s), entries) }

  /** The logger gets exactly the committed entries, in order; nothing waits any longer. */
  lemma CommitEmits(w: World, s: State, entries: seq<AuditEntry>)
    requires s.t.audit == w.s.t.audit + entries
    ensures var w' := CommitAndEmit(w, s, entries);
      && w'.s == s && w'.emitted == w.emitted + entries && w'.outbox == w.outbox
      && w'.engines == w.engines && w'.procs == w.procs
  {
    assert s.t.audit[|w.s.t.audit|..] == entries;
    EmitAllEmits(Commit(w, s), entries);
    EmitAllSameState(Commit(w, s), entries);
  }

  lemma CommitAndEmitKeeps(w: World, s: State, entries: seq<AuditEntry>)
    requires Inv(w) && StateInv(s) && Remembers(w.s.h, s.h) && Kept(w.s.t, s.t) && s.h.snapshots == w.s.h.snapshots
    ensures Inv(CommitAndEmit(w, s, entries)) && Follows(w, CommitAndEmit(w, s, entries))
  {
    CommitKeeps(w, s);
    EmitAllKeeps(Commit(w, s), entries);
    FollowsTransitive(w, Commit(w, s), CommitAndEmit(w, s, entries));
  }

  lemma {:induction false} InsertAllLogs(s: State, keyId: string, key: Bytes, actor: string, collection: string,
      items: seq<NewItem>)
    ensures InsertAll(s, keyId, key, actor, collection, items).t.audit ==
        s.t.audit + CreateEntries(actor, collection, items)
  {
    if items == [] {
      assert s.t.audit + CreateEntries(actor, collection, items) == s.t.audit;
    } else {
      var before, last := items[..|items| - 1], items[|items| - 1];
      InsertAllLogs(s, keyId, key, actor, collection, before);
      assert CreateEntries(actor, collection, items) == CreateEntries(actor, collection,
          before) + [AuditEntry(actor, Create, collection, last.id, "")];
    }
  }

  lemma PutLands(w: World, keyId: string, key: Bytes, actor: string, collection: string, items: seq<NewItem>)
    requires Inv(w) && AllFresh(w.s, items) && keyId in w.s.h.currents && w.s.h.secret.Some?
        && key == w.s.h.secret.value.key
    ensures var w' := CommitAndEmit(w, InsertAll(w.s, keyId, key, actor, collection, items),
        CreateEntries(actor, collection, items));
      Inv(w') && Follows(w, w') && w'.s.h.secret == w.s.h.secret
  {
    InsertAllKeeps(w.s, keyId, key, actor, collection, items);
    InsertAllLogs(w.s, keyId, key, actor, collection, items);
    CommitEmits(w, InsertAll(w.s, keyId, key, actor, collection, items), CreateEntries(actor, collection, items));
    CommitAndEmitKeeps(w, InsertAll(w.s, keyId, key, actor, collection, items),
        CreateEntries(actor, collection, items));
  }

  /** The commit of an erasure, and its entries. */
  lemma EraseLands(w: World, actor: string, refs: seq<Ref>, all: set<Ref>)
    requires Enumerates(refs, all) && AllLiveRefs(w.s.t, all)
    ensures var w' := CommitAndEmit(w, ShredAll(w.s, actor, refs), DeleteEntries(actor, refs));
      && ErasesExactly(w.s.t, w'.s.t, actor, refs) && w'.s.t.audit == w.s.t.audit + DeleteEntries(actor, refs)
      && (Inv(w) ==> Inv(w') && Follows(w, w'))
  {
    ShredAllIs(w.s, actor, refs, all);
    ShredAllErases(w.s, actor, refs, all);
    CommitEmits(w, ShredAll(w.s, actor, refs), DeleteEntries(actor, refs));
    if Inv(w) {
      ShredAllKeeps(w.s, actor, refs);
      CommitAndEmitKeeps(w, ShredAll(w.s, actor, refs), DeleteEntries(actor, refs));
    }
  }

  lemma SubjectEraseLands(w: World, actor: string, subject: string, refs: seq<Ref>)
    requires Enumerates(refs, SubjectRefs(w.s.t, subject))
    ensures var w' := CommitAndEmit(w, ShredAll(w.s, actor, refs), DeleteEntries(actor, refs));
      && ErasesExactly(w.s.t, w'.s.t, actor, refs) && SubjectRefs(w'.s.t, subject) == {}
      && w'.s.t.audit == w.s.t.audit + DeleteEntries(actor, refs) && (Inv(w) ==> Inv(w') && Follows(w, w'))
  {
    EraseLands(w, actor, refs, SubjectRefs(w.s.t, subject));
    SubjectIsGone(w.s, actor, subject, refs);
    ShredAllIs(w.s, actor, refs, SubjectRefs(w.s.t, subject));
    CommitEmits(w, ShredAll(w.s, actor, refs), DeleteEntries(actor, refs));
  }

  lemma DeleteLands(w: World, actor: string, ref: Ref)
    requires LiveRef(w.s.t, ref)
    ensures var w' := CommitAndEmit(w, Shred(w.s, actor, ref), [DeleteEntry(actor, ref)]);
      && ErasesExactly(w.s.t, w'.s.t, actor, [ref]) && (Inv(w) ==> Inv(w') && Follows(w, w'))
  {
    ShredsOne(w.s, actor, ref);
    assert DeleteEntries(actor, [ref]) == [DeleteEntry(actor, ref)];
    EraseLands(w, actor, [ref], {ref});
  }

  /** The drawn ids are free and differ. */
  predicate DrawsFit(t: Tables, draws: seq<Draw>)
  {
    && (forall i :: 0 <= i < |draws| ==> draws[i].id !in t.objects)
    && (forall i, j :: 0 <= i < j < |draws| ==> draws[i].id != draws[j].id)
  }

  /** What it takes for a put to land: every statement succeeds, what seals the items answers, and the
      drawn ids do not collide. */
  predicate PutLandsIf(t: Tables, env: Envelope, draws: seq<Draw>, outage: Outage, fails: nat -> bool)
  {
    && (forall i :: 0 <= i <= |draws| ==> !fails(i)) && (draws != [] ==> !Down(env.current, outage))
    && DrawsFit(t, draws)
  }

  lemma {:induction false} InsertAllKeys(s: State, keyId: string, key: Bytes, actor: string, collection: string,
      items: seq<NewItem>, id: string)
    ensures id in InsertAll(s, keyId, key, actor, collection, items).t.objects <==>
      id in s.t.objects || exists i :: 0 <= i < |items| && items[i].id == id
  {
    if items != [] {
      var before, last := items[..|items| - 1], items[|items| - 1];
      InsertAllKeys(s, keyId, key, actor, collection, before, id);
      if id != last.id && exists i :: 0 <= i < |items| && items[i].id == id {
        var i :| 0 <= i < |items| && items[i].id == id;
        assert before[i].id == id;
      }
    }
  }

  /** The next drawn id is free in the tables as the transaction sees them exactly when it fits. */
  lemma NextDrawFits(s: State, keyId: string, key: Bytes, actor: string, collection: string, items: seq<Item>,
      draws: seq<Draw>, version: nat, i: nat)
    requires |draws| == |items| && i < |items| && DrawsFit(s.t, draws[..i])
    ensures draws[i].id !in InsertAll(s, keyId, key, actor, collection, NewItems(items, draws, version)[..i]).t.objects
      <==> DrawsFit(s.t, draws[..i + 1])
  {
    var news := NewItems(items, draws, version)[..i];
    InsertAllKeys(s, keyId, key, actor, collection, news, draws[i].id);
    assert draws[..i + 1] == draws[..i] + [draws[i]];
    assert forall j :: 0 <= j < i ==> news[j].id == draws[..i][j].id;
  }

  /** The first i items went in. */
  predicate PutReaches(t: Tables, env: Envelope, draws: seq<Draw>, outage: Outage, fails: nat -> bool, i: nat)
    requires i <= |draws|
  {
    (forall j :: 0 <= j < i ==> !fails(j)) && (i > 0 ==> !Down(env.current, outage)) && DrawsFit(t, draws[..i])
  }

  lemma PutReachesNext(w: World, env: Envelope, key: Bytes, actor: string, collection: string, items: seq<Item>,
      draws: seq<Draw>, version: nat, outage: Outage, fails: nat -> bool, i: nat)
    requires |draws| == |items| && i < |items| && PutReaches(w.s.t, env, draws, outage, fails, i) && !fails(i)
    ensures var s := InsertAll(w.s, env.current.id, key, actor, collection, NewItems(items, draws, version)[..i]);
      PutReaches(w.s.t, env, draws, outage, fails, i + 1) <==>
        draws[i].id !in s.t.objects && !Down(env.current, outage)
  {
    NextDrawFits(w.s, env.current.id, key, actor, collection, items, draws, version, i);
  }

  lemma PutReachesEnd(t: Tables, env: Envelope, draws: seq<Draw>, outage: Outage, fails: nat -> bool)
    ensures PutLandsIf(t, env, draws, outage, fails) <==>
      PutReaches(t, env, draws, outage, fails, |draws|) && !fails(|draws|)
    ensures PutLandsIf(t, env, draws, outage, fails) ==>
      forall i :: 0 <= i <= |draws| ==> !fails(i) && PutReaches(t, env, draws, outage, fails, i)
  {
    assert draws[..|draws|] == draws;
  }

  /** One item further. */
  lemma PutStep(s: State, keyId: string, key: Bytes, actor: string, collection: string, items: seq<NewItem>, i: nat)
    requires i < |items|
    ensures InsertAll(s, keyId, key, actor, collection, items[..i + 1]) ==
        Insert(InsertAll(s, keyId, key, actor, collection, items[..i]), keyId, key, actor, collection, items[i])
    ensures CreateEntries(actor, collection, items[..i + 1]) ==
        CreateEntries(actor, collection, items[..i]) + [AuditEntry(actor, Create, collection, items[i].id, "")]
  {
    assert items[..i + 1][..i] == items[..i] && items[..i + 1][i] == items[i];
  }

  /** What a put has done to its tables, and will log, after i items. */
  ghost predicate PutHas(s0: State, keyId: string, key: Bytes, actor: string, collection: string, items: seq<NewItem>,
      i: nat, s: State, entries: seq<AuditEntry>)
    requires i <= |items|
  {
    && s == InsertAll(s0, keyId, key, actor, collection, items[..i])
    && entries == CreateEntries(actor, collection, items[..i])
  }

  lemma PutHasNext(s0: State, keyId: string, key: Bytes, actor: string, collection: string, items: seq<NewItem>,
      i: nat, s: State, entries: seq<AuditEntry>)
    requires i < |items| && PutHas(s0, keyId, key, actor, collection, items, i, s, entries)
    ensures PutHas(s0, keyId, key, actor, collection, items, i + 1, Insert(s, keyId, key, actor, collection, items[i]),
        entries + [AuditEntry(actor, Create, collection, items[i].id, "")])
  {
    PutStep(s0, keyId, key, actor, collection, items, i);
  }

  /** One item of a put: when it goes in, and what there is then. */
  lemma PutGoesOn(w: World, env: Envelope, key: Bytes, actor: string, collection: string, items: seq<Item>,
      draws: seq<Draw>, version: nat, outage: Outage, fails: nat -> bool, i: nat, s: State, entries: seq<AuditEntry>)
    requires |draws| == |items| && i < |items| && PutReaches(w.s.t, env, draws, outage, fails, i) && !fails(i)
    requires PutHas(w.s, env.current.id, key, actor, collection, NewItems(items, draws, version), i, s, entries)
    ensures PutReaches(w.s.t, env, draws, outage, fails, i + 1) <==>
      draws[i].id !in s.t.objects && !Down(env.current, outage)
    ensures var news := NewItems(items, draws, version);
      PutHas(w.s, env.current.id, key, actor, collection, news, i + 1,
          Insert(s, env.current.id, key, actor, collection, news[i]),
          entries + [AuditEntry(actor, Create, collection, draws[i].id, "")])
  {
    PutReachesNext(w, env, key, actor, collection, items, draws, version, outage, fails, i);
    PutHasNext(w.s, env.current.id, key, actor, collection, NewItems(items, draws, version), i, s, entries);
  }

  // ---- what a put leaves behind, item by item ----

  /** The row of one item: live, in the collection, sealed under the wrapper, and about the subject it
      was given, or about none. */
  ghost predicate ItemIsThere(t: Tables, keyId: string, collection: string, item: Item, draw: Draw)
  {
    && draw.id in t.objects
    && var row := t.objects[draw.id];
    && !row.deleted && row.collection == collection && row.sealed.keyId == keyId
    && (if item.subject == "" then row.subject == None else row.subject == Some(item.subject))
    && row.sealed.ciphertext == Cipher(draw.dek, item.plaintext, Aad(collection, draw.id))
    && Boxes(row.sealed, draw.dek, Aad(collection, draw.id))
  }

  /** All of them, and every other row as before. */
  ghost predicate ItemsAreThere(t0: Tables, t: Tables, keyId: string, collection: string, items: seq<Item>,
      draws: seq<Draw>)
    requires |draws| == |items|
  {
    && (forall i :: 0 <= i < |items| ==> ItemIsThere(t, keyId, collection, items[i], draws[i]))
    && (forall id :: id in t0.objects ==> id in t.objects && t.objects[id] == t0.objects[id])
    && (forall id :: id in t.objects ==> id in t0.objects || exists i :: 0 <= i < |draws| && draws[i].id == id)
  }

  /** The log is what it was and one entry for each item, in order: who put it, and where it is. */
  ghost predicate PutIsLogged(before: seq<AuditEntry>, after: seq<AuditEntry>, actor: string, collection: string,
      draws: seq<Draw>)
  {
    && |after| == |before| + |draws| && after[..|before|] == before
    && forall i :: 0 <= i < |draws| ==>
         after[|before| + i] == AuditEntry(actor, Create, collection, draws[i].id, "")
  }

  lemma {:induction false} InsertAllRow(s: State, keyId: string, key: Bytes, actor: string, collection: string,
      items: seq<NewItem>, i: nat)
    requires i < |items| && forall j, k :: 0 <= j < k < |items| ==> items[j].id != items[k].id
    ensures var s', n := InsertAll(s, keyId, key, actor, collection, items), items[i];
      && n.id in s'.t.objects && n.id in s'.h.values && s'.h.values[n.id] == n.indexed
      && s'.t.objects[n.id] == Row(collection, SealedItem(keyId, collection, n), NullIf(n.subject), false)
  {
    if i < |items| - 1 {
      assert items[..|items| - 1][i] == items[i];
      InsertAllRow(s, keyId, key, actor, collection, items[..|items| - 1], i);
    }
  }

  lemma {:induction false} InsertAllLeavesRow(s: State, keyId: string, key: Bytes, actor: string, collection: string,
      items: seq<NewItem>, id: string)
    requires id in s.t.objects && forall i :: 0 <= i < |items| ==> items[i].id != id
    ensures var t := InsertAll(s, keyId, key, actor, collection, items).t;
      id in t.objects && t.objects[id] == s.t.objects[id]
  {
    if items != [] { InsertAllLeavesRow(s, keyId, key, actor, collection, items[..|items| - 1], id); }
  }

  lemma RowOfItem(t: Tables, keyId: string, collection: string, item: Item, draw: Draw, version: nat)
    requires draw.id in t.objects
    requires var n := NewItem(draw.id, draw.dek, version, item.plaintext, item.indexed, item.subject);
      t.objects[draw.id] == Row(collection, SealedItem(keyId, collection, n), NullIf(item.subject), false)
    ensures ItemIsThere(t, keyId, collection, item, draw)
  {
  }

  lemma PutLeavesItems(s: State, keyId: string, key: Bytes, actor: string, collection: string, items: seq<Item>,
      draws: seq<Draw>, version: nat)
    requires |draws| == |items| && DrawsFit(s.t, draws)
    ensures var s' := InsertAll(s, keyId, key, actor, collection, NewItems(items, draws, version));
      && ItemsAreThere(s.t, s'.t, keyId, collection, items, draws)
      && PutIsLogged(s.t.audit, s'.t.audit, actor, collection, draws)
      && forall i :: 0 <= i < |items| ==> draws[i].id in s'.h.values && s'.h.values[draws[i].id] == items[i].indexed
  {
    var news := NewItems(items, draws, version);
    var s' := InsertAll(s, keyId, key, actor, collection, news);
    forall i | 0 <= i < |items|
      ensures ItemIsThere(s'.t, keyId, collection, items[i], draws[i])
      ensures draws[i].id in s'.h.values && s'.h.values[draws[i].id] == items[i].indexed
    {
      InsertAllRow(s, keyId, key, actor, collection, news, i);
      RowOfItem(s'.t, keyId, collection, items[i], draws[i], version);
    }
    forall id | id in s.t.objects ensures id in s'.t.objects && s'.t.objects[id] == s.t.objects[id] {
      InsertAllLeavesRow(s, keyId, key, actor, collection, news, id);
    }
    forall id | id in s'.t.objects ensures id in s.t.objects || exists i :: 0 <= i < |draws| && draws[i].id == id {
      InsertAllKeys(s, keyId, key, actor, collection, news, id);
      if id !in s.t.objects {
        var i :| 0 <= i < |news| && news[i].id == id;
        assert draws[i].id == id;
      }
    }
    InsertAllLogs(s, keyId, key, actor, collection, news);
    PutLogIs(s.t.audit, actor, collection, items, draws, version);
  }

  lemma PutLogIs(before: seq<AuditEntry>, actor: string, collection: string, items: seq<Item>, draws: seq<Draw>,
      version: nat)
    requires |draws| == |items|
    ensures PutIsLogged(before, before + CreateEntries(actor, collection, NewItems(items, draws, version)), actor,
        collection, draws)
  {
  }

  /** So each object is listed for exactly the subject it was given. */
  lemma ItemIsAboutItsSubject(t0: Tables, t: Tables, keyId: string, collection: string, items: seq<Item>,
      draws: seq<Draw>, i: nat, subject: string)
    requires |draws| == |items| && i < |items| && ItemsAreThere(t0, t, keyId, collection, items, draws) && subject != ""
    ensures Ref(collection, draws[i].id) in SubjectRefs(t, subject) <==> items[i].subject == subject
  {
    assert ItemIsThere(t, keyId, collection, items[i], draws[i]);
  }

  /** Each object is listed for exactly the subject it was given. */
  ghost predicate ListedForSubjects(t: Tables, collection: string, items: seq<Item>, draws: seq<Draw>)
    requires |draws| == |items|
  {
    forall i, subject :: 0 <= i < |items| && subject != "" ==>
      (Ref(collection, draws[i].id) in SubjectRefs(t, subject) <==> items[i].subject == subject)
  }

  /** Each object is found by exactly the values it was given. */
  ghost predicate FoundByValues(t: Tables, index: Bytes, collection: string, items: seq<Item>, draws: seq<Draw>)
    requires |draws| == |items|
  {
    forall i, field, value :: 0 <= i < |items| ==>
      (draws[i].id in SearchHits(t, index, collection, field, value) <==>
        field in items[i].indexed && items[i].indexed[field] == value)
  }

  lemma ItemsAreFound(s: State, index: Bytes, t0: Tables, keyId: string, collection: string, items: seq<Item>,
      draws: seq<Draw>)
    requires StateInv(s) && s.h.secret.Some? && index == s.h.secret.value.key
    requires |draws| == |items| && ItemsAreThere(t0, s.t, keyId, collection, items, draws)
    requires forall i :: 0 <= i < |items| ==> draws[i].id in s.h.values && s.h.values[draws[i].id] == items[i].indexed
    ensures FoundByValues(s.t, index, collection, items, draws)
  {
    forall i, field, value | 0 <= i < |items|
      ensures draws[i].id in SearchHits(s.t, index, collection, field, value) <==>
        field in items[i].indexed && items[i].indexed[field] == value
    {
      assert ItemIsThere(s.t, keyId, collection, items[i], draws[i]);
      SearchFindsExactlyTheLive(s, collection, field, value, draws[i].id);
    }
  }

  /** The commit of a put, and its entries. */
  lemma PutManyLands(w: World, keyId: string, index: Bytes, actor: string, collection: string, items: seq<Item>,
      draws: seq<Draw>, version: nat)
    requires |draws| == |items| && DrawsFit(w.s.t, draws)
    ensures var news := NewItems(items, draws, version);
      var w' := CommitAndEmit(w, InsertAll(w.s, keyId, index, actor, collection, news),
          CreateEntries(actor, collection, news));
      && InsertAll(w.s, keyId, index, actor, collection, news).t.audit ==
          w.s.t.audit + CreateEntries(actor, collection, news)
      && ItemsAreThere(w.s.t, w'.s.t, keyId, collection, items, draws)
      && PutIsLogged(w.s.t.audit, w'.s.t.audit, actor, collection, draws)
      && ListedForSubjects(w'.s.t, collection, items, draws)
      && (StateInv(w'.s) && w'.s.h.secret.Some? && index == w'.s.h.secret.value.key ==>
            FoundByValues(w'.s.t, index, collection, items, draws))
  {
    var news := NewItems(items, draws, version);
    var s' := InsertAll(w.s, keyId, index, actor, collection, news);
    PutLeavesItems(w.s, keyId, index, actor, collection, items, draws, version);
    InsertAllLogs(w.s, keyId, index, actor, collection, news);
    CommitEmits(w, s', CreateEntries(actor, collection, news));
    forall i, subject | 0 <= i < |items| && subject != ""
      ensures Ref(collection, draws[i].id) in SubjectRefs(s'.t, subject) <==> items[i].subject == subject
    {
      ItemIsAboutItsSubject(w.s.t, s'.t, keyId, collection, items, draws, i, subject);
    }
    if StateInv(s') && s'.h.secret.Some? && index == s'.h.secret.value.key {
      ItemsAreFound(s', index, w.s.t, keyId, collection, items, draws);
    }
  }

  // ---- the index key ----

  /** A starting process: its wrapper becomes some process's current one, and it proposes a key. */
  function Proposed(s: State, env: Envelope, sealed: Sealed, candidate: Secret): State
  {
    ProposeKey(s.(h := s.h.(currents := s.h.currents + {env.current.id})), sealed, candidate)
  }

  lemma ProposalLands(w: World, env: Envelope, outage: Outage, candidate: Secret)
    requires Inv(w) && EnvelopeValid(env) && |candidate.key| == KEY_SIZE && |candidate.dek| == KEY_SIZE
        && FreshKey(w.s.h, candidate.dek)
    requires Seal(env, w.engines, outage, candidate.dek, candidate.key, INDEX_KEY_AAD).Ok?
    ensures var w' := Commit(w, Proposed(w.s, env,
        Seal(env, w.engines, outage, candidate.dek, candidate.key, INDEX_KEY_AAD).value, candidate));
      Inv(w') && Follows(w, w') && env.current.id in w'.s.h.currents
  {
    var sealed := Seal(env, w.engines, outage, candidate.dek, candidate.key, INDEX_KEY_AAD).value;
    CurrentsKeep(w.s, env.current.id);
    ProposeKeyKeeps(w.s.(h := w.s.h.(currents := w.s.h.currents + {env.current.id})), env.current.id,
        VersionOf(env.current, w.engines), candidate);
    CommitKeeps(w, Proposed(w.s, env, sealed, candidate));
  }

  /** What it takes to load the index key, when this is the key row: everything answers, and the
      wrapper of the row is held. */
  predicate KeyLoads(env: Envelope, net: nat -> Outage, keys: Option<Sealed>)
  {
    && !Down(env.current, net(0)) && DATABASE !in net(0) && DATABASE !in net(1)
    && keys.Some? && keys.value.keyId in env.all && !Down(env.all[keys.value.keyId], net(1))
  }

  lemma KeyOpensIfHeld(s: State, env: Envelope, outage: Outage)
    requires Sound(s.h, s.t) && EnvelopeValid(env) && s.t.keys.Some?
    ensures var keyId := s.t.keys.value.keyId;
      Open(env, outage, s.t.keys.value, INDEX_KEY_AAD).Ok? <==> keyId in env.all && !Down(env.all[keyId], outage)
    ensures s.h.secret.Some? && |s.h.secret.value.key| == KEY_SIZE
  {
    assert KeySound(s.h, s.t.keys.value);
  }

  /** Whichever key won, what is read back opens to it and to nothing else. */
  lemma ReadBackIsTheKey(s: State, env: Envelope, outage: Outage)
    requires Sound(s.h, s.t) && EnvelopeValid(env) && s.t.keys.Some?
        && Open(env, outage, s.t.keys.value, INDEX_KEY_AAD).Ok?
    ensures s.h.secret.Some? && Open(env, outage, s.t.keys.value, INDEX_KEY_AAD).value == s.h.secret.value.key
  {
  }

  /** A store that has started stays a store that has started. */
  lemma StartedStays(w: World, w': World, env: Envelope, index: Bytes)
    requires Follows(w, w') && Started(w.s.h, env) && w.s.h.secret.Some? && index == w.s.h.secret.value.key
    ensures Started(w'.s.h, env) && w'.s.h.secret.Some? && index == w'.s.h.secret.value.key
  {
  }

  // ---- an erase at a given moment ----

  /** Somebody erases the object just before our n-th statement; nobody does anything else. */
  function ErasedAt(n: nat, actor: string, ref: Ref): Others
  {
    (w: World, k: nat) => if k == n then Apply(w, Erase(actor, [ref])) else w
  }

  lemma ErasedAtIs(w: World, n: nat, k: nat, actor: string, ref: Ref)
    ensures var at := ErasedAt(n, actor, ref)(w, k);
      if k == n then at == Apply(w, Erase(actor, [ref])) && at.s == ShredAll(w.s, actor, [ref]) else at == w
  {
  }

  lemma ShredsOne(s: State, actor: string, ref: Ref)
    ensures ShredAll(s, actor, [ref]) == Shred(s, actor, ref)
  {
    assert [ref][..0] == [] && ShredAll(s, actor, []) == s;
  }

  lemma ErasedNow(w: World, n: nat, actor: string, ref: Ref)
    requires Inv(w) && LiveRef(w.s.t, ref)
    ensures var at := ErasedAt(n, actor, ref)(w, n);
      Inv(at) && ref.id in at.s.t.objects && at.s.t.objects[ref.id].deleted
  {
    EraseKeeps(w, actor, [ref]);
    ShredsOne(w.s, actor, ref);
    ErasedAtIs(w, n, n, actor, ref);
  }

  lemma ErasedAtIsRely(n: nat, actor: string, ref: Ref)
    ensures Rely(ErasedAt(n, actor, ref)) && QuietFrom(ErasedAt(n, actor, ref), n + 1)
    ensures LogNoReindex(ErasedAt(n, actor, ref))
  {
    var others := ErasedAt(n, actor, ref);
    forall w, k: nat | Inv(w) ensures Inv(others(w, k)) && Follows(w, others(w, k)) {
      ErasedAtIs(w, n, k, actor, ref);
      EraseKeeps(w, actor, [ref]);
    }
    forall w, k: nat | Inv(w) ensures AddsNoReindex(w, others(w, k)) {
      ErasedAtIs(w, n, k, actor, ref);
      StepAddsNoReindex(w, Erase(actor, [ref]));
    }
  }

  // ---- reading ----

  /** The live rows of the collection among these ids. */
  function Matching(t: Tables, collection: string, ids: set<string>): set<string>
  {
    set id | id in ids && Live(t, id) && t.objects[id].collection == collection
  }

  /** What opening row id alone answers. */
  function OpenRow(t: Tables, env: Envelope, outage: Outage, id: string): Result<Bytes, Error>
    requires id in t.objects
  {
    Open(env, outage, t.objects[id].sealed, Aad(t.objects[id].collection, id))
  }

  /** A live row opens exactly when its wrapper is held and answers. */
  lemma RowsOpenIfHeld(s: State, env: Envelope, outage: Outage)
    requires Sound(s.h, s.t) && EnvelopeValid(env)
    ensures forall id :: Live(s.t, id) ==>
      (OpenRow(s.t, env, outage, id).Ok? <==>
        s.t.objects[id].sealed.keyId in env.all && !Down(env.all[s.t.objects[id].sealed.keyId], outage))
  {
    forall id | Live(s.t, id)
      ensures OpenRow(s.t, env, outage, id).Ok? <==>
        s.t.objects[id].sealed.keyId in env.all && !Down(env.all[s.t.objects[id].sealed.keyId], outage)
    {
      LiveRowOpens(s, id, env, outage);
    }
  }

  /** A row whose wrapper is down does not open now. */
  lemma DownRowDoesNotOpen(t: Tables, env: Envelope, outage: Outage, rowIds: seq<string>, sealed: seq<Sealed>)
    requires |rowIds| == |sealed| && NeedsDownBackend(env, outage, sealed)
    requires forall i :: 0 <= i < |rowIds| ==> rowIds[i] in t.objects && sealed[i] == t.objects[rowIds[i]].sealed
    ensures exists id :: id in rowIds && id in t.objects && OpenRow(t, env, outage, id).Err?
  {
  }

  /** What live rows open to is what was put. */
  lemma OpenedAsPut(s: State, env: Envelope, outage: Outage, found: map<string, Bytes>)
    requires Sound(s.h, s.t) && EnvelopeValid(env)
    requires forall id :: id in found ==> Live(s.t, id) && OpenRow(s.t, env, outage, id) == Ok(found[id])
    ensures forall id :: id in found ==> id in s.h.born && found[id] == s.h.born[id].plaintext
  {
  }
}
