/** The handlers that read (internal/api/api.go): a batch reveal, a search and the walk over its
    pages (client/client.go). The rate limiter is an oracle that grants units or does not. */
module Api {
  import opened Strings
  import opened Identity
  import opened Envelope
  import opened Tables
  import opened Vault
  import opened Guarantees
  import opened Rotation
  import opened Requests
  import Emails
  import Luhn
  import Schema
  import opened Store

  const MAX_BATCH := 1000
  const BAD_REQUEST := 400
  const FORBIDDEN := 403
  const TOO_MANY_REQUESTS := 429
  const INTERNAL_ERROR := 500

  const ROLE_READ_MASKED := "read_masked"
  const ROLE_READ_FULL := "read_full"
  const ROLE_SEARCH := "search"

  /** What a reader gets to see of an object. */
  datatype Rendered = Whole(plaintext: Bytes) | Masked(fields: map<string, string>)

  /** The masked fields of a plaintext, if it is a JSON object. */
  type Mask = (string, Bytes) -> Option<map<string, string>>

  datatype Answer = Refused(status: nat) | Revealed(objects: map<string, Rendered>, missing: seq<string>)

  datatype SearchAnswer = SearchRefused(status: nat) | Found(ids: seq<string>, next: Option<string>)

  /** What a client asks to reveal, and what it may. */
  datatype RevealRequest = RevealRequest(client: string, roles: set<string>, collection: string, ids: seq<string>,
      level: string)

  /** What happens to a request on its way: what is down, what the limiter grants, and whether its
      SELECT and its audit entries fail. */
  datatype Luck = Luck(outage: Outage, grants: nat -> bool, selectFails: bool, logFails: bool)

  function Render(mask: Mask, collection: string, plaintext: Bytes, full: bool): Option<Rendered>
  {
    if full then Some(Whole(plaintext)) else
      match mask(collection, plaintext)
      case None => None
      case Some(fields) => Some(Masked(fields))
  }

  function RevealRole(level: string): string { if level == "full" then ROLE_READ_FULL else ROLE_READ_MASKED }

  function RevealAction(level: string): AuditAction { if level == "full" then RevealFull else RevealMasked }

  /** Why a search is refused, by the first reason there is, or that it is answered. */
  function SearchStatus(roles: set<string>, grants: nat -> bool, after: string, searchable: bool,
      fails: bool): Option<nat>
  {
    if "search" !in roles then Some(403)
    else if !grants(1) then Some(429)
    else if (after != "" && !IsTokenId(after)) || !searchable then Some(400)
    else if fails then Some(500)
    else None
  }

  /** Why a batch is refused before anything is read. */
  function RevealProblem(q: RevealRequest): Option<nat>
  {
    if q.ids == [] || |q.ids| > MAX_BATCH then Some(BAD_REQUEST)
    else if q.level != "" && q.level != "masked" && q.level != "full" then Some(BAD_REQUEST)
    else if RevealRole(q.level) !in q.roles then Some(FORBIDDEN)
    else None
  }

  /** The rows that a batch is about: asked for, in the collection and not shredded. */
  function Asked(t: Tables, q: RevealRequest): set<string>
  {
    set id | id in q.ids && id in t.objects && t.objects[id].collection == q.collection && !t.objects[id].deleted
  }

  predicate WellFormed(q: RevealRequest) { 0 < |q.ids| <= 1000 && q.level in {"", "masked", "full"} }

  /** The role for the level asked for. */
  predicate Permitted(q: RevealRequest) { (if q.level == "full" then "read_full" else "read_masked") in q.roles }

  /** What an answer shows of an object: all of it at level full, else its masked fields. */
  predicate Shows(mask: Mask, q: RevealRequest, plaintext: Bytes, r: Rendered)
  {
    if q.level == "full" then r == Whole(plaintext)
    else mask(q.collection, plaintext).Some? && r == Masked(mask(q.collection, plaintext).value)
  }

  predicate Showable(mask: Mask, q: RevealRequest, plaintext: Bytes)
  {
    q.level == "full" || mask(q.collection, plaintext).Some?
  }

  predicate ReadsAll(t: Tables, env: Envelope, q: RevealRequest, luck: Luck)
  {
    WellFormed(q) && Permitted(q) && !luck.selectFails && AllOpen(t, env, luck.outage, q)
  }

  /** Why a batch is refused at all, or that it is answered. */
  function RevealStatus(t: Tables, env: Envelope, mask: Mask, q: RevealRequest, luck: Luck): Option<nat>
  {
    if !WellFormed(q) then Some(400)
    else if !Permitted(q) then Some(403)
    else if !ReadsAll(t, env, q, luck) then Some(500)
    else if q.level == "full" && !luck.grants(|Asked(t, q)|) then Some(429)
    else if !AllRender(t, env, mask, q, luck) || (luck.logFails && Asked(t, q) != {}) then Some(500)
    else None
  }

  /** The budget after n more units of this client, and of nobody else. */
  function Charged(spent: map<string, nat>, client: string, n: nat): map<string, nat>
  {
    spent[client := n + if client in spent then spent[client] else 0]
  }

  /** The client has spent n more, and nobody else anything. */
  predicate Paid(before: map<string, nat>, after: map<string, nat>, client: string, n: nat)
  {
    && client in after && after[client] == n + (if client in before then before[client] else 0)
    && after.Keys == before.Keys + {client} && forall c :: c in before && c != client ==> after[c] == before[c]
  }

  /** A full reveal that has read its objects pays for them, answered or not. */
  function SpentAfter(t: Tables, env: Envelope, q: RevealRequest, luck: Luck, spent: map<string, nat>): map<string, nat>
  {
    var n := |Asked(t, q)|;
    if ReadsAll(t, env, q, luck) && q.level == "full" && luck.grants(n)
    then Charged(spent, q.client, n) else spent
  }

  predicate PaidAfter(t: Tables, env: Envelope, q: RevealRequest, luck: Luck, before: map<string, nat>,
      after: map<string, nat>)
  {
    if ReadsAll(t, env, q, luck) && q.level == "full" && luck.grants(|Asked(t, q)|)
    then Paid(before, after, q.client, |Asked(t, q)|) else after == before
  }

  lemma SpentIsPaid(t: Tables, env: Envelope, q: RevealRequest, luck: Luck, spent: map<string, nat>)
    ensures PaidAfter(t, env, q, luck, spent, SpentAfter(t, env, q, luck, spent))
  {
  }

  /** Every live row among the ids opens. */
  predicate AllOpen(t: Tables, env: Envelope, outage: Outage, q: RevealRequest)
  {
    forall id :: id in Asked(t, q) ==> OpenRow(t, env, outage, id).Ok?
  }

  /** Everything that was read can be shown at the level asked for. */
  predicate AllRender(t: Tables, env: Envelope, mask: Mask, q: RevealRequest, luck: Luck)
    requires AllOpen(t, env, luck.outage, q)
  {
    forall id :: id in Asked(t, q) ==> Showable(mask, q, OpenRow(t, env, luck.outage, id).value)
  }

  function RevealEntry(client: string, action: AuditAction, collection: string, id: string): AuditEntry
  {
    AuditEntry(client, action, collection, id, "")
  }

  function RevealEntries(client: string, action: AuditAction, collection: string, ids: seq<string>): seq<AuditEntry>
  {
    seq(|ids|, i requires 0 <= i < |ids| => RevealEntry(client, action, collection, ids[i]))
  }

  function SearchEntry(client: string, collection: string, index: string): AuditEntry
  {
    AuditEntry(client, AuditAction.Search, collection, "", index)
  }

  /** The form of the ids that the store draws. */
  predicate IsTokenId(id: string)
  {
    |id| == 4 + 32 && id[0] == 't' && id[1] == 'o' && id[2] == 'k' && id[3] == '_'
    && forall i :: 4 <= i < |id| ==> id[i] in "0123456789abcdef"
  }

  lemma WellFormedExactlyWhen(id: string)
    ensures WellFormedId(id) <==> IsTokenId(id)
  {
    if |id| == 36 {
      assert id[..4] == "tok_" <==> id[0] == 't' && id[1] == 'o' && id[2] == 'k' && id[3] == '_';
    }
  }

  /** tok_ and 32 hexadecimal digits. */
  predicate WellFormedId(id: string)
  {
    |id| == 36 && id[..4] == "tok_" && forall i :: 4 <= i < 36 ==> '0' <= id[i] <= '9' || 'a' <= id[i] <= 'f'
  }

  function Elements(q: seq<string>): set<string> { set x | x in q }

  // ---- order of first occurrence ----

  /** x occurs in ids before y first does. */
  ghost predicate FirstBefore(ids: seq<string>, x: string, y: string)
  {
    exists k :: 0 <= k <= |ids| && x in ids[..k] && y !in ids[..k]
  }

  /** q lists the elements of s, each once, in the order in which they first occur in ids. */
  ghost predicate InFirstOrder(q: seq<string>, ids: seq<string>, s: set<string>)
  {
    (forall x :: x in q <==> x in s) && (forall x :: x in q ==> x in ids) && forall i, j :: 0 <= i < j < |q| ==>
      FirstBefore(ids, q[i], q[j])
  }

  lemma FirstBeforeLonger(ids: seq<string>, more: seq<string>, x: string, y: string)
    requires FirstBefore(ids, x, y)
    ensures FirstBefore(ids + more, x, y)
  {
    var k :| 0 <= k <= |ids| && x in ids[..k] && y !in ids[..k];
    assert (ids + more)[..k] == ids[..k];
  }

  lemma FirstOrderLonger(q: seq<string>, ids: seq<string>, s: set<string>, id: string)
    requires InFirstOrder(q, ids, s)
    ensures InFirstOrder(q, ids + [id], s)
    ensures id !in ids ==> InFirstOrder(q + [id], ids + [id], s + {id})
  {
    forall i, j | 0 <= i < j < |q|
        ensures FirstBefore(ids + [id], q[i], q[j]) { FirstBeforeLonger(ids, [id], q[i], q[j]); }
    if id !in ids {
      assert (ids + [id])[..|ids|] == ids;
      forall i | 0 <= i < |q| ensures FirstBefore(ids + [id], q[i], id) { assert q[i] in q; }
    }
  }

  /** There is only one such list, and nothing occurs in it twice. */
  lemma {:induction false} FirstOrderIsUnique(a: seq<string>, b: seq<string>, ids: seq<string>, s: set<string>)
    requires InFirstOrder(a, ids, s) && InFirstOrder(b, ids, s)
    ensures a == b
  {
    if a != [] {
      FirstOrderStartsSame(a, b, ids, s);
      FirstOrderTail(a, ids, s);
      FirstOrderTail(b, ids, s);
      FirstOrderIsUnique(a[1..], b[1..], ids, s - {a[0]});
    } else if b != [] {
      FirstOrderStartsSame(b, a, ids, s);
    }
  }

  lemma FirstBeforeIsStrict(ids: seq<string>, x: string, y: string)
    requires FirstBefore(ids, x, y)
    ensures !FirstBefore(ids, y, x)
  {
  }

  lemma FirstOrderStartsSame(a: seq<string>, b: seq<string>, ids: seq<string>, s: set<string>)
    requires InFirstOrder(a, ids, s) && InFirstOrder(b, ids, s) && a != []
    ensures b != [] && a[0] == b[0]
  {
    assert a[0] in a && a[0] in b;
    assert b[0] in b && b[0] in a;
    if a[0] != b[0] {
      var i :| 0 <= i < |a| && a[i] == b[0];
      var j :| 0 <= j < |b| && b[j] == a[0];
      assert FirstBefore(ids, a[0], a[i]) && FirstBefore(ids, b[0], b[j]);
      FirstBeforeIsStrict(ids, a[0], b[0]);
    }
  }

  lemma FirstOrderTail(a: seq<string>, ids: seq<string>, s: set<string>)
    requires InFirstOrder(a, ids, s) && a != []
    ensures InFirstOrder(a[1..], ids, s - {a[0]})
  {
  }

  lemma EmptyOrder(q: seq<string>, ids: seq<string>, s: set<string>)
    requires InFirstOrder(q, ids, s)
    ensures q == [] <==> s == {}
  {
    assert q != [] ==> q[0] in q;
  }

  // ---- the server ----

  class Server {
    const store: Store
    const schemas: Schema.Schemas
    var spent: map<string, nat> // reveal units, by client

    constructor (store: Store, schemas: Schema.Schemas)
      ensures this.store == store && this.schemas == schemas && spent == map[]
    {
      this.store, this.schemas, spent := store, schemas, map[];
    }

    /** Spend n units of the client's budget, if the limiter grants them. */
    method Allow(client: string, n: nat, grants: nat -> bool) returns (ok: bool)
      modifies this
      ensures ok == grants(n)
      ensures spent == if ok then Charged(old(spent), client, n) else old(spent)
    {
      ok := grants(n);
      if ok { spent := spent[client := n + if client in spent then spent[client] else 0]; }
    }

    /** auditMany: stamp the entries with the client and log them. */
    method LogFor(client: string, entries: seq<AuditEntry>, fails: bool) returns (ok: bool)
      modifies store.db
      ensures var stamped := seq(|entries|, i requires 0 <= i < |entries| => entries[i].(client := client));
        ok == !(fails && entries != []) &&
        store.db.W() == if ok then CommitAndEmit(old(store.db.W()), Log(old(store.db.W()).s, stamped), stamped)
            else old(store.db.W())
    {
      var stamped: seq<AuditEntry> := [];
      for i := 0 to |entries|
        invariant stamped == seq(i, j requires 0 <= j < i => entries[j].(client := client))
        invariant store.db.W() == old(store.db.W())
      {
        stamped := stamped + [entries[i].(client := client)];
      }
      var err := store.AuditMany(stamped, fails);
      ok := err.None?;
    }

    /** audit: one entry. */
    method LogOne(client: string, entry: AuditEntry, fails: bool) returns (ok: bool)
      modifies store.db
      ensures ok == !fails
      ensures store.db.W() == if ok then CommitAndEmit(old(store.db.W()),
          Log(old(store.db.W()).s, [entry.(client := client)]), [entry.(client := client)]) else old(store.db.W())
    {
      ok := LogFor(client, [entry], fails);
      assert seq(1, i requires 0 <= i < 1 => [entry][i].(client := client)) == [entry.(client := client)];
    }

    /** The loop of revealBatch: what to answer, what is missing, what to log. */
    method Split(q: RevealRequest, found: map<string, Bytes>, mask: Mask)
      returns (ok: bool, objects: map<string, Rendered>, missing: seq<string>, entries: seq<AuditEntry>,
          ghost logged: seq<string>)
      ensures ok ==> InFirstOrder(logged, q.ids, objects.Keys)
      ensures ok ==> InFirstOrder(missing, q.ids, Elements(q.ids) - objects.Keys)
      ensures ok ==> objects.Keys == Elements(q.ids) * found.Keys
      ensures ok ==> forall id :: id in objects ==> Shows(mask, q, found[id], objects[id])
      ensures ok ==> entries == RevealEntries("", RevealAction(q.level), q.collection, logged)
      ensures ok <==> forall id :: id in q.ids && id in found ==> Showable(mask, q, found[id])
    {
      objects, missing, entries, logged := map[], [], [], [];
      var ids, seen := q.ids, {};
      for i := 0 to |ids|
        invariant seen == Elements(ids[..i])
        invariant objects.Keys == seen * found.Keys
        invariant forall id :: id in objects ==> Shows(mask, q, found[id], objects[id])
        invariant forall id :: id in seen && id in found ==> id in objects
        invariant InFirstOrder(logged, ids[..i], objects.Keys) && InFirstOrder(missing, ids[..i], seen - objects.Keys)
        invariant entries == RevealEntries("", RevealAction(q.level), q.collection, logged)
      {
        var id := ids[i];
        assert ids[..i + 1] == ids[..i] + [id];
        FirstOrderLonger(logged, ids[..i], objects.Keys, id);
        FirstOrderLonger(missing, ids[..i], seen - objects.Keys, id);
        if id in seen {
          assert Elements(ids[..i + 1]) == seen;
          continue;
        }
        seen := seen + {id};
        if id !in found {
          missing := missing + [id];
          assert seen - objects.Keys == (seen - {id} - objects.Keys) + {id};
          continue;
        }
        var rendered := Render(mask, q.collection, found[id], q.level == "full");
        if rendered.None? { ok := false; return; }
        ghost var before := objects.Keys;
        objects := objects[id := rendered.value];
        logged := logged + [id];
        assert objects.Keys == before + {id};
        assert seen - objects.Keys == seen - {id} - before;
        entries := entries + [RevealEntry("", RevealAction(q.level), q.collection, id)];
      }
      assert ids[..|ids|] == ids;
      ok := true;
    }

    /** revealBatch. An answer holds every object that was asked for, is live in the collection and
        opens, rendered at the level asked for, and lists every other id once as missing. Before
        it is given, the log has grown by exactly one entry per object, stamped with the client;
        the others may act between the read and the log. A refusal shows nothing and logs nothing;
        RevealStatus says exactly when there is which, and SpentAfter what has been paid. */
    method RevealBatch(q: RevealRequest, mask: Mask, luck: Luck, others: Others)
        returns (a: Answer, ghost at: World, ghost logged: seq<string>)
      requires EnvelopeValid(store.env)
      modifies this, store.db
      ensures a.Refused? <==> RevealStatus(old(store.db.T()), store.env, mask, q, luck).Some?
      ensures a.Refused? ==> Some(a.status) == RevealStatus(old(store.db.T()), store.env, mask, q, luck)
      ensures a.Revealed? ==> WellFormed(q) && Permitted(q)
      ensures a.Revealed? ==> forall id :: id in a.objects && a.objects[id].Whole? ==>
        q.level == "full" && "read_full" in q.roles
      ensures a.Revealed? ==> Answered(old(store.db.T()), store.env, luck.outage, mask, q, a)
      ensures a.Revealed? && Sound(old(store.db.history), old(store.db.T())) ==>
        ShowsWhatWasPut(old(store.db.history), mask, q, a)
      ensures LoggedFirst(old(store.db.W()), store.db.W(), others, q, a, at, logged)
      ensures a.Revealed? ==> LogGrew(at.s.t.audit, store.db.auditLog, q, logged)
      ensures spent == SpentAfter(old(store.db.T()), store.env, q, luck, old(spent))
      ensures PaidAfter(old(store.db.T()), store.env, q, luck, old(spent), spent)
    {
      SpentIsPaid(store.db.T(), store.env, q, luck, spent);
      at, logged := store.db.W(), [];
      var problem := RevealProblem(q);
      if problem.Some? { return Refused(problem.value), at, []; }
      var found := Read(q, luck);
      if found.None? { return Refused(INTERNAL_ERROR), at, []; }
      StatusAfterReading(store.db.T(), store.env, mask, q, luck, found.value, spent);
      a, at, logged := PayAndAnswer(q, found.value, mask, luck, others);
      if a.Revealed? {
        AnsweredFromRows(store.env, luck.outage, old(store.db.T()), mask, q, found.value, a);
        if Sound(old(store.db.history), old(store.db.T())) {
          AnswerIsAsPut(old(store.db.W()).s, store.env, luck.outage, mask, q, found.value, a);
        }
        LogOfAnswer(at, q, logged);
      }
    }

    /** revealBatch, once the objects are read. */
    method PayAndAnswer(q: RevealRequest, found: map<string, Bytes>, mask: Mask, luck: Luck, others: Others)
      returns (a: Answer, ghost at: World, ghost logged: seq<string>)
      requires found.Keys <= Elements(q.ids)
      modifies this, store.db
      ensures match StatusOfFound(mask, q, luck, found)
              case Some(status) => a == Refused(status)
              case None => a.Revealed? && AnsweredFrom(found, mask, q, a)
      ensures LoggedFirst(old(store.db.W()), store.db.W(), others, q, a, at, logged)
      ensures spent == SpentOnFound(q, luck, found, old(spent))
    {
      at, logged := store.db.W(), [];
      var ok := Pay(q, |found|, luck.grants);
      if !ok { return Refused(TOO_MANY_REQUESTS), at, []; }
      a, at, logged := AnswerFor(q, found, mask, others, luck.logFails);
    }

    /** The objects among ids, all of them or none. */
    method Read(q: RevealRequest, luck: Luck) returns (found: Option<map<string, Bytes>>)
      requires EnvelopeValid(store.env)
      ensures found.Some? ==> RowsOpened(store.db.T(), store.env, luck.outage, q, found.value)
      ensures found.Some? <==> !luck.selectFails && AllOpen(store.db.T(), store.env, luck.outage, q)
    {
      var r := store.GetMany(q.collection, Elements(q.ids), luck.outage, luck.selectFails);
      found := if r.Ok? then Some(r.value) else None;
    }

    /** A full reveal spends a unit per object, a masked one nothing. */
    method Pay(q: RevealRequest, n: nat, grants: nat -> bool) returns (ok: bool)
      modifies this
      ensures ok <==> q.level != "full" || grants(n)
      ensures spent == if q.level == "full" && grants(n) then Charged(old(spent), q.client, n) else old(spent)
    {
      ok := true;
      if q.level == "full" { ok := Allow(q.client, n, grants); }
    }

    /** The rest of revealBatch, once the objects are read and paid for. */
    method AnswerFor(q: RevealRequest, found: map<string, Bytes>, mask: Mask, others: Others, fails: bool)
      returns (a: Answer, ghost at: World, ghost logged: seq<string>)
      requires found.Keys <= Elements(q.ids)
      modifies store.db
      ensures a.Revealed? <==> Renderable(mask, q, found) && !(fails && found != map[])
      ensures a.Refused? ==> a.status == INTERNAL_ERROR
      ensures a.Revealed? ==> AnsweredFrom(found, mask, q, a)
      ensures LoggedFirst(old(store.db.W()), store.db.W(), others, q, a, at, logged)
    {
      at := store.db.W();
      var ok, objects, missing, entries;
      ok, objects, missing, entries, logged := Split(q, found, mask);
      if !ok { return Refused(INTERNAL_ERROR), at, []; }
      assert objects.Keys == found.Keys;
      a, at := LogAnswer(q, objects, missing, entries, logged, others, fails);
      EmptyOrder(logged, q.ids, found.Keys);
      if a.Refused? { logged := []; }
    }

    /** Log what was read, and only then answer. */
    method LogAnswer(q: RevealRequest, objects: map<string, Rendered>, missing: seq<string>, entries: seq<AuditEntry>,
        ghost logged: seq<string>,
                     others: Others, fails: bool)
      returns (a: Answer, ghost at: World)
      requires InFirstOrder(logged, q.ids, objects.Keys)
          && entries == RevealEntries("", RevealAction(q.level), q.collection, logged)
      modifies store.db
      ensures a.Revealed? <==> !(fails && logged != [])
      ensures a.Revealed? ==>
        a == Revealed(objects, missing) && LoggedFirst(old(store.db.W()), store.db.W(), others, q, a, at, logged)
      ensures a.Refused? ==>
        a.status == INTERNAL_ERROR && LoggedFirst(old(store.db.W()), store.db.W(), others, q, a, at, [])
    {
      store.db.Interfere(others, 0);
      at := store.db.W();
      var written := LogFor(q.client, entries, fails);
      if !written { return Refused(INTERNAL_ERROR), at; }
      assert seq(|entries|, i requires 0 <= i < |entries| => entries[i].(client := q.client)) ==
          RevealEntries(q.client, RevealAction(q.level), q.collection, logged);
      a := Revealed(objects, missing);
    }

    /** search: one page, and after a full one the id to continue after. It spends one unit and is
        logged before the answer; the log names the index that was asked, never the value. The
        others may act between the query and the log: that is their k-th turn. */
    method Search(client: string, roles: set<string>, collection: string, field: string, value: string, after: string,
                  grants: nat -> bool, selectFails: bool, logFails: bool, others: Others, k: nat)
      returns (a: SearchAnswer)
      modifies this, store.db
      ensures var searchable := Schema.Normalize(schemas, collection, field, value).Ok?;
        var status := SearchStatus(roles, grants, after, searchable, selectFails || logFails);
        if status.Some? then a == SearchRefused(status.value) else a.Found?
      ensures spent == if "search" in roles && grants(1) then Charged(old(spent), client, 1) else old(spent)
      ensures "search" in roles && grants(1) ==> Paid(old(spent), spent, client, 1)
      ensures a.SearchRefused? ==>
        var searchable := Schema.Normalize(schemas, collection, field, value).Ok?;
        store.db.W() == if SearchStatus(roles, grants, after, searchable, selectFails).Some? then old(store.db.W())
                        else others(old(store.db.W()), k)
      ensures a.Found? ==>
        var (index, normalized) := Schema.Normalize(schemas, collection, field, value).value;
        && a.ids == SearchPage(old(store.db.T()), store.index, collection, index, normalized, after)
        && (a.next.Some? <==> |a.ids| == 100) && (a.next.Some? ==> a.next.value == a.ids[99])
        && store.db.W() == WithSearchLogged(others(old(store.db.W()), k), client, collection, index)
        && store.db.auditLog == others(old(store.db.W()),
            k).s.t.audit + [AuditEntry(client, AuditAction.Search, collection, "", index)]
    {
      if ROLE_SEARCH !in roles { return SearchRefused(FORBIDDEN); }
      var ok := Allow(client, 1, grants);
      if !ok { return SearchRefused(TOO_MANY_REQUESTS); }
      WellFormedExactlyWhen(after);
      if after != "" && !WellFormedId(after) { return SearchRefused(BAD_REQUEST); }
      var r := Schema.Normalize(schemas, collection, field, value);
      if r.Err? { return SearchRefused(BAD_REQUEST); }
      var (index, normalized) := r.value;
      var ids := store.Search(collection, index, normalized, after, selectFails);
      if ids.Err? { return SearchRefused(INTERNAL_ERROR); }
      store.db.Interfere(others, k);
      var written := LogOne(client, SearchEntry("", collection, index), logFails);
      if !written { return SearchRefused(INTERNAL_ERROR); }
      LogOfOne(others(old(store.db.W()), k), SearchEntry(client, collection, index));
      a := Found(ids.value, if |ids.value| == SEARCH_PAGE then Some(ids.value[|ids.value| - 1]) else None);
    }
  }

  /** A search leaves one entry, which names the index. */
  function WithSearchLogged(w: World, client: string, collection: string, index: string): World
  {
    CommitAndEmit(w, Log(w.s, [SearchEntry(client, collection, index)]), [SearchEntry(client, collection, index)])
  }

  /** From w to w', for an answer that was given after its log entries: at is the world that they
      were logged in, logged are the ids they name. A refusal leaves nothing of ours. */
  ghost predicate LoggedFirst(w: World, w': World, others: Others, q: RevealRequest, a: Answer, at: World,
      logged: seq<string>)
  {
    var entries := RevealEntries(q.client, RevealAction(q.level), q.collection, logged);
    if a.Refused? then w' == at && (at == w || at == others(w, 0))
    else at == others(w, 0) && InFirstOrder(logged, q.ids, a.objects.Keys) && w' == CommitAndEmit(at,
        Log(at.s, entries), entries)
  }

  predicate Renderable(mask: Mask, q: RevealRequest, found: map<string, Bytes>)
  {
    forall id :: id in found ==> Showable(mask, q, found[id])
  }

  predicate RowsOpened(t: Tables, env: Envelope, outage: Outage, q: RevealRequest, found: map<string, Bytes>)
  {
    && found.Keys == Asked(t, q)
    && forall id :: id in found ==> id in t.objects && OpenRow(t, env, outage, id) == Ok(found[id])
  }

  /** What is left to go wrong, once the objects are read. */
  function StatusOfFound(mask: Mask, q: RevealRequest, luck: Luck, found: map<string, Bytes>): Option<nat>
  {
    if q.level == "full" && !luck.grants(|found|) then Some(TOO_MANY_REQUESTS)
    else if !Renderable(mask, q, found) || (luck.logFails && found != map[]) then Some(INTERNAL_ERROR)
    else None
  }

  function SpentOnFound(q: RevealRequest, luck: Luck, found: map<string, Bytes>, spent: map<string, nat>): map<string,
      nat>
  {
    if q.level == "full" && luck.grants(|found|)
    then Charged(spent, q.client, |found|) else spent
  }

  lemma StatusAfterReading(t: Tables, env: Envelope, mask: Mask, q: RevealRequest, luck: Luck,
      found: map<string, Bytes>, spent: map<string, nat>)
    requires RowsOpened(t, env, luck.outage, q, found) && ReadsAll(t, env, q, luck)
    ensures RevealStatus(t, env, mask, q, luck) == StatusOfFound(mask, q, luck, found)
    ensures SpentAfter(t, env, q, luck, spent) == SpentOnFound(q, luck, found, spent)
  {
    assert |found| == |found.Keys| && found.Keys == Asked(t, q);
    RenderableRows(t, env, mask, q, luck, found);
  }

  lemma RenderableRows(t: Tables, env: Envelope, mask: Mask, q: RevealRequest, luck: Luck, found: map<string, Bytes>)
    requires RowsOpened(t, env, luck.outage, q, found) && AllOpen(t, env, luck.outage, q)
    ensures Renderable(mask, q, found) <==> AllRender(t, env, mask, q, luck)
    ensures found == map[] <==> Asked(t, q) == {}
  {
  }

  /** What an answer must be for the rows as they were read. */
  ghost predicate Answered(t: Tables, env: Envelope, outage: Outage, mask: Mask, q: RevealRequest, a: Answer)
    requires a.Revealed?
  {
    && a.objects.Keys == Asked(t, q)
    && (forall id :: id in a.objects ==>
          id in t.objects && OpenRow(t, env, outage, id).Ok?
          && Shows(mask, q, OpenRow(t, env, outage, id).value, a.objects[id]))
    && InFirstOrder(a.missing, q.ids, Elements(q.ids) - a.objects.Keys)
  }

  /** The same for plaintexts. */
  ghost predicate AnsweredFrom(found: map<string, Bytes>, mask: Mask, q: RevealRequest, a: Answer)
    requires a.Revealed?
  {
    && a.objects.Keys == found.Keys
    && (forall id :: id in a.objects ==> Shows(mask, q, found[id], a.objects[id]))
    && InFirstOrder(a.missing, q.ids, Elements(q.ids) - a.objects.Keys)
  }

  /** Every object is shown as it was put: whole to those who may read in full and ask for it, else as
      its masked fields. */
  ghost predicate ShowsWhatWasPut(h: History, mask: Mask, q: RevealRequest, a: Answer)
    requires a.Revealed?
  {
    forall id :: id in a.objects ==> id in h.born && Shows(mask, q, h.born[id].plaintext, a.objects[id])
  }

  /** The log is what it was and one entry for each of these ids, in order: who asked, that it was a
      full or a masked reveal, and which object. */
  ghost predicate LogGrew(before: seq<AuditEntry>, after: seq<AuditEntry>, q: RevealRequest, logged: seq<string>)
  {
    && |after| == |before| + |logged| && after[..|before|] == before
    && forall i :: 0 <= i < |logged| ==>
         after[|before| + i] ==
           AuditEntry(q.client, if q.level == "full" then RevealFull else RevealMasked, q.collection, logged[i], "")
  }

  lemma LogOfAnswer(at: World, q: RevealRequest, logged: seq<string>)
    ensures var entries := RevealEntries(q.client, RevealAction(q.level), q.collection, logged);
      LogGrew(at.s.t.audit, CommitAndEmit(at, Log(at.s, entries), entries).s.t.audit, q, logged)
  {
    var entries := RevealEntries(q.client, RevealAction(q.level), q.collection, logged);
    CommitEmits(at, Log(at.s, entries), entries);
  }

  lemma AnswerIsAsPut(s: State, env: Envelope, outage: Outage, mask: Mask, q: RevealRequest, found: map<string, Bytes>,
      a: Answer)
    requires a.Revealed? && AnsweredFrom(found, mask, q, a) && RowsOpened(s.t, env, outage, q, found)
    requires Sound(s.h, s.t) && EnvelopeValid(env)
    ensures ShowsWhatWasPut(s.h, mask, q, a)
  {
    OpenedAsPut(s, env, outage, found);
  }

  lemma AnsweredFromRows(env: Envelope, outage: Outage, t: Tables, mask: Mask, q: RevealRequest,
      found: map<string, Bytes>, a: Answer)
    requires a.Revealed? && AnsweredFrom(found, mask, q, a)
    requires RowsOpened(t, env, outage, q, found)
    ensures Answered(t, env, outage, mask, q, a)
  {
  }

  // ---- reveals of objects that are shredded meanwhile ----

  /** Entry j of a log comes after a delete of the object it names. */
  ghost predicate AfterDelete(audit: seq<AuditEntry>, j: nat)
    requires j < |audit|
  {
    exists i :: 0 <= i < j && audit[i].action == Delete && audit[i].objectId == audit[j].objectId
  }

  ghost predicate EndsWithLateReveal(audit: seq<AuditEntry>, entry: AuditEntry)
  {
    audit != [] && audit[|audit| - 1] == entry && AfterDelete(audit, |audit| - 1)
  }

  lemma {:induction false} CountedIsThere(audit: seq<AuditEntry>, action: AuditAction, id: string)
    requires Count(audit, action, id) > 0
    ensures exists i :: 0 <= i < |audit| && audit[i].action == action && audit[i].objectId == id
  {
    var n := |audit| - 1;
    if audit[n].action != action || audit[n].objectId != id {
      CountedIsThere(audit[..n], action, id);
      var i :| 0 <= i < n && audit[..n][i].action == action && audit[..n][i].objectId == id;
      assert audit[i].action == action;
    }
  }

  /** The log of a reveal names an object after its shred exactly when the object was shredded by the
      time of the log, so exactly when it was between the read and the log. */
  lemma RevealFollowsShredExactlyWhen(at: World, q: RevealRequest, logged: seq<string>, j: nat)
    requires Inv(at) && j < |logged|
    ensures var audit := at.s.t.audit + RevealEntries(q.client, RevealAction(q.level), q.collection, logged);
      AfterDelete(audit, |at.s.t.audit| + j) <==> logged[j] in at.s.t.objects && at.s.t.objects[logged[j]].deleted
  {
    var n, id := |at.s.t.audit|, logged[j];
    var audit := at.s.t.audit + RevealEntries(q.client, RevealAction(q.level), q.collection, logged);
    assert AuditedExactly(at.s, id);
    assert audit[n + j].objectId == id && forall i :: n <= i < |audit| ==> audit[i].action != Delete;
    if Count(at.s.t.audit, Delete, id) > 0 {
      CountedIsThere(at.s.t.audit, Delete, id);
      var i :| 0 <= i < n && at.s.t.audit[i].action == Delete && at.s.t.audit[i].objectId == id;
      assert audit[i] == at.s.t.audit[i];
    } else {
      CountZeroMeansAbsent(at.s.t.audit, Delete, id);
    }
  }

  /** It happens to every object that can be revealed at all: it is shown, and the entry that says so
      stands after its delete. */
  method RevealWhileErased(server: Server, client: string, ref: Ref, mask: Mask, outage: Outage) returns (a: Answer)
    requires EnvelopeValid(server.store.env) && Inv(server.store.db.W()) && LiveRef(server.store.db.T(), ref)
    requires OpenRow(server.store.db.T(), server.store.env, outage, ref.id).Ok?
    requires Render(mask, ref.collection, OpenRow(server.store.db.T(), server.store.env, outage, ref.id).value,
        false).Some?
    modifies server, server.store.db
    ensures a.Revealed? && ref.id in a.objects
    ensures EndsWithLateReveal(server.store.db.W().s.t.audit, RevealEntry(client, RevealMasked, ref.collection, ref.id))
  {
    ghost var w := server.store.db.W();
    var q := RevealRequest(client, {ROLE_READ_MASKED}, ref.collection, [ref.id], "masked");
    var luck := Luck(outage, _ => false, false, false);
    OneIsRevealed(w.s.t, server.store.env, mask, q, luck, ref);
    ghost var at, logged;
    a, at, logged := server.RevealBatch(q, mask, luck, ErasedAt(0, client, ref));
    EndsAfterDelete(w, server.store.db.W(), q, a, at, logged, ref);
  }

  lemma OneIsRevealed(t: Tables, env: Envelope, mask: Mask, q: RevealRequest, luck: Luck, ref: Ref)
    requires LiveRef(t, ref) && q.ids == [ref.id] && q.collection == ref.collection && q.level == "masked"
        && q.roles == {ROLE_READ_MASKED}
    requires OpenRow(t, env, luck.outage, ref.id).Ok?
        && Render(mask, ref.collection, OpenRow(t, env, luck.outage, ref.id).value, false).Some?
    requires !luck.selectFails && !luck.logFails
    ensures Asked(t, q) == {ref.id} && RevealStatus(t, env, mask, q, luck) == None
  {
    assert Elements(q.ids) == {ref.id};
  }

  lemma EndsAfterDelete(w: World, w': World, q: RevealRequest, a: Answer, at: World, logged: seq<string>, ref: Ref)
    requires Inv(w) && LiveRef(w.s.t, ref) && q.ids == [ref.id] && a.Revealed? && a.objects.Keys == {ref.id}
    requires LoggedFirst(w, w', ErasedAt(0, q.client, ref), q, a, at, logged)
    ensures EndsWithLateReveal(w'.s.t.audit, RevealEntry(q.client, RevealAction(q.level), q.collection, ref.id))
  {
    ErasedNow(w, 0, q.client, ref);
    SingleOrder(logged, ref.id);
    LoggedAfterDelete(at, q, ref);
  }

  lemma LogOfOne(at: World, entry: AuditEntry)
    ensures CommitAndEmit(at, Log(at.s, [entry]), [entry]).s.t.audit == at.s.t.audit + [entry]
  {
    CommitEmits(at, Log(at.s, [entry]), [entry]);
  }

  lemma LoggedAfterDelete(at: World, q: RevealRequest, ref: Ref)
    requires Inv(at) && ref.id in at.s.t.objects && at.s.t.objects[ref.id].deleted
    ensures var entries := RevealEntries(q.client, RevealAction(q.level), q.collection, [ref.id]);
      var audit := CommitAndEmit(at, Log(at.s, entries), entries).s.t.audit;
      && audit == at.s.t.audit + [RevealEntry(q.client, RevealAction(q.level), q.collection, ref.id)]
      && AfterDelete(audit, |audit| - 1)
  {
    var entry := RevealEntry(q.client, RevealAction(q.level), q.collection, ref.id);
    assert RevealEntries(q.client, RevealAction(q.level), q.collection, [ref.id]) == [entry];
    LogOfOne(at, entry);
    RevealFollowsShredExactlyWhen(at, q, [ref.id], 0);
  }

  lemma SingleOrder(logged: seq<string>, id: string)
    requires InFirstOrder(logged, [id], {id})
    ensures logged == [id]
  {
    assert [id][..1] == [id] && [id][..0] == [];
    assert InFirstOrder([id], [id], {id});
    FirstOrderIsUnique(logged, [id], [id], {id});
  }

  /** A search through the API finds, under any spelling of a value, exactly the live objects that
      hold it: what Indexed made of an object when it was stored and what Normalize makes of the
      question meet in the blind index. */
  lemma AnySpellingFinds(s: State, schemas: Schema.Schemas, collection: string, obj: Schema.Object, order: seq<string>,
      id: string, field: string, query: string)
    requires StateInv(s) && s.h.secret.Some? && Live(s.t, id) && s.t.objects[id].collection == collection
        && id in s.h.values
    requires Schema.Accepted(schemas) && collection in schemas && Schema.ObjectValid(schemas, collection, obj)
        && Schema.NoClash(schemas[collection])
    requires Schema.IsOrder(order, schemas[collection].Keys)
        && s.h.values[id] == Schema.IndexedIn(schemas[collection], obj, order)
    requires Schema.Normalize(schemas, collection, field, query).Ok?
    ensures var (index, normalized) := Schema.Normalize(schemas, collection, field, query).value;
      id in SearchHits(s.t, s.h.secret.value.key, collection, index, normalized) <==>
        field in obj && obj[field].JString? && Schema.Matches(schemas[collection][field], obj[field].s, query)
  {
    var (index, normalized) := Schema.Normalize(schemas, collection, field, query).value;
    Schema.SearchMatchesStorage(schemas, collection, obj, order, field, query);
    SearchFindsExactlyTheLive(s, collection, index, normalized, id);
  }

  /** An object stored with an address is found under any spelling of that address, and under no
      other address. */
  lemma AnyAddressFinds(s: State, schemas: Schema.Schemas, collection: string, obj: Schema.Object, order: seq<string>,
      id: string, field: string, query: string)
    requires StateInv(s) && s.h.secret.Some? && Live(s.t, id) && s.t.objects[id].collection == collection
        && id in s.h.values
    requires Schema.Accepted(schemas) && collection in schemas && Schema.ObjectValid(schemas, collection, obj)
        && Schema.NoClash(schemas[collection])
    requires Schema.IsOrder(order, schemas[collection].Keys)
        && s.h.values[id] == Schema.IndexedIn(schemas[collection], obj, order)
    requires field in schemas[collection] && schemas[collection][field].typ == "email"
        && schemas[collection][field].index
    requires field in obj && obj[field].JString?
    ensures id in SearchHits(s.t, s.h.secret.value.key, collection, field, Emails.NormalizeEmail(query)) <==>
      Emails.SameAddress(obj[field].s, query)
  {
    assert Schema.FieldAccepted(schemas[collection][field]);
    Schema.NormalizeAnswersExactlyWhen(schemas, collection, field, query);
    AnySpellingFinds(s, schemas, collection, obj, order, id, field, query);
  }
}
