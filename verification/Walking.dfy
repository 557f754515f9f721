/** Walking the pages of a search by the cursor of each (client/client.go, SearchAfter;
    internal/api/api.go, search; internal/store/store.go, Search). */
module Walking {
  import opened Strings
  import opened Envelope
  import opened Tables
  import opened Vault
  import opened Guarantees
  import opened Paging
  import opened Rotation
  import opened Requests
  import opened Store
  import opened Api
  import Schema

  /** A full page and what comes after its last id are what comes after the cursor. */
  lemma PageSplits(s: set<string>, after: string, limit: nat)
    requires |Page(s, after, limit)| == limit > 0
    ensures Ascending(After(s, after)) == Page(s, after, limit) + Ascending(After(s, Page(s, after, limit)[limit - 1]))
  {
    var q := Page(s, after, limit);
    PageIsPrefix(s, after, limit);
    SplitIsAscending(s, after, q, Ascending(After(s, q[limit - 1])));
    AscendingIsUnique(Ascending(After(s, after)), q + Ascending(After(s, q[limit - 1])));
  }

  lemma SplitIsAscending(s: set<string>, after: string, q: seq<string>, rest: seq<string>)
    requires q != [] && IsAscending(q) && IsAscending(rest) && forall x :: x in rest <==> x in After(s, q[|q| - 1])
    requires forall x :: x in q ==> x in s && Less(after, x)
    requires forall x :: x in s && Less(after, x) && x !in q ==> forall y :: y in q ==> Less(y, x)
    ensures IsAscending(q + rest) && forall x :: x in q + rest <==> x in After(s, after)
  {
    var last := q[|q| - 1];
    assert last in q;
    assert forall i :: 0 <= i < |rest| ==> rest[i] in rest;
    forall i, j | 0 <= i < |q| && 0 <= j < |rest| ensures Less(q[i], rest[j]) {
      if i < |q| - 1 { LessTransitive(q[i], last, rest[j]); }
    }
    forall x | x in rest ensures x in After(s, after) { LessTransitive(after, last, x); }
  }

  /** On a fixed database: what is collected and what is past the cursor are all the hits. */
  ghost predicate FixedSoFar(hits: set<string>, all: seq<string>, after: string, requests: nat)
  {
    all + Ascending(After(hits, after)) == Ascending(hits) && |all| == SEARCH_PAGE * requests
  }

  lemma FixedNext(hits: set<string>, all: seq<string>, after: string, requests: nat, ids: seq<string>)
    requires FixedSoFar(hits, all, after, requests) && ids == Page(hits, after, SEARCH_PAGE)
    ensures |ids| == SEARCH_PAGE ==> FixedSoFar(hits, all + ids, ids[SEARCH_PAGE - 1], requests + 1)
    ensures |ids| < SEARCH_PAGE ==> all + ids == Ascending(hits) && requests == |hits| / SEARCH_PAGE
  {
    if |ids| == SEARCH_PAGE {
      PageSplits(hits, after, SEARCH_PAGE);
      Regroup(all, ids, Ascending(After(hits, ids[SEARCH_PAGE - 1])), Ascending(After(hits, after)), Ascending(hits));
    } else {
      ShortPage(hits, after, ids);
      LastPage(hits, all, ids, Ascending(hits), requests);
    }
  }

  lemma Regroup(all: seq<string>, ids: seq<string>, rest: seq<string>, tail: seq<string>, whole: seq<string>)
    requires all + tail == whole && tail == ids + rest
    ensures all + ids + rest == whole
  {
  }

  lemma LastPage(hits: set<string>, all: seq<string>, ids: seq<string>, whole: seq<string>, requests: nat)
    requires all + ids == whole && |whole| == |hits| && |all| == SEARCH_PAGE * requests && |ids| < SEARCH_PAGE
    ensures requests == |hits| / SEARCH_PAGE
  {
  }

  lemma ShortPage(hits: set<string>, after: string, ids: seq<string>)
    requires ids == Page(hits, after, SEARCH_PAGE) && |ids| != SEARCH_PAGE
    ensures ids == Ascending(After(hits, after)) && |ids| < SEARCH_PAGE
  {
  }

  lemma FixedStart(hits: set<string>)
    requires "" !in hits
    ensures FixedSoFar(hits, [], "", 0)
  {
    AllAreAfterEmpty(hits);
    assert [] + Ascending(hits) == Ascending(hits);
  }

  lemma AllAreAfterEmpty(hits: set<string>)
    requires "" !in hits
    ensures After(hits, "") == hits
  {
  }

  /** What a walk has collected so far, against the worlds that its requests saw. */
  ghost predicate Collected(all: seq<string>, after: string, seen: seq<World>, collection: string, field: string,
      value: string)
  {
    && IsAscending(all) && (forall x :: x in all ==> !Less(after, x))
    && SeenToHold(all, seen, collection, field, value)
    && (forall x :: HeldThroughout(seen, collection, field, value, x) && x != "" ==> x in all || Less(after, x))
  }

  ghost predicate HeldThroughout(seen: seq<World>, collection: string, field: string, value: string, id: string)
  {
    forall i :: 0 <= i < |seen| ==> Holds(seen[i].s, collection, field, value, id)
  }

  /** Every id came from a request that saw it match. */
  ghost predicate SeenToHold(all: seq<string>, seen: seq<World>, collection: string, field: string, value: string)
  {
    forall x :: x in all ==> exists i :: 0 <= i < |seen| && Holds(seen[i].s, collection, field, value, x)
  }

  /** Nothing that matches is missing. */
  ghost predicate Complete(all: seq<string>, seen: seq<World>, collection: string, field: string, value: string)
  {
    forall x :: HeldThroughout(seen, collection, field, value, x) && x != "" ==> x in all
  }

  lemma CollectNext(all: seq<string>, after: string, seen: seq<World>, ids: seq<string>, w: World, collection: string,
      field: string, value: string)
    requires Collected(all, after, seen, collection, field, value)
        && PageOfHits(ids, w.s, after, collection, field, value)
    ensures |ids| <= SEARCH_PAGE && IsAscending(all + ids)
    ensures SeenToHold(all + ids, seen + [w], collection, field, value)
    ensures |ids| == SEARCH_PAGE ==> Collected(all + ids, ids[SEARCH_PAGE - 1], seen + [w], collection, field, value)
    ensures |ids| < SEARCH_PAGE ==> Complete(all + ids, seen + [w], collection, field, value)
  {
    CollectedAscends(all, after, ids);
    CollectSeen(all, seen, ids, w, collection, field, value);
    forall x | HeldThroughout(seen + [w], collection, field, value, x) && x != ""
        ensures x in all + ids || (|ids| == SEARCH_PAGE && Less(ids[SEARCH_PAGE - 1], x)) {
      StillHeld(seen, w, collection, field, value, x);
      assert ids != [] ==> ids[|ids| - 1] in ids;
    }
  }

  /** A page past the cursor continues what was collected up to it. */
  lemma CollectedAscends(all: seq<string>, after: string, ids: seq<string>)
    requires IsAscending(all) && IsAscending(ids)
    requires (forall x :: x in all ==> !Less(after, x)) && (forall x :: x in ids ==> Less(after, x))
    ensures IsAscending(all + ids)
    ensures ids != [] ==> forall x :: x in all + ids ==> !Less(ids[|ids| - 1], x)
  {
    LessIsStrictTotalOrder();
    assert forall j :: 0 <= j < |ids| ==> ids[j] in ids;
    assert forall i :: 0 <= i < |all| ==> all[i] in all;
    forall i, j | 0 <= i < |all| && 0 <= j < |ids| ensures Less(all[i], ids[j]) { BeforeCursor(all[i], after, ids[j]); }
    if ids != [] {
      var last := ids[|ids| - 1];
      forall x | x in all + ids ensures !Less(last, x) {
        if x in all {
          NotAfter(x, after, last);
        } else {
          var j :| 0 <= j < |ids| && ids[j] == x;
          if j < |ids| - 1 { NotBoth(x, last); } else { LessIrreflexive(last); }
        }
      }
    }
  }

  lemma NotBoth(x: string, y: string)
    requires Less(x, y)
    ensures !Less(y, x)
  {
    if Less(y, x) {
      LessTransitive(x, y, x);
      LessIrreflexive(x);
    }
  }

  lemma NotAfter(x: string, after: string, last: string)
    requires !Less(after, x) && Less(after, last)
    ensures !Less(last, x)
  {
  }

  lemma BeforeCursor(x: string, after: string, y: string)
    requires !Less(after, x) && Less(after, y)
    ensures Less(x, y)
  {
  }

  lemma StillHeld(seen: seq<World>, w: World, collection: string, field: string, value: string, x: string)
    requires HeldThroughout(seen + [w], collection, field, value, x)
    ensures HeldThroughout(seen, collection, field, value, x) && Holds(w.s, collection, field, value, x)
  {
    assert (seen + [w])[|seen|] == w;
    forall i | 0 <= i < |seen| ensures Holds(seen[i].s, collection, field, value, x)
        { assert (seen + [w])[i] == seen[i]; }
  }

  lemma CollectSeen(all: seq<string>, seen: seq<World>, ids: seq<string>, w: World, collection: string, field: string,
      value: string)
    requires SeenToHold(all, seen, collection, field, value)
    requires forall x :: x in ids ==> Holds(w.s, collection, field, value, x)
    ensures SeenToHold(all + ids, seen + [w], collection, field, value)
  {
    forall x | x in all + ids
      ensures exists i :: 0 <= i < |seen + [w]| && Holds((seen + [w])[i].s, collection, field, value, x) {
      if x in all {
        var i :| 0 <= i < |seen| && Holds(seen[i].s, collection, field, value, x);
        assert (seen + [w])[i] == seen[i];
      } else {
        assert (seen + [w])[|seen|] == w;
      }
    }
  }

  lemma NoHitIsEmpty(s: State, key: Bytes, collection: string, field: string, value: string)
    requires StateInv(s) && s.h.secret.Some? && key == s.h.secret.value.key
    ensures "" !in SearchHits(s.t, key, collection, field, value)
  {
  }

  /** What the client asks of every page. */
  datatype Question = Question(client: string, roles: set<string>, collection: string, field: string, value: string)

  /** What happens to one of its requests. */
  datatype Fate = Fate(grants: nat -> bool, selectFails: bool, logFails: bool)

  /** The index that is searched and the value it is searched for, if the schema allows it. */
  function Index(schemas: Schema.Schemas, q: Question): (string, string)
  {
    var r := Schema.Normalize(schemas, q.collection, q.field, q.value);
    if r.Ok? then r.value else ("", "")
  }

  function StatusOf(schemas: Schema.Schemas, q: Question, after: string, fate: Fate): Option<nat>
  {
    SearchStatus(q.roles, fate.grants, after, Schema.Normalize(schemas, q.collection, q.field, q.value).Ok?,
        fate.selectFails || fate.logFails)
  }

  /** Nothing but a malformed cursor can stop the walk. */
  ghost predicate Welcome(schemas: Schema.Schemas, q: Question, fates: nat -> Fate)
  {
    && "search" in q.roles && Schema.Normalize(schemas, q.collection, q.field, q.value).Ok?
    && forall k :: fates(k).grants(1) && !fates(k).selectFails && !fates(k).logFails
  }

  /** All ids have the form that the store draws. */
  ghost predicate WellFormedIds(w: World) { forall id :: id in w.s.t.objects ==> IsTokenId(id) }

  ghost predicate DrawWellFormed(others: Others)
  {
    forall w, k: nat :: WellFormedIds(w) ==> WellFormedIds(others(w, k))
  }

  /** The entry of a search changes nothing else. */
  lemma SearchLogKeeps(w: World, client: string, collection: string, index: string)
    ensures var w' := WithSearchLogged(w, client, collection, index);
      && w'.s.t == w.s.t.(audit := w.s.t.audit + [SearchEntry(client, collection, index)]) && w'.s.h == w.s.h
      && (Inv(w) ==> Inv(w') && Follows(w, w'))
  {
    LogLands(w, [SearchEntry(client, collection, index)]);
  }

  /** A page of the store of w. */
  ghost predicate PageFrom(ids: seq<string>, w: World, key: Bytes, after: string, collection: string,
      index: (string, string))
  {
    && ids == SearchPage(w.s.t, key, collection, index.0, index.1, after)
    && PageOfHits(ids, w.s, after, collection, index.0, index.1)
  }

  lemma SearchPageIsPage(s: State, key: Bytes, after: string, collection: string, field: string, value: string)
    requires StateInv(s) && s.h.secret.Some? && key == s.h.secret.value.key
    ensures PageOfHits(SearchPage(s.t, key, collection, field, value, after), s, after, collection, field, value)
  {
    var hits := SearchHits(s.t, key, collection, field, value);
    PageIsPrefix(hits, after, SEARCH_PAGE);
    forall id ensures id in hits <==> Holds(s, collection, field, value, id) {
      SearchFindsExactlyTheLive(s, collection, field, value, id);
    }
  }

  /** Request k of a walk: the others act before it, and between its query and its log entry. */
  method NextPage(server: Server, q: Question, after: string, fate: Fate, others: Others, k: nat)
      returns (a: SearchAnswer, ghost at: World)
    requires server.store.Valid() && Rely(others)
    modifies server, server.store.db
    ensures server.store.Valid() && at == others(old(server.store.db.W()), 2 * k)
    ensures match StatusOf(server.schemas, q, after, fate)
            case Some(status) => a == SearchRefused(status)
            case None => a.Found? && PageFrom(a.ids, at, server.store.index, after, q.collection,
                Index(server.schemas, q))
                         && a.next == if |a.ids| == SEARCH_PAGE then Some(a.ids[SEARCH_PAGE - 1]) else None
    ensures a.Found? ==> SameRows(others(at, 2 * k + 1), server.store.db.W())
  {
    ghost var w := server.store.db.W();
    server.store.db.Interfere(others, 2 * k);
    at := server.store.db.W();
    assert Follows(w, at);
    StartedStays(w, at, server.store.env, server.store.index);
    ghost var later, index := others(at, 2 * k + 1), Index(server.schemas, q);
    assert Inv(later) && Follows(at, later);
    StartedStays(at, later, server.store.env, server.store.index);
    a := server.Search(q.client, q.roles, q.collection, q.field, q.value, after, fate.grants, fate.selectFails,
        fate.logFails, others, 2 * k + 1);
    if a.Found? {
      SearchLogKeeps(later, q.client, q.collection, index.0);
      SearchPageIsPage(at.s, server.store.index, after, q.collection, index.0, index.1);
      StartedStays(later, server.store.db.W(), server.store.env, server.store.index);
    }
  }

  /** Nothing changed that a search looks at. */
  ghost predicate SameRows(w: World, w': World) { w'.s.t.objects == w.s.t.objects && w'.s.t.index == w.s.t.index }

  /** What is walked: the question to the index, its answer if nothing else happens, and whether the
      walk must not be refused. */
  datatype Quest = Quest(collection: string, field: string, value: string, key: Bytes, fixed: bool, hits: set<string>,
      welcome: bool)

  function HitsOf(q: Quest, t: Tables): set<string> { SearchHits(t, q.key, q.collection, q.field, q.value) }

  /** Where a walk stands. */
  ghost predicate OnWalk(q: Quest, w: World, all: seq<string>, after: string, requests: nat, seen: seq<World>)
  {
    && |seen| == requests && Collected(all, after, seen, q.collection, q.field, q.value)
    && (q.fixed ==> HitsOf(q, w.s.t) == q.hits && FixedSoFar(q.hits, all, after, requests))
    && (q.welcome ==> WellFormedIds(w) && (after == "" || IsTokenId(after)))
  }

  ghost predicate Walked(q: Quest, all: seq<string>, requests: nat, seen: seq<World>)
  {
    && |seen| == requests && IsAscending(all)
    && SeenToHold(all, seen, q.collection, q.field, q.value) && Complete(all, seen, q.collection, q.field, q.value)
    && (q.fixed ==> all == Ascending(q.hits) && requests == |q.hits| / SEARCH_PAGE + 1)
  }

  lemma StartsOnWalk(q: Quest, w: World)
    requires "" !in q.hits && (q.fixed ==> HitsOf(q, w.s.t) == q.hits) && (q.welcome ==> WellFormedIds(w))
    ensures OnWalk(q, w, [], "", 0, [])
  {
    FixedStart(q.hits);
  }

  /** From a request that saw at to the world w' that it left. */
  lemma WalkGoesOn(q: Quest, w: World, at: World, w': World, all: seq<string>, after: string, requests: nat,
      seen: seq<World>, ids: seq<string>)
    requires OnWalk(q, w, all, after, requests, seen)
        && PageFrom(ids, at, q.key, after, q.collection, (q.field, q.value))
    requires (q.fixed ==> at == w && SameRows(at, w')) && (q.welcome ==> WellFormedIds(at) && WellFormedIds(w'))
    ensures |ids| == SEARCH_PAGE ==> OnWalk(q, w', all + ids, ids[SEARCH_PAGE - 1], requests + 1, seen + [at])
    ensures |ids| != SEARCH_PAGE ==> Walked(q, all + ids, requests + 1, seen + [at])
    ensures |ids| == SEARCH_PAGE ==> |After(at.s.t.objects.Keys, ids[SEARCH_PAGE - 1])| < |After(at.s.t.objects.Keys,
        after)|
  {
    CollectNext(all, after, seen, ids, at, q.collection, q.field, q.value);
    if q.fixed { FixedNext(q.hits, all, after, requests, ids); }
    if |ids| == SEARCH_PAGE {
      assert ids[SEARCH_PAGE - 1] in ids;
      FewerAhead(at.s.t.objects.Keys, after, ids[SEARCH_PAGE - 1]);
    }
  }

  /** Walk: ask for a page, continue after its last id while pages are full, with puts, shreds
      and everything else happening between the requests. No id comes twice, every id came
      from a request that saw it match, and every id that matched throughout a walk that came to
      its end comes. On a fixed database its pages are the ascending list of all n matches, in
      floor(n / 100) + 1 requests. A walk that role, schema, budget and luck allow comes to its end. */
  method Walk(server: Server, q: Question, fates: nat -> Fate, others: Others, ghost quiet: nat)
    returns (all: seq<string>, requests: nat, refused: Option<nat>, ghost seen: seq<World>)
    requires server.store.Valid() && Rely(others) && QuietFrom(others, quiet)
    modifies server, server.store.db
    ensures server.store.Valid() && IsAscending(all)
    ensures var index := Index(server.schemas, q);
      && SeenToHold(all, seen, q.collection, index.0, index.1)
      && (refused.None? ==> |seen| == requests && Complete(all, seen, q.collection, index.0, index.1))
      && (refused.None? && QuietFrom(others, 0) ==>
            var hits := SearchHits(old(server.store.db.T()), server.store.index, q.collection, index.0, index.1);
            all == Ascending(hits) && requests == |hits| / 100 + 1)
    ensures Welcome(server.schemas, q, fates) && old(WellFormedIds(server.store.db.W())) && DrawWellFormed(others)
        ==> refused.None?
  {
    ghost var w0, index := server.store.db.W(), Index(server.schemas, q);
    ghost var hits := SearchHits(w0.s.t, server.store.index, q.collection, index.0, index.1);
    ghost var quest := Quest(q.collection, index.0, index.1, server.store.index, QuietFrom(others, 0), hits,
                             Welcome(server.schemas, q, fates) && WellFormedIds(w0) && DrawWellFormed(others));
    NoHitIsEmpty(w0.s, server.store.index, q.collection, index.0, index.1);
    StartsOnWalk(quest, w0);
    all, requests, refused, seen := WalkPages(server, q, fates, others, quiet, quest);
  }

  /** The quest is about this walk. */
  ghost predicate Pursues(quest: Quest, server: Server, q: Question, fates: nat -> Fate, others: Others)
  {
    && quest.collection == q.collection && (quest.field, quest.value) == Index(server.schemas, q) && quest.key ==
      server.store.index
    && (quest.fixed ==> QuietFrom(others, 0)) && (quest.welcome ==>
      Welcome(server.schemas, q, fates) && DrawWellFormed(others))
  }

  /** One page of a walk. */
  method WalkPage(server: Server, q: Question, fates: nat -> Fate, others: Others, ghost quest: Quest,
                  ghost all: seq<string>, after: string, k: nat, ghost seen: seq<World>)
    returns (a: SearchAnswer, ghost at: World)
    requires server.store.Valid() && Rely(others) && Pursues(quest, server, q, fates, others)
    requires OnWalk(quest, server.store.db.W(), all, after, k, seen)
    modifies server, server.store.db
    ensures server.store.Valid()
    ensures quest.welcome ==> a.Found?
    ensures a.Found? && a.next.None? ==> Walked(quest, all + a.ids, k + 1, seen + [at])
    ensures a.Found? && a.next.Some?
        ==> OnWalk(quest, server.store.db.W(), all + a.ids, a.next.value, k + 1, seen + [at])
    ensures a.Found? && a.next.Some? && QuietFrom(others, 2 * k) ==>
      |After(server.store.db.objects.Keys, a.next.value)| < |After(old(server.store.db.objects).Keys, after)|
  {
    ghost var w := server.store.db.W();
    a, at := NextPage(server, q, after, fates(k), others, k);
    if a.Found? { WalkGoesOn(quest, w, at, server.store.db.W(), all, after, k, seen, a.ids); }
  }

  method WalkPages(server: Server, q: Question, fates: nat -> Fate, others: Others, ghost quiet: nat,
      ghost quest: Quest)
    returns (all: seq<string>, requests: nat, refused: Option<nat>, ghost seen: seq<World>)
    requires server.store.Valid() && Rely(others) && QuietFrom(others, quiet)
        && Pursues(quest, server, q, fates, others)
    requires OnWalk(quest, server.store.db.W(), [], "", 0, [])
    modifies server, server.store.db
    ensures server.store.Valid() && IsAscending(all)
        && SeenToHold(all, seen, quest.collection, quest.field, quest.value)
    ensures refused.None? ==> Walked(quest, all, requests, seen)
    ensures quest.welcome ==> refused.None?
  {
    all, requests, refused, seen := [], 0, None, [];
    var after := "";
    while true
      invariant server.store.Valid() && OnWalk(quest, server.store.db.W(), all, after, requests, seen)
      decreases if 2 * requests < quiet then quiet - 2 * requests else 0, |After(server.store.db.objects.Keys, after)|
    {
      var a;
      ghost var at;
      a, at := WalkPage(server, q, fates, others, quest, all, after, requests, seen);
      if a.SearchRefused? { return all, requests + 1, Some(a.status), seen; }
      all, requests, seen := all + a.ids, requests + 1, seen + [at];
      if a.next.None? { return; }
      after := a.next.value;
    }
  }
}
