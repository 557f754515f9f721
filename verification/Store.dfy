/** The store (internal/store/store.go): every method statement by statement against the
    tables, with the other processes acting between statements where the source allows it. */
module Store {
  import opened Strings
  import opened Identity
  import opened Envelope
  import opened Tables
  import opened Vault
  import opened Guarantees
  import opened Paging
  import opened Rotation
  import opened Simulation
  import opened Courses
  import opened Reindexing
  import opened Rebuilding
  import opened ReindexSimulation
  import opened Erasure
  import opened Requests
  import opened Database

  class Store {
    const db: Database
    const env: Envelope
    const index: Bytes

    constructor (db: Database, env: Envelope, index: Bytes)
      ensures this.db == db && this.env == env && this.index == index
    {
      this.db, this.env, this.index := db, env, index;
    }

    /** The database is good, and this store has started on it. */
    ghost predicate Valid()
      reads this, db
    {
      db.Valid() && Started(db.history, env) && db.history.secret.Some? && index == db.history.secret.value.key
    }

    /** Every process seals and rotates to the wrapper of this store. */
    ghost predicate Shared()
      reads this, db
    {
      Valid() && ProcsUnder(db.procs, env.current.id)
    }

    /** Rotate, for one row copy: re-wrap it in memory, then the guarded UPDATE. */
    method RotateRow(row: PageRow, others: Others, net: nat -> Outage, k: nat) returns (outcome: Outcome, k': nat)
      modifies db
      ensures RotateRowResult(old(db.W()), env, others, net, k, row) == RowResult(db.W(), k', outcome)
    {
      db.Interfere(others, k);
      k' := k + 1;
      match Rewrap(env, db.engines, net(k), row.sealed, AadOf(row.target)) {
        case Err(e) => outcome := Failed(e);
        case Ok((re, changed)) =>
          if changed {
            db.Interfere(others, k');
            k' := k' + 1;
            if DATABASE in net(k + 1) { outcome := Failed(ErrStatement); return; }
            var affected := db.UpdateKey(Held(row.target, row.sealed.keyId, re));
            outcome := Written(affected == 1);
          } else {
            outcome := Unchanged;
          }
      }
    }

    /** The rows of one page, one after the other. */
    method RotateRows(page: seq<PageRow>, others: Others, net: nat -> Outage, k: nat, rotated: nat, skipped: nat,
        last: string)
      returns (rotated': nat, skipped': nat, last': string, k': nat, err: Option<Error>)
      requires ObjectRows(page)
      modifies db
      ensures AfterRows(env, others, net, Progress(old(db.W()), k, rotated, skipped, last, None), page)
           == Progress(db.W(), k', rotated', skipped', last', err)
    {
      ghost var start := Progress(db.W(), k, rotated, skipped, last, None);
      rotated', skipped', last', k', err := rotated, skipped, last, k, None;
      for i := 0 to |page|
        invariant AfterRows(env, others, net, Progress(db.W(), k', rotated', skipped', last', None), page[i..]) ==
            AfterRows(env, others, net, start, page)
      {
        ghost var a := Progress(db.W(), k', rotated', skipped', last', None);
        AfterRowsStep(env, others, net, a, page, i);
        last' := page[i].target.ref.id;
        var outcome;
        outcome, k' := RotateRow(page[i], others, net, k');
        match outcome {
          case Written(affected) => if affected { rotated' := rotated' + 1; }
          case Unchanged =>
          case Failed(e) =>
            if Stops(e) { err := Some(e); return; }
            skipped' := skipped' + 1;
        }
        assert Progress(db.W(), k', rotated', skipped', last', None) == AfterRow(env, others, net, a, page[i]);
      }
    }

    function ErrorOf(e: Error): StoreError { if e == ErrStatement then StatementFailed else Sealing(e) }

    /** Nothing but this run happens, and everything answers. */
    ghost predicate Alone(others: Others, net: nat -> Outage) { QuietFrom(others, 0) && forall n :: net(n) == {} }

    /** Rotate, between whatever the others do; quiet is the statement from which on they are
        done. It keeps the invariant and the past. When everybody shares the current wrapper, a run
        that ends without an error and skips nothing leaves no live row, and no index key, that
        needs another one. Alone, it handles the index key and every row exactly once, touches
        nothing else, and returns exactly what it moved and skipped. */
    method RotateAmong(others: Others, ghost quiet: nat, net: nat -> Outage, ghost trace: Option<Tracer>)
        returns (rotated: nat, skipped: nat, err: Option<StoreError>)
      requires EnvelopeValid(env) && QuietFrom(others, quiet)
      modifies db
      ensures Rely(others) && old(Valid()) ==> Valid() && Follows(old(db.W()), db.W())
      ensures Rely(others) && RelyUnder(others, env.current.id) && old(Shared()) && err.None? ==>
        ProcsUnder(db.procs, env.current.id) && (skipped == 0 ==> AllUnder(db.T(), env.current.id))
      ensures Alone(others, net) && err.None? && "" !in old(db.objects) ==>
        && db.engines == old(db.engines) && RotatedAll(env, old(db.engines), old(db.T()), db.T())
        && skipped == |AllSkipped(env, old(db.engines), old(db.T()))|
        && rotated == |AllMoved(env, old(db.engines), old(db.T()))| + if KeyMoves(env, old(db.W())) then 1 else 0
      ensures Alone(others, net) && "" !in old(db.objects) ==> (err.Some? <==> KeyIsBad(env, old(db.W())))
      ensures Alone(others, net) && old(Valid()) ==>
        RenewsAlone(env, old(db.engines), old(db.T()), db.T(), rotated, skipped, err.None?)
      ensures Rely(others) && RelyHeld(others, env) && old(Valid() && HoldsCurrents(env, db.W())) ==>
        ((forall n :: net(n) == {}) ==> err.None?) && (err.None? ==> skipped == 0)
      ensures trace.Some? && MayTrace(trace.value, others, old(db.W())) && err.None?
          ==> RanAs(trace.value, env, old(db.W()), db.W())
    {
      ghost var m := TermsOf(db.W(), env, index, others, net, trace);
      TermsOfHold(db.W(), env, index, others, net, trace);
      ghost var good := Valid();
      if good { StartedHasKey(m.w0); }
      rotated, skipped, err := RotateOn(others, quiet, net, m);
      if m.alone && good { RotatedIsRenewed(m.w0, env, db.T(), rotated, skipped, err.None?); }
      if m.good { StartedStays(m.w0, db.W(), env, index); }
    }

    /** Retire every other wrapper: after a rotation that skips nothing, while everybody seals and
        rotates to the current one, an envelope over that one alone opens every live row and the index
        key now, and after whatever happens later. */
    method RetireAfterRotate(sched: Schedule, net: nat -> Outage, ghost p: nat)
        returns (alone: Envelope, rotated: nat, skipped: nat, err: Option<StoreError>)
      requires Shared() && ScheduleUnder(sched, env.current.id)
      modifies db
      ensures Valid() && alone.current == env.current && alone.all.Keys == {env.current.id}
      ensures err.None? && skipped == 0 ==> forall later ::
        ActionsUnder(later, env.current.id) ==> OpensEverything(Run(db.W(), later).s, alone)
      ensures ScheduleHeld(sched, env) && old(HoldsCurrents(env, db.W())) && (forall n :: net(n) == {})
          ==> err.None? && skipped == 0
    {
      alone := New(env.current, []);
      OnlyCurrent(alone);
      rotated, skipped, err := Rotate(sched, net, p);
      if err.None? && skipped == 0 {
        forall later | ActionsUnder(later, env.current.id) ensures OpensEverything(Run(db.W(), later).s, alone) {
          RetiredForGood(db.W(), env.current, later);
        }
      }
    }

    /** Rotate, on terms that name what the world promises. */
    method RotateOn(others: Others, ghost quiet: nat, net: nat -> Outage, ghost m: Terms)
        returns (rotated: nat, skipped: nat, err: Option<StoreError>)
      requires EnvelopeValid(env) && QuietFrom(others, quiet) && TermsHold(m, env, others, net) && TermsStart(m, env)
      requires m.w0 == db.W() && m.base == if KeyMoves(env, m.w0) then 1 else 0
      modifies db
      ensures m.good ==> Inv(db.W()) && Follows(m.w0, db.W())
      ensures err.None? ==> Achieved(m, env, Progress(db.W(), 0, rotated, skipped, "", None))
      ensures m.alone ==> (err.Some? <==> KeyIsBad(env, m.w0))
      ensures m.held && (forall n :: net(n) == {}) ==> err.None?
    {
      skipped := 0;
      var k;
      rotated, k, err := RotateIndexKey(others, net, m);
      if err.Some? { return; }
      OnCourseFrom(m, env, Progress(db.W(), k, rotated, 0, "", None));
      rotated, skipped, err := RotateObjects(others, quiet, net, k, rotated, m);
    }

    /** A second rotation right after the first, with nobody else around, moves nothing, skips the
        same rows and leaves the tables as the first one left them. */
    method RotateTwice(others: Others, net: nat -> Outage)
      returns (rotated: nat, skipped: nat, again: nat, skippedAgain: nat, err: Option<StoreError>,
          ghost between: Tables)
      requires EnvelopeValid(env) && Alone(others, net) && "" !in db.objects
      modifies db
      ensures err.Some? <==> KeyIsBad(env, old(db.W()))
      ensures err.None? ==> again == 0 && skippedAgain == skipped
      ensures err.None? ==> RotatedAll(env, old(db.engines), old(db.T()), between) && db.T() == between
    {
      ghost var t0, engines := db.T(), db.engines;
      rotated, skipped, err := RotateAmong(others, 0, net, None);
      again, skippedAgain, between := 0, 0, db.T();
      if err.Some? { return; }
      SecondRotationIsIdle(env, engines, t0, between);
      again, skippedAgain, err := RotateAmong(others, 0, net, None);
      if err.None? { IdleRotationKeeps(env, engines, between, db.T()); }
    }

    /** Rotate among any interleaving of other processes. It is a run of one more process of the step
        machine, with what the others do woven in. */
    method Rotate(sched: Schedule, net: nat -> Outage, ghost p: nat)
        returns (rotated: nat, skipped: nat, err: Option<StoreError>)
      requires Valid()
      modifies db
      ensures Valid() && Follows(old(db.W()), db.W())
      ensures ScheduleUnder(sched, env.current.id) && old(Shared()) && err.None? ==>
        ProcsUnder(db.procs, env.current.id) && (skipped == 0 ==> AllUnder(db.T(), env.current.id))
      ensures p !in old(db.procs) && ForeignSchedule(sched, p) && err.None?
          ==> RanAs(Tracer(sched, p, index), env, old(db.W()), db.W())
      ensures ScheduleHeld(sched, env) && old(HoldsCurrents(env, db.W())) ==>
        ((forall n :: net(n) == {}) ==> err.None?) && (err.None? ==> skipped == 0)
      ensures sched == [] && (forall n :: net(n) == {}) ==>
        RenewsAlone(env, old(db.engines), old(db.T()), db.T(), rotated, skipped, err.None?)
    {
      ScheduleIsRely(sched, env.current.id);
      if ScheduleHeld(sched, env) { ScheduleIsHeld(sched, env); }
      rotated, skipped, err := RotateAmong(OthersOf(sched), |sched|, net, Some(Tracer(sched, p, index)));
    }

    /** The second part of Rotate: every object, page by page. */
    method RotateObjects(others: Others, ghost quiet: nat, net: nat -> Outage, k0: nat, moved: nat, ghost m: Terms)
      returns (rotated: nat, skipped: nat, err: Option<StoreError>)
      requires EnvelopeValid(env) && QuietFrom(others, quiet) && TermsHold(m, env, others, net)
      requires OnCourse(m, env, Progress(db.W(), k0, moved, 0, "", None))
      modifies db
      ensures m.good ==> Inv(db.W()) && Follows(m.w0, db.W())
      ensures err.None? ==> Achieved(m, env, Progress(db.W(), 0, rotated, skipped, "", None))
      ensures MustEnd(m, net) ==> err.None?
    {
      rotated, skipped, err := moved, 0, None;
      var k: nat, last, more := k0, "", true;
      while more
        invariant err.None? && UnderWay(m, env, more, Progress(db.W(), k, rotated, skipped, last, None))
        decreases more, if k < quiet then quiet - k else 0, |After(db.objects.Keys, last)|
      {
        more, rotated, skipped, last, k, err := RotatePage(others, net, k, rotated, skipped, last, m);
        if err.Some? { return; }
      }
      AchievedIs(m, env, Progress(db.W(), k, rotated, skipped, last, None), 0, "");
    }

    /** One page of Rotate; more says that it was not the last, empty one. */
    method RotatePage(others: Others, net: nat -> Outage, k: nat, rotated: nat, skipped: nat, last: string,
        ghost m: Terms)
      returns (more: bool, rotated': nat, skipped': nat, last': string, k': nat, err: Option<StoreError>)
      requires EnvelopeValid(env) && TermsHold(m, env, others, net)
          && OnCourse(m, env, Progress(db.W(), k, rotated, skipped, last, None))
      modifies db
      ensures m.good ==> Inv(db.W()) && Follows(m.w0, db.W())
      ensures err.None? ==> UnderWay(m, env, more, Progress(db.W(), k', rotated', skipped', last', None))
      ensures err.None? && more ==> k' > k
      ensures err.None? && more && QuietFrom(others, k)
          ==> |After(db.objects.Keys, last')| < |After(old(db.objects).Keys, last)|
      ensures MustEnd(m, net) ==> err.None?
    {
      InterferenceStaysOnCourse(m, env, others, net, Progress(db.W(), k, rotated, skipped, last, None));
      db.Interfere(others, k);
      if DATABASE in net(k) { return true, rotated, skipped, last, k + 1, Some(StatementFailed); }
      more, rotated', skipped', last', k', err := RotateSelected(others, net, k + 1, rotated, skipped, last, m);
    }

    method RotateSelected(others: Others, net: nat -> Outage, k: nat, rotated: nat, skipped: nat, last: string,
        ghost m: Terms)
      returns (more: bool, rotated': nat, skipped': nat, last': string, k': nat, err: Option<StoreError>)
      requires EnvelopeValid(env) && TermsHold(m, env, others, net)
          && OnCourse(m, env, Progress(db.W(), k, rotated, skipped, last, None))
      modifies db
      ensures m.good ==> Inv(db.W()) && Follows(m.w0, db.W())
      ensures err.None? ==> UnderWay(m, env, more, Progress(db.W(), k', rotated', skipped', last', None))
      ensures err.None? && more ==> k' >= k
      ensures err.None? && more && QuietFrom(others, k)
          ==> |After(db.objects.Keys, last')| < |After(old(db.objects).Keys, last)|
      ensures MustEnd(m, net) ==> err.None?
    {
      more, rotated', skipped', last', k', err := true, rotated, skipped, last, k, None;
      ghost var b := Progress(db.W(), k, rotated, skipped, last, None);
      var page, ids := SelectToRotate(last);
      assert PageToRotate(env, b, page, ids);
      if page == [] {
        LastPageAchieves(m, env, b, page, ids);
        more := false;
        return;
      }
      PageTurn(m, env, others, net, b, page, ids);
      var failure;
      rotated', skipped', last', k', failure := RotateRows(page, others, net, k, rotated, skipped, last);
      if failure.Some? { err := Some(ErrorOf(failure.value)); }
    }

    /** The next page of rows to re-wrap. */
    method SelectToRotate(last: string) returns (page: seq<PageRow>, ghost ids: seq<string>)
      ensures PageOf(page, ids, db.T(), ToRotate(db.T(), env), last)
          && page == ReadPage(db.T(), ToRotate(db.T(), env), last)
    {
      var matching := ToRotate(db.T(), env);
      page := ReadPage(db.T(), matching, last);
      ids := Page(matching, last, PAGE_ROWS);
      ReadPageIsPage(db.T(), matching, last);
    }

    /** The first part of Rotate: the blind-index key. */
    method RotateIndexKey(others: Others, net: nat -> Outage, ghost m: Terms)
        returns (rotated: nat, k: nat, err: Option<StoreError>)
      requires EnvelopeValid(env) && TermsHold(m, env, others, net) && TermsStart(m, env) && m.w0 == db.W()
      modifies db
      ensures m.good ==> Inv(db.W()) && Follows(m.w0, db.W())
      ensures err.None? ==> OnCourse(m.(base := rotated), env, Progress(db.W(), k, rotated, 0, "", None))
      ensures m.alone ==> (err.Some? <==> KeyIsBad(env, m.w0)) && rotated == if KeyMoves(env, m.w0) then 1 else 0
      ensures m.held && (forall n :: net(n) == {}) ==> err.None?
    {
      if m.held { KeyRowIsThere(m, env, others, net); }
      rotated, k, err := 0, 1, None;
      db.Interfere(others, 0);
      if DATABASE in net(0) { err := Some(StatementFailed); return; }
      if db.keys.None? { err := Some(NotFound); return; }
      KeyRowStaysOnCourse(m, env, others, net);
      var outcome;
      outcome, k := RotateRow(PageRow(KeyTarget, db.keys.value), others, net, 1);
      match outcome {
        case Written(affected) => if affected { rotated := 1; }
        case Unchanged =>
        case Failed(e) => err := Some(ErrorOf(e));
      }
    }

    /** rewriteIndex: one transaction that locks the row, drops its index rows and inserts
        new ones, field by field in any order; nothing happens to a shredded object. */
    method RewriteIndex(c: Reindexer, ref: Ref, values: map<string, string>) returns (err: Option<StoreError>)
      requires c.key == index
      modifies db
      ensures ref.id !in old(db.objects) ==> err == Some(NotFound) && db.W() == old(db.W())
      ensures ref.id in old(db.objects) ==> err == None && db.W() == RewriteTx(old(db.W()), c, ref, values)
    {
      if ref.id !in db.objects { return Some(NotFound); }
      err := None;
      if db.objects[ref.id].deleted { return; }
      var rows := WithoutIndexRows(db.blindIndex, ref.collection, ref.id);
      rows := InsertIndexRows(rows, ref.collection, ref.id, values);
      var entry := ReindexEntry(c.actor, ref);
      var t := db.T().(index := rows, audit := db.auditLog + [entry]);
      db.CommitTx(State(t, db.history.(values := db.history.values[ref.id := values])));
      db.EmitEntries([entry]);
    }

    /** The index rows of an object, inserted one by one in any order of the fields. */
    method InsertIndexRows(rows: set<IndexRow>, collection: string, id: string, values: map<string, string>)
        returns (rows': set<IndexRow>)
      ensures rows' == rows + IndexRows(index, collection, id, values)
    {
      rows' := rows;
      var left := values.Keys;
      while left != {}
        invariant left <= values.Keys
        invariant forall r :: r in rows' <==>
          r in rows || (r in IndexRows(index, collection, id, values) && r.field !in left)
      {
        var field :| field in left;
        rows' := rows' + {IndexRowOf(index, collection, id, field, values[field])};
        left := left - {field};
      }
      assert forall r :: r in rows' <==> r in rows + IndexRows(index, collection, id, values);
    }

    /** One row copy of Reindex: open it, index it, rewrite its index rows. */
    method ReindexRow(c: Reindexer, row: PageRow, others: Others, net: nat -> Outage, k: nat, done: nat, skipped: nat,
                      ghost last: string, ghost trail: Trail)
      returns (done': nat, skipped': nat, k': nat, err: Option<StoreError>, ghost trail': Trail)
      requires row.target.ObjectTarget? && c.env == env && c.key == index
      modifies db
      ensures AfterReindexRow(c, others, net, Tally(old(db.W()), k, done, skipped, last, None, trail), row)
           == Tally(db.W(), k', done', skipped', row.target.ref.id, err, trail')
    {
      ghost var a := Tally(db.W(), k, done, skipped, last, None, trail);
      var ref := row.target.ref;
      RowIs(c, others, net, a, row);
      done', skipped', k', err, trail' := done, skipped, k, None, trail;
      match Open(env, net(k), row.sealed, AadOf(row.target)) {
        case Err(e) =>
          if Stops(e) { err := Some(Sealing(e)); return; }
          skipped', trail' := skipped + 1, AfterSkip(a, row).trail;
        case Ok(plaintext) =>
          match c.indexed(ref.collection, plaintext) {
            case None => skipped', trail' := skipped + 1, AfterSkip(a, row).trail;
            case Some(values) =>
              db.Interfere(others, k);
              k' := k + 1;
              if DATABASE in net(k) { err := Some(StatementFailed); return; }
              ghost var found := TrailOf(trail, db.W(), ref);
              err := RewriteIndex(c, ref, values);
              if err.None? { done', trail' := done + 1, found; }
          }
      }
    }

    /** The rows of one page, one after the other. */
    method ReindexRows(c: Reindexer, page: seq<PageRow>, others: Others, net: nat -> Outage, k: nat, done: nat,
        skipped: nat, last: string, ghost trail: Trail)
      returns (done': nat, skipped': nat, last': string, k': nat, err: Option<StoreError>, ghost trail': Trail)
      requires ObjectRows(page) && c.env == env && c.key == index
      modifies db
      ensures AfterReindexRows(c, others, net, Tally(old(db.W()), k, done, skipped, last, None, trail), page)
           == Tally(db.W(), k', done', skipped', last', err, trail')
    {
      ghost var start := Tally(db.W(), k, done, skipped, last, None, trail);
      done', skipped', last', k', err, trail' := done, skipped, last, k, None, trail;
      for i := 0 to |page|
        invariant err.None?
        invariant AfterReindexRows(c, others, net, Tally(db.W(), k', done', skipped', last', None, trail'), page[i..])
               == AfterReindexRows(c, others, net, start, page)
      {
        AfterReindexRowsStep(c, others, net, Tally(db.W(), k', done', skipped', last', None, trail'), page, i);
        ghost var before := last';
        last' := page[i].target.ref.id;
        done', skipped', k', err, trail' := ReindexRow(c, page[i], others, net, k', done', skipped', before, trail');
        if err.Some? { return; }
      }
      assert page[|page|..] == [];
    }

    /** The next page of rows to index. */
    method SelectToReindex(filter: string, last: string) returns (page: seq<PageRow>, ghost ids: seq<string>)
      ensures PageOf(page, ids, db.T(), ToReindex(db.T(), filter), last)
          && page == ReadPage(db.T(), ToReindex(db.T(), filter), last)
    {
      var matching := ToReindex(db.T(), filter);
      page := ReadPage(db.T(), matching, last);
      ids := Page(matching, last, PAGE_ROWS);
      ReadPageIsPage(db.T(), matching, last);
    }

    /** Reindex, between whatever the others do; quiet is the statement from which on they are
        done. Whatever happens, each row is counted once: skipped rows are those of trail.missed, done
        ones those of trail.checks, which were live when read, and of these the ones that were still
        live when their transaction looked were rewritten. A row is skipped only if it names a wrapper
        that is not held or holds what the schema cannot read. If nobody else reindexes, or all who do
        go by the same schema, a run that ends leaves every other object in scope that was live from
        start to end with the values of the current schema. If nobody else does, also a run that stops
        changes the values of no skipped and no out-of-scope object, the new reindex entries of the log
        are its own, and their number is done exactly when no object was shredded between the read
        of its page and its transaction. Alone, it rewrites exactly what can be read. */
    method ReindexAmong(c: Reindexer, filter: string, others: Others, ghost quiet: nat, net: nat -> Outage)
      returns (done: nat, skipped: nat, err: Option<StoreError>, ghost trail: Trail, ghost seen: seq<World>,
          ghost pages: nat)
      requires c.env == env && c.key == index && QuietFrom(others, quiet)
      modifies db
      ensures EndsAs(AfterPages(c, others, net, filter, FromStart(old(db.W())), pages), db.W(), done, skipped, err,
          trail)
      ensures skipped == |trail.missed| && done == |trail.checks| && Lists(Ids(trail.own), FoundLive(trail.checks))
      ensures Rely(others) && old(Valid()) ==>
        Valid() && Rebuilds(c, old(db.W()), db.W(), filter, others, seen, trail, done, err)
      ensures Alone(others, net) && "" !in old(db.objects) ==>
        err.None? && RewroteAll(c, old(db.W()).s, db.W().s, trail, done, skipped, filter)
      ensures Alone(others, net) && old(Valid()) ==>
        err.None? && ReindexedAlone(c, old(db.W()).s, db.W().s, filter, done, skipped)
    {
      ghost var m := MandateOf(db.W(), c, filter, others, net);
      MandateOfHolds(db.W(), c, filter, others, net);
      ghost var z;
      done, skipped, err, trail, seen, z, pages := ReindexPages(c, filter, others, quiet, net, m);
      if m.good { StartedStays(m.w0, db.W(), env, index); }
      MandateGrants(m, c, filter, others, net, seen, z, err);
    }

    /** How a run ended. */
    ghost predicate EndsAs(end: Turn, w: World, done: nat, skipped: nat, err: Option<StoreError>, trail: Trail)
    {
      && end.a.w == w && end.a.done == done && end.a.skipped == skipped && end.a.err == err && end.a.trail == trail
      && (err.None? ==> !end.more)
    }

    method ReindexPages(c: Reindexer, filter: string, others: Others, ghost quiet: nat, net: nat -> Outage,
        ghost m: Mandate)
      returns (done: nat, skipped: nat, err: Option<StoreError>, ghost trail: Trail, ghost seen: seq<World>,
          ghost z: Tally, ghost pages: nat)
      requires c.env == env && c.key == index && QuietFrom(others, quiet) && MandateHolds(m, c, others, net)
          && m.filter == filter
      requires m.w0 == db.W() && (m.good ==> db.Valid()) && (m.same ==> PendingRight(c, m.w0))
          && (m.alone ==> "" !in m.w0.s.t.objects)
      modifies db
      ensures Safe(m, c, seen, z) && z.w == db.W() && z.done == done && z.skipped == skipped && z.trail == trail
      ensures AfterPages(c, others, net, filter, FromStart(m.w0), pages).a == z && z.err == err
      ensures err.None? ==> !AfterPages(c, others, net, filter, FromStart(m.w0), pages).more
      ensures err.None? ==> Finished(m, c, Tally(db.W(), 0, done, skipped, "", None, trail))
      ensures m.alone ==> err.None?
    {
      done, skipped, err, trail, seen, pages := 0, 0, None, NO_TRAIL, [], 0;
      var k: nat, last, more := 0, "", true;
      StartsUnderway(m, c);
      z := FromStart(db.W());
      while more
        invariant err.None? && z == Tally(db.W(), k, done, skipped, last, None, trail)
        invariant AfterPages(c, others, net, filter, FromStart(m.w0), pages) == Turn(more, z)
        invariant Stands(m, c, seen, Turn(more, z))
        decreases more, if k < quiet then quiet - k else 0, |After(db.objects.Keys, last)|
      {
        AfterPagesNext(c, others, net, filter, FromStart(m.w0), pages, z);
        PageTurns(m, c, others, net, seen, z);
        seen := SeenAfter(others, net, filter, z, seen);
        more, done, skipped, last, k, err, trail := ReindexPage(c, filter, others, net, k, done, skipped, last, trail);
        z, pages := Tally(db.W(), k, done, skipped, last, err, trail), pages + 1;
        if err.Some? { return; }
      }
    }

    /** One page of Reindex; more says that it was not the last, empty one. */
    method ReindexPage(c: Reindexer, filter: string, others: Others, net: nat -> Outage, k: nat, done: nat,
        skipped: nat, last: string, ghost trail: Trail)
      returns (more: bool, done': nat, skipped': nat, last': string, k': nat, err: Option<StoreError>,
          ghost trail': Trail)
      requires c.env == env && c.key == index
      modifies db
      ensures Turn(more, Tally(db.W(), k', done', skipped', last', err, trail')) ==
        AfterPage(c, others, net, filter, Tally(old(db.W()), k, done, skipped, last, None, trail))
    {
      AfterPageIs(c, others, net, filter, Tally(db.W(), k, done, skipped, last, None, trail));
      db.Interfere(others, k);
      if DATABASE in net(k) { return true, done, skipped, last, k + 1, Some(StatementFailed), trail; }
      more, done', skipped', last', k', err, trail' := true, done, skipped, last, k + 1, None, trail;
      var page, _ := SelectToReindex(filter, last);
      AfterSelectIs(c, others, net, filter, Tally(db.W(), k + 1, done, skipped, last, None, trail), page);
      if page == [] { return false, done, skipped, last, k + 1, None, trail; }
      done', skipped', last', k', err, trail' := ReindexRows(c, page, others, net, k + 1, done, skipped, last, trail);
    }

    /** Reindex among any interleaving of other processes, none of which reindexes, or all of
        which do so by the same schema. It is a run of one more process of the step machine, with what
        the others do woven in. */
    method ReindexObjects(c: Reindexer, filter: string, sched: Schedule, net: nat -> Outage, ghost p: nat)
      returns (done: nat, skipped: nat, err: Option<StoreError>, ghost trail: Trail, ghost seen: seq<World>,
          ghost pages: nat)
      requires Valid() && c.env == env && c.key == index
      modifies db
      ensures EndsAs(AfterPages(c, OthersOf(sched), net, filter, FromStart(old(db.W())), pages), db.W(), done, skipped,
          err, trail)
      ensures skipped == |trail.missed| && done == |trail.checks| && Lists(Ids(trail.own), FoundLive(trail.checks))
      ensures Valid() && Follows(old(db.W()), db.W()) && Accounted(c, old(db.W()), db.W(), seen, trail)
      ensures (NoOtherReindexer(sched) || (OneSchema(c, sched) && PendingRight(c, old(db.W())))) && err.None? ==>
        AllIndexedBut(c, old(db.W()), db.W(), trail.missed.Keys, filter)
      ensures sched == [] && (forall n :: net(n) == {}) ==>
        err.None? && ReindexedAlone(c, old(db.W()).s, db.W().s, filter, done, skipped)
      ensures NoOtherReindexer(sched) ==>
        && OnlyIndexed(c, old(db.W()), db.W(), trail.missed.Keys, filter)
        && OnlyOwnEntries(c, old(db.auditLog), db.auditLog, done, trail)
      ensures p !in old(db.procs) && ForeignSchedule(sched, p) ==> RanAsWorker(sched, p, c, old(db.W()), db.W())
    {
      ghost var w0 := db.W();
      ScheduleIsRely(sched, "");
      if NoOtherReindexer(sched) {
        ScheduleKeepsValues(sched);
        ScheduleLogsNoReindex(sched);
      }
      if OneSchema(c, sched) { ScheduleIsOfOneSchema(c, sched); }
      done, skipped, err, trail, seen, pages := ReindexAmong(c, filter, OthersOf(sched), |sched|, net);
      if p !in w0.procs && ForeignSchedule(sched, p) {
        ghost var end := AfterPages(c, OthersOf(sched), net, filter, FromStart(w0), pages);
        ReindexIsRun(w0, c, filter, sched, net, pages, end, p);
      }
    }

    /** COMMIT, then the entries to the audit logger. */
    method Finish(s: State, entries: seq<AuditEntry>)
      requires s.t.audit == db.auditLog + entries
      modifies db
      ensures db.W() == CommitAndEmit(old(db.W()), s, entries)
      ensures db.emitted == old(db.emitted) + entries && db.history == s.h
    {
      CommitEmits(db.W(), s, entries);
      db.CommitTx(s);
      db.EmitEntries(entries);
    }

    /** The statements of Delete; any of them may fail. */
    method ShredStatements(actor: string, ref: Ref, fails: nat -> bool) returns (r: Result<State, StoreError>)
      ensures r.Ok? <==> LiveRef(db.T(), ref) && forall i :: 0 <= i < 4 ==> !fails(i)
      ensures r.Ok? ==> r.value == Shred(db.W().s, actor, ref)
      ensures r.Err? ==> r.error == if !LiveRef(db.T(), ref) && !fails(0) then NotFound else StatementFailed
    {
      r := Err(StatementFailed);
      if fails(0) { return; }
      if ref.id !in db.objects || db.objects[ref.id].collection != ref.collection
          || db.objects[ref.id].deleted { return Err(NotFound); }
      var row := db.objects[ref.id];
      var objects := db.objects[ref.id := row.(sealed := row.sealed.(wrapped := None), deleted := true)];
      if fails(1) { return; }
      var rows := WithoutIndexRows(db.blindIndex, ref.collection, ref.id);
      if fails(2) { return; }
      var entry := AuditEntry(actor, AuditAction.Delete, ref.collection, ref.id, "");
      if fails(3) { return; }
      r := Ok(State(Tables(objects, rows, db.keys, db.auditLog + [entry]), db.history));
    }

    /** Delete, in one transaction: all of it lands or none. */
    method Delete(actor: string, ref: Ref, fails: nat -> bool) returns (err: Option<StoreError>)
      modifies db
      ensures err.None? <==> LiveRef(old(db.T()), ref) && forall i :: 0 <= i < 4 ==> !fails(i)
      ensures err.None? ==> db.W() == CommitAndEmit(old(db.W()), Shred(old(db.W()).s, actor, ref),
          [DeleteEntry(actor, ref)])
      ensures err.None? ==> ErasesExactly(old(db.T()), db.T(), actor, [ref])
      ensures err.None? ==>
        db.emitted == old(db.emitted) + [AuditEntry(actor, AuditAction.Delete, ref.collection, ref.id, "")]
      ensures err.Some? ==> db.W() == old(db.W()) && (err.value == NotFound <==>
        !LiveRef(old(db.T()), ref) && !fails(0))
      ensures old(Valid()) ==> Valid() && Follows(old(db.W()), db.W())
    {
      var s := ShredStatements(actor, ref, fails);
      if s.Err? { return Some(s.error); }
      DeleteLands(db.W(), actor, ref);
      ghost var w0, good := db.W(), Valid();
      Finish(s.value, [DeleteEntry(actor, ref)]);
      if good { StartedStays(w0, db.W(), env, index); }
      err := None;
    }

    /** The UPDATE of DeleteSubject: every live row about the subject, in no fixed order. */
    method ShredSubjectRows(subject: string) returns (objects: map<string, Row>, refs: seq<Ref>)
      ensures Enumerates(refs, SubjectRefs(db.T(), subject))
          && objects == ErasedObjects(db.objects, SubjectRefs(db.T(), subject))
    {
      ghost var all := SubjectRefs(db.T(), subject);
      var left := SubjectRefs(db.T(), subject);
      objects, refs := db.objects, [];
      while left != {}
        invariant left <= all && Enumerates(refs, all - left) && objects == ErasedObjects(db.objects, all - left)
      {
        var r :| r in left;
        var row := db.objects[r.id];
        objects := objects[r.id := row.(sealed := row.sealed.(wrapped := None), deleted := true)];
        refs := refs + [r];
        left := left - {r};
        assert all - left == (all - left - {r}) + {r};
      }
      assert all - left == all;
    }

    /** The statements of DeleteSubject for the erased rows: drop their index rows, log them. The
        UPDATE before was statement 0; the first failing one ends it. */
    method DropIndexRows(actor: string, refs: seq<Ref>, ghost all: set<Ref>, fails: nat -> bool)
      returns (ok: bool, rows: set<IndexRow>, entries: seq<AuditEntry>)
      requires Enumerates(refs, all)
      ensures ok <==> forall i :: 1 <= i <= 2 * |refs| ==> !fails(i)
      ensures ok ==> rows == ErasedIndex(db.blindIndex, all) && entries == DeleteEntries(actor, refs)
    {
      ok, rows, entries := true, db.blindIndex, [];
      for i := 0 to |refs|
        invariant ok && forall j :: 1 <= j <= 2 * i ==> !fails(j)
        invariant rows == ErasedIndex(db.blindIndex, RefSet(refs[..i])) && entries == DeleteEntries(actor, refs[..i])
      {
        assert refs[..i + 1] == refs[..i] + [refs[i]];
        if fails(2 * i + 1) { return false, rows, entries; }
        rows := WithoutIndexRows(rows, refs[i].collection, refs[i].id);
        if fails(2 * i + 2) { return false, rows, entries; }
        entries := entries + [AuditEntry(actor, AuditAction.Delete, refs[i].collection, refs[i].id, "")];
      }
      assert refs[..|refs|] == refs && RefSet(refs) == all;
    }

    /** The statements of DeleteSubject: an UPDATE, two for each row that it found, and the COMMIT. */
    method EraseStatements(actor: string, subject: string, fails: nat -> bool)
      returns (r: Result<State, StoreError>, refs: seq<Ref>, entries: seq<AuditEntry>)
      ensures r.Err? <==> exists i :: 0 <= i <= 2 * |SubjectRefs(db.T(), subject)| + 1 && fails(i)
      ensures r.Err? ==> r.error == StatementFailed
      ensures r.Ok? ==> Enumerates(refs, SubjectRefs(db.T(), subject)) && entries == DeleteEntries(actor, refs)
      ensures r.Ok? ==> r.value == ShredAll(db.W().s, actor, refs) && r.value.t.audit == db.auditLog + entries
    {
      r, refs, entries := Err(StatementFailed), [], [];
      if fails(0) { return; }
      var objects, erased := ShredSubjectRows(subject);
      EnumerationLength(erased, SubjectRefs(db.T(), subject));
      var ok, rows, logged := DropIndexRows(actor, erased, SubjectRefs(db.T(), subject), fails);
      if !ok || fails(2 * |erased| + 1) { return; }
      ShredAllIs(db.W().s, actor, erased, SubjectRefs(db.T(), subject));
      r, refs, entries := Ok(State(Tables(objects, rows, db.keys, db.auditLog + logged), db.history)), erased, logged;
    }

    /** DeleteSubject: exactly the live objects about the subject, in one transaction, each with
        its entry. It is the Deletes of all of them, in the order it returns. It fails exactly when one of
        its statements does, and then nothing happened. */
    method DeleteSubject(actor: string, subject: string, fails: nat -> bool)
        returns (refs: seq<Ref>, err: Option<StoreError>)
      modifies db
      ensures err.Some? <==> exists i :: 0 <= i <= 2 * |SubjectRefs(old(db.T()), subject)| + 1 && fails(i)
      ensures err.Some? ==> err.value == StatementFailed && db.W() == old(db.W()) && refs == []
      ensures err.None? ==> Enumerates(refs, SubjectRefs(old(db.T()), subject))
      ensures err.None? ==> ErasesExactly(old(db.T()), db.T(), actor, refs) && SubjectRefs(db.T(), subject) == {}
      ensures err.None? ==> db.W() == CommitAndEmit(old(db.W()), ShredAll(old(db.W()).s, actor, refs),
          DeleteEntries(actor, refs))
      ensures err.None? ==> db.emitted == old(db.emitted) + DeleteEntries(actor, refs)
      ensures old(Valid()) ==> Valid() && Follows(old(db.W()), db.W())
    {
      var s, erased, entries := EraseStatements(actor, subject, fails);
      if s.Err? { return [], Some(s.error); }
      SubjectEraseLands(db.W(), actor, subject, erased);
      ghost var w0, good := db.W(), Valid();
      Finish(s.value, entries);
      if good { StartedStays(w0, db.W(), env, index); }
      refs, err := erased, None;
    }

    /** Erase a subject right after a put: every item that was put about it is erased. */
    method EraseAfterPut(actor: string, collection: string, items: seq<Item>, draws: seq<Draw>, outage: Outage,
        subject: string) returns (ids: seq<string>, refs: seq<Ref>)
      requires |draws| == |items| && subject != "" && PutLandsIf(db.T(), env, draws, outage, _ => false)
      modifies db
      ensures |ids| == |items|
      ensures forall i :: 0 <= i < |items| && items[i].subject == subject ==>
        Ref(collection, ids[i]) in refs && ids[i] in db.objects && db.objects[ids[i]].deleted
          && db.objects[ids[i]].sealed.wrapped == None
    {
      var err;
      ids, err := PutMany(actor, collection, items, draws, outage, _ => false);
      ghost var t := db.T();
      refs, err := DeleteSubject(actor, subject, _ => false);
      forall i | 0 <= i < |items| && items[i].subject == subject
        ensures Ref(collection, ids[i]) in refs && ids[i] in t.objects && t.objects[ids[i]].collection == collection
      {
        assert Ref(collection, draws[i].id) in SubjectRefs(t, subject);
      }
    }

    /** One item of PutMany, on the tables as the transaction sees them. */
    method PutItem(s: State, actor: string, collection: string, item: Item, draw: Draw, engines: Engines,
        outage: Outage) returns (r: Result<State, StoreError>)
      ensures r.Ok? <==> draw.id !in s.t.objects && !Down(env.current, outage)
      ensures r.Ok? ==> r.value == Insert(s, env.current.id, index, actor, collection,
                                          NewItem(draw.id, draw.dek, VersionOf(env.current, engines), item.plaintext,
                                              item.indexed, item.subject))
    {
      var sealed := Seal(env, engines, outage, draw.dek, item.plaintext, Aad(collection, draw.id));
      if sealed.Err? { return Err(Sealing(sealed.error)); }
      if draw.id in s.t.objects { return Err(StatementFailed); }
      var row := Row(collection, sealed.value, NullIf(item.subject), false);
      var rows := InsertIndexRows(s.t.index, collection, draw.id, item.indexed);
      var entry := AuditEntry(actor, Create, collection, draw.id, "");
      r := Ok(State(Tables(s.t.objects[draw.id := row], rows, s.t.keys, s.t.audit + [entry]),
                    s.h.(born := s.h.born[draw.id := Birth(collection, item.plaintext, draw.dek, NullIf(item.subject))],
                         values := s.h.values[draw.id := item.indexed])));
    }

    /** The statements of PutMany, item by item; any of them may fail. */
    method PutStatements(actor: string, collection: string, items: seq<Item>, draws: seq<Draw>, outage: Outage,
        fails: nat -> bool)
      returns (r: Result<State, StoreError>, ids: seq<string>, entries: seq<AuditEntry>)
      requires |draws| == |items|
      ensures var s, news := db.W().s, NewItems(items, draws, VersionOf(env.current, db.engines));
        && (r.Ok? ==> r.value == InsertAll(s, env.current.id, index, actor, collection, news))
        && (r.Ok? ==> entries == CreateEntries(actor, collection, news))
        && (r.Ok? ==> |ids| == |items| && forall i :: 0 <= i < |items| ==> ids[i] == draws[i].id)
        && (r.Ok? <==> PutLandsIf(db.T(), env, draws, outage, fails))
    {
      var s := db.W().s;
      ids, entries := [], [];
      PutReachesEnd(db.T(), env, draws, outage, fails);
      ghost var news := NewItems(items, draws, VersionOf(env.current, db.engines));
      for i := 0 to |items|
        invariant PutHas(db.W().s, env.current.id, index, actor, collection, news, i, s, entries)
        invariant |ids| == i && forall j :: 0 <= j < i ==> ids[j] == draws[j].id
        invariant PutReaches(db.T(), env, draws, outage, fails, i)
      {
        if fails(i) { return Err(StatementFailed), [], []; }
        PutGoesOn(db.W(), env, index, actor, collection, items, draws, VersionOf(env.current, db.engines), outage,
            fails,
          i, s, entries);
        var next := PutItem(s, actor, collection, items[i], draws[i], db.engines, outage);
        if next.Err? { return Err(next.error), [], []; }
        s := next.value;
        ids, entries := ids + [draws[i].id], entries + [AuditEntry(actor, Create, collection, draws[i].id, "")];
      }
      assert news[..|items|] == news;
      r := if fails(|items|) then Err(StatementFailed) else Ok(s);
    }

    /** PutMany: seal every item under its own key, insert it with its index rows and its
        audit entry, all in one transaction. It lands exactly when every statement succeeds, what
        seals the items answers and the drawn ids do not collide; otherwise nothing does. */
    method PutMany(actor: string, collection: string, items: seq<Item>, draws: seq<Draw>, outage: Outage,
        fails: nat -> bool)
      returns (ids: seq<string>, err: Option<StoreError>)
      requires |draws| == |items|
      modifies db
      ensures err.Some? ==> db.W() == old(db.W()) && ids == []
      ensures err.None? ==> |ids| == |items| && forall i :: 0 <= i < |items| ==> ids[i] == draws[i].id
      ensures var w, news := old(db.W()), NewItems(items, draws, VersionOf(env.current, old(db.engines)));
        && (err.None? ==> db.W() == CommitAndEmit(w, InsertAll(w.s, env.current.id, index, actor, collection, news),
            CreateEntries(actor, collection, news)))
        && (err.None? ==> db.emitted == w.emitted + CreateEntries(actor, collection, news))
        && (AllFresh(w.s, news) && old(Valid()) ==> Valid() && Follows(w, db.W()))
        && (err.None? <==> PutLandsIf(w.s.t, env, draws, outage, fails))
      ensures err.None? ==> ItemsAreThere(old(db.T()), db.T(), env.current.id, collection, items, draws)
      ensures err.None? ==> PutIsLogged(old(db.auditLog), db.auditLog, actor, collection, draws)
      ensures err.None? ==> ListedForSubjects(db.T(), collection, items, draws)
      ensures err.None? && Valid() ==> FoundByValues(db.T(), index, collection, items, draws)
    {
      ghost var w0 := db.W();
      ghost var news := NewItems(items, draws, VersionOf(env.current, db.engines));
      var s, created, entries := PutStatements(actor, collection, items, draws, outage, fails);
      if s.Err? { return [], Some(s.error); }
      ghost var good := AllFresh(w0.s, news) && Valid();
      PutManyLands(w0, env.current.id, index, actor, collection, items, draws, VersionOf(env.current, db.engines));
      if good { PutLands(w0, env.current.id, index, actor, collection, news); }
      Finish(s.value, entries);
      ids, err := created, None;
      if good { StartedStays(w0, db.W(), env, index); }
    }

    /** GetMany: the rows in whatever order the SELECT returns them, opened together. It answers
        exactly when every live row among ids opens, and then with all their plaintexts and
        nothing else; a row that does not open is an error, not an absence. */
    method GetMany(collection: string, ids: set<string>, outage: Outage, fails: bool)
        returns (r: Result<map<string, Bytes>, StoreError>)
      requires EnvelopeValid(env)
      ensures fails ==> r == Err(StatementFailed)
      ensures r.Ok? <==> !fails && forall id :: id in Matching(db.T(), collection, ids) ==>
        OpenRow(db.T(), env, outage, id).Ok?
      ensures r.Ok? ==> forall id :: id in r.value <==>
        id in ids && id in db.objects && !db.objects[id].deleted && db.objects[id].collection == collection
      ensures Sound(db.history, db.T()) ==> (r.Ok? <==> !fails && forall id ::
        id in ids && id in db.objects && !db.objects[id].deleted && db.objects[id].collection == collection ==>
          var keyId := db.objects[id].sealed.keyId; keyId in env.all && !Down(env.all[keyId], outage))
      ensures r.Ok? ==> forall id :: id in r.value ==> OpenRow(db.T(), env, outage, id) == Ok(r.value[id])
      ensures r.Ok? && Sound(db.history, db.T()) ==> forall id :: id in r.value ==>
        id in db.history.born && r.value[id] == db.history.born[id].plaintext
    {
      if Sound(db.history, db.T()) { RowsOpenIfHeld(db.W().s, env, outage); }
      if fails { return Err(StatementFailed); }
      var rowIds, sealed, aads := SelectRows(collection, ids);
      var plaintexts, errs, err := OpenMany(env, outage, sealed, aads);
      assert forall i :: 0 <= i < |rowIds| ==> rowIds[i] in rowIds;
      if err.Some? {
        DownRowDoesNotOpen(db.T(), env, outage, rowIds, sealed);
        return Err(Sealing(err.value));
      }
      r := Gather(rowIds, plaintexts, errs, outage);
      if r.Ok? && Sound(db.history, db.T()) { OpenedAsPut(db.W().s, env, outage, r.value); }
    }

    /** found[id] = plaintexts[i], unless a row did not open. */
    method Gather(rowIds: seq<string>, plaintexts: seq<Option<Bytes>>, errs: seq<Option<Error>>, ghost outage: Outage)
        returns (r: Result<map<string, Bytes>, StoreError>)
      requires |plaintexts| == |errs| == |rowIds| && forall i, j :: 0 <= i < j < |rowIds| ==> rowIds[i] != rowIds[j]
      requires forall i :: 0 <= i < |rowIds| ==>
        rowIds[i] in db.objects && SlotIs(plaintexts[i], errs[i], OpenRow(db.T(), env, outage, rowIds[i]))
      ensures r.Ok? <==> forall i :: 0 <= i < |rowIds| ==> OpenRow(db.T(), env, outage, rowIds[i]).Ok?
      ensures r.Ok? ==> forall id :: id in r.value <==> id in rowIds
      ensures r.Ok? ==> forall id :: id in r.value ==>
        id in db.objects && OpenRow(db.T(), env, outage, id) == Ok(r.value[id])
    {
      var found := map[];
      for i := 0 to |rowIds|
        invariant forall j :: 0 <= j < i ==> rowIds[j] in found
        invariant forall id :: id in found ==>
          id in rowIds && id in db.objects && OpenRow(db.T(), env, outage, id) == Ok(found[id])
      {
        assert SlotIs(plaintexts[i], errs[i], OpenRow(db.T(), env, outage, rowIds[i]));
        if errs[i].Some? { return Err(Sealing(errs[i].value)); }
        found := found[rowIds[i] := plaintexts[i].value];
      }
      assert forall i :: 0 <= i < |rowIds| ==> rowIds[i] in found;
      r := Ok(found);
    }

    /** The matching rows, each once, in any order. */
    method SelectRows(collection: string, ids: set<string>)
        returns (rowIds: seq<string>, sealed: seq<Sealed>, aads: seq<Bytes>)
      ensures |rowIds| == |sealed| == |aads|
      ensures forall id :: id in rowIds <==> id in Matching(db.T(), collection, ids)
      ensures forall i :: 0 <= i < |rowIds| ==>
        rowIds[i] in db.objects && sealed[i] == db.objects[rowIds[i]].sealed && aads[i] ==
        Aad(db.objects[rowIds[i]].collection, rowIds[i])
      ensures forall i, j :: 0 <= i < j < |rowIds| ==> rowIds[i] != rowIds[j]
    {
      var left := Matching(db.T(), collection, ids);
      rowIds, sealed, aads := [], [], [];
      while left != {}
        invariant left <= Matching(db.T(), collection, ids) && |rowIds| == |sealed| == |aads|
        invariant forall id :: id in rowIds <==> id in Matching(db.T(), collection, ids) && id !in left
        invariant forall i :: 0 <= i < |rowIds| ==>
          rowIds[i] in db.objects && sealed[i] == db.objects[rowIds[i]].sealed && aads[i] ==
          Aad(db.objects[rowIds[i]].collection, rowIds[i])
        invariant forall i, j :: 0 <= i < j < |rowIds| ==> rowIds[i] != rowIds[j]
      {
        var id :| id in left;
        rowIds, sealed, aads := rowIds + [id], sealed + [db.objects[id].sealed], aads + [Aad(collection, id)];
        left := left - {id};
      }
    }

    /** Search: at most 100 ids after the cursor, ascending. It asks only the index, and finds
        exactly live objects whose value last committed for the field is this one; nothing that
        matches is jumped over, and a short page is the last. */
    method Search(collection: string, field: string, value: string, after: string, fails: bool)
        returns (r: Result<seq<string>, StoreError>)
      ensures r.Err? <==> fails
      ensures r.Err? ==> r.error == StatementFailed
      ensures r.Ok? ==> r.value == SearchPage(db.T(), index, collection, field, value, after)
      ensures r.Ok? && Valid() ==> PageOfHits(r.value, db.W().s, after, collection, field, value)
    {
      if fails { return Err(StatementFailed); }
      var hits := SearchHits(db.T(), index, collection, field, value);
      r := Ok(Page(hits, after, SEARCH_PAGE));
      PageIsPrefix(hits, after, SEARCH_PAGE);
      if Valid() {
        forall id ensures id in hits <==> Holds(db.W().s, collection, field, value, id) {
          SearchFindsExactlyTheLive(db.W().s, collection, field, value, id);
        }
      }
    }

    /** AuditMany: one batch, all of it or nothing; nothing for no entries. */
    method AuditMany(entries: seq<AuditEntry>, fails: bool) returns (err: Option<StoreError>)
      modifies db
      ensures err.Some? <==> fails && entries != []
      ensures err.Some? ==> db.W() == old(db.W())
      ensures err.None? ==> db.W() == CommitAndEmit(old(db.W()), Log(old(db.W()).s, entries), entries)
      ensures err.None? ==> db.auditLog == old(db.auditLog) + entries && db.emitted == old(db.emitted) + entries
      ensures old(Valid()) && (forall i :: 0 <= i < |entries| ==> IsRead(entries[i]))
          ==> Valid() && Follows(old(db.W()), db.W())
    {
      err := None;
      LogLands(db.W(), entries);
      if entries == [] {
        assert db.auditLog + entries == db.auditLog && multiset(db.auditLog[|db.auditLog|..]) == multiset{};
        return;
      }
      if fails { return Some(StatementFailed); }
      db.CommitTx(State(db.T().(audit := db.auditLog + entries), db.history));
      db.EmitEntries(entries);
    }
  }

  /** loadIndexKey: propose a fresh key, of which the first insert wins, and read back whichever
      did, with the others acting in between. It succeeds exactly when everything answers and the
      wrapper of the key row is held, and what it returns is the one index key. */
  method LoadIndexKey(db: Database, env: Envelope, candidate: Secret, others: Others, net: nat -> Outage)
      returns (r: Result<Bytes, StoreError>)
    requires EnvelopeValid(env)
    modifies db
    ensures Rely(others) && old(db.Valid() && |candidate.key| == KEY_SIZE && |candidate.dek| == KEY_SIZE
        && FreshKey(db.history, candidate.dek)) ==>
      && db.Valid() && Follows(old(db.W()), db.W())
      && (r.Ok? ==> Started(db.history, env) && db.history.secret.Some? && db.history.secret.value.key == r.value)
      && (r.Ok? && old(db.history.secret.Some?) ==> r.value == old(db.history.secret.value.key))
      && (r.Ok? <==> KeyLoads(env, net, db.keys))
  {
    var sealed := Seal(env, db.engines, net(0), candidate.dek, candidate.key, INDEX_KEY_AAD);
    if sealed.Err? { return Err(Sealing(sealed.error)); }
    ghost var w0, good := db.W(), Rely(others) && db.Valid() && |candidate.key| == KEY_SIZE
        && |candidate.dek| == KEY_SIZE && FreshKey(db.history, candidate.dek);
    if DATABASE in net(0) { return Err(StatementFailed); }
    if good { ProposalLands(db.W(), env, net(0), candidate); }
    db.CommitTx(Proposed(db.W().s, env, sealed.value, candidate));
    ghost var w1 := db.W();
    db.Interfere(others, 0);
    if good {
      assert Follows(w1, db.W());
      FollowsTransitive(w0, w1, db.W());
    }
    if DATABASE in net(1) { return Err(StatementFailed); }
    if db.keys.None? { return Err(NotFound); }
    if good { KeyOpensIfHeld(db.W().s, env, net(1)); }
    var key := Open(env, net(1), db.keys.value, INDEX_KEY_AAD);
    if key.Err? { return Err(Sealing(key.error)); }
    if good { ReadBackIsTheKey(db.W().s, env, net(1)); }
    r := if |key.value| == KEY_SIZE then Ok(key.value) else Err(BadIndexKey);
  }

  /** How many migrations the program carries. */
  const MIGRATIONS := 2

  /** A migrating process applies what is missing, which may fail; any other demands that the
      database reports exactly the version of the program. */
  predicate SchemaReady(migrate: bool, reported: Option<nat>)
      { reported.Some? && (migrate || reported.value == MIGRATIONS) }

  /** Open: a store on a database whose tables are of its version and whose index key it has loaded;
      until the tables are, it does nothing at all. */
  method Connect(db: Database, env: Envelope, migrate: bool, reported: Option<nat>, candidate: Secret, others: Others,
      net: nat -> Outage)
    returns (r: Result<Store, StoreError>)
    requires EnvelopeValid(env) && Rely(others)
    requires db.Valid() && |candidate.key| == KEY_SIZE && |candidate.dek| == KEY_SIZE
        && FreshKey(db.history, candidate.dek)
    modifies db
    ensures db.Valid() && Follows(old(db.W()), db.W())
    ensures reported.None? || (!migrate && reported.value != 2) ==> r == Err(WrongSchema) && db.W() == old(db.W())
    ensures r.Ok? <==> reported.Some? && (migrate || reported.value == 2) && KeyLoads(env, net, db.keys)
    ensures r.Ok? ==> fresh(r.value) && r.value.db == db && r.value.env == env && r.value.Valid()
  {
    if !SchemaReady(migrate, reported) { return Err(WrongSchema); }
    var key := LoadIndexKey(db, env, candidate, others, net);
    if key.Err? { return Err(key.error); }
    var s := new Store(db, env, key.value);
    r := Ok(s);
  }

  lemma LogLands(w: World, entries: seq<AuditEntry>)
    ensures var w' := CommitAndEmit(w, Log(w.s, entries), entries);
      && w'.emitted == w.emitted + entries && w'.s == Log(w.s, entries)
      && (Inv(w) && (forall i :: 0 <= i < |entries| ==> IsRead(entries[i])) ==> Inv(w') && Follows(w, w'))
  {
    CommitEmits(w, Log(w.s, entries), entries);
    if Inv(w) && forall i :: 0 <= i < |entries| ==> IsRead(entries[i]) {
      LogKeeps(w.s, entries);
      CommitAndEmitKeeps(w, Log(w.s, entries), entries);
    }
  }

  /** A live object of the collection whose value last committed for the field is this one. */
  ghost predicate Holds(s: State, collection: string, field: string, value: string, id: string)
  {
    Live(s.t, id) && s.t.objects[id].collection == collection && id in s.h.values && field in s.h.values[id]
        && s.h.values[id][field] == value
  }

  /** What Search says of a page: ids of matches past the cursor, ascending, none jumped over. */
  ghost predicate PageOfHits(ids: seq<string>, s: State, after: string, collection: string, field: string,
      value: string)
  {
    && |ids| <= 100 && IsAscending(ids)
    && (forall id :: id in ids ==> Less(after, id) && Holds(s, collection, field, value, id))
    && (forall id :: Less(after, id) && Holds(s, collection, field, value, id) && id !in ids ==>
          |ids| == 100 && forall other :: other in ids ==> Less(other, id))
  }
}
