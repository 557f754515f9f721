/** The database as an object: its tables are fields that statements reassign. The other
    processes act on it between our statements, as a schedule says. */
module Database {
  import opened Strings
  import opened Identity
  import opened Envelope
  import opened Tables
  import opened Vault
  import opened Rotation
  import opened Reindexing

  class Database {
    var objects: map<string, Row>
    var blindIndex: set<IndexRow>
    var keys: Option<Sealed>
    var auditLog: seq<AuditEntry>
    // everything around the tables: the past, the key services, the other processes
    var history: History
    var engines: Engines
    var procs: map<nat, Proc>
    var outbox: multiset<AuditEntry>
    var emitted: seq<AuditEntry>

    function T(): Tables
      reads this
    {
      Tables(objects, blindIndex, keys, auditLog)
    }

    function W(): World
      reads this
    {
      World(State(T(), history), engines, procs, outbox, emitted)
    }

    ghost predicate Valid()
      reads this
    {
      Inv(W())
    }

    /** A new database: what the migrations create. */
    constructor ()
      ensures Valid() && W() == START
    {
      objects, blindIndex, keys, auditLog := map[], {}, None, [];
      history, engines, procs, outbox, emitted := EMPTY.h, map[], map[], multiset{}, [];
      new;
      StartIsGood();
    }

    method Set(w: World)
      modifies this
      ensures W() == w
    {
      objects, blindIndex, keys, auditLog := w.s.t.objects, w.s.t.index, w.s.t.keys, w.s.t.audit;
      history, engines, procs, outbox, emitted := w.s.h, w.engines, w.procs, w.outbox, w.emitted;
    }

    /** The other processes run before our k-th statement. */
    method Interfere(others: Others, k: nat)
      modifies this
      ensures W() == others(old(W()), k)
    {
      Set(others(W(), k));
    }

    /** The guarded write of a re-wrapped key, to the keys or to the objects: how many rows it
        changed. */
    method UpdateKey(held: Held) returns (affected: nat)
      modifies this
      ensures W() == WriteKey(old(W()), held)
      ensures affected == if GuardHolds(old(T()), held) then 1 else 0
    {
      affected := 0;
      match held.target {
        case KeyTarget =>
          if keys.Some? && keys.value.keyId == held.fromKeyId {
            keys := Some(keys.value.(keyId := held.sealed.keyId, wrapped := held.sealed.wrapped));
            affected := 1;
          }
        case ObjectTarget(r) =>
          if r.id in objects && objects[r.id].sealed.keyId == held.fromKeyId && !objects[r.id].deleted {
            var row := objects[r.id];
            objects := objects[r.id := row.(sealed := row.sealed.(keyId := held.sealed.keyId,
                wrapped := held.sealed.wrapped))];
            affected := 1;
          }
      }
    }

    /** COMMIT: the new tables replace the old ones at once. */
    method CommitTx(s: State)
      modifies this
      ensures W() == Commit(old(W()), s)
    {
      Set(Commit(W(), s));
    }

    /** Copy committed entries to the audit logger, one record each. */
    method EmitEntries(entries: seq<AuditEntry>)
      modifies this
      ensures W() == EmitAll(old(W()), entries)
    {
      ghost var start := W();
      for i := 0 to |entries|
        invariant EmitAll(W(), entries[i..]) == EmitAll(start, entries)
      {
        assert entries[i..][0] == entries[i] && entries[i..][1..] == entries[i + 1..];
        Set(DoEmit(W(), entries[i]));
      }
    }
  }
}
