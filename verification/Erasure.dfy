/** What shredding many objects in one transaction comes to, whatever the order
    (internal/store/store.go, DeleteSubject). */
module Erasure {
  import opened Strings
  import opened Envelope
  import opened Tables
  import opened Vault

  function DeleteEntry(actor: string, r: Ref): AuditEntry { AuditEntry(actor, Delete, r.collection, r.id, "") }

  function DeleteEntries(actor: string, refs: seq<Ref>): seq<AuditEntry>
  {
    seq(|refs|, i requires 0 <= i < |refs| => DeleteEntry(actor, refs[i]))
  }

  /** The live objects about a subject, across collections. */
  function SubjectRefs(t: Tables, subject: string): set<Ref>
  {
    set id | id in t.objects && !t.objects[id].deleted && t.objects[id].subject == Some(subject)
        :: Ref(t.objects[id].collection, id)
  }

  /** refs lists every element of s, each once, in some order. */
  ghost predicate Enumerates(refs: seq<Ref>, s: set<Ref>)
  {
    (forall r :: r in refs <==> r in s) && (forall i, j :: 0 <= i < j < |refs| ==> refs[i] != refs[j])
  }

  ghost predicate AllLiveRefs(t: Tables, refs: set<Ref>)
  {
    forall r :: r in refs ==> LiveRef(t, r)
  }

  function ErasedObjects(objects: map<string, Row>, refs: set<Ref>): map<string, Row>
  {
    map id | id in objects :: if Ref(objects[id].collection, id) in refs then Shredded(objects[id]) else objects[id]
  }

  function ErasedIndex(index: set<IndexRow>, refs: set<Ref>): set<IndexRow>
  {
    set r | r in index && Ref(r.collection, r.objectId) !in refs
  }

  function RefSet(refs: seq<Ref>): set<Ref> { set r | r in refs }

  lemma EnumeratesPrefix(refs: seq<Ref>, s: set<Ref>)
    requires refs != [] && Enumerates(refs, s)
    ensures var before, last := refs[..|refs| - 1], refs[|refs| - 1];
      last !in before && Enumerates(before, s - {last}) && last in s && RefSet(refs) == s
          && RefSet(before) == s - {last}
  {
  }

  lemma ShredLast(s: State, mid: State, actor: string, done: set<Ref>, r: Ref)
    requires LiveRef(s.t, r) && r !in done
    requires mid.h == s.h && mid.t.keys == s.t.keys
    requires mid.t.objects == ErasedObjects(s.t.objects, done) && mid.t.index == ErasedIndex(s.t.index, done)
    ensures var s' := Shred(mid, actor, r);
      && s'.h == s.h && s'.t.keys == s.t.keys
      && s'.t.objects == ErasedObjects(s.t.objects, done + {r}) && s'.t.index == ErasedIndex(s.t.index, done + {r})
      && s'.t.audit == mid.t.audit + [DeleteEntry(actor, r)]
  {
  }

  /** Shredding a list of live objects, each named once: exactly their rows lose their keys, their
      index rows are gone, nothing else changes, and each has its entry, in list order. */
  lemma {:induction false} ShredAllIs(s: State, actor: string, refs: seq<Ref>, all: set<Ref>)
    requires Enumerates(refs, all) && AllLiveRefs(s.t, all)
    ensures ShredAll(s, actor, refs) == State(
      Tables(ErasedObjects(s.t.objects, all), ErasedIndex(s.t.index, all), s.t.keys,
          s.t.audit + DeleteEntries(actor, refs)), s.h)
  {
    if refs == [] {
      assert all == {};
      assert ErasedObjects(s.t.objects, {}) == s.t.objects && ErasedIndex(s.t.index, {}) == s.t.index;
      assert s.t.audit + DeleteEntries(actor, []) == s.t.audit;
    } else {
      var before, last := refs[..|refs| - 1], refs[|refs| - 1];
      EnumeratesPrefix(refs, all);
      ShredAllIs(s, actor, before, all - {last});
      ShredLast(s, ShredAll(s, actor, before), actor, all - {last}, last);
      assert all - {last} + {last} == all;
      assert DeleteEntries(actor, refs) == DeleteEntries(actor, before) + [DeleteEntry(actor, last)];
      assert s.t.audit + DeleteEntries(actor, refs) == s.t.audit + DeleteEntries(actor,
          before) + [DeleteEntry(actor, last)];
    }
  }

  lemma {:induction false} EnumerationLength(refs: seq<Ref>, all: set<Ref>)
    requires Enumerates(refs, all)
    ensures |refs| == |all|
  {
    if refs == [] {
      assert all == {};
    } else {
      EnumeratesPrefix(refs, all);
      EnumerationLength(refs[..|refs| - 1], all - {refs[|refs| - 1]});
    }
  }

  lemma {:induction false} EntriesOfSameRefs(actor: string, a: seq<Ref>, b: seq<Ref>, all: set<Ref>)
    requires Enumerates(a, all) && Enumerates(b, all)
    ensures multiset(DeleteEntries(actor, a)) == multiset(DeleteEntries(actor, b))
    decreases |a|
  {
    if a == [] {
      EnumerationLength(a, all);
      EnumerationLength(b, all);
    } else {
      var last := a[|a| - 1];
      EnumeratesPrefix(a, all);
      var j :| 0 <= j < |b| && b[j] == last;
      WithoutOne(b, all, j);
      EntriesOfSameRefs(actor, a[..|a| - 1], b[..j] + b[j + 1..], all - {last});
      assert DeleteEntries(actor, a) == DeleteEntries(actor, a[..|a| - 1]) + [DeleteEntry(actor, last)];
      EntriesWithoutOne(actor, b, j);
    }
  }

  lemma WithoutOne(b: seq<Ref>, all: set<Ref>, j: nat)
    requires Enumerates(b, all) && j < |b|
    ensures Enumerates(b[..j] + b[j + 1..], all - {b[j]})
  {
  }

  lemma EntriesWithoutOne(actor: string, b: seq<Ref>, j: nat)
    requires j < |b|
    ensures multiset(DeleteEntries(actor, b)) ==
        multiset(DeleteEntries(actor, b[..j] + b[j + 1..])) + multiset{DeleteEntry(actor, b[j])}
  {
    var x, y := DeleteEntries(actor, b[..j]), DeleteEntries(actor, b[j + 1..]);
    assert DeleteEntries(actor, b) == x + [DeleteEntry(actor, b[j])] + y;
    assert DeleteEntries(actor, b[..j] + b[j + 1..]) == x + y;
  }

  /** The order in which DeleteSubject visits its objects matters only to the order of the
      audit entries: it equals the Deletes of its objects in any order. */
  lemma EraseInAnyOrder(s: State, actor: string, a: seq<Ref>, b: seq<Ref>, all: set<Ref>)
    requires Enumerates(a, all) && Enumerates(b, all) && AllLiveRefs(s.t, all)
    ensures var s1, s2 := ShredAll(s, actor, a), ShredAll(s, actor, b);
      && s1.t.objects == s2.t.objects && s1.t.index == s2.t.index && s1.t.keys == s2.t.keys && s1.h == s2.h
      && multiset(s1.t.audit) == multiset(s2.t.audit)
  {
    ShredAllIs(s, actor, a, all);
    ShredAllIs(s, actor, b, all);
    EntriesOfSameRefs(actor, a, b, all);
  }

  /** From t to t' exactly these objects were shredded, in this order, by this client: their wrapped keys
      are gone and their ciphertexts are not, no index row is theirs, and each has an entry. */
  ghost predicate ErasesExactly(t: Tables, t': Tables, actor: string, refs: seq<Ref>)
  {
    && t'.objects.Keys == t.objects.Keys && t'.keys == t.keys
    && (forall id :: id in t.objects ==>
          t'.objects[id] == if Ref(t.objects[id].collection, id) in refs
                            then t.objects[id].(sealed := t.objects[id].sealed.(wrapped := None), deleted := true)
                            else t.objects[id])
    && (forall r: IndexRow :: r in t'.index <==> r in t.index && Ref(r.collection, r.objectId) !in refs)
    && |t'.audit| == |t.audit| + |refs| && t'.audit[..|t.audit|] == t.audit
    && (forall i :: 0 <= i < |refs| ==>
          t'.audit[|t.audit| + i] == AuditEntry(actor, Delete, refs[i].collection, refs[i].id, ""))
  }

  lemma ShredAllErases(s: State, actor: string, refs: seq<Ref>, all: set<Ref>)
    requires Enumerates(refs, all) && AllLiveRefs(s.t, all)
    ensures ErasesExactly(s.t, ShredAll(s, actor, refs).t, actor, refs)
  {
    ShredAllIs(s, actor, refs, all);
  }

  /** After an erasure nothing live is about the subject, and nothing live about anybody
      else was touched. */
  lemma SubjectIsGone(s: State, actor: string, subject: string, refs: seq<Ref>)
    requires Enumerates(refs, SubjectRefs(s.t, subject))
    ensures var t := ShredAll(s, actor, refs).t;
      && SubjectRefs(t, subject) == {}
      && (forall id :: id in s.t.objects && s.t.objects[id].subject != Some(subject) ==>
        id in t.objects && t.objects[id] == s.t.objects[id])
  {
    ShredAllIs(s, actor, refs, SubjectRefs(s.t, subject));
  }
}
