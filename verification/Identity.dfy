/** Row identities and hash inputs (internal/store/store.go, internal/envelope/envelope.go):
    which byte strings name exactly one row, and exactly one indexed value. */
module Identity {
  import opened Strings

  const NUL: char := '\0'
  const INDEX_KEY_NAME := "blind-index"
  const INDEX_KEY_AAD: Bytes := "keys" + [NUL] + INDEX_KEY_NAME
  const OBJECTS: Bytes := "objects" + [NUL]

  /** The associated data of an object row. */
  function Aad(collection: string, id: string): Bytes
  {
    OBJECTS + collection + [NUL] + id
  }

  /** What the blind-index HMAC is computed over. */
  function HashInput(collection: string, field: string, normalized: string): Bytes
  {
    collection + [NUL] + field + [NUL] + normalized
  }

  predicate CollectionChar(c: char)
  {
    'a' <= c <= 'z' || '0' <= c <= '9' || c == '_' || c == '-'
  }

  /** collectionRe: ^[a-z0-9][a-z0-9_-]{0,63}$ */
  predicate ValidCollection(c: string)
  {
    1 <= |c| <= 64 && c[0] != '_' && c[0] != '-' && forall i :: 0 <= i < |c| ==> CollectionChar(c[i])
  }

  lemma ValidCollectionHasNoNul(c: string)
    requires ValidCollection(c)
    ensures NUL !in c
  {
  }

  /** Splitting at the first NUL is unambiguous. */
  lemma {:induction false} FirstNulSplits(a: string, x: string, b: string, y: string)
    requires NUL !in a && NUL !in b
    requires a + [NUL] + x == b + [NUL] + y
    ensures a == b && x == y
  {
    var s := a + [NUL] + x;
    assert s == b + [NUL] + y;
    assert s[|a|] == NUL && s[|b|] == NUL;
    assert (forall k :: 0 <= k < |a| ==> s[k] == a[k]) && (forall k :: 0 <= k < |b| ==> s[k] == b[k]);
    assert a == s[..|a|] && b == s[..|b|];
    assert x == s[|a| + 1..] && y == s[|b| + 1..];
  }

  /** For NUL-free collections the row identity is one-to-one, and it is never
      the identity of the blind-index key. */
  lemma AadIsInjective(c1: string, id1: string, c2: string, id2: string)
    requires NUL !in c1 && NUL !in c2
    ensures Aad(c1, id1) == Aad(c2, id2) ==> c1 == c2 && id1 == id2
    ensures Aad(c1, id1) != INDEX_KEY_AAD
  {
    if Aad(c1, id1) == Aad(c2, id2) {
      var r1, r2 := c1 + [NUL] + id1, c2 + [NUL] + id2;
      assert Aad(c1, id1) == OBJECTS + r1 && Aad(c2, id2) == OBJECTS + r2;
      assert r1 == Aad(c1, id1)[|OBJECTS|..] && r2 == Aad(c2, id2)[|OBJECTS|..];
      FirstNulSplits(c1, id1, c2, id2);
    }
    assert Aad(c1, id1)[0] == 'o' && INDEX_KEY_AAD[0] == 'k';
  }

  lemma SplitAt(s: string, c: char) returns (i: nat)
    requires c in s
    ensures i < |s| && s[i] == c && s == s[..i] + [c] + s[i + 1..]
  {
    i :| 0 <= i < |s| && s[i] == c;
  }

  lemma OnlyNul(c: string, id: string, k: nat)
    requires NUL !in c && NUL !in id && k < |c + [NUL] + id| && (c + [NUL] + id)[k] == NUL
    ensures k == |c|
  {
  }

  /** The separators alone do not keep rows apart: a row identity belongs to no
      other (collection, id) exactly when neither part contains NUL. */
  lemma AadIsUniqueExactlyWithoutNul(c: string, id: string)
    ensures (forall c', id' :: Aad(c', id') == Aad(c, id) ==> c' == c && id' == id) <==> NUL !in c && NUL !in id
  {
    if NUL in c {
      var i := SplitAt(c, NUL);
      var c', id' := c[..i], c[i + 1..] + [NUL] + id;
      assert c' + [NUL] + id' == c + [NUL] + id;
      assert Aad(c', id') == OBJECTS + (c' + [NUL] + id') == OBJECTS + (c + [NUL] + id) == Aad(c, id);
      assert c' != c;
    } else if NUL in id {
      var i := SplitAt(id, NUL);
      var c', id' := c + [NUL] + id[..i], id[i + 1..];
      assert c' + [NUL] + id' == c + [NUL] + id;
      assert Aad(c', id') == OBJECTS + (c' + [NUL] + id') == OBJECTS + (c + [NUL] + id) == Aad(c, id);
      assert c' != c;
    } else {
      forall c', id' | Aad(c', id') == Aad(c, id) ensures c' == c && id' == id {
        var tail := c + [NUL] + id;
        assert Aad(c', id')[|OBJECTS|..] == c' + [NUL] + id' && Aad(c, id)[|OBJECTS|..] == tail;
        OnlyNul(c, id, |c'|);
        assert c' == tail[..|c'|] && c == tail[..|c'|] && id' == tail[|c'| + 1..] && id == tail[|c'| + 1..];
      }
    }
  }

  /** The very pair named next to the definition of aad does collide. */
  lemma SeparatorExampleCollides()
    ensures Aad("a", "b" + [NUL] + "c") == Aad("a" + [NUL] + "b", "c")
  {
  }

  /** For NUL-free collections and fields the hash input is one-to-one in all three parts. */
  lemma HashInputIsInjective(c1: string, f1: string, v1: string, c2: string, f2: string, v2: string)
    requires NUL !in c1 && NUL !in f1 && NUL !in c2 && NUL !in f2
    ensures HashInput(c1, f1, v1) == HashInput(c2, f2, v2) ==> c1 == c2 && f1 == f2 && v1 == v2
  {
    if HashInput(c1, f1, v1) == HashInput(c2, f2, v2) {
      var r1, r2 := f1 + [NUL] + v1, f2 + [NUL] + v2;
      assert HashInput(c1, f1, v1) == c1 + [NUL] + r1 && HashInput(c2, f2, v2) == c2 + [NUL] + r2;
      FirstNulSplits(c1, r1, c2, r2);
      FirstNulSplits(f1, v1, f2, v2);
    }
  }
}
