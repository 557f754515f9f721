/** Byte strings, their order, and the ascending pages that the database answers with. */
module Strings {

  /** Go strings and byte slices: sequences of characters, one per byte. */
  type Bytes = string

  datatype Option<+T> = None | Some(value: T)

  datatype Result<+T, +E> = Ok(value: T) | Err(error: E)

  /** Byte order of ids, the order of ORDER BY and of the cursor test id > $after. */
  predicate Less(a: string, b: string)
  {
    b != "" && (a == "" || a[0] < b[0] || (a[0] == b[0] && Less(a[1..], b[1..])))
  }

  /** a and b agree before k, where b goes on and a ends or has the smaller character. */
  predicate DiffersAt(a: string, b: string, k: nat)
  {
    k <= |a| && k < |b| && a[..k] == b[..k] && (k < |a| ==> a[k] < b[k])
  }

  lemma {:induction false} FirstDifference(a: string, b: string) returns (k: nat)
    requires Less(a, b)
    ensures DiffersAt(a, b, k)
  {
    k := 0;
    if a != "" && a[0] == b[0] {
      var n := FirstDifference(a[1..], b[1..]);
      k := n + 1;
      assert a[..k] == [a[0]] + a[1..][..n] && b[..k] == [b[0]] + b[1..][..n];
    }
  }

  lemma {:induction false} DifferenceDecides(a: string, b: string, k: nat)
    requires DiffersAt(a, b, k)
    ensures Less(a, b)
  {
    if k > 0 {
      assert a[0] == a[..k][0] == b[..k][0] == b[0];
      assert a[1..][..k - 1] == a[..k][1..] && b[1..][..k - 1] == b[..k][1..];
      DifferenceDecides(a[1..], b[1..], k - 1);
    }
  }

  /** The order is decided at the first position where the two differ. */
  lemma LessExactlyWhen(a: string, b: string)
    ensures Less(a, b) <==> exists k: nat :: DiffersAt(a, b, k)
  {
    if Less(a, b) {
      var k := FirstDifference(a, b);
      assert DiffersAt(a, b, k);
    }
    if k: nat :| DiffersAt(a, b, k) { DifferenceDecides(a, b, k); }
  }

  lemma {:induction false} LessIrreflexive(a: string)
    ensures !Less(a, a)
  {
    if a != "" { LessIrreflexive(a[1..]); }
  }

  lemma {:induction false} LessTransitive(a: string, b: string, c: string)
    requires Less(a, b) && Less(b, c)
    ensures Less(a, c)
  {
    if a != "" && a[0] == b[0] == c[0] { LessTransitive(a[1..], b[1..], c[1..]); }
  }

  lemma {:induction false} LessTotal(a: string, b: string)
    ensures a == b || Less(a, b) || Less(b, a)
  {
    if a != "" && b != "" && a[0] == b[0] {
      LessTotal(a[1..], b[1..]);
      if a[1..] == b[1..] { assert a == [a[0]] + a[1..] == [b[0]] + b[1..] == b; }
    }
  }

  /** Less is a strict total order. */
  lemma LessIsStrictTotalOrder()
    ensures forall a :: !Less(a, a)
    ensures forall a, b, c :: Less(a, b) && Less(b, c) ==> Less(a, c)
    ensures forall a, b :: a == b || Less(a, b) || Less(b, a)
  {
    forall a { LessIrreflexive(a); }
    forall a, b, c | Less(a, b) && Less(b, c) { LessTransitive(a, b, c); }
    forall a, b { LessTotal(a, b); }
  }

  lemma {:induction false} MinimumExists(s: set<string>)
    requires s != {}
    ensures exists m :: m in s && forall x :: x in s ==> x == m || Less(m, x)
  {
    var y :| y in s;
    if s != {y} {
      var rest := s - {y};
      assert rest != {} by { assert s == rest + {y}; }
      MinimumExists(rest);
      var m :| m in rest && forall x :: x in rest ==> x == m || Less(m, x);
      assert forall x :: x in s ==> x == y || x in rest;
      if Less(y, m) {
        forall x | x in rest && x != m ensures Less(y, x) { LessTransitive(y, m, x); }
        assert forall x :: x in s ==> x == y || Less(y, x);
      } else {
        LessTotal(y, m);
        assert forall x :: x in s ==> x == m || Less(m, x);
      }
    }
  }

  function Minimum(s: set<string>): (m: string)
    requires s != {}
    ensures m in s && forall x :: x in s ==> x == m || Less(m, x)
  {
    MinimumExists(s);
    LessIsStrictTotalOrder();
    var m :| m in s && forall x :: x in s ==> x == m || Less(m, x);
    m
  }

  predicate IsAscending(q: seq<string>)
  {
    forall i, j :: 0 <= i < j < |q| ==> Less(q[i], q[j])
  }

  /** The elements of s in ascending order, each once. */
  function Ascending(s: set<string>): (q: seq<string>)
    ensures IsAscending(q) && |q| == |s|
    ensures forall x :: x in q <==> x in s
  {
    if s == {} then [] else
      var m := Minimum(s);
      var rest := Ascending(s - {m});
      assert forall j :: 0 <= j < |rest| ==> rest[j] in s - {m};
      [m] + rest
  }

  function After(s: set<string>, after: string): (r: set<string>)
  {
    set x | x in s && Less(after, x)
  }

  /** The first ids past the cursor, in order, at most limit of them. */
  function Page(s: set<string>, after: string, limit: nat): (q: seq<string>)
  {
    var q := Ascending(After(s, after));
    if |q| <= limit then q else q[..limit]
  }

  /** What one page says about s: its ids match, ascend past the cursor, and
      nothing that matches is jumped over. A short page is the last one. */
  lemma PageIsPrefix(s: set<string>, after: string, limit: nat)
    ensures var q := Page(s, after, limit);
      && |q| <= limit && IsAscending(q)
      && (forall x :: x in q ==> x in s && Less(after, x))
      && (forall x :: x in s && Less(after, x) && x !in q ==> |q| == limit && forall y :: y in q ==> Less(y, x))
  {
    var all := Ascending(After(s, after));
    var q := Page(s, after, limit);
    forall x | x in q ensures x in s && Less(after, x) {
      assert x in all;
    }
    forall x, y | x in s && Less(after, x) && x !in q && y in q ensures |q| == limit && Less(y, x) {
      assert x in all;
      var i :| 0 <= i < |all| && all[i] == x;
      var j :| 0 <= j < |q| && q[j] == y;
      assert forall k :: 0 <= k < |q| ==> q[k] in q && all[k] == q[k];
      assert all[j] == y;
    }
    forall x | x in s && Less(after, x) && x !in q ensures |q| == limit {
      assert x in all;
    }
  }

  /** The page of a single id. */
  lemma PageOfOne(id: string, limit: nat)
    requires id != "" && limit > 0
    ensures Page({id}, "", limit) == [id]
  {
    assert After({id}, "") == {id};
    AscendingIsUnique(Ascending({id}), [id]);
  }

  /** Two ascending sequences with the same elements are the same sequence. */
  lemma {:induction false} AscendingIsUnique(a: seq<string>, b: seq<string>)
    requires IsAscending(a) && IsAscending(b)
    requires forall x :: x in a <==> x in b
    ensures a == b
  {
    LessIsStrictTotalOrder();
    if a == [] {
      assert forall k :: 0 <= k < |b| ==> b[k] in b;
    } else {
      assert a[0] in b;
      assert b != [] && b[0] in a;
      assert a[0] == b[0];
      forall x ensures x in a[1..] <==> x in b[1..] {
        if x in a[1..] { assert x in a; assert x in b; }
        if x in b[1..] { assert x in b; assert x in a; }
      }
      AscendingIsUnique(a[1..], b[1..]);
    }
  }
}
