/** Addresses: what is accepted as one, and which spellings are the same one
    (internal/schema/types.go). */
module Emails {
  import opened Strings
  import opened Luhn

  // the characters of the Unicode property White_Space
  const WHITESPACE := "\t\n\r \U{0B}\U{0C}\U{85}\U{A0}\U{1680}\U{2000}\U{2001}\U{2002}\U{2003}\U{2004}\U{2005}"
    + "\U{2006}\U{2007}\U{2008}\U{2009}\U{200A}\U{2028}\U{2029}\U{202F}\U{205F}\U{3000}"

  function LowerChar(c: char): char
  {
    if 'A' <= c <= 'Z' then (c as int + 32) as char else c
  }

  function Lower(v: string): (r: string)
    ensures |r| == |v| && forall i :: 0 <= i < |v| ==> r[i] == LowerChar(v[i])
  {
    if v == "" then "" else [LowerChar(v[0])] + Lower(v[1..])
  }

  function NormalizeEmail(v: string): string { Lower(Trim(v, WHITESPACE)) }

  // ---- which addresses are the same ----

  predicate IsSpace(c: char)
  {
    var n := c as int;
    || 9 <= n <= 13 || n == 32 || n == 0x85 || n == 0xA0 || n == 0x1680 || 0x2000 <= n <= 0x200A
    || n in {0x2028, 0x2029, 0x202F, 0x205F, 0x3000}
  }

  /** The same character, but for the case of a letter from A to Z. */
  predicate SameLetter(c: char, d: char)
  {
    || c == d || ('A' <= c <= 'Z' && d as int == c as int + 32) || ('A' <= d <= 'Z' && c as int == d as int + 32)
  }

  /** v without the whitespace around it is v[lo..hi]. */
  ghost predicate IsCore(v: string, lo: nat, hi: nat)
  {
    && lo <= hi <= |v| && (forall i :: 0 <= i < lo ==> IsSpace(v[i])) && (forall i :: hi <= i < |v| ==> IsSpace(v[i]))
    && (lo < hi ==> !IsSpace(v[lo]) && !IsSpace(v[hi - 1]))
  }

  ghost predicate SameLetters(a: string, b: string)
  {
    |a| == |b| && forall i :: 0 <= i < |a| ==> SameLetter(a[i], b[i])
  }

  /** Two spellings of one address: but for the whitespace around them they agree letter by letter. */
  ghost predicate SameAddress(a: string, b: string)
  {
    exists lo: nat, hi: nat, lo': nat, hi': nat :: IsCore(a, lo, hi) && IsCore(b, lo', hi')
        && SameLetters(a[lo..hi], b[lo'..hi'])
  }

  lemma SpacesAreWhitespace(c: char)
    ensures c in WHITESPACE <==> IsSpace(c)
  {
  }

  /** What Trim leaves, for any cutset. */
  ghost predicate CoreOf(v: string, cutset: string, lo: nat, hi: nat)
  {
    && lo <= hi <= |v| && (forall i :: 0 <= i < lo ==> v[i] in cutset) && (forall i :: hi <= i < |v| ==> v[i] in cutset)
    && (lo < hi ==> v[lo] !in cutset && v[hi - 1] !in cutset)
  }

  lemma {:induction false} TrimIsCoreOf(v: string, cutset: string) returns (lo: nat, hi: nat)
    ensures CoreOf(v, cutset, lo, hi) && Trim(v, cutset) == v[lo..hi]
  {
    lo, hi := 0, |v|;
    if v != "" {
      if v[0] in cutset {
        var l, h := TrimIsCoreOf(v[1..], cutset);
        lo, hi := l + 1, h + 1;
        CoreMoves(v, cutset, l, h);
      } else if v[|v| - 1] in cutset {
        lo, hi := TrimIsCoreOf(v[..|v| - 1], cutset);
        assert v[..|v| - 1][lo..hi] == v[lo..hi];
      }
    }
  }

  lemma CoreMoves(v: string, cutset: string, l: nat, h: nat)
    requires v != "" && v[0] in cutset && CoreOf(v[1..], cutset, l, h)
    ensures CoreOf(v, cutset, l + 1, h + 1) && v[1..][l..h] == v[l + 1..h + 1]
  {
    forall i | 0 <= i < l + 1 ensures v[i] in cutset { if i > 0 { assert v[i] == v[1..][i - 1]; } }
    forall i | h + 1 <= i < |v| ensures v[i] in cutset { assert v[i] == v[1..][i - 1]; }
  }

  lemma CoresAgree(v: string, cutset: string, lo: nat, hi: nat)
    requires forall c :: c in cutset <==> IsSpace(c)
    ensures CoreOf(v, cutset, lo, hi) <==> IsCore(v, lo, hi)
  {
  }

  lemma NormalFormIs(v: string) returns (lo: nat, hi: nat)
    ensures IsCore(v, lo, hi) && NormalizeEmail(v) == Lower(v[lo..hi])
  {
    lo, hi := TrimIsCoreOf(v, WHITESPACE);
    forall c ensures c in WHITESPACE <==> IsSpace(c) { SpacesAreWhitespace(c); }
    CoresAgree(v, WHITESPACE, lo, hi);
  }

  lemma CoreIsUnique(v: string, lo: nat, hi: nat, lo': nat, hi': nat)
    requires IsCore(v, lo, hi) && IsCore(v, lo', hi')
    ensures v[lo..hi] == v[lo'..hi']
  {
  }

  lemma LowerIsSameLetter(c: char, d: char)
    ensures LowerChar(c) == LowerChar(d) <==> SameLetter(c, d)
  {
  }

  lemma LowerIsSameLetters(a: string, b: string)
    ensures Lower(a) == Lower(b) <==> SameLetters(a, b)
  {
    if |a| == |b| {
      forall i | 0 <= i < |a| ensures Lower(a)[i] == Lower(b)[i] <==> SameLetter(a[i], b[i])
          { LowerIsSameLetter(a[i], b[i]); }
      if Lower(a) == Lower(b) { assert forall i :: 0 <= i < |a| ==> Lower(a)[i] == Lower(b)[i]; }
    } else {
      assert |Lower(a)| != |Lower(b)|;
    }
  }

  /** Two emails have one normal form exactly when they spell one address. */
  lemma OneFormPerAddress(a: string, b: string)
    ensures NormalizeEmail(a) == NormalizeEmail(b) <==> SameAddress(a, b)
  {
    var lo, hi := NormalFormIs(a);
    var lo', hi' := NormalFormIs(b);
    LowerIsSameLetters(a[lo..hi], b[lo'..hi']);
    if SameAddress(a, b) {
      var l: nat, h: nat, l': nat, h': nat :| IsCore(a, l, h) && IsCore(b, l', h') && SameLetters(a[l..h], b[l'..h']);
      CoreIsUnique(a, l, h, lo, hi);
      CoreIsUnique(b, l', h', lo', hi');
    }
  }

  lemma LowerIsPlain(v: string)
    ensures forall i :: 0 <= i < |v| ==> !('A' <= Lower(v)[i] <= 'Z') && (IsSpace(Lower(v)[i]) <==> IsSpace(v[i]))
  {
  }

  lemma SameCore(n: string, v: string, lo: nat, hi: nat)
    requires IsCore(v, lo, hi) && n == Lower(v[lo..hi])
    ensures IsCore(n, 0, |n|) && SameAddress(n, v)
  {
    LowerIsPlain(v[lo..hi]);
    assert IsCore(n, 0, |n|);
    assert n[0..|n|] == n;
    forall i | 0 <= i < |n| ensures SameLetter(n[i], v[lo..hi][i]) { }
    assert SameLetters(n[0..|n|], v[lo..hi]);
  }

  /** A normal form has no capital from A to Z and no whitespace at either end, and is its own. */
  lemma NormalFormIsPlain(v: string)
    ensures var n := NormalizeEmail(v);
      && (forall i :: 0 <= i < |n| ==> !('A' <= n[i] <= 'Z'))
      && (n != "" ==> !IsSpace(n[0]) && !IsSpace(n[|n| - 1])) && NormalizeEmail(n) == n
  {
    var lo, hi := NormalFormIs(v);
    LowerIsPlain(v[lo..hi]);
    SameCore(NormalizeEmail(v), v, lo, hi);
    OneFormPerAddress(NormalizeEmail(v), v);
  }

  /** strings.Cut at the first c: before, after, found. */
  function Cut(v: string, c: char): (string, string, bool)
  {
    if v == "" then ("", "", false)
    else if v[0] == c then ("", v[1..], true)
    else var (before, after, found) := Cut(v[1..], c); ([v[0]] + before, after, found)
  }

  function ValidateEmail(v: string): bool
  {
    var (local, domain, found) := Cut(v, '@');
    found && local != "" && domain != ""
    && ' ' !in v && '\t' !in v && '\r' !in v && '\n' !in v && '@' !in domain
  }

  lemma {:induction false} CutIsSplit(v: string, c: char)
    ensures var (before, after, found) := Cut(v, c);
      && (found <==> c in v) && c !in before
      && v == if found then before + [c] + after else before
  {
    if v != "" && v[0] != c {
      CutIsSplit(v[1..], c);
      assert v == [v[0]] + v[1..];
    }
  }

  ghost predicate OnlyAt(v: string, c: char, i: int)
  {
    0 <= i < |v| && v[i] == c && forall j :: 0 <= j < |v| && v[j] == c ==> j == i
  }

  /** An accepted address holds one @, with something on both sides and no blanks. */
  lemma EmailShape(v: string)
    ensures ValidateEmail(v) <==>
      (exists i :: 0 < i < |v| - 1 && OnlyAt(v, '@', i)) && ' ' !in v && '\t' !in v && '\r' !in v && '\n' !in v
  {
    CutIsSplit(v, '@');
    var (local, domain, found) := Cut(v, '@');
    var i := |local|;
    if found {
      assert v[i] == '@' && domain == v[i + 1..];
      assert forall j :: 0 <= j < i ==> v[j] == local[j];
      assert forall j :: i < j < |v| ==> v[j] == domain[j - i - 1];
      assert '@' !in domain <==> OnlyAt(v, '@', i);
      assert forall k :: OnlyAt(v, '@', k) ==> k == i;
    }
  }
}
