/** Digits, checksums and validators of the field types (internal/schema/types.go). */
module Luhn {
  import opened Strings

  predicate IsDigit(c: char) { '0' <= c <= '9' }

  predicate AllDigits(d: string) { forall i :: 0 <= i < |d| ==> IsDigit(d[i]) }

  function Value(c: char): int
  {
    c as int - '0' as int
  }

  function DigitSum(n: int): int { n / 10 + n % 10 }

  /** What one digit adds to the checksum: itself, or the digit sum of its double. */
  function Weight(n: int, doubled: bool): int
  {
    if !doubled then n else DigitSum(n * 2)
  }

  /** The weighted sum of a digit string; doubledLast says whether its last digit is a
      doubled one. Annex B of ISO/IEC 7812-1 doubles every second digit from the right,
      starting next to the check digit. */
  ghost function WeightedSum(d: string, doubledLast: bool): int
  {
    if d == "" then 0 else WeightedSum(d[..|d| - 1], !doubledLast) + Weight(Value(d[|d| - 1]), doubledLast)
  }

  ghost predicate LuhnValid(d: string)
  {
    WeightedSum(d, false) % 10 == 0
  }

  /** Whether the digit k places from the right end of a string is doubled. */
  predicate DoubledAt(doubledLast: bool, k: nat) { doubledLast == (k % 2 == 0) }

  lemma DoubledAtNext(k: nat)
    ensures DoubledAt(false, k + 1) == !DoubledAt(false, k)
  {
  }

  lemma {:induction false} SumOfConcat(a: string, b: string, doubledLast: bool)
    ensures WeightedSum(a + b, doubledLast) == WeightedSum(a, DoubledAt(doubledLast, |b|)) + WeightedSum(b, doubledLast)
  {
    if b == "" {
      assert a + b == a;
    } else {
      var b' := b[..|b| - 1];
      assert (a + b)[..|a + b| - 1] == a + b';
      SumOfConcat(a, b', !doubledLast);
    }
  }

  lemma SumOfSnoc(a: string, c: char, doubledLast: bool)
    ensures WeightedSum(a + [c], doubledLast) == WeightedSum(a, !doubledLast) + Weight(Value(c), doubledLast)
  {
  }

  /** The checksum around one position. */
  lemma SumAround(a: string, c: char, b: string)
    ensures WeightedSum(a + [c] + b, false)
         == WeightedSum(a, DoubledAt(false, |b| + 1)) + Weight(Value(c), DoubledAt(false, |b|)) + WeightedSum(b, false)
  {
    SumOfConcat(a + [c], b, false);
    SumOfSnoc(a, c, DoubledAt(false, |b|));
    DoubledAtNext(|b|);
  }

  /** What the digit at position i of d adds, every second one from the right, starting next to the
      last, doubled; a double of two digits counts as their sum. */
  function TermAt(d: string, i: nat): int
    requires i < |d|
  {
    var n := d[i] as int - 48;
    if (|d| - i) % 2 == 1 then n else if n < 5 then 2 * n else 2 * n - 9
  }

  function TermsUpTo(d: string, n: nat): int
    requires n <= |d|
  {
    if n == 0 then 0 else TermsUpTo(d, n - 1) + TermAt(d, n - 1)
  }

  lemma {:induction false} TermsOfPrefix(d: string, n: nat)
    requires AllDigits(d) && n <= |d|
    ensures WeightedSum(d[..n], (|d| - n) % 2 == 1) == TermsUpTo(d, n)
  {
    if n > 0 {
      TermsOfPrefix(d, n - 1);
      assert d[..n][..n - 1] == d[..n - 1];
      WeightOfDigit(Value(d[n - 1]));
    }
  }

  /** The checksum, position by position. */
  lemma LuhnByPositions(d: string)
    requires forall i :: 0 <= i < |d| ==> '0' <= d[i] <= '9'
    ensures LuhnValid(d) <==> TermsUpTo(d, |d|) % 10 == 0
  {
    TermsOfPrefix(d, |d|);
    assert d[..|d|] == d;
  }

  /** The right-to-left loop computes the weighted sum. */
  method LuhnCheck(d: string) returns (ok: bool)
    requires AllDigits(d)
    ensures ok <==> LuhnValid(d)
    ensures ok <==> TermsUpTo(d, |d|) % 10 == 0
  {
    LuhnByPositions(d);
    var sum := 0;
    var double := false;
    var i := |d|;
    while i > 0
      invariant 0 <= i <= |d|
      invariant double == DoubledAt(false, |d| - i)
      invariant sum == WeightedSum(d[i..], false)
    {
      SumAround("", d[i - 1], d[i..]);
      assert "" + [d[i - 1]] + d[i..] == d[i - 1..];
      DoubledAtNext(|d| - i);
      i := i - 1;
      var n := Value(d[i]);
      if double {
        n := n * 2;
        if n > 9 { n := n - 9; }
      }
      sum := sum + n;
      double := !double;
    }
    assert d[0..] == d;
    ok := sum % 10 == 0;
  }

  /** A doubled digit counts as its digit sum, which the code gets by taking off nine. */
  lemma WeightOfDigit(n: int)
    requires 0 <= n < 10
    ensures Weight(n, true) == if 2 * n > 9 then 2 * n - 9 else 2 * n
  {
  }

  /** Both weights are permutations of the ten digits modulo ten. */
  lemma WeightIsInjective(m: nat, n: nat, doubled: bool)
    requires m < 10 && n < 10
    ensures Weight(m, doubled) < 10
    ensures Weight(m, doubled) == Weight(n, doubled) <==> m == n
  {
  }

  /** Replacing one term of a sum divisible by ten keeps it so only for equal terms. */
  lemma TermIsDetermined(x: int, m: int, n: int)
    requires 0 <= m < 10 && 0 <= n < 10 && (x + m) % 10 == 0
    ensures (x + n) % 10 == 0 <==> m == n
  {
  }

  function Complement(s: int): (v: int)
    ensures 0 <= v < 10 && (s + v) % 10 == 0
  {
    (10 - s % 10) % 10
  }

  lemma CheckDigitIs(p: string, c: char, v: int)
    requires IsDigit(c) && v == Complement(WeightedSum(p, true))
    ensures LuhnValid(p + [c]) <==> Value(c) == v
  {
    SumOfSnoc(p, c, false);
    TermIsDetermined(WeightedSum(p, true), v, Value(c));
  }

  /** Every prefix has exactly one valid check digit. */
  lemma CheckDigitIsUnique(p: string)
    ensures exists c :: IsDigit(c) && LuhnValid(p + [c])
    ensures forall c, e :: IsDigit(c) && IsDigit(e) && LuhnValid(p + [c]) && LuhnValid(p + [e]) ==> c == e
  {
    var s := WeightedSum(p, true);
    var v := Complement(s);
    var w := (v + '0' as int) as char;
    assert IsDigit(w) && Value(w) == v;
    CheckDigitIs(p, w, v);
    forall c | IsDigit(c) && LuhnValid(p + [c]) ensures c == w {
      CheckDigitIs(p, c, v);
    }
  }

  /** Changing any single digit of a valid string is detected. */
  lemma SingleErrorDetected(a: string, c: char, e: char, b: string)
    requires IsDigit(c) && IsDigit(e) && LuhnValid(a + [c] + b)
    ensures LuhnValid(a + [e] + b) <==> c == e
  {
    var doubled := DoubledAt(false, |b|);
    SumAround(a, c, b);
    SumAround(a, e, b);
    WeightIsInjective(Value(c), Value(e), doubled);
    WeightIsInjective(Value(e), Value(c), doubled);
    TermIsDetermined(WeightedSum(a, DoubledAt(false, |b| + 1)) + WeightedSum(b, false), Weight(Value(c), doubled),
        Weight(Value(e), doubled));
  }

  predicate ZeroAndNine(c: char, e: char) { (c == '0' && e == '9') || (c == '9' && e == '0') }

  lemma ShiftIsDetermined(x: int, d: int)
    requires -10 < d < 10 && x % 10 == 0
    ensures (x + d) % 10 == 0 <==> d == 0
  {
  }

  /** Swapping two terms of which one is doubled. */
  lemma PairIsDetermined(x: int, m: int, n: int, doubled: bool)
    requires 0 <= m < 10 && 0 <= n < 10
    requires (x + Weight(m, doubled) + Weight(n, !doubled)) % 10 == 0
    ensures (x + Weight(n, doubled) + Weight(m, !doubled)) % 10 == 0 <==>
      m == n || (m == 0 && n == 9) || (m == 9 && n == 0)
  {
    WeightOfDigit(m);
    WeightOfDigit(n);
    var before := x + Weight(m, doubled) + Weight(n, !doubled);
    var after := x + Weight(n, doubled) + Weight(m, !doubled);
    var d := (Weight(m, true) - m) - (Weight(n, true) - n);
    assert after - before == d || before - after == d;
    ShiftIsDetermined(before, after - before);
  }

  lemma PairSum(a: string, c: char, e: char, b: string)
    ensures WeightedSum(a + [c] + ([e] + b), false)
         == WeightedSum(a, DoubledAt(false, |b|)) + Weight(Value(c), !DoubledAt(false, |b|)) + Weight(Value(e),
             DoubledAt(false, |b|)) + WeightedSum(b, false)
  {
    SumAround(a + [c], e, b);
    SumOfSnoc(a, c, DoubledAt(false, |b| + 1));
    DoubledAtNext(|b|);
    assert a + [c] + ([e] + b) == a + [c] + [e] + b;
  }

  /** Swapping two adjacent digits is detected, except for equal digits and for 0 and 9. */
  lemma TranspositionDetected(a: string, c: char, e: char, b: string)
    requires IsDigit(c) && IsDigit(e) && LuhnValid(a + [c] + ([e] + b))
    ensures LuhnValid(a + [e] + ([c] + b)) <==> c == e || ZeroAndNine(c, e)
  {
    PairSum(a, c, e, b);
    PairSum(a, e, c, b);
    PairIsDetermined(WeightedSum(a, DoubledAt(false, |b|)) + WeightedSum(b, false), Value(c), Value(e),
        !DoubledAt(false, |b|));
  }

  /** The digits of v, in order. */
  function DigitsOf(v: string): (d: string)
    ensures AllDigits(d)
  {
    if v == "" then "" else (if IsDigit(v[0]) then [v[0]] else "") + DigitsOf(v[1..])
  }

  lemma {:induction false} DigitsOfConcat(a: string, b: string)
    ensures DigitsOf(a + b) == DigitsOf(a) + DigitsOf(b)
  {
    if a == "" {
      assert a + b == b;
    } else {
      assert (a + b)[1..] == a[1..] + b;
      DigitsOfConcat(a[1..], b);
    }
  }

  lemma {:induction false} DigitsOfDigits(d: string)
    requires AllDigits(d)
    ensures DigitsOf(d) == d
  {
    if d != "" {
      DigitsOfDigits(d[1..]);
      assert d == [d[0]] + d[1..];
    }
  }

  /** at lists, ascending, exactly the positions of v that hold an ASCII digit. */
  ghost predicate DigitPositions(v: string, at: seq<nat>)
  {
    && (forall k :: 0 <= k < |at| ==> at[k] < |v|)
    && (forall i :: 0 <= i < |v| ==> (i in at <==> '0' <= v[i] <= '9'))
    && (forall j, k :: 0 <= j < k < |at| ==> at[j] < at[k])
  }

  /** d is v at these positions and nothing else. */
  ghost predicate ReadAt(d: string, v: string, at: seq<nat>)
  {
    |d| == |at| && forall k :: 0 <= k < |at| ==> at[k] < |v| && d[k] == v[at[k]]
  }

  /** What DigitsOf keeps: the digits of v, each where it stands, and no character for anything else. */
  lemma {:induction false} DigitsAreThere(v: string) returns (at: seq<nat>)
    ensures DigitPositions(v, at) && ReadAt(DigitsOf(v), v, at)
  {
    at := [];
    if v != "" {
      var n := |v| - 1;
      assert v == v[..n] + [v[n]];
      DigitsOfConcat(v[..n], [v[n]]);
      DigitsOfOne(v[n]);
      var before := DigitsAreThere(v[..n]);
      at := if IsDigit(v[n]) then before + [n] else before;
      PositionsGrow(v, n, before, at);
    }
  }

  lemma DigitsOfOne(c: char)
    ensures DigitsOf([c]) == if '0' <= c <= '9' then [c] else ""
  {
    assert [c][1..] == "";
  }

  lemma PositionsGrow(v: string, n: nat, before: seq<nat>, at: seq<nat>)
    requires |v| == n + 1 && DigitPositions(v[..n], before) && at == if IsDigit(v[n]) then before + [n] else before
    ensures DigitPositions(v, at)
  {
    forall i | 0 <= i < |v| ensures i in at <==> '0' <= v[i] <= '9' {
      assert i in before + [n] <==> i in before || i == n;
      if i < n { assert v[i] == v[..n][i]; } else { assert n !in before; }
    }
  }

  /** digits: keep the digits, one rune after the other. at says where they stand. */
  method Digits(v: string) returns (b: string, ghost at: seq<nat>)
    ensures b == DigitsOf(v)
    ensures DigitPositions(v, at) && ReadAt(b, v, at)
  {
    b := "";
    for i := 0 to |v|
      invariant b == DigitsOf(v[..i])
    {
      assert v[..i + 1] == v[..i] + [v[i]];
      DigitsOfConcat(v[..i], [v[i]]);
      if IsDigit(v[i]) { b := b + [v[i]]; }
    }
    assert v[..|v|] == v;
    at := DigitsAreThere(v);
  }

  /** Characters other than digits contribute nothing. */
  lemma {:induction false} SeparatorsHaveNoDigits(sep: string)
    requires forall i :: 0 <= i < |sep| ==> !('0' <= sep[i] <= '9')
    ensures DigitsOf(sep) == ""
  {
    if sep != "" { SeparatorsHaveNoDigits(sep[1..]); }
  }

  /** strings.Trim: drop leading and trailing characters of the cutset. */
  function Trim(v: string, cutset: string): string
  {
    if v == "" then ""
    else if v[0] in cutset then Trim(v[1..], cutset)
    else if v[|v| - 1] in cutset then Trim(v[..|v| - 1], cutset)
    else v
  }

  lemma {:induction false} TrimIsEmpty(v: string, cutset: string)
    ensures Trim(v, cutset) == "" <==> forall i :: 0 <= i < |v| ==> v[i] in cutset
  {
    if v != "" {
      if v[0] in cutset {
        TrimIsEmpty(v[1..], cutset);
        assert forall i :: 0 < i < |v| ==> v[i] == v[1..][i - 1];
        assert forall i :: 0 <= i < |v[1..]| ==> v[1..][i] == v[i + 1];
      } else if v[|v| - 1] in cutset {
        TrimIsEmpty(v[..|v| - 1], cutset);
        assert v[0] == v[..|v| - 1][0];
      }
    }
  }

  const PHONE_CHARS := "0123456789 +-()."
  const CARD_CHARS := "0123456789 -"

  ghost predicate CardValid(v: string)
  {
    && (forall i :: 0 <= i < |v| ==> v[i] in CARD_CHARS)
    && 13 <= |DigitsOf(v)| <= 19
    && LuhnValid(DigitsOf(v))
  }

  ghost predicate PhoneValid(v: string)
  {
    && (forall i :: 0 <= i < |v| ==> v[i] in PHONE_CHARS)
    && 7 <= |DigitsOf(v)| <= 15
  }

  /** validateCard, true for no error. */
  method ValidateCard(v: string) returns (ok: bool)
    ensures ok <==> CardValid(v)
  {
    TrimIsEmpty(v, CARD_CHARS);
    if Trim(v, CARD_CHARS) != "" { return false; }
    var d, _ := Digits(v);
    if |d| < 13 || |d| > 19 { return false; }
    ok := LuhnCheck(d);
  }

  /** validatePhone, true for no error. */
  method ValidatePhone(v: string) returns (ok: bool)
    ensures ok <==> PhoneValid(v)
  {
    TrimIsEmpty(v, PHONE_CHARS);
    if Trim(v, PHONE_CHARS) != "" { return false; }
    var d, _ := Digits(v);
    ok := 7 <= |d| <= 15;
  }

  lemma DigitsAround(a: string, c: char, b: string)
    requires IsDigit(c)
    ensures DigitsOf(a + [c] + b) == DigitsOf(a) + [c] + DigitsOf(b)
  {
    DigitsOfConcat(a + [c], b);
    DigitsOfConcat(a, [c]);
    assert [c][1..] == "";
    assert DigitsOf([c]) == [c];
  }

  /** Mistyping one digit of an accepted card, however it is spelled, is rejected. */
  lemma CardSingleErrorRejected(a: string, c: char, e: char, b: string)
    requires IsDigit(c) && IsDigit(e) && CardValid(a + [c] + b)
    ensures CardValid(a + [e] + b) <==> c == e
  {
    DigitsAround(a, c, b);
    DigitsAround(a, e, b);
    SingleErrorDetected(DigitsOf(a), c, e, DigitsOf(b));
  }

  /** Swapping two digits with only separators between them is rejected, unless they
      are equal or 0 and 9. */
  lemma CardTranspositionRejected(a: string, c: char, sep: string, e: char, b: string)
    requires IsDigit(c) && IsDigit(e) && forall i :: 0 <= i < |sep| ==> !('0' <= sep[i] <= '9')
    requires CardValid(a + [c] + (sep + [e] + b))
    ensures CardValid(a + [e] + (sep + [c] + b)) <==> c == e || ZeroAndNine(c, e)
  {
    SeparatorsHaveNoDigits(sep);
    SwappedDigits(a, c, sep, e, b);
    SwappedDigits(a, e, sep, c, b);
    var d, t := DigitsOf(a), DigitsOf(b);
    TranspositionDetected(d, c, e, t);
    var v, w := a + [c] + (sep + [e] + b), a + [e] + (sep + [c] + b);
    assert |v| == |w|;
    assert v[|a|] == c && v[|a| + 1 + |sep|] == e;
    assert IsDigit(c) ==> c in CARD_CHARS;
    assert IsDigit(e) ==> e in CARD_CHARS;
    forall i | 0 <= i < |w| ensures w[i] in CARD_CHARS {
      assert v[i] in CARD_CHARS;
      assert w[i] == v[i] || w[i] == c || w[i] == e;
    }
  }

  lemma SwappedDigits(a: string, c: char, sep: string, e: char, b: string)
    requires IsDigit(c) && IsDigit(e) && DigitsOf(sep) == ""
    ensures DigitsOf(a + [c] + (sep + [e] + b)) == DigitsOf(a) + [c] + ([e] + DigitsOf(b))
  {
    DigitsAround(a, c, sep + [e] + b);
    DigitsAround(sep, e, b);
  }

  // ---- spellings ----

  /** Separators, wherever they are put, change no digits. */
  lemma SeparatorsDoNotMatter(a: string, sep: string, b: string)
    requires forall i :: 0 <= i < |sep| ==> !('0' <= sep[i] <= '9')
    ensures DigitsOf(a + sep + b) == DigitsOf(a + b)
  {
    SeparatorsHaveNoDigits(sep);
    DigitsOfConcat(a + sep, b);
    DigitsOfConcat(a, sep);
    DigitsOfConcat(a, b);
  }

  lemma CharsAround(a: string, sep: string, b: string, chars: string)
    requires forall i :: 0 <= i < |sep| ==> sep[i] in chars
    ensures (forall i :: 0 <= i < |a + sep + b| ==> (a + sep + b)[i] in chars) <==>
      (forall i :: 0 <= i < |a + b| ==> (a + b)[i] in chars)
  {
    var v, w := a + sep + b, a + b;
    if forall i :: 0 <= i < |v| ==> v[i] in chars {
      forall i | 0 <= i < |w| ensures w[i] in chars {
        assert w[i] == if i < |a| then v[i] else v[i + |sep|];
      }
    }
    if forall i :: 0 <= i < |w| ==> w[i] in chars {
      forall i | 0 <= i < |v| ensures v[i] in chars {
        assert i < |a| ==> v[i] == w[i];
        assert i >= |a| + |sep| ==> v[i] == w[i - |sep|];
        assert |a| <= i < |a| + |sep| ==> v[i] == sep[i - |a|];
      }
    }
  }

  /** A card is accepted in any spelling with blanks and dashes, or in none. */
  lemma CardSpellings(a: string, sep: string, b: string)
    requires forall i :: 0 <= i < |sep| ==> sep[i] in " -"
    ensures CardValid(a + sep + b) <==> CardValid(a + b)
  {
    SeparatorsDoNotMatter(a, sep, b);
    CharsAround(a, sep, b, CARD_CHARS);
  }

  /** A phone number likewise, with the punctuation of phone numbers. */
  lemma PhoneSpellings(a: string, sep: string, b: string)
    requires forall i :: 0 <= i < |sep| ==> sep[i] in " +-()."
    ensures PhoneValid(a + sep + b) <==> PhoneValid(a + b)
  {
    SeparatorsDoNotMatter(a, sep, b);
    CharsAround(a, sep, b, PHONE_CHARS);
  }

  /** Digits alone are a card if 13 to 19 of them check, and a phone number if there are 7 to 15. */
  lemma PlainSpellings(d: string)
    requires forall i :: 0 <= i < |d| ==> '0' <= d[i] <= '9'
    ensures CardValid(d) <==> 13 <= |d| <= 19 && LuhnValid(d)
    ensures PhoneValid(d) <==> 7 <= |d| <= 15
  {
    DigitsOfDigits(d);
  }

  /** A character that is no digit and no separator is refused wherever it stands. */
  lemma OtherCharacters(a: string, c: char, b: string)
    requires !('0' <= c <= '9')
    ensures c !in " -" ==> !CardValid(a + [c] + b)
    ensures c !in " +-()." ==> !PhoneValid(a + [c] + b)
  {
    assert (a + [c] + b)[|a|] == c;
  }
}
