/** The version segment of a transit ciphertext (internal/envelope/transit.go, version):
    engines answer a re-wrap with fresh ciphertext, and only this segment tells whether
    the key version moved. */
module Transit {
  import opened Strings
  import opened Envelope

  const COLON := ':'

  /** strings.IndexByte: the first position of c, or nothing. */
  function IndexByte(s: Bytes, c: char): (r: Option<nat>)
    ensures r.None? <==> c !in s
    ensures r.Some? ==> r.value < |s| && s[r.value] == c && c !in s[..r.value]
  {
    if s == "" then None
    else if s[0] == c then Some(0)
    else
      match IndexByte(s[1..], c)
      case None => None
      case Some(i) => assert s[..i + 1] == [s[0]] + s[1..][..i]; Some(i + 1)
  }

  /** Everything before the second colon, or the whole ciphertext when there is none. */
  function Version(ciphertext: Bytes): Bytes
  {
    match IndexByte(ciphertext, COLON)
    case None => ciphertext
    case Some(first) =>
      match IndexByte(ciphertext[first + 1..], COLON)
      case None => ciphertext
      case Some(second) => ciphertext[..first + 1 + second]
  }

  predicate ColonFree(s: Bytes) { COLON !in s }

  /** A ciphertext as an engine writes it. */
  function Written(scheme: Bytes, version: Bytes, payload: Bytes): Bytes
  {
    scheme + [COLON] + version + [COLON] + payload
  }

  /** The first c of a + c + b is at |a| when a is free of it. */
  lemma FirstIs(s: Bytes, a: Bytes, b: Bytes, c: char)
    requires s == a + [c] + b && c !in a
    ensures IndexByte(s, c) == Some(|a|)
  {
    assert s[|a|] == c && c in s;
    assert forall i :: 0 <= i < |a| ==> s[i] == a[i] && a[i] in a;
    assert forall i :: |a| < i <= |s| ==> s[..i][|a|] == c;
  }

  lemma VersionOfWritten(scheme: Bytes, version: Bytes, payload: Bytes)
    requires ColonFree(scheme) && ColonFree(version)
    ensures Version(Written(scheme, version, payload)) == scheme + [COLON] + version
  {
    var s := Written(scheme, version, payload);
    assert s == scheme + [COLON] + (version + [COLON] + payload);
    FirstIs(s, scheme, version + [COLON] + payload, COLON);
    assert s[|scheme| + 1..] == version + [COLON] + payload;
    FirstIs(s[|scheme| + 1..], version, payload, COLON);
    assert s[..|scheme| + 1 + |version|] == scheme + [COLON] + version;
  }

  /** The comparison that Rewrap makes: two ciphertexts of engines count as of one version exactly
      when scheme and version are the same, whatever their payloads. */
  lemma SameVersionExactlyWhen(s1: Bytes, v1: Bytes, p1: Bytes, s2: Bytes, v2: Bytes, p2: Bytes)
    requires ColonFree(s1) && ColonFree(v1) && ColonFree(s2) && ColonFree(v2)
    ensures Version(Written(s1, v1, p1)) == Version(Written(s2, v2, p2)) <==> s1 == s2 && v1 == v2
  {
    VersionOfWritten(s1, v1, p1);
    VersionOfWritten(s2, v2, p2);
    if s1 + [COLON] + v1 == s2 + [COLON] + v2 {
      FirstIs(s1 + [COLON] + v1, s1, v1, COLON);
      FirstIs(s2 + [COLON] + v2, s2, v2, COLON);
      assert s1 == (s1 + [COLON] + v1)[..|s1|] && s2 == (s2 + [COLON] + v2)[..|s2|];
      assert v1 == (s1 + [COLON] + v1)[|s1| + 1..] && v2 == (s2 + [COLON] + v2)[|s2| + 1..];
    }
  }

  /** A string without two colons is its own version, so a change of any byte of it counts. */
  lemma VersionOfOtherStrings(a: Bytes, b: Bytes)
    requires ColonFree(a) && ColonFree(b)
    ensures Version(a) == a && Version(a + [COLON] + b) == a + [COLON] + b
  {
  }

  // ---- versions as numbers ----

  function Digit(d: nat): char
    requires d < 10
  {
    '0' + d as char
  }

  function Decimal(n: nat): string
  {
    if n < 10 then [Digit(n)] else Decimal(n / 10) + [Digit(n % 10)]
  }

  lemma {:induction false} DecimalIsColonFree(n: nat)
    ensures ColonFree(Decimal(n)) && Decimal(n) != ""
  {
    if n >= 10 { DecimalIsColonFree(n / 10); }
  }

  lemma {:induction false} DecimalIsInjective(m: nat, n: nat)
    requires Decimal(m) == Decimal(n)
    ensures m == n
  {
    var a, b := Decimal(m), Decimal(n);
    assert a[|a| - 1] == Digit(m % 10) && b[|b| - 1] == Digit(n % 10);
    DecimalIsColonFree(m / 10);
    DecimalIsColonFree(n / 10);
    if m >= 10 && n >= 10 {
      assert a[..|a| - 1] == Decimal(m / 10) && b[..|b| - 1] == Decimal(n / 10);
      DecimalIsInjective(m / 10, n / 10);
    }
  }

  /** How a key service writes a wrapped key of version n. */
  function CiphertextOf(scheme: Bytes, n: nat, payload: Bytes): Bytes { Written(scheme, "v" + Decimal(n), payload) }

  /** The strings that a re-wrap compares are equal exactly when the version numbers are. */
  lemma StringsCompareAsNumbers(scheme: Bytes, m: nat, n: nat, p: Bytes, q: Bytes)
    requires ColonFree(scheme)
    ensures Version(CiphertextOf(scheme, m, p)) == Version(CiphertextOf(scheme, n, q)) <==> m == n
  {
    DecimalIsColonFree(m);
    DecimalIsColonFree(n);
    SameVersionExactlyWhen(scheme, "v" + Decimal(m), p, scheme, "v" + Decimal(n), q);
    if "v" + Decimal(m) == "v" + Decimal(n) {
      assert Decimal(m) == ("v" + Decimal(m))[1..] && Decimal(n) == ("v" + Decimal(n))[1..];
      DecimalIsInjective(m, n);
    }
  }

  /** So a re-wrap by numbers reports a change exactly when the one by strings does, whatever
      payloads the service answers with. */
  lemma RewrapComparesStrings(w: Wrapper, engines: Engines, outage: Outage, wrapped: Option<Wrapped>, aad: Bytes,
      scheme: Bytes, p: Bytes, q: Bytes)
    requires ColonFree(scheme) && RewrapInPlace(w, engines, outage, wrapped, aad).Ok?
    ensures var (re, changed) := RewrapInPlace(w, engines, outage, wrapped, aad).value;
      re.Box? && (changed <==> Version(CiphertextOf(scheme, re.version, q)) != Version(CiphertextOf(scheme,
          wrapped.value.version, p)))
  {
    var re := RewrapInPlace(w, engines, outage, wrapped, aad).value.0;
    StringsCompareAsNumbers(scheme, re.version, wrapped.value.version, q, p);
  }
}
