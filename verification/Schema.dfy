/** Declared fields and the blind index (internal/schema/schema.go, types.go): what is
    indexed for an object, and what a search for a value looks up. */
module Schema {
  import opened Strings
  import opened Luhn
  import opened Emails

  /** Type, whole-value search, and the parts of the value searchable on their own. */
  datatype Field = Field(typ: string, index: bool, fragments: seq<string>)

  type Fields = map<string, Field>
  type Schemas = map<string, Fields>

  /** A decoded JSON value, as far as string fields can tell values apart. */
  datatype Json = JNull | JString(s: string) | JOther

  type Object = map<string, Json>

  datatype Problem =
    | UnknownType | CannotBeIndexed | UnknownFragment | FragmentNeedsDigits
    | UnknownField | MustBeString | NotValid
    | NotIndexed | LastFourOnly

  datatype FieldError = FieldError(collection: string, field: string, problem: Problem)

  const LAST4 := "last4"
  const LAST4_SUFFIX := "#last4"
  const TYPES := {"string", "email", "phone", "card"}

  /** types[typ].normalize: one form for every spelling of the same value. */
  function Norm(typ: string, v: string): string
  {
    if typ == "email" then NormalizeEmail(v) else DigitsOf(v)
  }

  ghost predicate ValueValid(typ: string, v: string)
  {
    match typ
    case "email" => ValidateEmail(v)
    case "phone" => PhoneValid(v)
    case "card" => CardValid(v)
    case _ => true
  }

  predicate FragmentAccepted(f: Field, fr: string) { fr == LAST4 && f.typ in {"phone", "card"} }

  predicate FieldAccepted(f: Field)
  {
    && f.typ in {"string", "email", "phone", "card"}
    && (f.index ==> f.typ != "string")
    && forall fr :: fr in f.fragments ==> FragmentAccepted(f, fr)
  }

  predicate Accepted(s: Schemas)
  {
    forall c, n :: c in s && n in s[c] ==> FieldAccepted(s[c][n])
  }

  /** Whether a field has this problem, for the errors that Parse reports. */
  predicate HasProblem(f: Field, p: Problem)
  {
    match p
    case UnknownType => f.typ !in {"string", "email", "phone", "card"}
    case CannotBeIndexed => f.index && f.typ == "string"
    case UnknownFragment => exists fr :: fr in f.fragments && fr != LAST4
    case FragmentNeedsDigits => f.fragments != [] && f.typ !in {"phone", "card"}
    case _ => false
  }

  /** Parse after decoding: the schema is returned as it is, or a field is blamed for
      a problem it has. Collections and fields are visited in any order. */
  method Parse(s: Schemas) returns (r: Result<Schemas, FieldError>)
    ensures r.Ok? <==> Accepted(s)
    ensures r.Ok? ==> r.value == s
    ensures r.Err? ==> var e := r.error;
      e.collection in s && e.field in s[e.collection] && HasProblem(s[e.collection][e.field], e.problem)
  {
    var collections := s.Keys;
    while collections != {}
      invariant collections <= s.Keys
      invariant forall c, n :: c in s && c !in collections && n in s[c] ==> FieldAccepted(s[c][n])
    {
      var c :| c in collections;
      var names := s[c].Keys;
      while names != {}
        invariant names <= s[c].Keys
        invariant forall n :: n in s[c] && n !in names ==> FieldAccepted(s[c][n])
      {
        var n :| n in names;
        var problem := CheckField(s[c][n]);
        if problem.Some? { return Err(FieldError(c, n, problem.value)); }
        names := names - {n};
      }
      collections := collections - {c};
    }
    r := Ok(s);
  }

  method CheckField(f: Field) returns (p: Option<Problem>)
    ensures p.None? <==> FieldAccepted(f)
    ensures p.Some? ==> HasProblem(f, p.value)
  {
    if f.typ !in TYPES { return Some(UnknownType); }
    if f.index && f.typ == "string" { return Some(CannotBeIndexed); }
    for i := 0 to |f.fragments|
      invariant forall k :: 0 <= k < i ==> FragmentAccepted(f, f.fragments[k])
    {
      assert f.fragments[i] in f.fragments;
      if f.fragments[i] != LAST4 { return Some(UnknownFragment); }
      if f.typ != "phone" && f.typ != "card" { return Some(FragmentNeedsDigits); }
    }
    p := None;
  }

  ghost predicate MemberValid(fields: Fields, obj: Object, name: string)
    requires name in obj
  {
    name in fields && obj[name].JString? && ValueValid(fields[name].typ, obj[name].s)
  }

  ghost predicate ObjectValid(s: Schemas, collection: string, obj: Object)
  {
    collection in s ==> forall name :: name in obj ==> MemberValid(s[collection], obj, name)
  }

  method ValidateValue(typ: string, v: string) returns (ok: bool)
    ensures ok <==> ValueValid(typ, v)
  {
    match typ {
      case "email" => ok := ValidateEmail(v);
      case "phone" => ok := ValidatePhone(v);
      case "card" => ok := ValidateCard(v);
      case _ => ok := true;
    }
  }

  /** Validate: accept exactly the objects whose every member is a declared, valid string. */
  method Validate(s: Schemas, collection: string, obj: Object) returns (err: Option<FieldError>)
    ensures err.None? <==> ObjectValid(s, collection, obj)
    ensures err.Some? ==> collection in s && err.value.field in obj && !MemberValid(s[collection], obj, err.value.field)
    ensures err.Some? ==>
      var e := err.value;
      e.collection == collection && e.problem == if e.field !in s[collection] then UnknownField
                                                 else if !obj[e.field].JString? then MustBeString else NotValid
  {
    if collection !in s { return None; }
    var c := s[collection];
    var names := obj.Keys;
    while names != {}
      invariant names <= obj.Keys
      invariant forall n :: n in obj && n !in names ==> MemberValid(c, obj, n)
    {
      var name :| name in names;
      if name !in c { return Some(FieldError(collection, name, UnknownField)); }
      if !obj[name].JString? { return Some(FieldError(collection, name, MustBeString)); }
      var ok := ValidateValue(c[name].typ, obj[name].s);
      if !ok { return Some(FieldError(collection, name, NotValid)); }
      names := names - {name};
    }
    err := None;
  }

  /** json.Unmarshal into a string: null leaves it empty, other non-strings fail. */
  function Unmarshal(j: Json): Option<string>
  {
    match j
    case JNull => Some("")
    case JString(v) => Some(v)
    case JOther => None
  }

  function LastFour(v: string): string
  {
    if |v| < 4 then v else v[|v| - 4..]
  }

  /** The loop body of Indexed: what one declared field adds to the result. */
  function AddField(fields: Fields, obj: Object, out: map<string, string>, name: string): map<string, string>
    requires name in fields
  {
    var f := fields[name];
    if name !in obj || (!f.index && f.fragments == []) || Unmarshal(obj[name]).None? then out else
      var normalized := Norm(f.typ, Unmarshal(obj[name]).value);
      var whole := if f.index then out[name := normalized] else out;
      if LAST4 in f.fragments && |normalized| >= 4 then whole[name + LAST4_SUFFIX := LastFour(normalized)] else whole
  }

  ghost predicate IsOrder(order: seq<string>, names: set<string>)
  {
    && (forall n :: n in order <==> n in names)
    && forall i, j :: 0 <= i < j < |order| ==> order[i] != order[j]
  }

  /** The result of Indexed when the declared fields are visited in this order. */
  ghost function IndexedIn(fields: Fields, obj: Object, order: seq<string>): map<string, string>
    requires forall n :: n in order ==> n in fields
  {
    if order == [] then map[] else
      var last := order[|order| - 1];
      assert forall n :: n in order[..|order| - 1] ==> n in order;
      AddField(fields, obj, IndexedIn(fields, obj, order[..|order| - 1]), last)
  }

  function FieldsOf(s: Schemas, collection: string): Fields
  {
    if collection in s then s[collection] else map[]
  }

  /** Indexed: Go visits the fields in an arbitrary order, which is returned as a ghost. Whatever
      it is, without a name clash every search finds exactly what the object holds. */
  method Indexed(s: Schemas, collection: string, obj: Object)
      returns (out: map<string, string>, ghost order: seq<string>)
    requires Accepted(s)
    ensures IsOrder(order, FieldsOf(s, collection).Keys)
    ensures out == IndexedIn(FieldsOf(s, collection), obj, order)
    ensures collection in s && ObjectValid(s, collection, obj) && NoClash(s[collection]) ==>
      forall field, query :: Exact(s, collection, obj, out, field, query)
  {
    out, order := map[], [];
    var fields := FieldsOf(s, collection);
    var rest := fields.Keys;
    while rest != {}
      invariant rest <= fields.Keys
      invariant IsOrder(order, fields.Keys - rest)
      invariant out == IndexedIn(fields, obj, order)
    {
      var name :| name in rest;
      OrderNext(fields, obj, order, fields.Keys - rest, name);
      order, rest := order + [name], rest - {name};
      var f := fields[name];
      if name !in obj || (!f.index && f.fragments == []) { continue; }
      var v := Unmarshal(obj[name]);
      if v.None? { continue; }
      var normalized := Norm(f.typ, v.value);
      if f.index { out := out[name := normalized]; }
      if LAST4 in f.fragments && |normalized| >= 4 {
        out := out[name + LAST4_SUFFIX := normalized[|normalized| - 4..]];
      }
    }
    forall field, query | collection in s && ObjectValid(s, collection, obj) && NoClash(s[collection])
      ensures Exact(s, collection, obj, out, field, query)
    {
      SearchMatchesStorage(s, collection, obj, order, field, query);
    }
  }

  lemma OrderNext(fields: Fields, obj: Object, order: seq<string>, names: set<string>, name: string)
    requires IsOrder(order, names) && names <= fields.Keys && name in fields && name !in names
    ensures IsOrder(order + [name], names + {name})
    ensures IndexedIn(fields, obj, order + [name]) == AddField(fields, obj, IndexedIn(fields, obj, order), name)
  {
    assert (order + [name])[..|order|] == order;
  }

  /** Normalize: which index to look in, and for what. */
  function Normalize(s: Schemas, collection: string, field: string, value: string): Result<(string, string), Problem>
  {
    var fields := FieldsOf(s, collection);
    if field !in fields || (!fields[field].index && fields[field].fragments == []) then Err(NotIndexed) else
      var f := fields[field];
      var normalized := Norm(f.typ, value);
      if |normalized| == 4 && LAST4 in f.fragments then Ok((field + LAST4_SUFFIX, normalized))
      else if !f.index then Err(LastFourOnly)
      else Ok((field, normalized))
  }

  /** Field name of a valid object contributes value v under index k. */
  ghost predicate EntryFrom(fields: Fields, obj: Object, name: string, k: string, v: string)
  {
    && name in fields && name in obj && obj[name].JString?
    && var f, n := fields[name], Norm(fields[name].typ, obj[name].s);
      || (f.index && k == name && v == n)
      || (LAST4 in f.fragments && |n| >= 4 && k == name + LAST4_SUFFIX && v == LastFour(n))
  }

  /** No field is named like the fragment index of another and searchable as a whole. */
  ghost predicate NoClash(fields: Fields)
  {
    forall a :: a in fields && LAST4 in fields[a].fragments ==>
      a + LAST4_SUFFIX !in fields || !fields[a + LAST4_SUFFIX].index
  }

  lemma EntryIsUnique(fields: Fields, obj: Object, n1: string, n2: string, k: string, v1: string, v2: string)
    requires NoClash(fields)
    requires EntryFrom(fields, obj, n1, k, v1) && EntryFrom(fields, obj, n2, k, v2)
    ensures n1 == n2 && v1 == v2
  {
    assert n1 == (n1 + LAST4_SUFFIX)[..|n1|] && n2 == (n2 + LAST4_SUFFIX)[..|n2|];
  }

  /** Every index written comes from a field, */
  lemma {:induction false} EntryBehind(fields: Fields, obj: Object, order: seq<string>, k: string) returns (n: string)
    requires forall m :: m in order ==> m in fields
    requires forall m :: m in obj ==> obj[m].JString?
    requires k in IndexedIn(fields, obj, order)
    ensures n in order && EntryFrom(fields, obj, n, k, IndexedIn(fields, obj, order)[k])
  {
    var before, last := order[..|order| - 1], order[|order| - 1];
    assert forall m :: m in before ==> m in order;
    if EntryFrom(fields, obj, last, k, IndexedIn(fields, obj, order)[k]) {
      n := last;
    } else {
      n := EntryBehind(fields, obj, before, k);
    }
  }

  /** and every field writes its indexes. */
  lemma {:induction false} EntryIsIndexed(fields: Fields, obj: Object, order: seq<string>, n: string, k: string,
      v: string)
    requires forall m :: m in order ==> m in fields
    requires n in order && EntryFrom(fields, obj, n, k, v)
    ensures k in IndexedIn(fields, obj, order)
  {
    var before, last := order[..|order| - 1], order[|order| - 1];
    assert forall m :: m in before ==> m in order;
    if n != last {
      assert n in before;
      EntryIsIndexed(fields, obj, before, n, k, v);
    }
  }

  /** What a search for query means: another spelling of the stored address; the stored number with
      other separators; or, for four digits on a field with that fragment, its last four. */
  ghost predicate Matches(f: Field, stored: string, query: string)
  {
    if f.typ == "email" then SameAddress(stored, query) else
      var n, q := DigitsOf(stored), DigitsOf(query);
      if |q| == 4 && "last4" in f.fragments then |n| >= 4 && n[|n| - 4..] == q else n == q
  }

  lemma MatchesByNorm(f: Field, stored: string, query: string)
    requires FieldAccepted(f)
    ensures var n, q := Norm(f.typ, stored), Norm(f.typ, query);
      Matches(f, stored, query) <==> if |q| == 4 && LAST4 in f.fragments then |n| >= 4 && LastFour(n) == q else n == q
  {
    if f.typ == "email" { OneFormPerAddress(stored, query); }
  }

  /** Where a search is answered, and under which index: for four digits on a field with that
      fragment under the fragment's, otherwise under the field's own if it has one. */
  lemma NormalizeAnswersExactlyWhen(s: Schemas, collection: string, field: string, value: string)
    requires Accepted(s) && collection in s && field in s[collection]
    ensures var f, r := s[collection][field], Normalize(s, collection, field, value);
      var short := f.typ != "email" && |DigitsOf(value)| == 4 && "last4" in f.fragments;
      && (r.Ok? <==> f.index || short)
      && (r.Ok? ==> r.value.0 == if short then field + "#last4" else field)
      && (r == Err(NotIndexed) <==> !f.index && f.fragments == [])
      && (r == Err(LastFourOnly) <==> !f.index && f.fragments != [] && !short)
  {
    assert FieldAccepted(s[collection][field]);
  }

  /** Two spellings of one value are looked up alike: the same address, or the same digits. */
  lemma SpellingsNormalizeAlike(s: Schemas, collection: string, field: string, a: string, b: string)
    requires Accepted(s) && collection in s && field in s[collection]
    requires if s[collection][field].typ == "email" then SameAddress(a, b) else DigitsOf(a) == DigitsOf(b)
    ensures Normalize(s, collection, field, a) == Normalize(s, collection, field, b)
  {
    assert FieldAccepted(s[collection][field]);
    if s[collection][field].typ == "email" { OneFormPerAddress(a, b); }
  }

  /** A number is looked up alike wherever separators are put into it. */
  lemma SeparatorsNormalizeAlike(s: Schemas, collection: string, field: string, a: string, sep: string, b: string)
    requires collection in s && field in s[collection] && s[collection][field].typ in {"phone", "card"}
    requires forall i :: 0 <= i < |sep| ==> !('0' <= sep[i] <= '9')
    ensures Normalize(s, collection, field, a + sep + b) == Normalize(s, collection, field, a + b)
  {
    SeparatorsDoNotMatter(a, sep, b);
  }

  /** Looking up query for a field in the index rows of an object finds it exactly when
      the object holds a matching value. */
  ghost predicate Exact(s: Schemas, collection: string, obj: Object, out: map<string, string>, field: string,
      query: string)
  {
    var fields := FieldsOf(s, collection);
    match Normalize(s, collection, field, query)
    case Err(_) => true
    case Ok((index, normalized)) =>
      (index in out && out[index] == normalized) <==>
      (field in fields && field in obj && obj[field].JString? && Matches(fields[field], obj[field].s, query))
  }

  ghost predicate FindsExactly(s: Schemas, collection: string, obj: Object, order: seq<string>, field: string,
      query: string)
    requires IsOrder(order, FieldsOf(s, collection).Keys)
  {
    Exact(s, collection, obj, IndexedIn(FieldsOf(s, collection), obj, order), field, query)
  }

  /** Search matches storage, for every visiting order, when no names clash. */
  lemma SearchMatchesStorage(s: Schemas, collection: string, obj: Object, order: seq<string>, field: string,
      query: string)
    requires Accepted(s) && collection in s && ObjectValid(s, collection, obj)
    requires NoClash(s[collection]) && IsOrder(order, s[collection].Keys)
    ensures FindsExactly(s, collection, obj, order, field, query)
  {
    var fields := s[collection];
    var r := Normalize(s, collection, field, query);
    if r.Ok? {
      var (index, normalized) := r.value;
      var out := IndexedIn(fields, obj, order);
      if field in obj && obj[field].JString? { MatchesByNorm(fields[field], obj[field].s, query); }
      assert forall n :: n in obj ==> MemberValid(fields, obj, n);
      if index in out {
        var n := EntryBehind(fields, obj, order, index);
        SourceOfIndex(fields, obj, field, n, index, out[index]);
      }
      if field in obj && Matches(fields[field], obj[field].s, query) {
        EntryIsIndexed(fields, obj, order, field, index, normalized);
        var n := EntryBehind(fields, obj, order, index);
        EntryIsUnique(fields, obj, field, n, index, normalized, out[index]);
      }
    }
  }

  /** What is stored under the index of a field was put there by that field. */
  lemma SourceOfIndex(fields: Fields, obj: Object, field: string, n: string, index: string, v: string)
    requires NoClash(fields) && field in fields && EntryFrom(fields, obj, n, index, v)
    requires (index == field && fields[field].index)
        || (index == field + LAST4_SUFFIX && LAST4 in fields[field].fragments)
    ensures n == field
  {
    assert n == (n + LAST4_SUFFIX)[..|n|] && field == (field + LAST4_SUFFIX)[..|field|];
  }

  /** A whole phone or card value is never taken for a fragment query: it is looked up
      as a whole when the field is indexed, and refused when only the fragment is. */
  lemma WholeValueIsNotAFragment(s: Schemas, collection: string, field: string, value: string)
    requires collection in s && field in s[collection]
    requires s[collection][field].typ in {"phone", "card"} && ValueValid(s[collection][field].typ, value)
    ensures var f, r := s[collection][field], Normalize(s, collection, field, value);
      if f.index then r == Ok((field, DigitsOf(value))) else r.Err?
  {
  }

  function Zeros(n: nat): (z: string)
    ensures |z| == n && forall i :: 0 <= i < n ==> z[i] == '0'
  {
    if n == 0 then "" else Zeros(n - 1) + "0"
  }

  lemma {:induction false} ZerosAreValid(n: nat)
    ensures DigitsOf(Zeros(n)) == Zeros(n)
    ensures forall doubledLast :: WeightedSum(Zeros(n), doubledLast) == 0
  {
    if n > 0 {
      ZerosAreValid(n - 1);
      DigitsOfConcat(Zeros(n - 1), "0");
      assert "0"[1..] == "";
      forall doubledLast { SumOfSnoc(Zeros(n - 1), '0', doubledLast); }
    }
  }

  /** A valid value of every type that can be searched as a whole. */
  function Sample(typ: string): string
  {
    if typ == "email" then "a@b" else if typ == "phone" then Zeros(7) else Zeros(13)
  }

  lemma SampleIsValid(typ: string)
    requires typ in {"email", "phone", "card"}
    ensures ValueValid(typ, Sample(typ)) && |Norm(typ, Sample(typ))| != 4
    ensures typ != "email" ==> AllDigits(Sample(typ)) && |Sample(typ)| >= 7 && Norm(typ, Sample(typ)) == Sample(typ)
  {
    if typ == "email" { SampleEmail(); } else if typ == "phone" { SamplePhone(); } else { SampleCard(); }
  }

  lemma SampleEmail()
    ensures ValueValid("email", "a@b") && |Norm("email", "a@b")| == 3
  {
    EmailShape("a@b");
    assert OnlyAt("a@b", '@', 1);
  }

  lemma SamplePhone()
    ensures ValueValid("phone", Zeros(7)) && AllDigits(Zeros(7)) && Norm("phone", Zeros(7)) == Zeros(7)
  {
    ZerosAreValid(7);
    assert '0' in PHONE_CHARS;
  }

  lemma SampleCard()
    ensures ValueValid("card", Zeros(13)) && AllDigits(Zeros(13)) && Norm("card", Zeros(13)) == Zeros(13)
  {
    ZerosAreValid(13);
    assert '0' in CARD_CHARS;
  }

  ghost predicate Clash(fields: Fields, a: string)
  {
    && a in fields && LAST4 in fields[a].fragments && fields[a].typ in {"phone", "card"}
    && a + LAST4_SUFFIX in fields && fields[a + LAST4_SUFFIX].index
        && fields[a + LAST4_SUFFIX].typ in {"email", "phone", "card"}
  }

  /** An object with a value in both of the clashing fields. */
  function ClashObject(fields: Fields, a: string): Object
    requires a in fields && a + LAST4_SUFFIX in fields
  {
    var b := a + LAST4_SUFFIX;
    map[a := JString(Sample(fields[a].typ)), b := JString(Sample(fields[b].typ))]
  }

  lemma ClashObjectIsValid(s: Schemas, collection: string, a: string)
    requires collection in s && Clash(s[collection], a)
    ensures ObjectValid(s, collection, ClashObject(s[collection], a))
  {
    SampleIsValid(s[collection][a].typ);
    SampleIsValid(s[collection][a + LAST4_SUFFIX].typ);
  }

  lemma QueryOfWhole(s: Schemas, collection: string, b: string)
    requires Accepted(s) && collection in s && b in s[collection]
    requires s[collection][b].index && s[collection][b].typ in {"email", "phone", "card"}
    ensures var f := s[collection][b]; var v := Sample(f.typ);
      Normalize(s, collection, b, v) == Ok((b, Norm(f.typ, v))) && Matches(f, v, v)
  {
    var f := s[collection][b];
    SampleIsValid(f.typ);
    assert FieldAccepted(f);
    MatchesByNorm(f, Sample(f.typ), Sample(f.typ));
  }

  lemma QueryOfFragment(s: Schemas, collection: string, a: string)
    requires Accepted(s) && collection in s && Clash(s[collection], a)
    ensures var f := s[collection][a]; var v := Sample(f.typ);
      && Normalize(s, collection, a, LastFour(v)) == Ok((a + LAST4_SUFFIX, LastFour(v)))
      && |LastFour(v)| == 4 && Matches(f, v, LastFour(v))
  {
    var f := s[collection][a];
    SampleIsValid(f.typ);
    DigitsOfDigits(LastFour(Sample(f.typ)));
  }

  lemma ClashQueries(s: Schemas, collection: string, a: string)
    requires Accepted(s) && collection in s && Clash(s[collection], a)
    ensures var fields, b := s[collection], a + LAST4_SUFFIX;
      var va, vb := Sample(fields[a].typ), Sample(fields[b].typ);
      && Normalize(s, collection, b, vb) == Ok((b, Norm(fields[b].typ, vb)))
      && Normalize(s, collection, a, LastFour(va)) == Ok((b, LastFour(va)))
      && LastFour(va) != Norm(fields[b].typ, vb)
      && Matches(fields[a], va, LastFour(va)) && Matches(fields[b], vb, vb)
  {
    QueryOfWhole(s, collection, a + LAST4_SUFFIX);
    QueryOfFragment(s, collection, a);
    SampleIsValid(s[collection][a + LAST4_SUFFIX].typ);
  }

  /** Where names clash one index has to hold two values, and one of them is not found. */
  lemma ClashLosesSearch(s: Schemas, collection: string, a: string, out: map<string, string>)
    requires Accepted(s) && collection in s && Clash(s[collection], a)
    ensures exists field, query :: !Exact(s, collection, ClashObject(s[collection], a), out, field, query)
  {
    var fields, b := s[collection], a + LAST4_SUFFIX;
    var obj, va, vb := ClashObject(fields, a), Sample(fields[a].typ), Sample(fields[b].typ);
    ClashQueries(s, collection, a);
    assert b != a;
    assert obj[a] == JString(va) && obj[b] == JString(vb);
    if Exact(s, collection, obj, out, b, vb) {
      assert !Exact(s, collection, obj, out, a, LastFour(va));
    }
  }

  /** Search finds exactly what is stored, for every valid object, field and query,
      if and only if no field is named like the fragment index of another. */
  lemma SearchIsExactIffNoClash(s: Schemas, collection: string)
    requires Accepted(s) && collection in s
    ensures NoClash(s[collection]) <==>
      forall obj: Object, order, field, query | ObjectValid(s, collection, obj) && IsOrder(order, s[collection].Keys) ::
        FindsExactly(s, collection, obj, order, field, query)
  {
    if NoClash(s[collection]) {
      forall obj: Object, order, field, query | ObjectValid(s, collection, obj) && IsOrder(order, s[collection].Keys)
        ensures FindsExactly(s, collection, obj, order, field, query)
      {
        SearchMatchesStorage(s, collection, obj, order, field, query);
      }
    } else {
      ClashIsObservable(s, collection);
    }
  }

  lemma ClashOf(s: Schemas, collection: string) returns (a: string)
    requires Accepted(s) && collection in s && !NoClash(s[collection])
    ensures Clash(s[collection], a)
  {
    var fields := s[collection];
    a :| a in fields && LAST4 in fields[a].fragments && a + LAST4_SUFFIX in fields && fields[a + LAST4_SUFFIX].index;
    assert FieldAccepted(fields[a]) && FieldAccepted(fields[a + LAST4_SUFFIX]);
    assert FragmentAccepted(fields[a], LAST4);
  }

  lemma ClashIsObservable(s: Schemas, collection: string)
    requires Accepted(s) && collection in s && !NoClash(s[collection])
    ensures exists obj: Object, order, field, query ::
      ObjectValid(s, collection, obj) && IsOrder(order, s[collection].Keys)
          && !FindsExactly(s, collection, obj, order, field, query)
  {
    var a := ClashOf(s, collection);
    var obj, order := ClashObject(s[collection], a), SomeOrder(s[collection].Keys);
    ClashObjectIsValid(s, collection, a);
    ClashIsObservableIn(s, collection, a, order);
    var field, query :| !FindsExactly(s, collection, obj, order, field, query);
  }

  lemma ClashIsObservableIn(s: Schemas, collection: string, a: string, order: seq<string>)
    requires Accepted(s) && collection in s && Clash(s[collection], a) && IsOrder(order, s[collection].Keys)
    ensures exists field, query :: !FindsExactly(s, collection, ClashObject(s[collection], a), order, field, query)
  {
    var obj := ClashObject(s[collection], a);
    var out := IndexedIn(s[collection], obj, order);
    ClashLosesSearch(s, collection, a, out);
    var field, query :| !Exact(s, collection, obj, out, field, query);
    assert !FindsExactly(s, collection, obj, order, field, query);
  }

  ghost function SomeOrder(names: set<string>): (order: seq<string>)
    ensures IsOrder(order, names)
  {
    var order := Ascending(names);
    assert forall i, j :: 0 <= i < j < |order| ==> order[i] != order[j] by {
      forall a { LessIrreflexive(a); }
    }
    order
  }
}
