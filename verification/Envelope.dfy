/** Envelope encryption over symbolic boxes (internal/envelope/envelope.go, transit.go).
    A box opens only under the key and the associated data it was made with; nonces are
    abstracted away, so two boxes with the same content are the same box. */
module Envelope {
  import opened Strings

  const KEY_SIZE := 32

  /** A wrapped key: a box of some wrapping key and key version, or bytes of no origin. */
  datatype Wrapped = Box(keyId: string, version: nat, dek: Bytes, aad: Bytes) | Junk(bytes: Bytes)

  datatype Ciphertext = Cipher(dek: Bytes, plaintext: Bytes, aad: Bytes) | Noise(bytes: Bytes)

  /** One encrypted value; no wrapped key is the crypto-shred. */
  datatype Sealed = Sealed(keyId: string, wrapped: Option<Wrapped>, ciphertext: Ciphertext)

  /** ErrOpen and ErrUnknownKey are about the value; the others mean that a backend did not
      answer or, for callers with a database, that a statement failed. */
  datatype Error = ErrOpen | ErrUnknownKey | ErrBackend | ErrStatement

  /** Local and Kms bind a wrapped key to its row; Transit does when its key is derived.
      Only Transit re-wraps in place and unwraps in batches. */
  datatype Kind = Local | Transit(derived: bool) | Kms

  datatype Wrapper = Wrapper(id: string, kind: Kind)

  datatype Envelope = Envelope(current: Wrapper, all: map<string, Wrapper>)

  /** The current key version of each key service, by wrapper id. */
  type Engines = map<string, nat>

  /** What does not answer during a call: wrappers, by id, or the database. */
  type Outage = set<string>

  const DATABASE := "postgres"

  /** A bad value is skipped by those who handle many; anything else stops them. */
  predicate Stops(e: Error) { e != ErrOpen && e != ErrUnknownKey }

  predicate EnvelopeValid(e: Envelope)
  {
    && e.current.id in e.all && e.all[e.current.id] == e.current
    && forall k :: k in e.all ==> e.all[k].id == k
  }

  function FirstWithId(ws: seq<Wrapper>, id: string): Option<Wrapper>
  {
    if ws == [] then None else if ws[0].id == id then Some(ws[0]) else FirstWithId(ws[1..], id)
  }

  lemma {:induction false} FirstWithIdOfSnoc(ws: seq<Wrapper>, w: Wrapper, id: string)
    ensures FirstWithId(ws + [w], id) ==
      if FirstWithId(ws, id).Some? then FirstWithId(ws, id) else if w.id == id then Some(w) else None
    ensures FirstWithId(ws, id).Some? ==> FirstWithId(ws, id).value.id == id && FirstWithId(ws, id).value in ws
    ensures FirstWithId(ws, id).None? ==> forall x :: x in ws ==> x.id != id
  {
    if ws == [] {
      assert (ws + [w])[1..] == [];
    } else {
      assert (ws + [w])[1..] == ws[1..] + [w];
      FirstWithIdOfSnoc(ws[1..], w, id);
    }
  }

  /** New: of several wrappers with one id the first is kept, and current is the first of all. */
  method New(current: Wrapper, previous: seq<Wrapper>) returns (e: Envelope)
    ensures EnvelopeValid(e) && e.current == current
    ensures forall k :: if k in e.all then FirstWithId([current] + previous, k) == Some(e.all[k])
        else FirstWithId([current] + previous, k).None?
  {
    e := Envelope(current, map[current.id := current]);
    for i := 0 to |previous|
      invariant EnvelopeValid(e) && e.current == current
      invariant forall k :: if k in e.all then FirstWithId([current] + previous[..i], k) == Some(e.all[k])
          else FirstWithId([current] + previous[..i], k).None?
    {
      var w := previous[i];
      assert [current] + previous[..i + 1] == [current] + previous[..i] + [w];
      forall k { FirstWithIdOfSnoc([current] + previous[..i], w, k); }
      if w.id !in e.all { e := e.(all := e.all[w.id := w]); }
    }
    assert previous[..|previous|] == previous;
  }

  predicate Down(w: Wrapper, outage: Outage) { w.kind != Local && w.id in outage }

  function VersionOf(w: Wrapper, engines: Engines): nat
  {
    if w.kind.Transit? && w.id in engines then engines[w.id] else 0
  }

  function Wrap(w: Wrapper, engines: Engines, outage: Outage, dek: Bytes, aad: Bytes): Result<Wrapped, Error>
  {
    if Down(w, outage) then Err(ErrBackend) else Ok(Box(w.id, VersionOf(w, engines), dek, aad))
  }

  function Unwrap(w: Wrapper, outage: Outage, wrapped: Option<Wrapped>, aad: Bytes): Result<Bytes, Error>
  {
    if Down(w, outage) then Err(ErrBackend)
    else match wrapped
      case Some(Box(keyId, _, dek, bound)) =>
        if keyId == w.id && (bound == aad || w.kind == Transit(false)) then Ok(dek) else Err(ErrOpen)
      case _ => Err(ErrOpen)
  }

  /** Transit.Rewrap: re-sealed under the current version; changed when the version moved. */
  function RewrapInPlace(w: Wrapper, engines: Engines, outage: Outage, wrapped: Option<Wrapped>,
      aad: Bytes): Result<(Wrapped, bool), Error>
  {
    match Unwrap(w, outage, wrapped, aad)
    case Err(e) => Err(e)
    case Ok(dek) => Ok((Box(w.id, VersionOf(w, engines), dek, aad), VersionOf(w, engines) != wrapped.value.version))
  }

  /** Seal under a fresh key. */
  function Seal(e: Envelope, engines: Engines, outage: Outage, dek: Bytes, plaintext: Bytes, aad: Bytes): Result<Sealed,
      Error>
  {
    match Wrap(e.current, engines, outage, dek, aad)
    case Err(x) => Err(x)
    case Ok(wrapped) => Ok(Sealed(e.current.id, Some(wrapped), Cipher(dek, plaintext, aad)))
  }

  function UnwrapSealed(e: Envelope, outage: Outage, s: Sealed, aad: Bytes): Result<Bytes, Error>
  {
    if s.keyId !in e.all then Err(ErrUnknownKey) else
      match Unwrap(e.all[s.keyId], outage, s.wrapped, aad)
      case Err(x) => Err(x)
      case Ok(dek) => if |dek| != KEY_SIZE then Err(ErrOpen) else Ok(dek)
  }

  function OpenWithDek(dek: Bytes, c: Ciphertext, aad: Bytes): Result<Bytes, Error>
  {
    if |dek| != KEY_SIZE then Err(ErrOpen) else
      match c
      case Cipher(key, plaintext, bound) => if key == dek && bound == aad then Ok(plaintext) else Err(ErrOpen)
      case Noise(_) => Err(ErrOpen)
  }

  function Open(e: Envelope, outage: Outage, s: Sealed, aad: Bytes): Result<Bytes, Error>
  {
    match UnwrapSealed(e, outage, s, aad)
    case Err(x) => Err(x)
    case Ok(dek) => OpenWithDek(dek, s.ciphertext, aad)
  }

  function Rewrap(e: Envelope, engines: Engines, outage: Outage, s: Sealed, aad: Bytes): Result<(Sealed, bool), Error>
  {
    if s.keyId == e.current.id then
      if !e.current.kind.Transit? then Ok((s, false)) else
        match RewrapInPlace(e.current, engines, outage, s.wrapped, aad)
        case Err(x) => Err(x)
        case Ok((wrapped, changed)) => if !changed then Ok((s, false)) else Ok((s.(wrapped := Some(wrapped)), true))
    else
      match UnwrapSealed(e, outage, s, aad)
      case Err(x) => Err(x)
      case Ok(dek) =>
        match Wrap(e.current, engines, outage, dek, aad)
        case Err(x) => Err(x)
        case Ok(wrapped) => Ok((Sealed(e.current.id, Some(wrapped), s.ciphertext), true))
  }

  /** A sealed value opens in exactly one way: to its plaintext, as its own row, with its
      wrapper loaded and answering. This holds even for a wrapper that does not bind rows. */
  lemma SealedOpensOnlyAsItself(e: Envelope, engines: Engines, dek: Bytes, plaintext: Bytes, aad: Bytes,
                                reader: Envelope, outage: Outage, aad': Bytes, r: Bytes)
    requires EnvelopeValid(e) && EnvelopeValid(reader) && |dek| == KEY_SIZE
    requires Seal(e, engines, {}, dek, plaintext, aad).Ok?
    requires e.current.id in reader.all ==> reader.all[e.current.id] == e.current
    ensures var s := Seal(e, engines, {}, dek, plaintext, aad).value;
      Open(reader, outage, s, aad') == Ok(r) <==>
        e.current.id in reader.all && !Down(e.current, outage) && aad' == aad && r == plaintext
  {
  }

  /** A re-wrap that changes something moves the key under the current wrapper, leaves the
      ciphertext alone, and what opens and what does not is exactly as before. */
  lemma RewrapKeepsMeaning(e: Envelope, engines: Engines, outage: Outage, s: Sealed, aad: Bytes)
    requires EnvelopeValid(e)
    requires Rewrap(e, engines, outage, s, aad).Ok?
    ensures var (s', changed) := Rewrap(e, engines, outage, s, aad).value;
      && s'.ciphertext == s.ciphertext && s'.keyId == e.current.id
      && Open(e, outage, s', aad) == Open(e, outage, s, aad)
      && (!changed ==> s' == s)
      && (changed ==> s'.wrapped.Some? && s'.wrapped.value.Box? && s'.wrapped.value.keyId == e.current.id
                      && s'.wrapped.value.version == VersionOf(e.current, engines))
  {
  }

  /** The wrapped key was made by this wrapper, and for this identity if the wrapper binds identities. */
  predicate Fits(w: Wrapper, wrapped: Option<Wrapped>, aad: Bytes)
  {
    && wrapped.Some? && wrapped.value.Box? && wrapped.value.keyId == w.id
    && (wrapped.value.aad == aad || w.kind == Transit(false))
  }

  /** When a key is moved from another wrapper to the current one, and the first reason why not: the
      other wrapper is not held, does not answer, rejects the key or opens it to something that is no
      key, or the current one does not answer. */
  lemma RewrapMovesExactlyWhen(e: Envelope, engines: Engines, outage: Outage, s: Sealed, aad: Bytes)
    requires EnvelopeValid(e) && s.keyId != e.current.id
    ensures var r := Rewrap(e, engines, outage, s, aad);
      if s.keyId !in e.all then r == Err(ErrUnknownKey)
      else if Down(e.all[s.keyId], outage) then r == Err(ErrBackend)
      else if !Fits(e.all[s.keyId], s.wrapped, aad) || |s.wrapped.value.dek| != 32 then r == Err(ErrOpen)
      else if Down(e.current, outage) then r == Err(ErrBackend)
      else
        var box := Box(e.current.id, VersionOf(e.current, engines), s.wrapped.value.dek, aad);
        r == Ok((Sealed(e.current.id, Some(box), s.ciphertext), true))
  {
  }

  /** When a key that is under the current wrapper is re-wrapped: only by a key service, which answers,
      accepts the key and has a new version. */
  lemma RewrapInPlaceExactlyWhen(e: Envelope, engines: Engines, outage: Outage, s: Sealed, aad: Bytes)
    requires EnvelopeValid(e) && s.keyId == e.current.id
    ensures var r := Rewrap(e, engines, outage, s, aad);
      if e.current.kind == Local || e.current.kind == Kms then r == Ok((s, false))
      else if Down(e.current, outage) then r == Err(ErrBackend)
      else if !Fits(e.current, s.wrapped, aad) then r == Err(ErrOpen)
      else if s.wrapped.value.version == VersionOf(e.current, engines) then r == Ok((s, false))
      else
        var box := Box(e.current.id, VersionOf(e.current, engines), s.wrapped.value.dek, aad);
        r == Ok((s.(wrapped := Some(box)), true))
  {
  }

  /** A row under the current wrapper is reported unchanged without being opened, exactly
      when that wrapper has no versions or the row is at the current one. So an unchanged
      answer vouches for a row only under a key service. */
  lemma UnchangedExactlyWhen(e: Envelope, engines: Engines, outage: Outage, s: Sealed, aad: Bytes)
    requires EnvelopeValid(e)
    ensures Rewrap(e, engines, outage, s, aad) == Ok((s, false)) <==>
      && s.keyId == e.current.id
      && (!e.current.kind.Transit? ||
          (Unwrap(e.current, outage, s.wrapped, aad).Ok? && s.wrapped.value.version == VersionOf(e.current, engines)))
  {
  }

  lemma UnopenedRowIsReportedUnchanged(id: string, engines: Engines, aad: Bytes, c: Ciphertext)
    ensures var w := Wrapper(id, Local);
      var e, s := Envelope(w, map[id := w]), Sealed(id, Some(Junk("")), c);
      Rewrap(e, engines, {}, s, aad) == Ok((s, false)) && Open(e, {}, s, aad) == Err(ErrOpen)
  {
  }

  // ---- opening many values ----

  /** A group: positions below n that name this wrapper id, ascending. */
  ghost predicate IsGroup(group: seq<nat>, keyId: string, sealed: seq<Sealed>, n: nat)
    requires n <= |sealed|
  {
    && group != []
    && (forall j :: 0 <= j < |group| ==> group[j] < n && sealed[group[j]].keyId == keyId)
    && (forall i, j :: 0 <= i < j < |group| ==> group[i] < group[j])
  }

  /** Every position below n is in the group of the wrapper id it names, and in no other. */
  ghost predicate IsGrouping(byKey: map<string, seq<nat>>, sealed: seq<Sealed>, n: nat)
    requires n <= |sealed|
  {
    && (forall k :: k in byKey ==> IsGroup(byKey[k], k, sealed, n))
    && (forall i :: 0 <= i < n ==> sealed[i].keyId in byKey && i in byKey[sealed[i].keyId])
  }

  /** Slot i of the two result slices agrees with opening row i on its own. */
  predicate SlotIs(plaintext: Option<Bytes>, err: Option<Error>, r: Result<Bytes, Error>)
  {
    match r
    case Ok(p) => plaintext == Some(p) && err.None?
    case Err(x) => plaintext.None? && err == Some(x)
  }

  /** Some row needs a backend that does not answer. */
  ghost predicate NeedsDownBackend(e: Envelope, outage: Outage, sealed: seq<Sealed>)
  {
    exists i :: 0 <= i < |sealed| && sealed[i].keyId in e.all && Down(e.all[sealed[i].keyId], outage)
  }

  function AddToGroup(byKey: map<string, seq<nat>>, k: string, i: nat): map<string, seq<nat>>
  {
    byKey[k := (if k in byKey then byKey[k] else []) + [i]]
  }

  lemma GroupGrows(group: seq<nat>, keyId: string, sealed: seq<Sealed>, i: nat)
    requires i < |sealed| && sealed[i].keyId == keyId && (group == [] || IsGroup(group, keyId, sealed, i))
    ensures IsGroup(group + [i], keyId, sealed, i + 1)
  {
  }

  lemma GroupStays(group: seq<nat>, keyId: string, sealed: seq<Sealed>, i: nat)
    requires i < |sealed| && IsGroup(group, keyId, sealed, i)
    ensures IsGroup(group, keyId, sealed, i + 1)
  {
  }

  lemma GroupingGrows(byKey: map<string, seq<nat>>, sealed: seq<Sealed>, i: nat)
    requires i < |sealed| && IsGrouping(byKey, sealed, i)
    ensures IsGrouping(AddToGroup(byKey, sealed[i].keyId, i), sealed, i + 1)
  {
    var key := sealed[i].keyId;
    var grown := AddToGroup(byKey, key, i);
    forall k | k in grown ensures IsGroup(grown[k], k, sealed, i + 1) {
      if k == key { GroupGrows(if key in byKey then byKey[key] else [], key, sealed, i); } else
          { GroupStays(byKey[k], k, sealed, i); }
    }
    forall j | 0 <= j < i + 1 ensures sealed[j].keyId in grown && j in grown[sealed[j].keyId] {
      if j == i {
        assert grown[key][|grown[key]| - 1] == i;
      } else {
        assert j in byKey[sealed[j].keyId];
      }
    }
  }

  method GroupByKey(sealed: seq<Sealed>) returns (byKey: map<string, seq<nat>>)
    ensures IsGrouping(byKey, sealed, |sealed|)
  {
    byKey := map[];
    for i := 0 to |sealed|
      invariant IsGrouping(byKey, sealed, i)
    {
      GroupingGrows(byKey, sealed, i);
      byKey := AddToGroup(byKey, sealed[i].keyId, i);
    }
  }

  /** The keys of one group: one round trip for a batch unwrapper, else one call per key. */
  method UnwrapGroup(w: Wrapper, outage: Outage, sealed: seq<Sealed>, aads: seq<Bytes>, idx: seq<nat>)
      returns (r: Result<seq<Result<Bytes, Error>>, Error>)
    requires |aads| == |sealed| && forall j :: 0 <= j < |idx| ==> idx[j] < |sealed|
    requires idx != []
    ensures r.Err? <==> Down(w, outage)
    ensures r.Err? ==> r.error == ErrBackend
    ensures r.Ok? ==> |r.value| == |idx| && forall j :: 0 <= j < |idx| ==>
      r.value[j] == Unwrap(w, outage, sealed[idx[j]].wrapped, aads[idx[j]])
  {
    if w.kind.Transit? {
      var items := seq(|idx|, j requires 0 <= j < |idx| => (sealed[idx[j]].wrapped, aads[idx[j]]));
      var engine := (batch: seq<(Option<Wrapped>, Bytes)>) => DecryptBatch(w, outage, batch);
      var calls;
      r, calls := UnwrapMany(engine, items);
      assert engine(Chunk(items, 0)).Err? <==> Down(w, outage);
      if r.Ok? {
        assert ChunkAnswered(engine, items, BATCH_SIZE * 0, r.value);
        BatchIsPointwise(engine, w, outage, items, r.value, calls);
      }
      assert forall j :: 0 <= j < |idx| ==> items[j] == (sealed[idx[j]].wrapped, aads[idx[j]]);
    } else {
      var deks := [];
      for j := 0 to |idx|
        invariant |deks| == j
        invariant j > 0 ==> !Down(w, outage)
        invariant forall k :: 0 <= k < j ==> deks[k] == Unwrap(w, outage, sealed[idx[k]].wrapped, aads[idx[k]])
      {
        var dek := Unwrap(w, outage, sealed[idx[j]].wrapped, aads[idx[j]]);
        if dek.Err? && dek.error != ErrOpen { return Err(dek.error); }
        deks := deks + [dek];
      }
      r := Ok(deks);
    }
  }

  /** The rows of one group; an error when its backend is down. */
  method OpenGroup(e: Envelope, outage: Outage, sealed: seq<Sealed>, aads: seq<Bytes>, keyId: string, idx: seq<nat>,
                   p: array<Option<Bytes>>, x: array<Option<Error>>) returns (down: Option<Error>)
    requires |aads| == |sealed| == p.Length == x.Length && EnvelopeValid(e) && IsGroup(idx, keyId, sealed, |sealed|)
    requires forall j :: 0 <= j < |idx| ==> p[idx[j]].None? && x[idx[j]].None?
    modifies p, x
    ensures down.Some? <==> keyId in e.all && Down(e.all[keyId], outage)
    ensures down.Some? ==> down.value == ErrBackend
    ensures down.None? ==> forall j :: 0 <= j < |idx| ==>
      SlotIs(p[idx[j]], x[idx[j]], Open(e, outage, sealed[idx[j]], aads[idx[j]]))
    ensures down.None? ==> forall i :: 0 <= i < |sealed| && i !in idx ==> p[i] == old(p[i]) && x[i] == old(x[i])
  {
    down := None;
    if keyId in e.all {
      var deks := UnwrapGroup(e.all[keyId], outage, sealed, aads, idx);
      if deks.Err? { return Some(deks.error); }
      ScatterGroup(e, outage, sealed, aads, keyId, idx, deks.value, p, x);
    } else {
      MarkUnknown(e, outage, sealed, aads, keyId, idx, p, x);
    }
  }

  /** OpenMany: group by wrapper, unwrap each group, scatter the results back. Groups are
      visited in any order. Whatever the order, every slot is Open of its own row, and the
      call fails as a whole exactly when a backend it needs is down. */
  method OpenMany(e: Envelope, outage: Outage, sealed: seq<Sealed>, aads: seq<Bytes>)
    returns (plaintexts: seq<Option<Bytes>>, errs: seq<Option<Error>>, err: Option<Error>)
    requires |aads| == |sealed| && EnvelopeValid(e)
    ensures err.Some? <==> NeedsDownBackend(e, outage, sealed)
    ensures err.Some? ==> err.value == ErrBackend && plaintexts == [] && errs == []
    ensures err.None? ==> |plaintexts| == |errs| == |sealed|
    ensures err.None? ==> forall i :: 0 <= i < |sealed| ==>
      SlotIs(plaintexts[i], errs[i], Open(e, outage, sealed[i], aads[i]))
  {
    var p := new Option<Bytes>[|sealed|](_ => None);
    var x := new Option<Error>[|sealed|](_ => None);
    var byKey := GroupByKey(sealed);
    var rest := byKey.Keys;
    while rest != {}
      invariant rest <= byKey.Keys
      invariant forall i :: 0 <= i < |sealed| && sealed[i].keyId !in rest ==>
        SlotIs(p[i], x[i], Open(e, outage, sealed[i], aads[i]))
            && (sealed[i].keyId in e.all ==> !Down(e.all[sealed[i].keyId], outage))
      invariant forall i :: 0 <= i < |sealed| && sealed[i].keyId in rest ==> p[i].None? && x[i].None?
    {
      var keyId :| keyId in rest;
      var down := OpenGroup(e, outage, sealed, aads, keyId, byKey[keyId], p, x);
      if down.Some? {
        assert sealed[byKey[keyId][0]].keyId == keyId;
        return [], [], down;
      }
      rest := rest - {keyId};
    }
    plaintexts, errs, err := p[..], x[..], None;
  }

  /** Write the results of one group; each position of the group is written once, no other is. */
  method ScatterGroup(e: Envelope, outage: Outage, sealed: seq<Sealed>, aads: seq<Bytes>, keyId: string, idx: seq<nat>,
                      deks: seq<Result<Bytes, Error>>, p: array<Option<Bytes>>, x: array<Option<Error>>)
    requires |aads| == |sealed| == p.Length == x.Length
    requires keyId in e.all && |deks| == |idx|
    requires forall j :: 0 <= j < |idx| ==> idx[j] < |sealed| && sealed[idx[j]].keyId == keyId
    requires forall i, j :: 0 <= i < j < |idx| ==> idx[i] < idx[j]
    requires forall j :: 0 <= j < |idx| ==>
      deks[j] == Unwrap(e.all[keyId], outage, sealed[idx[j]].wrapped, aads[idx[j]])
    requires forall j :: 0 <= j < |idx| ==> p[idx[j]].None? && x[idx[j]].None?
    modifies p, x
    ensures forall j :: 0 <= j < |idx| ==> SlotIs(p[idx[j]], x[idx[j]], Open(e, outage, sealed[idx[j]], aads[idx[j]]))
    ensures forall i :: 0 <= i < |sealed| && i !in idx ==> p[i] == old(p[i]) && x[i] == old(x[i])
  {
    for j := 0 to |idx|
      invariant forall k :: 0 <= k < j ==> SlotIs(p[idx[k]], x[idx[k]], Open(e, outage, sealed[idx[k]], aads[idx[k]]))
      invariant forall k :: j <= k < |idx| ==> p[idx[k]].None? && x[idx[k]].None?
      invariant forall i :: 0 <= i < |sealed| && i !in idx ==> p[i] == old(p[i]) && x[i] == old(x[i])
    {
      var i := idx[j];
      if deks[j].Err? {
        x[i] := Some(deks[j].error);
      } else {
        var plain := OpenWithDek(deks[j].value, sealed[i].ciphertext, aads[i]);
        match plain {
          case Ok(v) => p[i] := Some(v);
          case Err(f) => x[i] := Some(f);
        }
      }
    }
  }

  method MarkUnknown(e: Envelope, outage: Outage, sealed: seq<Sealed>, aads: seq<Bytes>, keyId: string, idx: seq<nat>,
                     p: array<Option<Bytes>>, x: array<Option<Error>>)
    requires |aads| == |sealed| == p.Length == x.Length
    requires keyId !in e.all
    requires forall j :: 0 <= j < |idx| ==> idx[j] < |sealed| && sealed[idx[j]].keyId == keyId && p[idx[j]].None?
    modifies x
    ensures forall j :: 0 <= j < |idx| ==> SlotIs(p[idx[j]], x[idx[j]], Open(e, outage, sealed[idx[j]], aads[idx[j]]))
    ensures forall i :: 0 <= i < |sealed| && i !in idx ==> x[i] == old(x[i])
  {
    for j := 0 to |idx|
      invariant forall k :: 0 <= k < j ==> x[idx[k]] == Some(ErrUnknownKey)
      invariant forall i :: 0 <= i < |sealed| && i !in idx ==> x[i] == old(x[i])
    {
      x[idx[j]] := Some(ErrUnknownKey);
    }
  }

  // ---- batches against a key service ----

  const BATCH_SIZE := 500

  type BatchItem = (Option<Wrapped>, Bytes)
  type Engine = seq<BatchItem> -> Result<seq<Result<Bytes, Error>>, Error>

  /** What a key service answers to one batch_input. */
  function DecryptBatch(w: Wrapper, outage: Outage, batch: seq<BatchItem>): Result<seq<Result<Bytes, Error>>, Error>
  {
    if Down(w, outage) then Err(ErrBackend)
    else Ok(seq(|batch|, i requires 0 <= i < |batch| => Unwrap(w, outage, batch[i].0, batch[i].1)))
  }

  /** The engine answers every item of a batch as it would answer it alone. */
  ghost predicate Honest(engine: Engine, w: Wrapper, outage: Outage)
  {
    forall batch: seq<BatchItem> ::
      && engine(batch).Ok? && |engine(batch).value| == |batch|
      && (forall i :: 0 <= i < |batch| ==> engine(batch).value[i] == Unwrap(w, outage, batch[i].0, batch[i].1))
  }

  function CeilDiv(n: nat, d: nat): nat
    requires d > 0
  {
    (n + d - 1) / d
  }

  /** The batch that starts at position start. */
  function Chunk(items: seq<BatchItem>, start: nat): seq<BatchItem>
    requires start <= |items|
  {
    items[start..if start + BATCH_SIZE < |items| then start + BATCH_SIZE else |items|]
  }

  ghost predicate ChunkAnswered(engine: Engine, items: seq<BatchItem>, start: nat, out: seq<Result<Bytes, Error>>)
    requires start <= |items|
  {
    var c := Chunk(items, start);
    engine(c).Ok? && |engine(c).value| == |c| && start + |c| <= |out| && engine(c).value == out[start..start + |c|]
  }

  /** The call for one chunk fails, or does not answer item by item. */
  ghost predicate ChunkFails(engine: Engine, items: seq<BatchItem>, start: nat, error: Error)
    requires start <= |items|
  {
    var c := Chunk(items, start);
    if engine(c).Err? then error == engine(c).error else |engine(c).value| != |c| && error == ErrBackend
  }

  /** Answers chunk by chunk are answers item by item. */
  lemma BatchIsPointwise(engine: Engine, w: Wrapper, outage: Outage, items: seq<BatchItem>,
      out: seq<Result<Bytes, Error>>, calls: nat)
    requires Honest(engine, w, outage) && |out| == |items| && calls == CeilDiv(|items|, BATCH_SIZE)
    requires forall k :: 0 <= k < calls ==>
      BATCH_SIZE * k <= |items| && ChunkAnswered(engine, items, BATCH_SIZE * k, out)
    ensures forall j :: 0 <= j < |items| ==> out[j] == Unwrap(w, outage, items[j].0, items[j].1)
  {
    forall j | 0 <= j < |items| ensures out[j] == Unwrap(w, outage, items[j].0, items[j].1) {
      var k := j / BATCH_SIZE;
      var start := BATCH_SIZE * k;
      assert 0 <= k < calls && start <= j < start + BATCH_SIZE;
      var c := Chunk(items, start);
      assert ChunkAnswered(engine, items, start, out);
      assert c[j - start] == items[j] && out[start..start + |c|][j - start] == out[j];
    }
  }

  /** UnwrapMany: one call per BATCH_SIZE keys. The answers are those of the chunks, in
      order; a failed call or an answer of the wrong length fails everything. */
  method UnwrapMany(engine: Engine, items: seq<BatchItem>)
      returns (r: Result<seq<Result<Bytes, Error>>, Error>, calls: nat)
    ensures r.Ok? ==> calls == CeilDiv(|items|, 500) && |r.value| == |items|
    ensures r.Ok? ==> forall k :: 0 <= k < calls ==>
      500 * k <= |items| && ChunkAnswered(engine, items, 500 * k, r.value)
    ensures r.Err? ==>
      var n := CeilDiv(|items|, 500);
      exists k: nat :: k < n && 500 * k <= |items| && ChunkFails(engine, items, 500 * k, r.error)
  {
    var out := [];
    var start := 0;
    calls := 0;
    while start < |items|
      invariant start == BATCH_SIZE * calls
      invariant calls <= CeilDiv(|items|, BATCH_SIZE)
      invariant |out| == if start < |items| then start else |items|
      invariant forall k :: 0 <= k < calls ==>
        BATCH_SIZE * k <= |items| && ChunkAnswered(engine, items, BATCH_SIZE * k, out)
      decreases |items| - start
    {
      var c := Chunk(items, start);
      var res := engine(c);
      if res.Err? {
        assert ChunkFails(engine, items, BATCH_SIZE * calls, res.error);
        return Err(res.error), calls;
      }
      if |res.value| != |c| {
        assert ChunkFails(engine, items, BATCH_SIZE * calls, ErrBackend);
        return Err(ErrBackend), calls;
      }
      ghost var before := out;
      out := out + res.value;
      forall k | 0 <= k < calls ensures ChunkAnswered(engine, items, BATCH_SIZE * k, out) {
        var n := |Chunk(items, BATCH_SIZE * k)|;
        assert out[BATCH_SIZE * k..BATCH_SIZE * k + n] == before[BATCH_SIZE * k..BATCH_SIZE * k + n];
      }
      assert out[start..start + |c|] == res.value;
      start, calls := start + BATCH_SIZE, calls + 1;
    }
    r := Ok(out);
  }
}
