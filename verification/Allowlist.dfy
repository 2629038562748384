/**
 The recursive allowlist of the entry predictors (src/research/entry_predictor_schema.py): a value is
 projected onto a fixed shape, so that nothing the shape does not name can pass. Dictionaries keep their
 insertion order; the scalar sanitizer and the forbidden-word test are parameters.
 */
module Allowlist {
  const MAX_DEPTH: nat := 5
  const MAX_KEY: nat := 256

  datatype Number = Finite(r: real) | NotFinite

  datatype Key = Str(s: string) | Other(n: nat)

  datatype Value =
    | Null
    | Text(s: string)
    | Num(n: Number)
    | Bool(b: bool)
    | List(items: seq<Value>)
    | Tuple(items: seq<Value>)
    | Dict(entries: seq<Entry>)

  datatype Entry = Entry(key: Key, value: Value)

  datatype Shape =
    | Scalar
    | NumericWalletMap
    | Record(fields: seq<Field>)
    | Choice(plain: Shape, dict: Shape)
    | ListOf(item: Shape)

  datatype Field = Field(name: string, shape: Shape)

  datatype Policy = Policy(scalar: Value -> Value, forbidden: string -> bool, maxItems: nat)

  predicate IsScalar(v: Value) { v.Text? || v.Num? || v.Bool? }

  /** The sanitizer yields nothing or a scalar it would leave alone, and keeps finite numbers finite. */
  ghost predicate Sanitizes(p: Policy) {
    forall v :: IsScalar(v) ==>
      var w := p.scalar(v);
      && (w == Null || (IsScalar(w) && p.scalar(w) == w))
      && (FiniteNumber(v) ==> FiniteNumber(w))
  }

  predicate FiniteNumber(v: Value) { v.Num? && v.n.Finite? }

  function First<T>(xs: seq<T>, n: nat): seq<T> { if |xs| <= n then xs else xs[..n] }

  predicate Has(es: seq<Entry>, name: string) { exists i :: 0 <= i < |es| && es[i].key == Str(name) }

  /** The value under a key, Null when there is none. */
  function Lookup(es: seq<Entry>, name: string): Value {
    if es == [] then Null else if es[0].key == Str(name) then es[0].value else Lookup(es[1..], name)
  }

  predicate Named(name: string, p: Policy) { !p.forbidden(name) || name == "outcome" }

  predicate WalletEntry(e: Entry, p: Policy) {
    e.key.Str? && |e.key.s| <= MAX_KEY && !p.forbidden(e.key.s) && FiniteNumber(e.value)
  }

  /** Only keys of wallets with a finite amount; the item limit counts entries before the filter. */
  function WalletEntries(es: seq<Entry>, p: Policy): seq<Entry> {
    if es == [] then []
    else
      (if WalletEntry(es[0], p) then [Entry(es[0].key, p.scalar(es[0].value))] else []) + WalletEntries(es[1..], p)
  }

  /** The fields that the dictionary has and the words allow, in the order of the shape. */
  function Present(es: seq<Entry>, fields: seq<Field>, values: seq<Value>, p: Policy): seq<Entry>
    requires |values| == |fields|
  {
    if fields == [] then []
    else
      (if Has(es, fields[0].name) && Named(fields[0].name, p) then [Entry(Str(fields[0].name), values[0])] else [])
      + Present(es, fields[1..], values[1..], p)
  }

  function Project(v: Value, shape: Shape, p: Policy, depth: nat): Value
    decreases shape
  {
    if v.Null? then Null
    else if shape.Scalar? then if IsScalar(v) then p.scalar(v) else Null
    else if depth >= MAX_DEPTH then Null
    else
      match shape
      case NumericWalletMap => if v.Dict? then Dict(WalletEntries(First(v.entries, p.maxItems), p)) else Null
      case Record(fields) =>
        if v.Dict? then Dict(Present(v.entries, fields, Fields(v.entries, shape, p, depth), p)) else Null
      case Choice(plain, dict) => if v.Dict? then Project(v, dict, p, depth) else Project(v, plain, p, depth)
      case ListOf(item) =>
        if v.List? || v.Tuple? then List(Items(First(v.items, p.maxItems), shape, p, depth)) else Null
  }

  /** The projection of every field; what is absent projects to Null and is not used. */
  function Fields(es: seq<Entry>, shape: Shape, p: Policy, depth: nat): (vs: seq<Value>)
    requires shape.Record?
    ensures |vs| == |shape.fields|
    decreases shape, 0
  {
    seq(|shape.fields|, i requires 0 <= i < |shape.fields| =>
      Project(Lookup(es, shape.fields[i].name), shape.fields[i].shape, p, depth + 1))
  }

  function Items(vs: seq<Value>, shape: Shape, p: Policy, depth: nat): (ws: seq<Value>)
    requires shape.ListOf?
    ensures |ws| == |vs|
    decreases shape, 0
  {
    seq(|vs|, i requires 0 <= i < |vs| => Project(vs[i], shape.item, p, depth + 1))
  }

  // ----- What an allowed value is -----

  predicate Conforms(v: Value, shape: Shape, p: Policy, depth: nat)
    decreases shape, 1
  {
    if v.Null? then true
    else if shape.Scalar? then IsScalar(v) && p.scalar(v) == v
    else if depth >= MAX_DEPTH then false
    else
      match shape
      case NumericWalletMap =>
        v.Dict? && |v.entries| <= p.maxItems
        && forall i :: 0 <= i < |v.entries| ==>
             WalletEntry(v.entries[i], p) && p.scalar(v.entries[i].value) == v.entries[i].value
      case Record(fields) => v.Dict? && RecordConforms(v.entries, shape, 0, p, depth)
      case Choice(plain, dict) => if v.Dict? then Conforms(v, dict, p, depth) else Conforms(v, plain, p, depth)
      case ListOf(item) =>
        v.List? && |v.items| <= p.maxItems
        && forall i :: 0 <= i < |v.items| ==> Conforms(v.items[i], item, p, depth + 1)
  }

  /** The entries are some of the fields from position k on, in order, each allowed and conforming. */
  predicate RecordConforms(es: seq<Entry>, shape: Shape, k: nat, p: Policy, depth: nat)
    requires shape.Record? && k <= |shape.fields|
    decreases shape, 0, |shape.fields| - k
  {
    if k == |shape.fields| then es == []
    else
      var f := shape.fields[k];
      if es != [] && es[0].key == Str(f.name) then
        Named(f.name, p) && Conforms(es[0].value, f.shape, p, depth + 1)
            && RecordConforms(es[1..], shape, k + 1, p, depth)
      else RecordConforms(es, shape, k + 1, p, depth)
  }

  /** A dictionary literal names every field once. */
  predicate WellFormed(shape: Shape)
    decreases shape
  {
    match shape
    case Record(fields) =>
      && (forall i, j :: 0 <= i < j < |fields| ==> fields[i].name != fields[j].name)
      && (forall i :: 0 <= i < |fields| ==> WellFormed(fields[i].shape))
    case Choice(plain, dict) => WellFormed(plain) && WellFormed(dict)
    case ListOf(item) => WellFormed(item)
    case _ => true
  }

  // ----- A projection conforms -----

  lemma {:induction false} WalletEntriesConform(es: seq<Entry>, p: Policy)
    requires Sanitizes(p)
    ensures |WalletEntries(es, p)| <= |es|
    ensures forall i :: 0 <= i < |WalletEntries(es, p)| ==>
              var e := WalletEntries(es, p)[i]; WalletEntry(e, p) && p.scalar(e.value) == e.value
  {
    if es != [] {
      WalletEntriesConform(es[1..], p);
    }
  }

  lemma {:induction false} PresentHasLaterKeys(
    es: seq<Entry>, fields: seq<Field>, values: seq<Value>, p: Policy, e: Entry)
    requires |values| == |fields| && e in Present(es, fields, values, p)
    ensures exists j :: 0 <= j < |fields| && e.key == Str(fields[j].name)
  {
    hide Has, Named;
    if e in Present(es, fields[1..], values[1..], p) {
      PresentHasLaterKeys(es, fields[1..], values[1..], p, e);
      var j :| 0 <= j < |fields| - 1 && e.key == Str(fields[1..][j].name);
      assert fields[j + 1] == fields[1..][j];
    }
  }

  lemma {:induction false} PresentConforms(
    es: seq<Entry>, shape: Shape, k: nat, values: seq<Value>, p: Policy, depth: nat)
    requires shape.Record? && WellFormed(shape) && k <= |shape.fields| && |values| == |shape.fields|
    requires forall i :: 0 <= i < |values| ==> Conforms(values[i], shape.fields[i].shape, p, depth + 1)
    ensures RecordConforms(Present(es, shape.fields[k..], values[k..], p), shape, k, p, depth)
    decreases |shape.fields| - k
  {
    hide Has, Named, Conforms;
    if k < |shape.fields| {
      var fields, vals := shape.fields[k..], values[k..];
      assert fields[1..] == shape.fields[k + 1..] && vals[1..] == values[k + 1..];
      PresentConforms(es, shape, k + 1, values, p, depth);
      var rest := Present(es, fields[1..], vals[1..], p);
      if rest != [] {
        PresentHasLaterKeys(es, fields[1..], vals[1..], p, rest[0]);
        var j :| 0 <= j < |fields| - 1 && rest[0].key == Str(fields[1..][j].name);
        assert shape.fields[k + 1 + j].name != shape.fields[k].name;
      }
      hide Present;
      if Has(es, fields[0].name) && Named(fields[0].name, p) {
        assert ([Entry(Str(fields[0].name), vals[0])] + rest)[1..] == rest;
      } else {
        assert [] + rest == rest;
      }
    }
  }

  /** Whatever goes in, only what the shape names comes out, sanitized, at most five levels deep. */
  lemma {:induction false} ProjectionConforms(v: Value, shape: Shape, p: Policy, depth: nat)
    requires Sanitizes(p) && WellFormed(shape)
    ensures Conforms(Project(v, shape, p, depth), shape, p, depth)
    decreases shape, 1
  {
    if v.Null? || shape.Scalar? || depth >= MAX_DEPTH {
    } else {
      hide Sanitizes;
      match shape
      case NumericWalletMap =>
        if v.Dict? {
          WalletEntriesConform(First(v.entries, p.maxItems), p);
        }
      case Record(fields) =>
        if v.Dict? {
          FieldsConform(v.entries, shape, p, depth);
          var values := Fields(v.entries, shape, p, depth);
          PresentConforms(v.entries, shape, 0, values, p, depth);
          assert fields[0..] == fields && values[0..] == values;
        }
      case Choice(plain, dict) => ChoiceConforms(v, shape, p, depth);
      case ListOf(item) =>
        if v.List? || v.Tuple? {
          ItemsConform(First(v.items, p.maxItems), shape, p, depth);
        }
    }
  }

  /** A dictionary projects to a dictionary or nothing, and nothing else ever becomes one. */
  lemma {:induction false} DictionariesStay(v: Value, shape: Shape, p: Policy, depth: nat)
    requires Sanitizes(p)
    ensures Project(v, shape, p, depth).Null? || (Project(v, shape, p, depth).Dict? <==> v.Dict?)
    decreases shape
  {
    assert IsScalar(v) ==> p.scalar(v) == Null || IsScalar(p.scalar(v));
    hide Sanitizes;
    if !v.Null? && shape.Choice? && depth < MAX_DEPTH {
      DictionariesStay(v, shape.plain, p, depth);
      DictionariesStay(v, shape.dict, p, depth);
    }
  }

  lemma {:induction false} ChoiceConforms(v: Value, shape: Shape, p: Policy, depth: nat)
    requires Sanitizes(p) && WellFormed(shape) && shape.Choice? && !v.Null? && depth < MAX_DEPTH
    ensures Conforms(Project(v, shape, p, depth), shape, p, depth)
    decreases shape, 0
  {
    ProjectionConforms(v, shape.plain, p, depth);
    ProjectionConforms(v, shape.dict, p, depth);
    DictionariesStay(v, shape.plain, p, depth);
    DictionariesStay(v, shape.dict, p, depth);
    hide Sanitizes;
  }

  lemma {:induction false} FieldsConform(es: seq<Entry>, shape: Shape, p: Policy, depth: nat)
    requires Sanitizes(p) && WellFormed(shape) && shape.Record?
    ensures forall i :: 0 <= i < |shape.fields| ==>
              Conforms(Fields(es, shape, p, depth)[i], shape.fields[i].shape, p, depth + 1)
    decreases shape, 0
  {
    forall i | 0 <= i < |shape.fields|
      ensures Conforms(Fields(es, shape, p, depth)[i], shape.fields[i].shape, p, depth + 1)
    {
      ProjectionConforms(Lookup(es, shape.fields[i].name), shape.fields[i].shape, p, depth + 1);
      hide Conforms, Project, Sanitizes;
    }
  }

  lemma {:induction false} ItemsConform(vs: seq<Value>, shape: Shape, p: Policy, depth: nat)
    requires Sanitizes(p) && WellFormed(shape) && shape.ListOf?
    ensures forall i :: 0 <= i < |vs| ==> Conforms(Items(vs, shape, p, depth)[i], shape.item, p, depth + 1)
    decreases shape, 0
  {
    forall i | 0 <= i < |vs|
      ensures Conforms(Items(vs, shape, p, depth)[i], shape.item, p, depth + 1)
    {
      ProjectionConforms(vs[i], shape.item, p, depth + 1);
      hide Conforms, Project, Sanitizes;
    }
  }

  // ----- A conforming value is left alone -----

  lemma {:induction false} WalletEntriesFixed(es: seq<Entry>, p: Policy)
    requires forall i :: 0 <= i < |es| ==> WalletEntry(es[i], p) && p.scalar(es[i].value) == es[i].value
    ensures WalletEntries(es, p) == es
  {
    if es != [] {
      WalletEntriesFixed(es[1..], p);
    }
  }

  lemma {:induction false} RecordKeysAreFields(es: seq<Entry>, shape: Shape, k: nat, p: Policy, depth: nat, i: nat)
    requires shape.Record? && k <= |shape.fields| && RecordConforms(es, shape, k, p, depth) && i < |es|
    ensures exists j :: k <= j < |shape.fields| && es[i].key == Str(shape.fields[j].name)
    decreases |shape.fields| - k
  {
    hide Conforms, Named;
    var f := shape.fields[k];
    if es[0].key == Str(f.name) {
      if i > 0 {
        RecordKeysAreFields(es[1..], shape, k + 1, p, depth, i - 1);
      }
    } else {
      RecordKeysAreFields(es, shape, k + 1, p, depth, i);
    }
  }

  lemma {:induction false} LookupSplits(before: seq<Entry>, rest: seq<Entry>, name: string)
    requires forall i :: 0 <= i < |before| ==> before[i].key != Str(name)
    ensures Has(before + rest, name) <==> Has(rest, name)
    ensures Lookup(before + rest, name) == Lookup(rest, name)
  {
    if before == [] {
      assert before + rest == rest;
    } else {
      assert (before + rest)[1..] == before[1..] + rest;
      LookupSplits(before[1..], rest, name);
      assert before + rest == [before[0]] + (before[1..] + rest);
    }
  }

  predicate KeyAmong(e: Entry, shape: Shape, k: nat)
    requires shape.Record? && k <= |shape.fields|
  {
    exists j :: 0 <= j < k && e.key == Str(shape.fields[j].name)
  }

  predicate KeysAmong(es: seq<Entry>, shape: Shape, k: nat)
    requires shape.Record? && k <= |shape.fields|
  {
    forall i :: 0 <= i < |es| ==> KeyAmong(es[i], shape, k)
  }

  lemma KeysDiffer(before: seq<Entry>, shape: Shape, k: nat)
    requires shape.Record? && WellFormed(shape) && k < |shape.fields| && KeysAmong(before, shape, k)
    ensures forall i :: 0 <= i < |before| ==> before[i].key != Str(shape.fields[k].name)
  {
    forall i | 0 <= i < |before|
      ensures before[i].key != Str(shape.fields[k].name)
    {
      assert KeyAmong(before[i], shape, k);
    }
  }

  lemma KeysStayAmong(before: seq<Entry>, shape: Shape, k: nat)
    requires shape.Record? && k < |shape.fields| && KeysAmong(before, shape, k)
    ensures KeysAmong(before, shape, k + 1)
  {
    forall i | 0 <= i < |before|
      ensures KeyAmong(before[i], shape, k + 1)
    {
      assert KeyAmong(before[i], shape, k);
    }
  }

  lemma KeysGrow(before: seq<Entry>, e: Entry, shape: Shape, k: nat)
    requires shape.Record? && k < |shape.fields| && e.key == Str(shape.fields[k].name) && KeysAmong(before, shape, k)
    ensures KeysAmong(before + [e], shape, k + 1)
  {
    KeysStayAmong(before, shape, k);
    assert KeyAmong(e, shape, k + 1);
  }

  /** A field whose current value conforms is projected to that value. */
  ghost predicate KeepsField(es: seq<Entry>, f: Field, value: Value, p: Policy, depth: nat) {
    Conforms(Lookup(es, f.name), f.shape, p, depth + 1) ==> value == Lookup(es, f.name)
  }

  lemma MissingField(before: seq<Entry>, rest: seq<Entry>, shape: Shape, k: nat, p: Policy, depth: nat)
    requires shape.Record? && WellFormed(shape) && k < |shape.fields| && KeysAmong(before, shape, k)
    requires RecordConforms(rest, shape, k + 1, p, depth)
    ensures !Has(before + rest, shape.fields[k].name)
  {
    var name := shape.fields[k].name;
    KeysDiffer(before, shape, k);
    hide KeysAmong, Conforms, RecordConforms;
    forall i | 0 <= i < |rest|
      ensures rest[i].key != Str(name)
    {
      RecordKeysAreFields(rest, shape, k + 1, p, depth, i);
      var j :| k + 1 <= j < |shape.fields| && rest[i].key == Str(shape.fields[j].name);
      assert shape.fields[j].name != name;
    }
  }

  lemma FoundField(before: seq<Entry>, rest: seq<Entry>, shape: Shape, k: nat)
    requires shape.Record? && WellFormed(shape) && k < |shape.fields| && KeysAmong(before, shape, k)
    requires rest != [] && rest[0].key == Str(shape.fields[k].name)
    ensures Has(before + rest, shape.fields[k].name) && Lookup(before + rest, shape.fields[k].name) == rest[0].value
  {
    KeysDiffer(before, shape, k);
    hide KeysAmong, WellFormed;
    LookupSplits(before, rest, shape.fields[k].name);
  }

  lemma RecordStep(rest: seq<Entry>, shape: Shape, k: nat, p: Policy, depth: nat)
    requires shape.Record? && k < |shape.fields| && RecordConforms(rest, shape, k, p, depth)
    ensures if rest != [] && rest[0].key == Str(shape.fields[k].name) then
              && Named(shape.fields[k].name, p) && Conforms(rest[0].value, shape.fields[k].shape, p, depth + 1)
              && RecordConforms(rest[1..], shape, k + 1, p, depth)
            else RecordConforms(rest, shape, k + 1, p, depth)
  {
    hide Conforms, Named;
  }

  lemma RecordEnds(rest: seq<Entry>, shape: Shape, p: Policy, depth: nat)
    requires shape.Record? && RecordConforms(rest, shape, |shape.fields|, p, depth)
    ensures rest == []
  {
  }

  lemma NothingPresent(es: seq<Entry>, p: Policy)
    ensures Present(es, [], [], p) == []
  {
  }

  /** The part of a dictionary that conforms from field k on is exactly what the projection keeps of it. */
  lemma {:induction false} PresentFixed(before: seq<Entry>, rest: seq<Entry>, shape: Shape, k: nat,
                                        values: seq<Value>, p: Policy, depth: nat)
    requires shape.Record? && WellFormed(shape) && k <= |shape.fields| && |values| == |shape.fields|
    requires RecordConforms(rest, shape, k, p, depth) && KeysAmong(before, shape, k)
    requires forall i :: 0 <= i < |values| ==> KeepsField(before + rest, shape.fields[i], values[i], p, depth)
    ensures Present(before + rest, shape.fields[k..], values[k..], p) == rest
    decreases |shape.fields| - k
  {
    hide Present, Conforms, Named, KeysAmong, WellFormed, Has, RecordConforms, KeepsField;
    if k == |shape.fields| {
      RecordEnds(rest, shape, p, depth);
      NothingPresent(before + rest, p);
      assert shape.fields[k..] == [] && values[k..] == [];
    } else {
      var f, es := shape.fields[k], before + rest;
      PresentFrom(es, shape, k, values, p);
      RecordStep(rest, shape, k, p, depth);
      if rest != [] && rest[0].key == Str(f.name) {
        FoundField(before, rest, shape, k);
        KeysGrow(before, rest[0], shape, k);
        KeptValue(es, f, values[k], p, depth);
        assert es == (before + [rest[0]]) + rest[1..];
        PresentFixed(before + [rest[0]], rest[1..], shape, k + 1, values, p, depth);
        assert rest[0] == Entry(Str(f.name), values[k]) && rest == [rest[0]] + rest[1..];
      } else {
        MissingField(before, rest, shape, k, p, depth);
        KeysStayAmong(before, shape, k);
        PresentFixed(before, rest, shape, k + 1, values, p, depth);
      }
    }
  }

  lemma KeptValue(es: seq<Entry>, f: Field, value: Value, p: Policy, depth: nat)
    requires KeepsField(es, f, value, p, depth) && Conforms(Lookup(es, f.name), f.shape, p, depth + 1)
    ensures value == Lookup(es, f.name)
  {
  }

  lemma PresentFrom(es: seq<Entry>, shape: Shape, k: nat, values: seq<Value>, p: Policy)
    requires shape.Record? && k < |shape.fields| && |values| == |shape.fields|
    ensures Present(es, shape.fields[k..], values[k..], p) ==
            if Has(es, shape.fields[k].name) && Named(shape.fields[k].name, p)
            then [Entry(Str(shape.fields[k].name), values[k])] + Present(es, shape.fields[k + 1..], values[k + 1..], p)
            else Present(es, shape.fields[k + 1..], values[k + 1..], p)
  {
    hide Has, Named;
    assert shape.fields[k..][1..] == shape.fields[k + 1..] && values[k..][1..] == values[k + 1..];
  }

  lemma {:induction false} ConformingIsFixed(v: Value, shape: Shape, p: Policy, depth: nat)
    requires WellFormed(shape) && Conforms(v, shape, p, depth)
    ensures Project(v, shape, p, depth) == v
    decreases shape, 1
  {
    if !v.Null? && !shape.Scalar? {
      match shape
      case NumericWalletMap => WalletEntriesFixed(v.entries, p);
      case Record(fields) =>
        FieldsFixed(v.entries, shape, p, depth);
        var values := Fields(v.entries, shape, p, depth);
        assert [] + v.entries == v.entries && fields[0..] == fields && values[0..] == values;
        PresentFixed([], v.entries, shape, 0, values, p, depth);
      case Choice(plain, dict) =>
        if v.Dict? {
          ConformingIsFixed(v, dict, p, depth);
        } else {
          ConformingIsFixed(v, plain, p, depth);
        }
      case ListOf(item) => ItemsFixed(v.items, shape, p, depth);
    }
  }

  lemma {:induction false} FieldsFixed(es: seq<Entry>, shape: Shape, p: Policy, depth: nat)
    requires WellFormed(shape) && shape.Record?
    ensures forall i :: 0 <= i < |shape.fields| ==>
              KeepsField(es, shape.fields[i], Fields(es, shape, p, depth)[i], p, depth)
    decreases shape, 0
  {
    forall i | 0 <= i < |shape.fields|
      ensures KeepsField(es, shape.fields[i], Fields(es, shape, p, depth)[i], p, depth)
    {
      if Conforms(Lookup(es, shape.fields[i].name), shape.fields[i].shape, p, depth + 1) {
        ConformingIsFixed(Lookup(es, shape.fields[i].name), shape.fields[i].shape, p, depth + 1);
        hide Conforms, Project;
      }
    }
  }

  lemma {:induction false} ItemsFixed(vs: seq<Value>, shape: Shape, p: Policy, depth: nat)
    requires WellFormed(shape) && shape.ListOf?
    requires forall i :: 0 <= i < |vs| ==> Conforms(vs[i], shape.item, p, depth + 1)
    ensures Items(vs, shape, p, depth) == vs
    decreases shape, 0
  {
    forall i | 0 <= i < |vs|
      ensures Items(vs, shape, p, depth)[i] == vs[i]
    {
      ConformingIsFixed(vs[i], shape.item, p, depth + 1);
      hide Conforms, Project;
    }
  }

  // ----- The laws -----

  /** Projecting twice is projecting once, as scripts/entry_telemetry_acceptance.py relies on. */
  lemma {:induction false} ProjectionIsIdempotent(v: Value, shape: Shape, p: Policy, depth: nat)
    requires Sanitizes(p) && WellFormed(shape)
    ensures Project(Project(v, shape, p, depth), shape, p, depth) == Project(v, shape, p, depth)
  {
    ProjectionConforms(v, shape, p, depth);
    hide Project, Conforms, Sanitizes, WellFormed;
    ConformingIsFixed(Project(v, shape, p, depth), shape, p, depth);
  }

  /** A stored value equals its own projection exactly when every path in it is one of the shape. */
  lemma {:induction false} AcceptedExactlyWhenConforming(v: Value, shape: Shape, p: Policy, depth: nat)
    requires Sanitizes(p) && WellFormed(shape)
    ensures Project(v, shape, p, depth) == v <==> Conforms(v, shape, p, depth)
  {
    ProjectionConforms(v, shape, p, depth);
    hide Project, Conforms, Sanitizes, WellFormed;
    if Conforms(v, shape, p, depth) {
      ConformingIsFixed(v, shape, p, depth);
    }
  }

  /** No forbidden key at any depth, no foreign key type, no tuple. */
  predicate Clean(v: Value, p: Policy)
    decreases v
  {
    match v
    case List(items) => forall i :: 0 <= i < |items| ==> Clean(items[i], p)
    case Tuple(_) => false
    case Dict(entries) =>
      forall i :: 0 <= i < |entries| ==>
        entries[i].key.Str? && Named(entries[i].key.s, p) && Clean(entries[i].value, p)
    case _ => true
  }

  lemma {:induction false} RecordIsClean(es: seq<Entry>, shape: Shape, k: nat, p: Policy, depth: nat, i: nat)
    requires shape.Record? && k <= |shape.fields| && RecordConforms(es, shape, k, p, depth) && i < |es|
    ensures es[i].key.Str? && Named(es[i].key.s, p) && Clean(es[i].value, p)
    decreases shape, 0, |shape.fields| - k
  {
    hide Named, Clean;
    var f := shape.fields[k];
    if es[0].key == Str(f.name) {
      if i > 0 {
        RecordIsClean(es[1..], shape, k + 1, p, depth, i - 1);
      } else {
        ConformingIsClean(es[0].value, f.shape, p, depth + 1);
      }
    } else {
      RecordIsClean(es, shape, k + 1, p, depth, i);
    }
  }

  lemma {:induction false} ConformingIsClean(v: Value, shape: Shape, p: Policy, depth: nat)
    requires Conforms(v, shape, p, depth)
    ensures Clean(v, p)
    decreases shape, 1
  {
    if !v.Null? && !shape.Scalar? {
      match shape
      case NumericWalletMap =>
      case Record(fields) =>
        forall i | 0 <= i < |v.entries|
          ensures v.entries[i].key.Str? && Named(v.entries[i].key.s, p) && Clean(v.entries[i].value, p)
        {
          RecordIsClean(v.entries, shape, 0, p, depth, i);
        }
      case Choice(plain, dict) =>
        if v.Dict? {
          ConformingIsClean(v, dict, p, depth);
        } else {
          ConformingIsClean(v, plain, p, depth);
        }
      case ListOf(item) =>
        forall i | 0 <= i < |v.items|
          ensures Clean(v.items[i], p)
        {
          ConformingIsClean(v.items[i], item, p, depth + 1);
        }
    }
  }

  /** No forbidden word survives as a key, however deeply it was nested. */
  lemma {:induction false} ProjectionIsClean(v: Value, shape: Shape, p: Policy, depth: nat)
    requires Sanitizes(p) && WellFormed(shape)
    ensures Clean(Project(v, shape, p, depth), p)
  {
    ProjectionConforms(v, shape, p, depth);
    ConformingIsClean(Project(v, shape, p, depth), shape, p, depth);
    hide Project, Conforms, Sanitizes, WellFormed, Clean;
  }
}
