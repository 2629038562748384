/**
 The entry-telemetry script compares a stored value with its own projection (scripts/entry_telemetry_acceptance.py),
 and dictionaries compare without regard to the order of their entries. Under that equality it accepts
 exactly the values in which every path is one of the shape.
 */
module AllowlistEquality {
  import opened Allowlist

  /** A dictionary holds each key once, at every depth. */
  predicate KeysOnce(v: Value)
    decreases v
  {
    match v
    case List(items) => forall i :: 0 <= i < |items| ==> KeysOnce(items[i])
    case Tuple(items) => forall i :: 0 <= i < |items| ==> KeysOnce(items[i])
    case Dict(entries) =>
      && Distinct(entries)
      && (forall i :: 0 <= i < |entries| ==> KeysOnce(entries[i].value))
    case _ => true
  }

  predicate HasKey(es: seq<Entry>, k: Key) { exists i :: 0 <= i < |es| && es[i].key == k }

  /** Equality with dictionaries as unordered collections. */
  predicate Same(a: Value, b: Value)
    decreases a, 1
  {
    if a.List? && b.List? then SameItems(a.items, b.items)
    else if a.Tuple? && b.Tuple? then SameItems(a.items, b.items)
    else if a.Dict? && b.Dict? then
      && (forall i :: 0 <= i < |a.entries| ==> Found(a.entries[i], b.entries))
      && (forall j :: 0 <= j < |b.entries| ==> HasKey(a.entries, b.entries[j].key))
    else a == b
  }

  predicate SameItems(xs: seq<Value>, ys: seq<Value>)
    decreases xs, 0
  {
    |xs| == |ys| && forall i :: 0 <= i < |xs| ==> Same(xs[i], ys[i])
  }

  predicate Found(e: Entry, es: seq<Entry>)
    decreases e, 0
  {
    exists j :: 0 <= j < |es| && es[j].key == e.key && Same(e.value, es[j].value)
  }

  /** The field of a record that an entry belongs to, if the words allow it. */
  predicate FieldFor(e: Entry, shape: Shape, k: nat, p: Policy)
    requires shape.Record?
  {
    k < |shape.fields| && e.key == Str(shape.fields[k].name)
    && (p.forbidden(shape.fields[k].name) ==> shape.fields[k].name == "outcome")
  }

  /** Every path in the value is one of the shape, sanitized and within the limits; entries in any order. */
  predicate Allowed(v: Value, shape: Shape, p: Policy, depth: nat)
    decreases shape, 1
  {
    if v.Null? then true
    else if shape.Scalar? then IsScalar(v) && p.scalar(v) == v
    else if depth >= 5 then false
    else
      match shape
      case NumericWalletMap =>
        v.Dict? && |v.entries| <= p.maxItems
        && forall i :: 0 <= i < |v.entries| ==> WalletFixed(v.entries[i], p)
      case Record(fields) => v.Dict? && forall i :: 0 <= i < |v.entries| ==> EntryAllowed(v.entries[i], shape, p, depth)
      case Choice(plain, dict) => if v.Dict? then Allowed(v, dict, p, depth) else Allowed(v, plain, p, depth)
      case ListOf(item) =>
        v.List? && |v.items| <= p.maxItems
        && forall i :: 0 <= i < |v.items| ==> Allowed(v.items[i], item, p, depth + 1)
  }

  predicate EntryAllowed(e: Entry, shape: Shape, p: Policy, depth: nat)
    requires shape.Record?
    decreases shape, 0
  {
    exists k: nat :: k < |shape.fields| && FieldFor(e, shape, k, p)
        && Allowed(e.value, shape.fields[k].shape, p, depth + 1)
  }

  // ----- What a projected dictionary holds -----

  lemma {:induction false} LookupFinds(es: seq<Entry>, i: nat, name: string)
    requires i < |es| && es[i].key == Str(name)
    requires Distinct(es)
    ensures Has(es, name) && Lookup(es, name) == es[i].value
  {
    if i > 0 {
      LookupFinds(es[1..], i - 1, name);
    }
  }

  lemma {:induction false} PresentHas(es: seq<Entry>, fields: seq<Field>, values: seq<Value>, p: Policy, e: Entry)
    requires |values| == |fields|
    ensures e in Present(es, fields, values, p) <==>
            exists k :: 0 <= k < |fields| && Has(es, fields[k].name) && Named(fields[k].name, p)
                        && e == Entry(Str(fields[k].name), values[k])
  {
    hide Has, Named;
    if fields != [] {
      PresentHas(es, fields[1..], values[1..], p, e);
      if e in Present(es, fields[1..], values[1..], p) {
        var k :| 0 <= k < |fields| - 1 && Has(es, fields[1..][k].name) && Named(fields[1..][k].name, p)
                 && e == Entry(Str(fields[1..][k].name), values[1..][k]);
        assert fields[k + 1] == fields[1..][k] && values[k + 1] == values[1..][k];
      }
      if k :| 0 <= k < |fields| && Has(es, fields[k].name) && Named(fields[k].name, p)
              && e == Entry(Str(fields[k].name), values[k]) {
        if k > 0 {
          assert fields[1..][k - 1] == fields[k] && values[1..][k - 1] == values[k];
        }
      }
    }
  }

  lemma {:induction false} WalletHas(es: seq<Entry>, p: Policy, e: Entry)
    ensures e in WalletEntries(es, p) <==>
            exists i :: 0 <= i < |es| && WalletEntry(es[i], p) && e == Entry(es[i].key, p.scalar(es[i].value))
  {
    hide WalletEntry;
    if es != [] {
      WalletHas(es[1..], p, e);
      if i :| 0 <= i < |es| - 1 && WalletEntry(es[1..][i], p)
              && e == Entry(es[1..][i].key, p.scalar(es[1..][i].value)) {
        assert es[i + 1] == es[1..][i];
      }
      if i :| 0 <= i < |es| && WalletEntry(es[i], p) && e == Entry(es[i].key, p.scalar(es[i].value)) {
        if i > 0 {
          assert es[1..][i - 1] == es[i];
        }
      }
    }
  }

  predicate WalletFixed(e: Entry, p: Policy) {
    && e.key.Str? && |e.key.s| <= 256 && !p.forbidden(e.key.s)
    && e.value.Num? && e.value.n.Finite? && p.scalar(e.value) == e.value
  }

  lemma FixedIsEntry(e: Entry, p: Policy)
    ensures WalletFixed(e, p) <==> WalletEntry(e, p) && p.scalar(e.value) == e.value
  {
  }

  predicate Distinct(es: seq<Entry>) { forall a, b :: 0 <= a < b < |es| ==> es[a].key != es[b].key }

  /** An entry whose key survives the projection is one that the projection leaves alone. */
  lemma {:induction false} SurvivorIsFixed(es: seq<Entry>, p: Policy, j: nat)
    requires Sanitizes(p) && Distinct(es) && j < |es|
    requires Same(Dict(WalletEntries(First(es, p.maxItems), p)), Dict(es))
    ensures j < |First(es, p.maxItems)| && WalletFixed(es[j], p)
  {
    hide WalletEntries;
    var first := First(es, p.maxItems);
    var ws := WalletEntries(first, p);
    assert HasKey(ws, es[j].key);
    var i :| 0 <= i < |ws| && ws[i].key == es[j].key;
    assert ws[i] in ws && Found(ws[i], es);
    WalletHas(first, p, ws[i]);
    var m :| 0 <= m < |first| && WalletEntry(first[m], p) && ws[i] == Entry(first[m].key, p.scalar(first[m].value));
    assert first[m] == es[m] && m == j;
    ScalarSame(p.scalar(es[j].value), es, j, ws[i]);
  }

  lemma {:induction false} WalletAllowed(es: seq<Entry>, p: Policy)
    requires Sanitizes(p) && Distinct(es)
    ensures Same(Dict(WalletEntries(First(es, p.maxItems), p)), Dict(es)) <==>
            |es| <= p.maxItems && forall i :: 0 <= i < |es| ==> WalletFixed(es[i], p)
  {
    hide WalletEntry, Sanitizes, Distinct, WalletEntries, Same;
    if Same(Dict(WalletEntries(First(es, p.maxItems), p)), Dict(es)) {
      forall j | 0 <= j < |es|
        ensures j < |First(es, p.maxItems)| && WalletFixed(es[j], p)
      {
        SurvivorIsFixed(es, p, j);
      }
      if |es| > 0 {
        var last := es[|es| - 1];
        assert WalletFixed(last, p);
      }
    }
    if |es| <= p.maxItems && forall i :: 0 <= i < |es| ==> WalletFixed(es[i], p) {
      forall i | 0 <= i < |es| {
        FixedIsEntry(es[i], p);
      }
      WalletEntriesFixed(es, p);
      FixedAreSame(es, p);
    }
  }

  lemma {:induction false} FixedAreSame(es: seq<Entry>, p: Policy)
    requires forall i :: 0 <= i < |es| ==> WalletFixed(es[i], p)
    ensures Same(Dict(es), Dict(es))
  {
    forall i | 0 <= i < |es|
      ensures Found(es[i], es) && HasKey(es, es[i].key)
    {
      assert WalletFixed(es[i], p);
      assert Same(es[i].value, es[i].value);
    }
  }

  /** A sanitized number that stands for entry `j` is that entry's value. */
  lemma ScalarSame(w: Value, es: seq<Entry>, j: nat, e: Entry)
    requires j < |es| && Distinct(es)
    requires e == Entry(es[j].key, w) && Found(e, es) && FiniteNumber(w)
    ensures w == es[j].value
  {
    var i :| 0 <= i < |es| && es[i].key == e.key && Same(w, es[i].value);
    assert i == j;
  }

  // ----- What the comparison accepts -----

  lemma {:induction false} AcceptedExactlyWhenAllowed(v: Value, shape: Shape, p: Policy, depth: nat)
    requires Sanitizes(p) && WellFormed(shape) && KeysOnce(v)
    ensures Same(Project(v, shape, p, depth), v) <==> Allowed(v, shape, p, depth)
    decreases shape, 1
  {
    if v.Null? || shape.Scalar? || depth >= MAX_DEPTH {
    } else {
      match shape
      case NumericWalletMap =>
        if v.Dict? {
          WalletAllowed(v.entries, p);
        }
      case Record(fields) =>
        if v.Dict? {
          RecordAllowed(v.entries, shape, p, depth);
        }
      case Choice(plain, dict) =>
        AcceptedExactlyWhenAllowed(v, plain, p, depth);
        AcceptedExactlyWhenAllowed(v, dict, p, depth);
      case ListOf(item) =>
        if v.List? {
          ItemsAllowed(v.items, shape, p, depth);
        }
    }
  }

  lemma {:induction false} ItemsAllowed(vs: seq<Value>, shape: Shape, p: Policy, depth: nat)
    requires Sanitizes(p) && WellFormed(shape) && shape.ListOf? && forall i :: 0 <= i < |vs| ==> KeysOnce(vs[i])
    ensures SameItems(Items(First(vs, p.maxItems), shape, p, depth), vs) <==>
            |vs| <= p.maxItems && forall i :: 0 <= i < |vs| ==> Allowed(vs[i], shape.item, p, depth + 1)
    decreases shape, 0
  {
    forall i | 0 <= i < |vs|
      ensures Same(Project(vs[i], shape.item, p, depth + 1), vs[i]) <==> Allowed(vs[i], shape.item, p, depth + 1)
    {
      AcceptedExactlyWhenAllowed(vs[i], shape.item, p, depth + 1);
      hide Same, Project, Allowed, Sanitizes;
    }
    hide Same, Project, Allowed, Sanitizes;
  }

  lemma {:induction false} RecordAllowed(es: seq<Entry>, shape: Shape, p: Policy, depth: nat)
    requires Sanitizes(p) && WellFormed(shape) && shape.Record? && KeysOnce(Dict(es))
    ensures Same(Dict(Present(es, shape.fields, Fields(es, shape, p, depth), p)), Dict(es)) <==>
            forall i :: 0 <= i < |es| ==> EntryAllowed(es[i], shape, p, depth)
    decreases shape, 0
  {
    var values := Fields(es, shape, p, depth);
    forall i, k: nat | 0 <= i < |es| && FieldFor(es[i], shape, k, p)
      ensures Has(es, shape.fields[k].name) && values[k] == Project(es[i].value, shape.fields[k].shape, p, depth + 1)
      ensures Same(values[k], es[i].value) <==> Allowed(es[i].value, shape.fields[k].shape, p, depth + 1)
    {
      LookupFinds(es, i, shape.fields[k].name);
      AcceptedExactlyWhenAllowed(es[i].value, shape.fields[k].shape, p, depth + 1);
      hide Same, Allowed, Project;
    }
    hide Allowed, Project, Sanitizes;
    PresentMatches(es, shape, values, p, depth);
  }

  lemma {:induction false} PresentMatches(es: seq<Entry>, shape: Shape, values: seq<Value>, p: Policy, depth: nat)
    requires shape.Record? && WellFormed(shape) && |values| == |shape.fields| && KeysOnce(Dict(es))
    requires SameWhenAllowed(es, shape, values, p, depth)
    ensures Same(Dict(Present(es, shape.fields, values, p)), Dict(es)) <==>
            forall i :: 0 <= i < |es| ==> EntryAllowed(es[i], shape, p, depth)
  {
    var ps := Present(es, shape.fields, values, p);
    hide Allowed, Named, Same, EntryAllowed, FieldFor;
    if Same(Dict(ps), Dict(es)) {
      forall j | 0 <= j < |es|
        ensures EntryAllowed(es[j], shape, p, depth)
      {
        SurvivorIsAllowed(es, shape, values, p, depth, j);
      }
    }
    if forall i :: 0 <= i < |es| ==> EntryAllowed(es[i], shape, p, depth) {
      AllowedAreSame(es, shape, values, p, depth);
    }
  }

  ghost predicate SameWhenAllowed(es: seq<Entry>, shape: Shape, values: seq<Value>, p: Policy, depth: nat)
    requires shape.Record? && |values| == |shape.fields|
  {
    forall i, k: nat :: 0 <= i < |es| && FieldFor(es[i], shape, k, p) ==>
      (Same(values[k], es[i].value) <==> Allowed(es[i].value, shape.fields[k].shape, p, depth + 1))
  }

  lemma {:induction false} SurvivorIsAllowed(
    es: seq<Entry>, shape: Shape, values: seq<Value>, p: Policy, depth: nat, j: nat)
    requires shape.Record? && |values| == |shape.fields| && Distinct(es) && j < |es|
    requires SameWhenAllowed(es, shape, values, p, depth)
    requires Same(Dict(Present(es, shape.fields, values, p)), Dict(es))
    ensures EntryAllowed(es[j], shape, p, depth)
  {
    hide Allowed, Present;
    var ps := Present(es, shape.fields, values, p);
    assert HasKey(ps, es[j].key);
    var i :| 0 <= i < |ps| && ps[i].key == es[j].key;
    assert ps[i] in ps && Found(ps[i], es);
    PresentHas(es, shape.fields, values, p, ps[i]);
    var k :| 0 <= k < |shape.fields| && Has(es, shape.fields[k].name) && Named(shape.fields[k].name, p)
             && ps[i] == Entry(Str(shape.fields[k].name), values[k]);
    var m :| 0 <= m < |es| && es[m].key == ps[i].key && Same(ps[i].value, es[m].value);
    assert m == j && FieldFor(es[j], shape, k, p);
  }

  lemma {:induction false} AllowedAreSame(es: seq<Entry>, shape: Shape, values: seq<Value>, p: Policy, depth: nat)
    requires shape.Record? && WellFormed(shape) && |values| == |shape.fields|
    requires SameWhenAllowed(es, shape, values, p, depth)
    requires forall i :: 0 <= i < |es| ==> EntryAllowed(es[i], shape, p, depth)
    ensures Same(Dict(Present(es, shape.fields, values, p)), Dict(es))
  {
    hide Allowed, Present, WellFormed;
    var ps := Present(es, shape.fields, values, p);
    forall i | 0 <= i < |ps|
      ensures Found(ps[i], es)
    {
      assert ps[i] in ps;
      PresentHas(es, shape.fields, values, p, ps[i]);
      var k :| 0 <= k < |shape.fields| && Has(es, shape.fields[k].name) && Named(shape.fields[k].name, p)
               && ps[i] == Entry(Str(shape.fields[k].name), values[k]);
      var m :| 0 <= m < |es| && es[m].key == Str(shape.fields[k].name);
      SameField(es[m], shape, k, p, depth);
    }
    forall j | 0 <= j < |es|
      ensures HasKey(ps, es[j].key)
    {
      assert EntryAllowed(es[j], shape, p, depth);
      var k: nat :| k < |shape.fields| && FieldFor(es[j], shape, k, p)
          && Allowed(es[j].value, shape.fields[k].shape, p, depth + 1);
      PresentHas(es, shape.fields, values, p, Entry(Str(shape.fields[k].name), values[k]));
      var i :| 0 <= i < |ps| && ps[i] == Entry(Str(shape.fields[k].name), values[k]);
    }
  }

  lemma SameField(e: Entry, shape: Shape, k: nat, p: Policy, depth: nat)
    requires shape.Record? && WellFormed(shape) && EntryAllowed(e, shape, p, depth)
    requires k < |shape.fields| && e.key == Str(shape.fields[k].name)
    ensures FieldFor(e, shape, k, p) && Allowed(e.value, shape.fields[k].shape, p, depth + 1)
  {
    hide Allowed, Named;
    var j: nat :| j < |shape.fields| && FieldFor(e, shape, j, p)
        && Allowed(e.value, shape.fields[j].shape, p, depth + 1);
    assert shape.fields[j].name == shape.fields[k].name;
    assert j == k;
  }
}
