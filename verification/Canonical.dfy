/**
 Canonical JSON (src/preflight/canonical.ts): `Normalize` sorts the keys of every
 object and turns -0 into 0; a value that JSON cannot hold is refused. Two values
 have one form exactly when they mean the same finite tree of maps.
 */
module Canonical {
  import opened Outcomes
  import opened Sorting

  datatype Number = Finite(value: real) | NegativeZero | NonFinite

  datatype Field = Field(key: string, value: Json)

  /** A JavaScript value: an object's fields in the order they were set, each key once. */
  datatype Json =
    | Null | Bool(b: bool) | Num(n: Number) | Text(s: string)
    | List(items: seq<Json>)
    | Object(fields: seq<Field>)
    | Undefined | NotData

  predicate KeysDistinct(fields: seq<Field>) {
    forall i, j :: 0 <= i < j < |fields| ==> fields[i].key != fields[j].key
  }

  /** Objects have distinct keys, at every depth. */
  predicate Proper(j: Json)
    decreases j
  {
    match j
    case List(items) => forall i :: 0 <= i < |items| ==> Proper(items[i])
    case Object(fields) => KeysDistinct(fields) && forall i :: 0 <= i < |fields| ==> Proper(fields[i].value)
    case _ => true
  }

  function ByKey(): Order<Field> {
    (a: Field, b: Field) => TextLe(a.key, b.key)
  }

  lemma ByKeyOrders()
    ensures TotalPreorder(ByKey())
  {
    forall a: Field, b: Field ensures ByKey()(a, b) || ByKey()(b, a) { TextLeTotal(a.key, b.key); }
    forall a: Field, b: Field, c: Field | ByKey()(a, b) && ByKey()(b, c)
        ensures ByKey()(a, c) { TextLeTransitive(a.key, b.key, c.key); }
  }

  lemma InObject(j: Json, f: Field)
    requires j.Object? && f in j.fields
    ensures f.value < j
  {
    var i :| 0 <= i < |j.fields| && j.fields[i] == f;
    assert j.fields[i] < j;
  }

  lemma SortedIn(j: Json, i: nat)
    requires j.Object? && i < |Sort(j.fields, ByKey())|
    ensures Sort(j.fields, ByKey())[i] in j.fields
  {
    SameElements(Sort(j.fields, ByKey()), j.fields);
  }

  // ----- normal form -----

  function Normalize(j: Json): Option<Json>
    decreases j, 1, 0
  {
    match j
    case Num(n) =>
      if n.NonFinite? then None else Some(Num(if n.NegativeZero? then Finite(0.0) else n))
    case List(items) =>
      var done := NormalizeItems(j, |items|);
      if done.None? then None else Some(List(done.value))
    case Object(fields) =>
      var sorted := Sort(fields, ByKey());
      SameElements(sorted, fields);
      var done := NormalizeFields(j, sorted, |sorted|);
      if done.None? then None else Some(Object(done.value))
    case Undefined => None
    case NotData => None
    case _ => Some(j)
  }

  function NormalizeItems(j: Json, n: nat): (r: Option<seq<Json>>)
    requires j.List? && n <= |j.items|
    ensures r.Some? ==> |r.value| == n
    decreases j, 0, n
  {
    if n == 0 then Some([])
    else
      var done := NormalizeItems(j, n - 1);
      var item := Normalize(j.items[n - 1]);
      if done.None? || item.None? then None else Some(done.value + [item.value])
  }

  /** The first `n` of the object's fields, listed in key order. */
  function NormalizeFields(j: Json, sorted: seq<Field>, n: nat): (r: Option<seq<Field>>)
    requires j.Object? && n <= |sorted| && forall f :: f in sorted ==> f in j.fields
    ensures r.Some? ==> |r.value| == n
    decreases j, 0, n
  {
    if n == 0 then Some([])
    else
      InObject(j, sorted[n - 1]);
      var done := NormalizeFields(j, sorted, n - 1);
      var value := Normalize(sorted[n - 1].value);
      if done.None? || value.None? then None else Some(done.value + [Field(sorted[n - 1].key, value.value)])
  }

  /** The recursion of the code: for an object, a loop over its sorted keys that fills the result. */
  method NormalizeValue(j: Json) returns (r: Option<Json>)
    ensures r == Normalize(j)
    decreases j
  {
    match j {
      case Num(n) => if n.NonFinite? { return None; } return Some(Num(if n.NegativeZero? then Finite(0.0) else n));
      case Undefined => return None;
      case NotData => return None;
      case List(items) =>
        var done := [];
        var i := 0;
        while i < |items|
          invariant i <= |items| && NormalizeItems(j, i) == Some(done)
        {
          var item := NormalizeValue(items[i]);
          if item.None? {
            ItemsFail(j, i, |items|);
            return None;
          }
          done := done + [item.value];
          i := i + 1;
        }
        return Some(List(done));
      case Object(fields) =>
        var sorted := Sort(fields, ByKey());
        SameElements(sorted, fields);
        var result := [];
        var i := 0;
        while i < |sorted|
          invariant i <= |sorted| && NormalizeFields(j, sorted, i) == Some(result)
        {
          InObject(j, sorted[i]);
          var value := NormalizeValue(sorted[i].value);
          if value.None? {
            FieldsFail(j, sorted, i, |sorted|);
            return None;
          }
          result := result + [Field(sorted[i].key, value.value)];
          i := i + 1;
        }
        return Some(Object(result));
      case _ => return Some(j);
    }
  }

  lemma {:induction false} ItemsFail(j: Json, i: nat, n: nat)
    requires j.List? && i < n <= |j.items| && Normalize(j.items[i]).None?
    ensures NormalizeItems(j, n).None?
  {
    if i < n - 1 { ItemsFail(j, i, n - 1); }
  }

  lemma {:induction false} FieldsFail(j: Json, sorted: seq<Field>, i: nat, n: nat)
    requires j.Object? && i < n <= |sorted| && (forall f :: f in sorted ==> f in j.fields) && Normalize(sorted[i].value).None?
    ensures NormalizeFields(j, sorted, n).None?
  {
    if i < n - 1 { FieldsFail(j, sorted, i, n - 1); }
  }

  // ----- meaning -----

  /** What a value is, apart from the order of its keys and the sign of zero. */
  datatype Value = NullV | BoolV(b: bool) | NumV(n: real) | TextV(s: string) | ListV(items: seq<Value>)
      | ObjectV(fields: map<string, Value>) | NoV

  function Meaning(j: Json): Value
    decreases j, 1, 0
  {
    match j
    case Null => NullV
    case Bool(b) => BoolV(b)
    case Num(n) => if n.Finite? then NumV(n.value) else if n.NegativeZero? then NumV(0.0) else NoV
    case Text(s) => TextV(s)
    case List(items) => ListV(MeaningItems(j, |items|))
    case Object(fields) => ObjectV(MeaningFields(j, |fields|))
    case _ => NoV
  }

  function MeaningItems(j: Json, n: nat): (r: seq<Value>)
    requires j.List? && n <= |j.items|
    ensures |r| == n
    decreases j, 0, n
  {
    if n == 0 then [] else MeaningItems(j, n - 1) + [Meaning(j.items[n - 1])]
  }

  function MeaningFields(j: Json, n: nat): map<string, Value>
    requires j.Object? && n <= |j.fields|
    decreases j, 0, n
  {
    if n == 0 then map[] else MeaningFields(j, n - 1)[j.fields[n - 1].key := Meaning(j.fields[n - 1].value)]
  }

  lemma {:induction false} ItemAt(j: Json, n: nat, i: nat)
    requires j.List? && i < n <= |j.items|
    ensures MeaningItems(j, n)[i] == Meaning(j.items[i])
  {
    if i < n - 1 { ItemAt(j, n - 1, i); }
  }

  lemma {:induction false} FieldAt(j: Json, n: nat, i: nat)
    requires j.Object? && KeysDistinct(j.fields) && i < n <= |j.fields|
    ensures j.fields[i].key in MeaningFields(j, n) && MeaningFields(j, n)[j.fields[i].key] == Meaning(j.fields[i].value)
  {
    if i < n - 1 { FieldAt(j, n - 1, i); }
  }

  lemma {:induction false} FieldKeys(j: Json, n: nat, key: string)
    requires j.Object? && n <= |j.fields| && key in MeaningFields(j, n)
    ensures exists i :: 0 <= i < n && j.fields[i].key == key
  {
    if n > 0 && j.fields[n - 1].key != key { FieldKeys(j, n - 1, key); }
  }

  lemma {:induction false} NormalItemAt(j: Json, n: nat, i: nat)
    requires j.List? && i < n <= |j.items| && NormalizeItems(j, n).Some?
    ensures Normalize(j.items[i]) == Some(NormalizeItems(j, n).value[i])
  {
    if i < n - 1 { NormalItemAt(j, n - 1, i); }
  }

  lemma {:induction false} NormalFieldAt(j: Json, sorted: seq<Field>, n: nat, i: nat)
    requires j.Object? && i < n <= |sorted| && (forall f :: f in sorted ==> f in j.fields) && NormalizeFields(j, sorted, n).Some?
    ensures var f, g := sorted[i], NormalizeFields(j, sorted, n).value[i];
            g.key == f.key && Normalize(f.value) == Some(g.value)
  {
    if i < n - 1 { NormalFieldAt(j, sorted, n - 1, i); }
  }

  /** Sorting keeps the keys distinct and every field where a lookup finds it. */
  lemma SortedFields(fields: seq<Field>)
    requires KeysDistinct(fields)
    ensures var sorted := Sort(fields, ByKey());
            KeysDistinct(sorted) && Sorted(sorted, ByKey()) && forall f :: f in sorted <==> f in fields
  {
    var sorted := Sort(fields, ByKey());
    ByKeyOrders();
    SortSorted(fields, ByKey());
    SameElements(fields, sorted);
    DistinctStays(fields, sorted);
    forall i, j | 0 <= i < j < |sorted| ensures sorted[i].key != sorted[j].key {
      assert sorted[i] in fields && sorted[j] in fields;
      var m :| 0 <= m < |fields| && fields[m] == sorted[i];
      var n :| 0 <= n < |fields| && fields[n] == sorted[j];
    }
  }

  // ----- the form keeps the meaning -----

  lemma {:induction false} NormalKeepsMeaning(j: Json)
    requires Proper(j) && Normalize(j).Some?
    ensures Proper(Normalize(j).value) && Meaning(Normalize(j).value) == Meaning(j)
    decreases j
  {
    if j.List? {
      NormalListKeepsMeaning(j);
    } else if j.Object? {
      NormalObjectKeepsMeaning(j);
    }
  }

  lemma {:induction false} NormalListKeepsMeaning(j: Json)
    requires Proper(j) && Normalize(j).Some? && j.List?
    ensures Proper(Normalize(j).value) && Meaning(Normalize(j).value) == Meaning(j)
    decreases j, 0
  {
    var t := Normalize(j).value;
    forall i | 0 <= i < |j.items| ensures Proper(t.items[i]) && MeaningItems(t, |t.items|)[i] == MeaningItems(j, |j.items|)[i] {
      NormalItemAt(j, |j.items|, i);
      NormalKeepsMeaning(j.items[i]);
      ItemAt(t, |t.items|, i);
      ItemAt(j, |j.items|, i);
    }
    assert MeaningItems(t, |t.items|) == MeaningItems(j, |j.items|);
  }

  lemma {:induction false} NormalObjectKeepsMeaning(j: Json)
    requires Proper(j) && Normalize(j).Some? && j.Object?
    ensures Proper(Normalize(j).value) && Meaning(Normalize(j).value) == Meaning(j)
    decreases j, 0
  {
    var t, n := Normalize(j).value, |j.fields|;
    var sorted := Sort(j.fields, ByKey());
    SortedFields(j.fields);
    forall i | 0 <= i < n ensures t.fields[i].key == sorted[i].key && Proper(t.fields[i].value)
        && Meaning(t.fields[i].value) == Meaning(sorted[i].value) {
      NormalFieldAt(j, sorted, n, i);
      SortedIn(j, i);
      InObject(j, sorted[i]);
      var k :| 0 <= k < n && j.fields[k] == sorted[i];
      NormalKeepsMeaning(sorted[i].value);
    }
    assert KeysDistinct(t.fields);
    SameLookups(j, t, sorted);
  }

  /** Objects whose fields agree in some order mean the same map. */
  lemma SameLookups(j: Json, t: Json, sorted: seq<Field>)
    requires j.Object? && t.Object? && KeysDistinct(j.fields) && KeysDistinct(t.fields)
    requires |sorted| == |j.fields| == |t.fields| && forall f :: f in sorted <==> f in j.fields
    requires forall i :: 0 <= i < |sorted| ==>
        t.fields[i].key == sorted[i].key && Meaning(t.fields[i].value) == Meaning(sorted[i].value)
    ensures MeaningFields(t, |t.fields|) == MeaningFields(j, |j.fields|)
  {
    var a, b, n := MeaningFields(t, |t.fields|), MeaningFields(j, |j.fields|), |j.fields|;
    forall key | key in a ensures key in b && a[key] == b[key] {
      FieldKeys(t, n, key);
      var i :| 0 <= i < n && t.fields[i].key == key;
      FieldAt(t, n, i);
      assert sorted[i] in j.fields;
      var k :| 0 <= k < n && j.fields[k] == sorted[i];
      FieldAt(j, n, k);
    }
    forall key | key in b ensures key in a {
      FieldKeys(j, n, key);
      var k :| 0 <= k < n && j.fields[k].key == key;
      assert j.fields[k] in sorted;
      var i :| 0 <= i < n && sorted[i] == j.fields[k];
      FieldAt(t, n, i);
    }
  }

  // ----- the meaning fixes the form -----

  function KeysOf(fields: seq<Field>): seq<string> {
    seq(|fields|, i requires 0 <= i < |fields| => fields[i].key)
  }

  lemma {:induction false} KeyList(xs: seq<string>, names: set<string>)
    requires (forall x :: x in xs <==> x in names) && forall i, j :: 0 <= i < j < |xs| ==> xs[i] != xs[j]
    ensures multiset(xs) == multiset(names)
  {
    if xs == [] {
      assert names == {};
    } else {
      var last, rest := xs[|xs| - 1], xs[..|xs| - 1];
      assert xs == rest + [last];
      forall x ensures x in rest <==> x in names - {last} {
        if x in rest { assert x in xs; }
      }
      KeyList(rest, names - {last});
      assert multiset(names) == multiset(names - {last}) + multiset{last};
    }
  }

  /** Objects with one meaning list the same keys once sorted. */
  lemma SameSortedKeys(a: Json, b: Json)
    requires a.Object? && b.Object? && KeysDistinct(a.fields) && KeysDistinct(b.fields)
    requires MeaningFields(a, |a.fields|) == MeaningFields(b, |b.fields|)
    ensures KeysOf(Sort(a.fields, ByKey())) == KeysOf(Sort(b.fields, ByKey()))
  {
    var names := MeaningFields(a, |a.fields|).Keys;
    SortedKeys(a, names);
    SortedKeys(b, names);
    ByTextOrders();
    SortedUnique(KeysOf(Sort(a.fields, ByKey())), KeysOf(Sort(b.fields, ByKey())), ByText());
  }

  lemma SortedKeys(j: Json, names: set<string>)
    requires j.Object? && KeysDistinct(j.fields) && names == MeaningFields(j, |j.fields|).Keys
    ensures multiset(KeysOf(Sort(j.fields, ByKey()))) == multiset(names)
    ensures Sorted(KeysOf(Sort(j.fields, ByKey())), ByText())
  {
    var sorted := Sort(j.fields, ByKey());
    var keys := KeysOf(sorted);
    SortedFields(j.fields);
    forall x ensures x in keys <==> x in names { KeyNamed(j, x); }
    KeyList(keys, names);
    forall i, k | 0 <= i < k < |keys| ensures ByText()(keys[i], keys[k]) { assert ByKey()(sorted[i], sorted[k]); }
  }

  lemma KeyNamed(j: Json, x: string)
    requires j.Object? && KeysDistinct(j.fields)
    ensures x in KeysOf(Sort(j.fields, ByKey())) <==> x in MeaningFields(j, |j.fields|)
  {
    var sorted, n := Sort(j.fields, ByKey()), |j.fields|;
    SortedFields(j.fields);
    if x in KeysOf(sorted) {
      var i :| 0 <= i < n && KeysOf(sorted)[i] == x;
      assert sorted[i] in j.fields;
      var k :| 0 <= k < n && j.fields[k] == sorted[i];
      FieldAt(j, n, k);
    }
    if x in MeaningFields(j, n) { MeantKeyListed(j, x, sorted); }
  }

  lemma MeantKeyListed(j: Json, x: string, sorted: seq<Field>)
    requires j.Object? && x in MeaningFields(j, |j.fields|) && forall f :: f in j.fields ==> f in sorted
    ensures x in KeysOf(sorted)
  {
    FieldKeys(j, |j.fields|, x);
    var k :| 0 <= k < |j.fields| && j.fields[k].key == x;
    assert j.fields[k] in sorted;
    var i :| 0 <= i < |sorted| && sorted[i] == j.fields[k];
    assert KeysOf(sorted)[i] == x;
  }

  lemma {:induction false} SameMeaningSameForm(a: Json, b: Json)
    requires Proper(a) && Proper(b) && Normalize(a).Some? && Normalize(b).Some? && Meaning(a) == Meaning(b)
    ensures Normalize(a) == Normalize(b)
    decreases a
  {
    if a.List? {
      assert b.List?;
      SameListForm(a, b);
    } else if a.Object? {
      assert b.Object?;
      SameObjectForm(a, b);
    }
  }

  lemma {:induction false} SameListForm(a: Json, b: Json)
    requires Proper(a) && Proper(b) && Normalize(a).Some? && Normalize(b).Some? && Meaning(a) == Meaning(b)
    requires a.List? && b.List?
    ensures Normalize(a) == Normalize(b)
    decreases a, 0
  {
    var n := |a.items|;
    assert MeaningItems(a, n) == MeaningItems(b, |b.items|);
    var x, y := NormalizeItems(a, n).value, NormalizeItems(b, n).value;
    forall i | 0 <= i < n ensures x[i] == y[i] {
      NormalItemAt(a, n, i);
      NormalItemAt(b, n, i);
      ItemAt(a, n, i);
      ItemAt(b, n, i);
      SameMeaningSameForm(a.items[i], b.items[i]);
    }
    assert x == y;
  }

  lemma {:induction false} SameObjectForm(a: Json, b: Json)
    requires Proper(a) && Proper(b) && Normalize(a).Some? && Normalize(b).Some? && Meaning(a) == Meaning(b)
    requires a.Object? && b.Object?
    ensures Normalize(a) == Normalize(b)
    decreases a, 0
  {
    var n := |a.fields|;
    SameSortedKeys(a, b);
    var p, q := Sort(a.fields, ByKey()), Sort(b.fields, ByKey());
    assert |KeysOf(p)| == n && |KeysOf(q)| == |b.fields|;
    SameElements(p, a.fields);
    SameElements(q, b.fields);
    var x, y := NormalizeFields(a, p, n).value, NormalizeFields(b, q, n).value;
    forall i | 0 <= i < n ensures x[i] == y[i] {
      assert KeysOf(p)[i] == KeysOf(q)[i];
      NormalFieldAt(a, p, n, i);
      NormalFieldAt(b, q, n, i);
      SameFieldMeaning(a, b, i);
      SortedIn(a, i);
      InObject(a, p[i]);
      SameMeaningSameForm(p[i].value, q[i].value);
    }
    assert x == y;
  }

  lemma SameFieldMeaning(a: Json, b: Json, i: nat)
    requires Proper(a) && Proper(b) && Meaning(a) == Meaning(b) && a.Object? && b.Object?
    requires i < |a.fields| && |b.fields| == |a.fields|
    requires Sort(a.fields, ByKey())[i].key == Sort(b.fields, ByKey())[i].key
    ensures var f, g := Sort(a.fields, ByKey())[i], Sort(b.fields, ByKey())[i];
            Meaning(f.value) == Meaning(g.value) && Proper(f.value) && Proper(g.value)
  {
    var f, g, n := Sort(a.fields, ByKey())[i], Sort(b.fields, ByKey())[i], |a.fields|;
    SortedIn(a, i);
    SortedIn(b, i);
    var k :| 0 <= k < n && a.fields[k] == f;
    var l :| 0 <= l < n && b.fields[l] == g;
    FieldAt(a, n, k);
    FieldAt(b, n, l);
  }

  /**
   Two values have one canonical form exactly when they mean the same: the order
   of keys at any depth and the sign of zero make no difference, anything else
   does.
   */
  lemma FormIsMeaning(a: Json, b: Json)
    requires Proper(a) && Proper(b) && Normalize(a).Some? && Normalize(b).Some?
    ensures Normalize(a) == Normalize(b) <==> Meaning(a) == Meaning(b)
  {
    NormalKeepsMeaning(a);
    NormalKeepsMeaning(b);
    if Meaning(a) == Meaning(b) { SameMeaningSameForm(a, b); }
  }

  lemma {:induction false} ItemsSucceed(j: Json, n: nat)
    requires j.List? && n <= |j.items| && forall i :: 0 <= i < n ==> Normalize(j.items[i]).Some?
    ensures NormalizeItems(j, n).Some?
  {
    if n > 0 { ItemsSucceed(j, n - 1); }
  }

  lemma {:induction false} FieldsSucceed(j: Json, sorted: seq<Field>, n: nat)
    requires j.Object? && n <= |sorted| && (forall f :: f in sorted ==> f in j.fields)
    requires forall f :: f in j.fields ==> Normalize(f.value).Some?
    ensures NormalizeFields(j, sorted, n).Some?
  {
    if n > 0 { FieldsSucceed(j, sorted, n - 1); }
  }

  lemma {:induction false} NormalIsData(j: Json)
    requires Proper(j) && Normalize(j).Some?
    ensures Normalize(Normalize(j).value).Some?
    decreases j
  {
    var t := Normalize(j).value;
    if j.List? {
      forall i | 0 <= i < |t.items| ensures Normalize(t.items[i]).Some? {
        NormalItemAt(j, |j.items|, i);
        NormalIsData(j.items[i]);
      }
      ItemsSucceed(t, |t.items|);
    } else if j.Object? {
      var sorted := Sort(j.fields, ByKey());
      SameElements(sorted, j.fields);
      forall f | f in t.fields ensures Normalize(f.value).Some? {
        var i :| 0 <= i < |t.fields| && t.fields[i] == f;
        NormalFieldAt(j, sorted, |sorted|, i);
        InObject(j, sorted[i]);
        var k :| 0 <= k < |j.fields| && j.fields[k] == sorted[i];
        NormalIsData(sorted[i].value);
      }
      SameElements(Sort(t.fields, ByKey()), t.fields);
      FieldsSucceed(t, Sort(t.fields, ByKey()), |t.fields|);
    }
  }

  /** A normal form is its own normal form. */
  lemma NormalizeTwice(j: Json)
    requires Proper(j) && Normalize(j).Some?
    ensures Normalize(Normalize(j).value) == Normalize(j)
  {
    NormalIsData(j);
    NormalKeepsMeaning(j);
    SameMeaningSameForm(Normalize(j).value, j);
  }
}
