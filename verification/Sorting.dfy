/**
 The contract of the JavaScript `sort` used throughout: the same elements, in
 an order the comparison accepts. Under a comparison that separates distinct
 elements the result depends only on the multiset sorted.
 */
module Sorting {
  type Order<!T> = (T, T) -> bool

  ghost predicate TotalPreorder<T(!new)>(le: Order<T>) {
    && (forall a, b :: le(a, b) || le(b, a))
    && (forall a, b, c :: le(a, b) && le(b, c) ==> le(a, c))
  }

  ghost predicate Sorted<T>(xs: seq<T>, le: Order<T>) {
    forall i, j :: 0 <= i < j < |xs| ==> le(xs[i], xs[j])
  }

  /** Elements that the comparison cannot tell apart are equal. */
  ghost predicate Separates<T(!new)>(xs: seq<T>, le: Order<T>) {
    forall a, b :: a in xs && b in xs && le(a, b) && le(b, a) ==> a == b
  }

  function Insert<T>(x: T, xs: seq<T>, le: Order<T>): (r: seq<T>)
    ensures multiset(r) == multiset{x} + multiset(xs)
  {
    if xs == [] then [x]
    else if le(x, xs[0]) then
      assert xs == [xs[0]] + xs[1..];
      [x] + xs
    else
      assert xs == [xs[0]] + xs[1..];
      [xs[0]] + Insert(x, xs[1..], le)
  }

  function Sort<T>(xs: seq<T>, le: Order<T>): (r: seq<T>)
    ensures multiset(r) == multiset(xs) && |r| == |xs|
  {
    if xs == [] then []
    else
      assert xs == [xs[0]] + xs[1..];
      var r := Insert(xs[0], Sort(xs[1..], le), le);
      assert |multiset(r)| == |r| && |multiset(xs)| == |xs|;
      r
  }

  lemma {:induction false} InsertSorted<T(!new)>(x: T, xs: seq<T>, le: Order<T>)
    requires TotalPreorder(le) && Sorted(xs, le)
    ensures Sorted(Insert(x, xs, le), le)
  {
    if xs != [] && !le(x, xs[0]) {
      InsertSorted(x, xs[1..], le);
      var tail := Insert(x, xs[1..], le);
      forall y | y in tail ensures le(xs[0], y) {
        assert y in multiset(tail);
        assert y == x || y in xs[1..];
      }
    }
  }

  lemma {:induction false} SortSorted<T(!new)>(xs: seq<T>, le: Order<T>)
    requires TotalPreorder(le)
    ensures Sorted(Sort(xs, le), le)
  {
    if xs != [] {
      SortSorted(xs[1..], le);
      InsertSorted(xs[0], Sort(xs[1..], le), le);
    }
  }

  lemma SameElements<T>(xs: seq<T>, ys: seq<T>)
    requires multiset(xs) == multiset(ys)
    ensures |xs| == |ys| && forall x :: x in xs <==> x in ys
  {
    assert |multiset(xs)| == |xs| && |multiset(ys)| == |ys|;
    forall x ensures x in xs <==> x in ys {
      assert x in multiset(xs) <==> x in multiset(ys);
    }
  }

  lemma {:induction false} SortedUnique<T(!new)>(xs: seq<T>, ys: seq<T>, le: Order<T>)
    requires multiset(xs) == multiset(ys) && TotalPreorder(le) && Separates(xs, le)
    requires Sorted(xs, le) && Sorted(ys, le)
    ensures xs == ys
  {
    SameElements(xs, ys);
    if xs != [] {
      assert xs[0] in ys && ys[0] in xs;
      assert xs[0] == ys[0];
      SameTail(xs, ys);
      assert forall x :: x in xs[1..] ==> x in xs;
      assert Separates(xs[1..], le);
      SortedUnique(xs[1..], ys[1..], le);
      assert xs == [xs[0]] + xs[1..] && ys == [ys[0]] + ys[1..];
    }
  }

  lemma SameTail<T>(xs: seq<T>, ys: seq<T>)
    requires multiset(xs) == multiset(ys) && xs != [] && ys != [] && xs[0] == ys[0]
    ensures multiset(xs[1..]) == multiset(ys[1..])
  {
    assert xs == [xs[0]] + xs[1..] && ys == [ys[0]] + ys[1..];
    assert multiset(xs) == multiset{xs[0]} + multiset(xs[1..]);
    assert multiset(ys) == multiset{ys[0]} + multiset(ys[1..]);
    assert multiset(xs[1..]) == multiset(xs) - multiset{xs[0]};
    assert multiset(ys[1..]) == multiset(ys) - multiset{ys[0]};
  }

  /** Sorting forgets the order of its input. */
  lemma SortForgetsOrder<T(!new)>(xs: seq<T>, ys: seq<T>, le: Order<T>)
    requires multiset(xs) == multiset(ys) && TotalPreorder(le) && Separates(xs, le)
    ensures Sort(xs, le) == Sort(ys, le)
  {
    SortSorted(xs, le);
    SortSorted(ys, le);
    SameElements(xs, Sort(xs, le));
    SortedUnique(Sort(xs, le), Sort(ys, le), le);
  }

  /** Reordering repeats nothing. */
  lemma DistinctStays<T>(xs: seq<T>, ys: seq<T>)
    requires multiset(xs) == multiset(ys) && forall i, j :: 0 <= i < j < |xs| ==> xs[i] != xs[j]
    ensures forall i, j :: 0 <= i < j < |ys| ==> ys[i] != ys[j]
  {
    forall i, j | 0 <= i < j < |ys| ensures ys[i] != ys[j] {
      OnceEach(xs, ys[i]);
      assert ys == ys[..i] + [ys[i]] + ys[i + 1..j] + [ys[j]] + ys[j + 1..];
      assert ys[i] == ys[j] ==> multiset(ys)[ys[i]] >= 2;
    }
  }

  lemma {:induction false} OnceEach<T>(xs: seq<T>, x: T)
    requires forall i, j :: 0 <= i < j < |xs| ==> xs[i] != xs[j]
    ensures multiset(xs)[x] <= 1
  {
    if xs != [] {
      assert xs == xs[..|xs| - 1] + [xs[|xs| - 1]];
      OnceEach(xs[..|xs| - 1], x);
      if x == xs[|xs| - 1] { assert x !in xs[..|xs| - 1]; }
    }
  }

  // ----- text order -----

  /** Where UTF-16 code units put a character: the private use area and after, up to U+FFFF, come behind the pairs. */
  function Rank(c: char): nat {
    if 0xE000 <= c as int < 0x10000 then c as int + 0x11_0000 else c as int
  }

  lemma RanksDiffer(c: char, d: char)
    ensures Rank(c) == Rank(d) ==> c == d
  {
    assert (c as int) as char == c && (d as int) as char == d;
  }

  /** Code-unit order, as JavaScript compares strings. */
  predicate TextLe(a: string, b: string) {
    a == [] || (b != [] && (Rank(a[0]) < Rank(b[0]) || (a[0] == b[0] && TextLe(a[1..], b[1..]))))
  }

  lemma {:induction false} TextLeTotal(a: string, b: string)
    ensures TextLe(a, b) || TextLe(b, a)
  {
    if a != [] && b != [] {
      RanksDiffer(a[0], b[0]);
      TextLeTotal(a[1..], b[1..]);
    }
  }

  lemma {:induction false} TextLeTransitive(a: string, b: string, c: string)
    requires TextLe(a, b) && TextLe(b, c)
    ensures TextLe(a, c)
  {
    if a != [] && a[0] == b[0] && b[0] == c[0] { TextLeTransitive(a[1..], b[1..], c[1..]); }
  }

  lemma {:induction false} TextLeSeparates(a: string, b: string)
    requires TextLe(a, b) && TextLe(b, a)
    ensures a == b
  {
    if a != [] {
      TextLeSeparates(a[1..], b[1..]);
      assert a == [a[0]] + a[1..] && b == [b[0]] + b[1..];
    }
  }

  function ByText(): Order<string> { (a: string, b: string) => TextLe(a, b) }

  lemma ByTextOrders()
    ensures TotalPreorder(ByText())
    ensures forall xs: seq<string> :: Separates(xs, ByText())
  {
    forall a: string, b: string ensures ByText()(a, b) || ByText()(b, a) { TextLeTotal(a, b); }
    forall a: string, b: string, c: string | ByText()(a, b) && ByText()(b, c) ensures ByText()(a, c) { TextLeTransitive(a, b, c); }
    forall a: string, b: string | ByText()(a, b) && ByText()(b, a) ensures a == b { TextLeSeparates(a, b); }
  }
}
