/**
 Sorting by a total order. The program only relies on what a library sort promises: the result is
 ordered and holds the same elements; when no two elements tie, that determines it.
 */
module Sorting {

  ghost predicate TotalPreorder<T(!new)>(leq: (T, T) -> bool) {
    && (forall x, y :: leq(x, y) || leq(y, x))
    && (forall x, y, z :: leq(x, y) && leq(y, z) ==> leq(x, z))
  }

  ghost predicate NoTies<T>(leq: (T, T) -> bool, xs: seq<T>) {
    forall x, y :: x in xs && y in xs && leq(x, y) && leq(y, x) ==> x == y
  }

  ghost predicate SortedBy<T>(leq: (T, T) -> bool, xs: seq<T>) {
    forall i, j :: 0 <= i < j < |xs| ==> leq(xs[i], xs[j])
  }

  ghost predicate Distinct<T>(xs: seq<T>) {
    forall i, j :: 0 <= i < j < |xs| ==> xs[i] != xs[j]
  }

  /** First occurrences, in order. */
  function Distincts<T(==)>(xs: seq<T>): seq<T> {
    if xs == [] then []
    else
      var rest := Distincts(xs[..|xs| - 1]);
      if xs[|xs| - 1] in rest then rest else rest + [xs[|xs| - 1]]
  }

  lemma {:induction false} DistinctsSameElements<T>(xs: seq<T>)
    ensures forall x :: x in Distincts(xs) <==> x in xs
    ensures Distinct(Distincts(xs))
  {
    if xs != [] {
      DistinctsSameElements(xs[..|xs| - 1]);
      assert xs == xs[..|xs| - 1] + [xs[|xs| - 1]];
    }
  }

  function Insert<T(==)>(leq: (T, T) -> bool, x: T, xs: seq<T>): seq<T> {
    if xs == [] || leq(x, xs[0]) then [x] + xs else [xs[0]] + Insert(leq, x, xs[1..])
  }

  lemma SortedCons<T>(leq: (T, T) -> bool, x: T, xs: seq<T>)
    requires SortedBy(leq, xs) && forall y :: y in xs ==> leq(x, y)
    ensures SortedBy(leq, [x] + xs)
  {
  }

  lemma SortedTail<T>(leq: (T, T) -> bool, xs: seq<T>)
    requires SortedBy(leq, xs) && xs != []
    ensures SortedBy(leq, xs[1..])
    ensures forall y :: y in xs[1..] ==> leq(xs[0], y)
    ensures xs == [xs[0]] + xs[1..]
  {
    forall y | y in xs[1..]
      ensures leq(xs[0], y)
    {
      var i :| 0 <= i < |xs| - 1 && xs[1..][i] == y;
      assert xs[i + 1] == y;
    }
  }

  lemma InsertElements<T>(leq: (T, T) -> bool, x: T, xs: seq<T>)
    ensures multiset(Insert(leq, x, xs)) == multiset{x} + multiset(xs)
    ensures forall y :: y in Insert(leq, x, xs) <==> y == x || y in xs
  {
    if xs != [] && !leq(x, xs[0]) {
      InsertElements(leq, x, xs[1..]);
      assert xs == [xs[0]] + xs[1..];
    }
  }

  lemma {:induction false} InsertKeepsOrder<T(!new)>(leq: (T, T) -> bool, x: T, xs: seq<T>)
    requires TotalPreorder(leq) && SortedBy(leq, xs)
    ensures SortedBy(leq, Insert(leq, x, xs))
  {
    if xs == [] {
    } else if leq(x, xs[0]) {
      SortedTail(leq, xs);
      SortedCons(leq, x, xs);
    } else {
      SortedTail(leq, xs);
      InsertKeepsOrder(leq, x, xs[1..]);
      InsertElements(leq, x, xs[1..]);
      SortedCons(leq, xs[0], Insert(leq, x, xs[1..]));
    }
  }

  /** sort.Slice and sort.Strings: some ordered arrangement of the same elements. */
  method Sort<T(!new, ==)>(leq: (T, T) -> bool, xs: seq<T>) returns (ys: seq<T>)
    requires TotalPreorder(leq)
    ensures SortedBy(leq, ys)
    ensures multiset(ys) == multiset(xs)
  {
    ys := [];
    for i := 0 to |xs|
      invariant SortedBy(leq, ys)
      invariant multiset(ys) == multiset(xs[..i])
    {
      InsertKeepsOrder(leq, xs[i], ys);
      InsertElements(leq, xs[i], ys);
      ys := Insert(leq, xs[i], ys);
      assert xs[..i + 1] == xs[..i] + [xs[i]];
    }
    assert xs[..|xs|] == xs;
  }

  lemma LeastFirst<T>(leq: (T, T) -> bool, xs: seq<T>, y: T)
    requires SortedBy(leq, xs) && y in multiset(xs)
    ensures xs != [] && (y == xs[0] || leq(xs[0], y))
  {
    var i :| 0 <= i < |xs| && xs[i] == y;
  }

  lemma SameHead<T(!new)>(leq: (T, T) -> bool, xs: seq<T>, ys: seq<T>)
    requires NoTies(leq, xs) && xs != [] && ys != []
    requires SortedBy(leq, xs) && SortedBy(leq, ys)
    requires multiset(xs) == multiset(ys)
    ensures xs[0] == ys[0]
  {
    assert xs[0] in multiset(ys) && ys[0] in multiset(xs);
    LeastFirst(leq, ys, xs[0]);
    LeastFirst(leq, xs, ys[0]);
  }

  /** When no two elements tie, a bag of elements has exactly one ordered arrangement. */
  lemma {:induction false} SortedUnique<T(!new)>(leq: (T, T) -> bool, xs: seq<T>, ys: seq<T>)
    requires NoTies(leq, xs)
    requires SortedBy(leq, xs) && SortedBy(leq, ys)
    requires multiset(xs) == multiset(ys)
    ensures xs == ys
  {
    assert |multiset(xs)| == |xs| && |multiset(ys)| == |ys|;
    if xs != [] {
      SameHead(leq, xs, ys);
      TailElements(xs);
      TailElements(ys);
      SortedUnique(leq, xs[1..], ys[1..]);
      assert xs == [xs[0]] + xs[1..] && ys == [ys[0]] + ys[1..];
    }
  }

  lemma TailElements<T>(xs: seq<T>)
    requires xs != []
    ensures multiset(xs[1..]) == multiset(xs) - multiset{xs[0]}
  {
    assert xs == [xs[0]] + xs[1..];
  }

  // The byte order of strings.

  predicate StringLeq(a: string, b: string) {
    a == "" || (b != "" && (a[0] < b[0] || (a[0] == b[0] && StringLeq(a[1..], b[1..]))))
  }

  lemma {:induction false} StringLeqTotal(a: string, b: string)
    ensures StringLeq(a, b) || StringLeq(b, a)
  {
    if a != "" && b != "" {
      StringLeqTotal(a[1..], b[1..]);
    }
  }

  lemma {:induction false} StringLeqAntisymmetric(a: string, b: string)
    requires StringLeq(a, b) && StringLeq(b, a)
    ensures a == b
  {
    if a != "" && b != "" {
      StringLeqAntisymmetric(a[1..], b[1..]);
      assert a == [a[0]] + a[1..] && b == [b[0]] + b[1..];
    }
  }

  lemma {:induction false} StringLeqTransitive(a: string, b: string, c: string)
    requires StringLeq(a, b) && StringLeq(b, c)
    ensures StringLeq(a, c)
  {
    if a != "" && a[0] == b[0] == c[0] {
      StringLeqTransitive(a[1..], b[1..], c[1..]);
    }
  }

  lemma StringOrder()
    ensures TotalPreorder(StringLeq)
  {
    forall a, b
      ensures StringLeq(a, b) || StringLeq(b, a)
    {
      StringLeqTotal(a, b);
    }
    forall a, b, c | StringLeq(a, b) && StringLeq(b, c)
      ensures StringLeq(a, c)
    {
      StringLeqTransitive(a, b, c);
    }
  }

  ghost predicate IsLeast(x: string, s: set<string>) {
    x in s && forall y :: y in s ==> StringLeq(x, y)
  }

  lemma {:induction false} Least(s: set<string>) returns (x: string)
    requires s != {}
    ensures IsLeast(x, s)
  {
    x :| x in s;
    if s == {x} {
      StringLeqTotal(x, x);
    } else {
      var z := x;
      x := Least(s - {z});
      StringLeqTotal(x, z);
      if !StringLeq(x, z) {
        forall y | y in s
          ensures StringLeq(z, y)
        {
          if y == z {
            StringLeqTotal(z, z);
          } else {
            StringLeqTransitive(z, x, y);
          }
        }
        x := z;
      }
    }
  }

  lemma LeastAndRest(x: string, s: set<string>, rest: seq<string>)
    requires IsLeast(x, s) && multiset(rest) == multiset(s - {x}) && SortedBy(StringLeq, rest)
    ensures multiset([x] + rest) == multiset(s) && SortedBy(StringLeq, [x] + rest)
  {
    forall i | 0 <= i < |rest|
      ensures StringLeq(x, rest[i])
    {
      assert rest[i] in multiset(rest);
    }
  }

  /** The elements of a finite set in order. */
  ghost function SortSet(s: set<string>): (xs: seq<string>)
    ensures multiset(xs) == multiset(s)
    ensures SortedBy(StringLeq, xs)
  {
    if s == {} then []
    else
      assert exists x :: IsLeast(x, s) by { var x := Least(s); }
      var x :| IsLeast(x, s);
      var rest := SortSet(s - {x});
      LeastAndRest(x, s, rest);
      [x] + rest
  }

  method SortStrings(xs: seq<string>) returns (ys: seq<string>)
    ensures SortedBy(StringLeq, ys) && multiset(ys) == multiset(xs)
  {
    StringOrder();
    ys := Sort(StringLeq, xs);
  }

  /** An ordered arrangement of a set is the one SortSet gives, whatever order it started in. */
  lemma SortedSet(xs: seq<string>, s: set<string>)
    requires SortedBy(StringLeq, xs) && multiset(xs) == multiset(s)
    ensures xs == SortSet(s)
  {
    forall a, b | StringLeq(a, b) && StringLeq(b, a)
      ensures a == b
    {
      StringLeqAntisymmetric(a, b);
    }
    SortedUnique(StringLeq, xs, SortSet(s));
  }

  /** Collects a set in whatever order it yields its elements, then sorts. */
  method SortedElements(s: set<string>) returns (xs: seq<string>)
    ensures xs == SortSet(s)
    ensures forall i :: 0 <= i < |xs| ==> xs[i] in s
  {
    xs := [];
    var left := s;
    while left != {}
      invariant left <= s
      invariant multiset(xs) == multiset(s - left)
    {
      var x :| x in left;
      assert s - (left - {x}) == (s - left) + {x};
      xs, left := xs + [x], left - {x};
    }
    assert s - {} == s;
    xs := SortStrings(xs);
    SortedSet(xs, s);
    SortSetElements(s);
  }

  lemma SortSetElements(s: set<string>)
    ensures forall x :: x in SortSet(s) <==> x in s
  {
    forall x
      ensures x in SortSet(s) <==> x in s
    {
      assert x in SortSet(s) <==> x in multiset(SortSet(s));
    }
  }
}
