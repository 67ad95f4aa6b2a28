/** Byte-wise string order, stable sorting by a comparison, and the sorted listing of a set of names. */
module Ordering {

  /** The order Go's `<` gives on strings, as a reflexive comparison. */
  predicate StrLe(a: string, b: string) {
    a == [] || (b != [] && (a[0] < b[0] || (a[0] == b[0] && StrLe(a[1..], b[1..]))))
  }

  lemma StrLeTotal(a: string, b: string)
    ensures StrLe(a, b) || StrLe(b, a)
  {}

  lemma StrLeAntisymmetric(a: string, b: string)
    requires StrLe(a, b) && StrLe(b, a)
    ensures a == b
  {
    if a != [] {
      StrLeAntisymmetric(a[1..], b[1..]);
      assert a == [a[0]] + a[1..] && b == [b[0]] + b[1..];
    }
  }

  lemma StrLeTransitive(a: string, b: string, c: string)
    requires StrLe(a, b) && StrLe(b, c)
    ensures StrLe(a, c)
  {
    if a != [] && a[0] == b[0] && b[0] == c[0] {
      StrLeTransitive(a[1..], b[1..], c[1..]);
    }
  }

  ghost predicate IsTotal<T(!new)>(le: (T, T) -> bool) {
    forall a, b :: le(a, b) || le(b, a)
  }

  ghost predicate IsTransitive<T(!new)>(le: (T, T) -> bool) {
    forall a, b, c :: le(a, b) && le(b, c) ==> le(a, c)
  }

  ghost predicate IsOrder<T(!new)>(le: (T, T) -> bool) {
    IsTotal(le) && IsTransitive(le)
  }

  lemma StrLeIsOrder()
    ensures IsOrder(StrLe)
  {
    forall a, b ensures StrLe(a, b) || StrLe(b, a) { StrLeTotal(a, b); }
    forall a, b, c | StrLe(a, b) && StrLe(b, c) ensures StrLe(a, c) { StrLeTransitive(a, b, c); }
  }

  ghost predicate Sorted<T>(s: seq<T>, le: (T, T) -> bool) {
    forall i, j :: 0 <= i < j < |s| ==> le(s[i], s[j])
  }

  function Insert<T>(x: T, s: seq<T>, le: (T, T) -> bool): seq<T> {
    if s == [] || le(x, s[0]) then [x] + s else [s[0]] + Insert(x, s[1..], le)
  }

  /** A stable sort: an element is placed before the later ones it ties with. */
  function SortBy<T>(s: seq<T>, le: (T, T) -> bool): seq<T> {
    if s == [] then [] else Insert(s[0], SortBy(s[1..], le), le)
  }

  lemma {:induction false} InsertElements<T>(x: T, s: seq<T>, le: (T, T) -> bool)
    ensures multiset(Insert(x, s, le)) == multiset{x} + multiset(s)
  {
    if s == [] || le(x, s[0]) {
      assert multiset([x] + s) == multiset{x} + multiset(s);
    } else {
      InsertElements(x, s[1..], le);
      assert s == [s[0]] + s[1..];
      assert multiset(s) == multiset{s[0]} + multiset(s[1..]);
    }
  }

  lemma SortedCons<T>(x: T, s: seq<T>, le: (T, T) -> bool)
    requires Sorted(s, le) && forall y :: y in s ==> le(x, y)
    ensures Sorted([x] + s, le)
  {
    var r := [x] + s;
    forall i, j | 0 <= i < j < |r| ensures le(r[i], r[j]) {
      assert r[j] == s[j - 1];
    }
  }

  lemma HeadLeast<T(!new)>(x: T, s: seq<T>, le: (T, T) -> bool)
    requires IsTransitive(le) && Sorted(s, le) && s != [] && le(x, s[0])
    ensures forall y :: y in s ==> le(x, y)
  {
    forall y | y in s ensures le(x, y) {
      var j :| 0 <= j < |s| && s[j] == y;
      if j != 0 { assert le(s[0], s[j]); }
    }
  }

  lemma {:induction false} InsertSorts<T(!new)>(x: T, s: seq<T>, le: (T, T) -> bool)
    requires IsOrder(le) && Sorted(s, le)
    ensures Sorted(Insert(x, s, le), le)
  {
    if s == [] {
    } else if le(x, s[0]) {
      HeadLeast(x, s, le);
      SortedCons(x, s, le);
    } else {
      InsertSorts(x, s[1..], le);
      var r := Insert(x, s[1..], le);
      InsertElements(x, s[1..], le);
      forall y | y in r ensures le(s[0], y) {
        assert y in multiset(r);
        assert y == x || y in s[1..];
      }
      SortedCons(s[0], r, le);
    }
  }

  lemma {:induction false} SortBySorts<T(!new)>(s: seq<T>, le: (T, T) -> bool)
    requires IsOrder(le)
    ensures Sorted(SortBy(s, le), le)
    ensures multiset(SortBy(s, le)) == multiset(s)
  {
    if s != [] {
      SortBySorts(s[1..], le);
      InsertSorts(s[0], SortBy(s[1..], le), le);
      InsertElements(s[0], SortBy(s[1..], le), le);
      assert s == [s[0]] + s[1..];
    }
  }

  lemma SameElements<T>(a: seq<T>, b: seq<T>)
    requires multiset(a) == multiset(b)
    ensures |a| == |b|
    ensures forall x :: x in a <==> x in b
  {
    assert |multiset(a)| == |a| && |multiset(b)| == |b|;
    forall x ensures x in a <==> x in b {
      assert x in a <==> x in multiset(a);
      assert x in b <==> x in multiset(b);
    }
  }

  lemma SameHead<T>(a: seq<T>, b: seq<T>, le: (T, T) -> bool)
    requires Sorted(a, le) && Sorted(b, le) && a != [] && b != []
    requires a[0] in b && b[0] in a
    requires forall x, y :: x in a && y in a && le(x, y) && le(y, x) ==> x == y
    ensures a[0] == b[0]
  {
    var i :| 0 <= i < |b| && b[i] == a[0];
    var j :| 0 <= j < |a| && a[j] == b[0];
    if i != 0 && j != 0 {
      assert le(b[0], b[i]) && le(a[0], a[j]);
    }
  }

  lemma SortedTail<T>(a: seq<T>, le: (T, T) -> bool)
    requires Sorted(a, le) && a != []
    ensures Sorted(a[1..], le) && multiset(a[1..]) == multiset(a) - multiset{a[0]}
    ensures forall x :: x in a[1..] ==> x in a
  {
    assert a == [a[0]] + a[1..];
  }

  ghost predicate TiesEqual<T(!new)>(a: seq<T>, le: (T, T) -> bool) {
    forall x, y :: x in a && y in a && le(x, y) && le(y, x) ==> x == y
  }

  lemma TailsMatch<T(!new)>(a: seq<T>, b: seq<T>, le: (T, T) -> bool)
    requires Sorted(a, le) && Sorted(b, le) && multiset(a) == multiset(b) && TiesEqual(a, le) && a != [] && b != []
    ensures a[0] == b[0] && Sorted(a[1..], le) && Sorted(b[1..], le) && multiset(a[1..]) == multiset(b[1..]) && TiesEqual(a[1..], le)
  {
    hide Sorted;
    SameElements(a, b);
    assert a[0] in a && b[0] in b;
    SameHead(a, b, le);
    SortedTail(a, le);
    SortedTail(b, le);
  }

  /** Two sorted arrangements of the same elements agree when ties are equal elements. */
  lemma {:induction false} SortedUnique<T(!new)>(a: seq<T>, b: seq<T>, le: (T, T) -> bool)
    requires Sorted(a, le) && Sorted(b, le) && multiset(a) == multiset(b) && TiesEqual(a, le)
    ensures a == b
  {
    hide Sorted, TiesEqual;
    SameElements(a, b);
    if a != [] {
      TailsMatch(a, b, le);
      SortedUnique(a[1..], b[1..], le);
      assert a == [a[0]] + a[1..] && b == [b[0]] + b[1..];
    }
  }

  /** Sorting forgets the arrangement it is given, when ties are equal elements. */
  lemma SortByPermutation<T(!new)>(a: seq<T>, b: seq<T>, le: (T, T) -> bool)
    requires IsOrder(le) && multiset(a) == multiset(b)
    requires forall x, y :: x in a && y in a && le(x, y) && le(y, x) ==> x == y
    ensures SortBy(a, le) == SortBy(b, le)
  {
    SortBySorts(a, le);
    SortBySorts(b, le);
    SameElements(a, SortBy(a, le));
    SortedUnique(SortBy(a, le), SortBy(b, le), le);
  }

  // ---------------------------------------------------------------- sorted listing of a set

  ghost predicate IsMin(m: string, s: set<string>) {
    m in s && forall y :: y in s ==> StrLe(m, y)
  }

  lemma MinOfTwo(x: string, z: string, s: set<string>) returns (m: string)
    requires IsMin(x, s)
    ensures IsMin(m, s + {z})
  {
    StrLeTotal(x, z);
    StrLeTotal(z, z);
    if StrLe(x, z) {
      m := x;
    } else {
      m := z;
      forall y | y in s ensures StrLe(z, y) { StrLeTransitive(z, x, y); }
    }
  }

  lemma MinExists(s: set<string>)
    requires s != {}
    ensures exists x :: IsMin(x, s)
  {
    var z :| z in s;
    var t := s - {z};
    if t == {} {
      StrLeTotal(z, z);
      forall y | y in s ensures y == z { assert y == z || y in t; }
      assert IsMin(z, s);
    } else {
      MinExists(t);
      var x :| IsMin(x, t);
      var m := MinOfTwo(x, z, t);
      assert t + {z} == s;
      assert IsMin(m, s);
    }
  }

  ghost function Min(s: set<string>): (m: string)
    requires s != {}
    ensures m in s && forall y :: y in s ==> StrLe(m, y)
  {
    MinExists(s);
    var x :| IsMin(x, s);
    x
  }

  /** The members of a set of names in ascending order, each once. */
  ghost function SortedSet(s: set<string>): (r: seq<string>)
    ensures forall x :: x in r <==> x in s
  {
    if s == {} then [] else
      var m := Min(s);
      [m] + SortedSet(s - {m})
  }

  ghost predicate Ascending(r: seq<string>) {
    forall i, j :: 0 <= i < j < |r| ==> StrLe(r[i], r[j]) && r[i] != r[j]
  }

  lemma {:induction false} SortedSetAscending(s: set<string>)
    ensures Ascending(SortedSet(s))
    decreases s
  {
    if s != {} {
      var m := Min(s);
      SortedSetAscending(s - {m});
      var t := SortedSet(s - {m});
      forall j | 0 <= j < |t| ensures StrLe(m, t[j]) && m != t[j] {
        assert t[j] in t;
      }
    }
  }

  lemma HasMember<T>(s: seq<T>)
    ensures s != [] ==> exists x :: x in s
  {
    if s != [] { assert s[0] in s; }
  }

  /** Ascending lists are determined by their members. */
  lemma {:induction false} AscendingUnique(a: seq<string>, b: seq<string>)
    requires Ascending(a) && Ascending(b)
    requires forall x :: x in a <==> x in b
    ensures a == b
  {
    if a == [] {
      HasMember(b);
    } else {
      assert a[0] in b;
      var i :| 0 <= i < |b| && b[i] == a[0];
      assert b[0] in a;
      var j :| 0 <= j < |a| && a[j] == b[0];
      if i != 0 && j != 0 {
        StrLeAntisymmetric(a[0], b[0]);
      }
      assert a[0] == b[0];
      forall x ensures x in a[1..] <==> x in b[1..] {
        assert x in a[1..] <==> x in a && x != a[0];
        assert x in b[1..] <==> x in b && x != b[0];
      }
      AscendingUnique(a[1..], b[1..]);
    }
  }

  lemma AscendingIsSortedSet(a: seq<string>)
    requires Ascending(a)
    ensures a == SortedSet(set x | x in a)
  {
    SortedSetAscending(set x | x in a);
    AscendingUnique(a, SortedSet(set x | x in a));
  }

  // ---------------------------------------------------------------- walking an unordered map

  ghost predicate NoDup<T>(s: seq<T>) {
    forall i, j :: 0 <= i < j < |s| ==> s[i] != s[j]
  }

  /** The keys of a map, in whatever order its iteration yields them. */
  method IterationOrder(keys: set<string>) returns (order: seq<string>)
    ensures NoDup(order)
    ensures forall k :: k in order <==> k in keys
  {
    order := [];
    var left := keys;
    while left != {}
      invariant left <= keys && NoDup(order)
      invariant forall k :: k in order <==> k in keys && k !in left
      decreases left
    {
      var k :| k in left;
      left := left - {k};
      order := order + [k];
    }
  }

  lemma {:induction false} NoDupCardinality<T>(s: seq<T>, all: set<T>)
    requires NoDup(s) && forall x :: x in s <==> x in all
    ensures |s| == |all|
  {
    if s == [] {
      assert all == {};
    } else {
      var front, x := s[..|s| - 1], s[|s| - 1];
      forall y ensures y in front <==> y in all - {x} {
        assert y in s <==> y in front || y == x;
      }
      NoDupCardinality(front, all - {x});
    }
  }

  // ---------------------------------------------------------------- filtering

  function Filter<T>(f: T -> bool, s: seq<T>): seq<T> {
    if s == [] then [] else
      Filter(f, s[..|s| - 1]) + (if f(s[|s| - 1]) then [s[|s| - 1]] else [])
  }

  lemma {:induction false} FilterMembers<T(!new)>(f: T -> bool, s: seq<T>)
    ensures forall x :: x in Filter(f, s) <==> x in s && f(x)
  {
    if s != [] {
      FilterMembers(f, s[..|s| - 1]);
      assert s == s[..|s| - 1] + [s[|s| - 1]];
    }
  }

  lemma {:induction false} FilterNoDup<T(!new)>(f: T -> bool, s: seq<T>)
    requires NoDup(s)
    ensures NoDup(Filter(f, s))
  {
    if s != [] {
      FilterNoDup(f, s[..|s| - 1]);
      FilterMembers(f, s[..|s| - 1]);
    }
  }

  lemma {:induction false} FilterCongruence<T>(f: T -> bool, g: T -> bool, s: seq<T>)
    requires forall x :: x in s ==> f(x) == g(x)
    ensures Filter(f, s) == Filter(g, s)
  {
    if s != [] { FilterCongruence(f, g, s[..|s| - 1]); }
  }

  lemma FilterSnoc<T>(f: T -> bool, s: seq<T>, i: nat)
    requires i < |s|
    ensures Filter(f, s[..i + 1]) == Filter(f, s[..i]) + if f(s[i]) then [s[i]] else []
  {
    assert s[..i + 1][..i] == s[..i];
  }

  lemma {:induction false} FilterConcat<T>(f: T -> bool, a: seq<T>, b: seq<T>)
    ensures Filter(f, a + b) == Filter(f, a) + Filter(f, b)
  {
    if b == [] {
      assert a + b == a;
    } else {
      var front, x := b[..|b| - 1], b[|b| - 1];
      FilterConcat(f, a, front);
      assert a + b == (a + front) + [x];
      assert (a + b)[..|a + b| - 1] == a + front;
    }
  }

  lemma FilterCons<T>(f: T -> bool, x: T, s: seq<T>)
    ensures Filter(f, [x] + s) == if f(x) then [x] + Filter(f, s) else Filter(f, s)
  {
    FilterConcat(f, [x], s);
    assert Filter(f, []) == [] && [x][..0] == [];
  }

  lemma InsertLeast<T>(x: T, s: seq<T>, le: (T, T) -> bool)
    requires forall y :: y in s ==> le(x, y)
    ensures Insert(x, s, le) == [x] + s
  {}

  lemma {:induction false} FilterInsert<T(!new)>(f: T -> bool, x: T, s: seq<T>, le: (T, T) -> bool)
    requires IsOrder(le) && Sorted(s, le)
    ensures Filter(f, Insert(x, s, le)) == if f(x) then Insert(x, Filter(f, s), le) else Filter(f, s)
  {
    if s == [] {
      FilterCons(f, x, s);
    } else if le(x, s[0]) {
      FilterCons(f, x, s);
      HeadLeast(x, s, le);
      FilterMembers(f, s);
      InsertLeast(x, Filter(f, s), le);
    } else {
      var y, rest := s[0], s[1..];
      assert s == [y] + rest;
      FilterInsert(f, x, rest, le);
      FilterCons(f, y, rest);
      FilterCons(f, y, Insert(x, rest, le));
      if f(y) && f(x) {
        assert ([y] + Filter(f, rest))[1..] == Filter(f, rest);
      }
    }
  }

  /** Sorting and filtering commute. */
  lemma {:induction false} FilterSort<T(!new)>(f: T -> bool, s: seq<T>, le: (T, T) -> bool)
    requires IsOrder(le)
    ensures Filter(f, SortBy(s, le)) == SortBy(Filter(f, s), le)
  {
    if s != [] {
      var x, rest := s[0], s[1..];
      assert s == [x] + rest;
      FilterSort(f, rest, le);
      SortBySorts(rest, le);
      FilterInsert(f, x, SortBy(rest, le), le);
      FilterCons(f, x, rest);
      if f(x) {
        assert ([x] + Filter(f, rest))[1..] == Filter(f, rest);
      } else {
        assert Filter(f, s) == Filter(f, rest);
      }
    }
  }

  lemma SortMembers<T(!new)>(s: seq<T>, le: (T, T) -> bool)
    requires IsOrder(le)
    ensures forall x :: x in SortBy(s, le) <==> x in s
    ensures |SortBy(s, le)| == |s|
  {
    SortBySorts(s, le);
    SameElements(SortBy(s, le), s);
  }

  // ---------------------------------------------------------------- sorting strings

  /** slices.Compact: drops an element equal to the one before it. */
  function Compact(s: seq<string>): seq<string> {
    if |s| < 2 then s
    else if s[|s| - 1] == s[|s| - 2] then Compact(s[..|s| - 1])
    else Compact(s[..|s| - 1]) + [s[|s| - 1]]
  }

  lemma {:induction false} CompactSorted(s: seq<string>)
    requires Sorted(s, StrLe)
    ensures Ascending(Compact(s)) && forall x :: x in Compact(s) <==> x in s
  {
    if |s| >= 2 {
      var front, x := s[..|s| - 1], s[|s| - 1];
      CompactSorted(front);
      assert s == front + [x];
      if x != front[|front| - 1] {
        forall y | y in Compact(front) ensures StrLe(y, x) && y != x {
          var i :| 0 <= i < |front| && front[i] == y;
          if y == x && i < |front| - 1 {
            assert StrLe(s[i], s[|s| - 2]) && StrLe(s[|s| - 2], s[|s| - 1]);
            StrLeAntisymmetric(x, s[|s| - 2]);
          }
        }
      }
    }
  }

  /** Sorting and compacting a list of names lists their set in ascending order. */
  lemma SortCompactIsSortedSet(s: seq<string>)
    ensures Compact(SortBy(s, StrLe)) == SortedSet(set x | x in s)
  {
    StrLeIsOrder();
    SortBySorts(s, StrLe);
    SortMembers(s, StrLe);
    var r := Compact(SortBy(s, StrLe));
    CompactSorted(SortBy(s, StrLe));
    AscendingIsSortedSet(r);
    assert (set x | x in r) == (set x | x in s);
  }

  lemma {:induction false} CompactNoDup(s: seq<string>)
    requires NoDup(s)
    ensures Compact(s) == s
  {
    if |s| >= 2 { CompactNoDup(s[..|s| - 1]); }
  }

  lemma RepeatCount<T>(s: seq<T>, i: nat, j: nat)
    requires i < j < |s|
    ensures s[i] == s[j] ==> multiset(s)[s[i]] >= 2
  {
    var a, b := s[..j], s[j..];
    assert s == a + b && a[i] == s[i] && b[0] == s[j];
    assert multiset(s) == multiset(a) + multiset(b);
    assert a[i] in multiset(a) && b[0] in multiset(b);
  }

  lemma PermutedNoDup<T>(a: seq<T>, b: seq<T>)
    requires multiset(a) == multiset(b) && NoDup(a)
    ensures NoDup(b)
  {
    forall x ensures multiset(a)[x] <= 1 { NoDupCount(a, x); }
    forall i, j | 0 <= i < j < |b| ensures b[i] != b[j] { RepeatCount(b, i, j); }
  }

  lemma {:induction false} NoDupCount<T>(s: seq<T>, x: T)
    requires NoDup(s)
    ensures multiset(s)[x] <= 1
  {
    if s != [] {
      var front, y := s[..|s| - 1], s[|s| - 1];
      NoDupCount(front, x);
      assert s == front + [y];
      assert y !in front;
    }
  }

  /** Sorting distinct names lists their set in ascending order. */
  lemma SortIsSortedSet(s: seq<string>)
    requires NoDup(s)
    ensures SortBy(s, StrLe) == SortedSet(set x | x in s)
  {
    StrLeIsOrder();
    SortBySorts(s, StrLe);
    PermutedNoDup(s, SortBy(s, StrLe));
    CompactNoDup(SortBy(s, StrLe));
    SortCompactIsSortedSet(s);
  }
}
