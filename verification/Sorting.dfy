/** Sorting by a strict weak order, and why the choice of algorithm is not
    observable when the order separates the elements. */
module Sorting {
  import opened Sums
  import opened Primitives

  ghost predicate StrictWeakOrder<T(!new)>(less: (T, T) -> bool)
  {
    && (forall a, b :: less(a, b) ==> !less(b, a))
    && (forall a, b, c :: !less(b, a) && !less(c, b) ==> !less(c, a))
  }

  ghost predicate SortedBy<T>(less: (T, T) -> bool, s: seq<T>)
  {
    forall i, j :: 0 <= i < j < |s| ==> !less(s[j], s[i])
  }

  ghost predicate SeparatedBy<T>(less: (T, T) -> bool, s: seq<T>)
  {
    forall i, j :: 0 <= i < |s| && 0 <= j < |s| && s[i] != s[j] ==> less(s[i], s[j]) || less(s[j], s[i])
  }

  function Insert<T>(less: (T, T) -> bool, x: T, s: seq<T>): (r: seq<T>)
    ensures multiset(r) == multiset(s) + multiset{x}
  {
    if s == [] then [x]
    else if less(x, s[0]) then [x] + s
    else
      assert s == [s[0]] + s[1..];
      [s[0]] + Insert(less, x, s[1..])
  }

  function SortBy<T>(less: (T, T) -> bool, s: seq<T>): (r: seq<T>)
    ensures multiset(r) == multiset(s)
    ensures |r| == |s|
  {
    if s == [] then []
    else
      assert s == s[..|s|-1] + [s[|s|-1]];
      var r := Insert(less, s[|s|-1], SortBy(less, s[..|s|-1]));
      assert |multiset(r)| == |multiset(s)|;
      r
  }

  lemma {:induction false} InMultiset<T>(a: seq<T>, b: seq<T>, x: T)
    requires multiset(a) == multiset(b)
    ensures x in a <==> x in b
  {
    assert x in a <==> x in multiset(a);
    assert x in b <==> x in multiset(b);
  }

  lemma {:induction false} InsertSorted<T(!new)>(less: (T, T) -> bool, x: T, s: seq<T>)
    requires StrictWeakOrder(less) && SortedBy(less, s)
    ensures SortedBy(less, Insert(less, x, s))
  {
    if s != [] {
      if less(x, s[0]) {
        var r := [x] + s;
        forall i, j | 0 <= i < j < |r| ensures !less(r[j], r[i]) {
          if i == 0 {
            assert !less(s[0], x);
            assert j == 1 || !less(s[j-1], s[0]);
          }
        }
      } else {
        InsertSorted(less, x, s[1..]);
        var t := Insert(less, x, s[1..]);
        var r := [s[0]] + t;
        forall i, j | 0 <= i < j < |r| ensures !less(r[j], r[i]) {
          if i == 0 {
            assert t[j-1] in multiset(t);
            assert t[j-1] == x || t[j-1] in s[1..];
          } else {
            assert r[i] == t[i-1] && r[j] == t[j-1];
          }
        }
      }
    }
  }

  lemma {:induction false} SortBySorted<T(!new)>(less: (T, T) -> bool, s: seq<T>)
    requires StrictWeakOrder(less)
    ensures SortedBy(less, SortBy(less, s))
  {
    if s != [] {
      SortBySorted(less, s[..|s|-1]);
      InsertSorted(less, s[|s|-1], SortBy(less, s[..|s|-1]));
    }
  }

  /** Two sorted arrangements of the same elements agree when the order
      separates them: every correct sorting algorithm returns the same vector. */
  lemma {:induction false} SortedUnique<T>(less: (T, T) -> bool, a: seq<T>, b: seq<T>)
    requires multiset(a) == multiset(b)
    requires SortedBy(less, a) && SortedBy(less, b) && SeparatedBy(less, a)
    ensures a == b
  {
    hide *;
    SameLength(a, b);
    if a != [] {
      SameHead(less, a, b);
      TailMultiset(a);
      TailMultiset(b);
      TailSorted(less, a);
      TailSorted(less, b);
      TailSeparated(less, a);
      SortedUnique(less, a[1..], b[1..]);
      SameParts(a, b);
    }
  }

  lemma {:induction false} SameParts<T>(a: seq<T>, b: seq<T>)
    requires a != [] && b != [] && a[0] == b[0] && a[1..] == b[1..]
    ensures a == b
  {
    assert a == [a[0]] + a[1..] && b == [b[0]] + b[1..];
  }

  lemma {:induction false} SameLength<T>(a: seq<T>, b: seq<T>)
    requires multiset(a) == multiset(b)
    ensures |a| == |b|
  {
    assert |multiset(a)| == |a| && |multiset(b)| == |b|;
  }

  lemma {:induction false} TailMultiset<T>(a: seq<T>)
    requires a != []
    ensures multiset(a[1..]) == multiset(a) - multiset{a[0]}
  {
    RemoveAt(a, 0);
    assert a[..0] + a[1..] == a[1..];
  }

  lemma {:induction false} TailSorted<T>(less: (T, T) -> bool, a: seq<T>)
    requires a != [] && SortedBy(less, a)
    ensures SortedBy(less, a[1..])
  {
  }

  lemma {:induction false} TailSeparated<T>(less: (T, T) -> bool, a: seq<T>)
    requires a != [] && SeparatedBy(less, a)
    ensures SeparatedBy(less, a[1..])
  {
  }

  lemma {:induction false} SameHead<T>(less: (T, T) -> bool, a: seq<T>, b: seq<T>)
    requires multiset(a) == multiset(b) && a != [] && b != []
    requires SortedBy(less, a) && SortedBy(less, b) && SeparatedBy(less, a)
    ensures a[0] == b[0]
  {
    InMultiset(a, b, a[0]);
    InMultiset(a, b, b[0]);
    var j :| 0 <= j < |b| && b[j] == a[0];
    var k :| 0 <= k < |a| && a[k] == b[0];
  }

  ghost predicate Increasing(s: seq<u64>)
  {
    forall i, j :: 0 <= i < j < |s| ==> s[i] < s[j]
  }

  lemma {:induction false} IncreasingUnique(a: seq<u64>, b: seq<u64>)
    requires Increasing(a) && Increasing(b)
    requires forall x :: x in a <==> x in b
    ensures a == b
  {
    assert forall i :: 0 <= i < |b| ==> b[i] in a;
    assert forall i :: 0 <= i < |a| ==> a[i] in b;
    if a != [] {
      assert a[0] == b[0];
      forall x ensures x in a[1..] <==> x in b[1..] {
        assert x in a[1..] <==> x in a && x != a[0];
        assert x in b[1..] <==> x in b && x != b[0];
      }
      IncreasingUnique(a[1..], b[1..]);
    }
  }

  /** The keys of an ordered map in iteration order. */
  ghost function Ascending(s: set<u64>): seq<u64>
  {
    if s == {} then [] else [Least(s)] + Ascending(s - {Least(s)})
  }

  lemma {:induction false} AscendingKeys(s: set<u64>)
    ensures Increasing(Ascending(s))
    ensures forall x :: x in Ascending(s) <==> x in s
    ensures |Ascending(s)| == |s|
  {
    hide Least;
    if s != {} {
      var rest := Ascending(s - {Least(s)});
      AscendingKeys(s - {Least(s)});
      forall i | 0 <= i < |rest| ensures Least(s) < rest[i] {
        assert rest[i] in rest;
      }
    }
  }

  predicate NumberLess(a: u64, b: u64) { a < b }

  /** Walks an ordered map's keys in iteration order. */
  method InOrder(s: set<u64>) returns (keys: seq<u64>)
    ensures keys == Ascending(s)
  {
    var all: seq<u64> := [];
    var rest := s;
    while rest != {}
      invariant rest <= s && Distinct(all)
      invariant forall x :: x in all <==> x in s && x !in rest
      decreases rest
    {
      var x :| x in rest;
      all := all + [x];
      rest := rest - {x};
    }
    keys := SortBy(NumberLess, all);
    SortBySorted(NumberLess, all);
    DistinctPermutes(all, keys);
    forall x ensures x in keys <==> x in s { InMultiset(keys, all, x); }
    AscendingKeys(s);
    IncreasingUnique(keys, Ascending(s));
  }

  lemma {:induction false} MultiplicityOne<T>(s: seq<T>, x: T)
    requires Distinct(s)
    ensures multiset(s)[x] <= 1
  {
    if x in s {
      var i :| 0 <= i < |s| && s[i] == x;
      var rest := s[..i] + s[i+1..];
      RemoveAt(s, i);
      assert x !in rest;
      assert x !in multiset(rest);
    }
  }

  lemma {:induction false} DistinctPermutes<T>(a: seq<T>, b: seq<T>)
    requires multiset(a) == multiset(b) && Distinct(a)
    ensures Distinct(b)
  {
    forall i, j | 0 <= i < j < |b| ensures b[i] != b[j] {
      MultiplicityOne(a, b[j]);
      assert b == b[..j] + b[j..];
      assert b[i] in b[..j] && b[j] in b[j..];
      assert b[i] in multiset(b[..j]) && b[j] in multiset(b[j..]);
    }
  }

  ghost function Least(s: set<u64>): (m: u64)
    requires s != {}
    ensures m in s
    ensures forall x :: x in s ==> m <= x
  {
    var y :| y in s;
    if s == {y} then y
    else
      var m := Least(s - {y});
      assert forall x :: x in s ==> x == y || x in s - {y};
      Min(y, m)
  }

  ghost function Greatest(s: set<u64>): (m: u64)
    requires s != {}
    ensures m in s
    ensures forall x :: x in s ==> x <= m
  {
    var y :| y in s;
    if s == {y} then y
    else
      var m := Greatest(s - {y});
      assert forall x :: x in s ==> x == y || x in s - {y};
      if y < m then m else y
  }
}
