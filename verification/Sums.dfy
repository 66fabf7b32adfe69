/** Finite sums over sequences, the one notion behind every aggregate quantity
    of the model: demand, supply, allocations, considerations, ledger totals. */
module Sums {

  ghost function Sum<T>(s: seq<T>, f: T -> int): int
  {
    if s == [] then 0 else Sum(s[..|s|-1], f) + f(s[|s|-1])
  }

  lemma {:induction false} SumStep<T>(s: seq<T>, i: nat, f: T -> int)
    requires i < |s|
    ensures Sum(s[..i+1], f) == Sum(s[..i], f) + f(s[i])
  {
    assert s[..i+1][..i] == s[..i];
  }

  lemma {:induction false} SumAppend<T>(s: seq<T>, x: T, f: T -> int)
    ensures Sum(s + [x], f) == Sum(s, f) + f(x)
  {
    assert (s + [x])[..|s|] == s;
  }

  lemma {:induction false} SumOfTwo<T>(s: seq<T>, f: T -> int)
    requires |s| == 2
    ensures Sum(s, f) == f(s[0]) + f(s[1])
  {
    SumStep(s, 0, f);
    assert s[..0] == [];
    assert s[..1] == s[..|s|-1];
  }

  lemma {:induction false} SumOfThree<T>(s: seq<T>, f: T -> int)
    requires |s| == 3
    ensures Sum(s, f) == f(s[0]) + f(s[1]) + f(s[2])
  {
    SumOfTwo(s[..2], f);
    assert s == s[..2] + [s[2]];
    SumAppend(s[..2], s[2], f);
  }

  lemma {:induction false} SumAll<T>(s: seq<T>, f: T -> int)
    ensures Sum(s[..|s|], f) == Sum(s, f)
  {
    assert s[..|s|] == s;
  }

  lemma {:induction false} SumConcat<T>(a: seq<T>, b: seq<T>, f: T -> int)
    ensures Sum(a + b, f) == Sum(a, f) + Sum(b, f)
    decreases |b|
  {
    if b == [] {
      assert a + b == a;
    } else {
      SumConcat(a, b[..|b|-1], f);
      assert (a + b)[..|a + b|-1] == a + b[..|b|-1];
    }
  }

  lemma {:induction false} SumLe<T>(s: seq<T>, f: T -> int, g: T -> int)
    requires forall x :: x in s ==> f(x) <= g(x)
    ensures Sum(s, f) <= Sum(s, g)
  {
    if s != [] {
      var t := s[..|s|-1];
      assert forall x :: x in t ==> x in s;
      SumLe(t, f, g);
    }
  }

  lemma {:induction false} SumSame<T>(s: seq<T>, f: T -> int, g: T -> int)
    requires forall x :: x in s ==> f(x) == g(x)
    ensures Sum(s, f) == Sum(s, g)
  {
    SumLe(s, f, g);
    SumLe(s, g, f);
  }

  lemma {:induction false} SumNonNegative<T>(s: seq<T>, f: T -> int)
    requires forall x :: x in s ==> 0 <= f(x)
    ensures 0 <= Sum(s, f)
  {
    if s != [] {
      var t := s[..|s|-1];
      assert forall x :: x in t ==> x in s;
      SumNonNegative(t, f);
    }
  }

  lemma {:induction false} SumPrefixLe<T>(s: seq<T>, i: nat, f: T -> int)
    requires i <= |s|
    requires forall x :: x in s ==> 0 <= f(x)
    ensures 0 <= Sum(s[..i], f) <= Sum(s, f)
  {
    assert s[..i] + s[i..] == s;
    SumConcat(s[..i], s[i..], f);
    SumNonNegative(s[..i], f);
    SumNonNegative(s[i..], f);
  }

  lemma {:induction false} SumMember<T>(s: seq<T>, x: T, f: T -> int)
    requires forall y :: y in s ==> 0 <= f(y)
    requires x in s
    ensures f(x) <= Sum(s, f)
  {
    var i :| 0 <= i < |s| && s[i] == x;
    SumStep(s, i, f);
    SumPrefixLe(s, i, f);
    SumPrefixLe(s, i + 1, f);
  }

  lemma {:induction false} SumAdd<T>(s: seq<T>, f: T -> int, g: T -> int, h: T -> int)
    requires forall x :: x in s ==> h(x) == f(x) + g(x)
    ensures Sum(s, h) == Sum(s, f) + Sum(s, g)
  {
    if s != [] {
      var t := s[..|s|-1];
      assert forall x :: x in t ==> x in s;
      SumAdd(t, f, g, h);
    }
  }

  lemma {:induction false} SumScale<T>(s: seq<T>, f: T -> int, k: int, g: T -> int)
    requires forall x :: x in s ==> g(x) == k * f(x)
    ensures Sum(s, g) == k * Sum(s, f)
  {
    if s != [] {
      var t := s[..|s|-1];
      var last := s[|s|-1];
      assert forall x :: x in t ==> x in s;
      SumScale(t, f, k, g);
      assert k * (Sum(t, f) + f(last)) == k * Sum(t, f) + k * f(last);
    }
  }

  lemma {:induction false} RemoveAt<T>(s: seq<T>, i: nat)
    requires i < |s|
    ensures multiset(s[..i] + s[i+1..]) == multiset(s) - multiset{s[i]}
  {
    assert s == s[..i] + [s[i]] + s[i+1..];
  }

  lemma {:induction false} SumRemoveAt<T>(s: seq<T>, i: nat, f: T -> int)
    requires i < |s|
    ensures Sum(s, f) == Sum(s[..i] + s[i+1..], f) + f(s[i])
  {
    SumStep(s, i, f);
    SumConcat(s[..i+1], s[i+1..], f);
    SumConcat(s[..i], s[i+1..], f);
    assert s[..i+1] + s[i+1..] == s;
  }

  /** A sum depends on which elements occur and how often, not on their order. */
  lemma {:induction false} SumPermutation<T>(a: seq<T>, b: seq<T>, f: T -> int)
    requires multiset(a) == multiset(b)
    ensures Sum(a, f) == Sum(b, f)
    decreases |a|
  {
    assert |multiset(a)| == |a| && |multiset(b)| == |b|;
    if a != [] {
      var n := |a| - 1;
      assert a[n] in multiset(b);
      var i :| 0 <= i < |b| && b[i] == a[n];
      RemoveAt(a, n);
      RemoveAt(b, i);
      SumRemoveAt(b, i, f);
      assert a[..n] + a[n+1..] == a[..n];
      SumPermutation(a[..n], b[..i] + b[i+1..], f);
    }
  }

  ghost predicate Distinct<T>(s: seq<T>)
  {
    forall i, j :: 0 <= i < j < |s| ==> s[i] != s[j]
  }

  /** A subset of equal size is the whole set. */
  lemma {:induction false} Pigeonhole<T>(a: set<T>, b: set<T>)
    requires a <= b && |a| == |b|
    ensures a == b
  {
    assert |b - a| == |b| - |a|;
  }

  /** Changing the summand at one element of a duplicate-free sequence. */
  lemma {:induction false} SumChangeOne<T>(s: seq<T>, x: T, f: T -> int, g: T -> int)
    requires Distinct(s) && x in s
    requires forall y :: y in s && y != x ==> f(y) == g(y)
    ensures Sum(s, g) == Sum(s, f) - f(x) + g(x)
  {
    var t, last := s[..|s|-1], s[|s|-1];
    assert forall y :: y in t ==> y in s;
    if last == x {
      SumSame(t, f, g);
    } else {
      assert x in t;
      SumChangeOne(t, x, f, g);
    }
  }
}
