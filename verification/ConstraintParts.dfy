/** What one subrelation contributes to a proof: constraints whose witness
    indices start at a base, and the scalars assigned from that base on. */
module ConstraintParts {
  import opened Primitives
  import opened R1cs

  datatype Part = Part(constraints: seq<Constraint>, scalars: seq<u64>)

  const NOTHING := Part([], [])

  function Extend(p: Part, constraints: seq<Constraint>, scalars: seq<u64>): Part
  {
    Part(p.constraints + constraints, p.scalars + scalars)
  }

  /** The scalars sit in the witness at their allocated indices. */
  ghost predicate Window(wit: seq<u64>, base: nat, scalars: seq<u64>)
  {
    base + |scalars| <= |wit| && wit[base..base + |scalars|] == scalars
  }

  lemma {:induction false} WindowAt(wit: seq<u64>, base: nat, scalars: seq<u64>, i: nat)
    requires Window(wit, base, scalars) && i < |scalars|
    ensures wit[base + i] == scalars[i]
  {
    assert wit[base..base + |scalars|][i] == wit[base + i];
  }

  lemma {:induction false} WindowSplit(wit: seq<u64>, base: nat, a: seq<u64>, b: seq<u64>)
    requires Window(wit, base, a + b)
    ensures Window(wit, base, a) && Window(wit, base + |a|, b)
  {
    assert a == (a + b)[..|a|] && b == (a + b)[|a|..];
  }

  lemma {:induction false} WindowPlaced(pre: seq<u64>, scalars: seq<u64>, post: seq<u64>)
    ensures Window(pre + scalars + post, |pre|, scalars)
  {
  }

  lemma {:induction false} AllHoldJoin(a: seq<Constraint>, b: seq<Constraint>, pub: seq<u64>, wit: seq<u64>)
    ensures AllHold(a + b, pub, wit) <==> AllHold(a, pub, wit) && AllHold(b, pub, wit)
  {
    if AllHold(a + b, pub, wit) {
      forall k | k in a ensures Holds(k, pub, wit) { assert k in a + b; }
      forall k | k in b ensures Holds(k, pub, wit) { assert k in a + b; }
    }
  }

  lemma {:induction false} AllHoldPair(a: Constraint, b: Constraint, pub: seq<u64>, wit: seq<u64>)
    ensures AllHold([a, b], pub, wit) <==> Holds(a, pub, wit) && Holds(b, pub, wit)
  {
    if AllHold([a, b], pub, wit) { assert a in [a, b] && b in [a, b]; }
  }

  lemma {:induction false} OneHolds(k: Constraint, pub: seq<u64>, wit: seq<u64>)
    ensures AllHold([k], pub, wit) <==> Holds(k, pub, wit)
  {
    hide Holds;
    if AllHold([k], pub, wit) { assert k in [k]; }
  }

  lemma {:induction false} Associate<T>(a: seq<T>, b: seq<T>, c: seq<T>)
    ensures a + b + c == a + (b + c)
  {
  }

  lemma {:induction false} Appended2<T>(s: seq<T>, a: T, b: T)
    ensures s + [a] + [b] == s + [a, b]
  {
  }

  lemma {:induction false} Appended3<T>(s: seq<T>, a: T, b: T, c: T)
    ensures s + [a] + [b] + [c] == s + [a, b, c]
  {
  }

  lemma {:induction false} Appended5<T>(s: seq<T>, a: T, b: T, c: T, d: T, e: T)
    ensures s + [a] + [b] + [c] + [d] + [e] == s + [a, b, c, d, e]
  {
  }

  /** A witness value as the constraints read it: zero past the end. */
  function Cell(wit: seq<u64>, i: nat): u64
  {
    if i < |wit| then wit[i] else 0
  }

  lemma {:induction false} CellIsAssigned(wit: seq<u64>, i: nat, pub: seq<u64>)
    ensures Assigned(Witness(i), pub, wit) == Cell(wit, i)
  {
  }

  /** Conversion of a size or 64-bit value to a scalar. */
  function ToScalar(x: nat): scalar { Wrap(x) }

  lemma {:induction false} ToScalarExact(x: u64)
    ensures ToScalar(x) as int == x
  {
  }

  // ---- The three constraint shapes in use ----

  /** A variable equals a constant. */
  lemma {:induction false} VarIsConstant(v: Variable, c: u64, pub: seq<u64>, wit: seq<u64>)
    ensures Holds(Equality(FromVar(v), FromConstant(ToScalar(c))), pub, wit) <==> Assigned(v, pub, wit) == c
  {
    hide Holds, Value, Assigned, Equality, ToScalar;
    ToScalarExact(c);
    ValueOfTerm(v, 1, pub, wit);
    ValueOfTerm(One, ToScalar(c), pub, wit);
    OneIsOne(pub, wit);
    EqualityMeans(FromVar(v), FromConstant(ToScalar(c)), pub, wit);
  }

  /** Two variables are equal. */
  lemma {:induction false} VarsEqual(v: Variable, w: Variable, pub: seq<u64>, wit: seq<u64>)
    ensures Holds(Equality(FromVar(v), FromVar(w)), pub, wit) <==> Assigned(v, pub, wit) == Assigned(w, pub, wit)
  {
    hide Holds, Value, Assigned, Equality;
    ValueOfTerm(v, 1, pub, wit);
    ValueOfTerm(w, 1, pub, wit);
    EqualityMeans(FromVar(v), FromVar(w), pub, wit);
  }

  /** A difference of two variables is a third. */
  lemma {:induction false} DifferenceIs(v: Variable, w: Variable, d: Variable, pub: seq<u64>, wit: seq<u64>)
    ensures Holds(Equality(AddTerm(FromVar(v), w, -1), FromVar(d)), pub, wit)
       <==> Assigned(v, pub, wit) - Assigned(w, pub, wit) == Assigned(d, pub, wit)
  {
    hide Holds, Value, Assigned, Equality;
    ValueOfTerm(v, 1, pub, wit);
    ValueOfTerm(d, 1, pub, wit);
    ValueAddTerm(FromVar(v), w, -1, pub, wit);
    EqualityMeans(AddTerm(FromVar(v), w, -1), FromVar(d), pub, wit);
  }

  lemma {:induction false} ProductBelowModulus(x: u64, y: u64)
    ensures 0 <= x * y < MODULUS
  {
    MulLe(x, y, MAX64, MAX64);
  }

  /** A product of two variables is a third. */
  lemma {:induction false} ProductIs(v: Variable, w: Variable, d: Variable, pub: seq<u64>, wit: seq<u64>)
    ensures Holds(Constraint(FromVar(v), FromVar(w), FromVar(d)), pub, wit)
       <==> Assigned(v, pub, wit) * Assigned(w, pub, wit) == Assigned(d, pub, wit)
  {
    hide Holds, Value, Assigned, Congruent;
    var x: int, y: int, z: int := Assigned(v, pub, wit), Assigned(w, pub, wit), Assigned(d, pub, wit);
    ValueOfTerm(v, 1, pub, wit);
    ValueOfTerm(w, 1, pub, wit);
    ValueOfTerm(d, 1, pub, wit);
    HoldsMeans(Constraint(FromVar(v), FromVar(w), FromVar(d)), pub, wit);
    ProductBelowModulus(x, y);
    CongruentNear(x * y, z);
  }

  lemma {:induction false} CongruentThroughWrap(x: int, p: int)
    requires 0 <= x < MODULUS && 0 <= p < MODULUS
    ensures Congruent(x, Wrap(p)) <==> x == p
  {
    hide Congruent;
    WrapCongruent(p);
    CongruentNear(x, p);
    SelfCongruent(p);
    if Congruent(x, p) { CongruentChain(Wrap(p), p, p); CongruentChain(x, p, Wrap(p)); }
    if Congruent(x, Wrap(p)) { CongruentChain(x, Wrap(p), p); }
  }

  /** A product of two variables is a constant product of 64-bit values. */
  lemma {:induction false} ProductIsConstant(v: Variable, w: Variable, x: u64, y: u64, pub: seq<u64>, wit: seq<u64>)
    ensures Holds(Constraint(FromVar(v), FromVar(w), FromConstant(Wrap(x * y))), pub, wit)
       <==> Assigned(v, pub, wit) * Assigned(w, pub, wit) == x * y
  {
    hide Holds, Value, Assigned, Congruent, Wrap;
    var a: int, b: int := Assigned(v, pub, wit), Assigned(w, pub, wit);
    var p: int := x * y;
    ValueOfTerm(v, 1, pub, wit);
    ValueOfTerm(w, 1, pub, wit);
    ValueOfTerm(One, Wrap(p), pub, wit);
    OneIsOne(pub, wit);
    HoldsMeans(Constraint(FromVar(v), FromVar(w), FromConstant(Wrap(p))), pub, wit);
    ProductBelowModulus(a, b);
    ProductBelowModulus(x, y);
    CongruentThroughWrap(a * b, p);
  }

  lemma {:induction false} OneIsOne(pub: seq<u64>, wit: seq<u64>)
    ensures Assigned(One, pub, wit) == 1
  {
  }
}
