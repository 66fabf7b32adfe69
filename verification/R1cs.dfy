/** Rank-one constraints over wrapping 128-bit signed scalars, and what
    satisfaction means over the unbounded integers. */
module R1cs {
  import opened Primitives
  import opened Sums

  const MODULUS: int := 0x1_0000_0000_0000_0000_0000_0000_0000_0000
  const HALF: int := 0x8000_0000_0000_0000_0000_0000_0000_0000

  type scalar = x: int | -HALF <= x < HALF

  /** Conversion of an unsigned 128-bit result back to the signed type. */
  function Wrap(x: int): scalar
  {
    (x + HALF) % MODULUS - HALF
  }

  function WrapAdd(a: scalar, b: scalar): scalar { Wrap(a + b) }
  function WrapMul(a: scalar, b: scalar): scalar { Wrap(a * b) }

  datatype Variable = One | Public(index: nat) | Witness(index: nat)

  datatype Term = Term(v: Variable, coeff: scalar)

  /** A linear combination is its list of terms. */
  type Linear = seq<Term>

  function FromVar(v: Variable): Linear { [Term(v, 1)] }

  function FromConstant(c: scalar): Linear { [Term(One, c)] }

  function AddTerm(lc: Linear, v: Variable, coeff: scalar): Linear
  {
    if coeff != 0 then lc + [Term(v, coeff)] else lc
  }

  function Assigned(v: Variable, pub: seq<u64>, wit: seq<u64>): u64
  {
    match v
    case One => 1
    case Public(i) => if i < |pub| then pub[i] else 0
    case Witness(i) => if i < |wit| then wit[i] else 0
  }

  datatype Constraint = Constraint(a: Linear, b: Linear, c: Linear)

  function Negated(coeff: int): scalar { Wrap(-coeff) }

  /** Subtracts `right` from `left` term by term. */
  function Minus(left: Linear, right: Linear): Linear
  {
    if right == [] then left
    else AddTerm(Minus(left, right[..|right|-1]), right[|right|-1].v, Negated(right[|right|-1].coeff))
  }

  function Equality(left: Linear, right: Linear): Constraint
  {
    Constraint(Minus(left, right), FromVar(One), [])
  }

  // ---- Evaluation ----

  ghost function Evaluated(lc: Linear, pub: seq<u64>, wit: seq<u64>): scalar
  {
    if lc == [] then 0
    else
      var t := lc[|lc|-1];
      WrapAdd(Evaluated(lc[..|lc|-1], pub, wit), WrapMul(t.coeff, Assigned(t.v, pub, wit)))
  }

  method Evaluate(lc: Linear, pub: seq<u64>, wit: seq<u64>) returns (sum: scalar)
    ensures sum == Evaluated(lc, pub, wit)
  {
    sum := 0;
    for i := 0 to |lc|
      invariant sum == Evaluated(lc[..i], pub, wit)
    {
      assert lc[..i+1][..i] == lc[..i];
      sum := WrapAdd(sum, WrapMul(lc[i].coeff, Assigned(lc[i].v, pub, wit)));
    }
    assert lc[..|lc|] == lc;
  }

  ghost predicate Holds(k: Constraint, pub: seq<u64>, wit: seq<u64>)
  {
    WrapMul(Evaluated(k.a, pub, wit), Evaluated(k.b, pub, wit)) == Evaluated(k.c, pub, wit)
  }

  ghost predicate AllHold(ks: seq<Constraint>, pub: seq<u64>, wit: seq<u64>)
  {
    forall k :: k in ks ==> Holds(k, pub, wit)
  }

  function Zeros(n: nat): seq<u64> { seq(n, _ => 0) }

  lemma {:induction false} EvaluatedPadded(lc: Linear, pub: seq<u64>, wit: seq<u64>, m: nat, n: nat)
    ensures Evaluated(lc, pub + Zeros(m), wit + Zeros(n)) == Evaluated(lc, pub, wit)
  {
    hide WrapAdd, WrapMul;
    if lc != [] {
      EvaluatedPadded(lc[..|lc|-1], pub, wit, m, n);
      var v := lc[|lc|-1].v;
      assert Assigned(v, pub + Zeros(m), wit + Zeros(n)) == Assigned(v, pub, wit);
    }
  }

  /** A variable without a scalar reads as zero: appending zeros to either vector
      changes no constraint. */
  lemma {:induction false} ZerosAreUnobservable(ks: seq<Constraint>, pub: seq<u64>, wit: seq<u64>, m: nat, n: nat)
    ensures AllHold(ks, pub + Zeros(m), wit + Zeros(n)) <==> AllHold(ks, pub, wit)
  {
    hide Evaluated, WrapMul;
    forall k | k in ks ensures Holds(k, pub + Zeros(m), wit + Zeros(n)) <==> Holds(k, pub, wit) {
      EvaluatedPadded(k.a, pub, wit, m, n);
      EvaluatedPadded(k.b, pub, wit, m, n);
      EvaluatedPadded(k.c, pub, wit, m, n);
    }
  }

  class ConstraintSystem {
    var numPublic: nat
    var numWitness: nat
    var constraints: seq<Constraint>

    constructor ()
      ensures numPublic == 0 && numWitness == 0 && constraints == []
    {
      numPublic, numWitness, constraints := 0, 0, [];
    }

    method AllocPublic() returns (v: Variable)
      modifies this
      ensures v == Public(old(numPublic)) && numPublic == old(numPublic) + 1
      ensures numWitness == old(numWitness) && constraints == old(constraints)
    {
      v := Public(numPublic);
      numPublic := numPublic + 1;
    }

    method AllocWitness() returns (v: Variable)
      modifies this
      ensures v == Witness(old(numWitness)) && numWitness == old(numWitness) + 1
      ensures numPublic == old(numPublic) && constraints == old(constraints)
    {
      v := Witness(numWitness);
      numWitness := numWitness + 1;
    }

    method Enforce(a: Linear, b: Linear, c: Linear)
      modifies this
      ensures constraints == old(constraints) + [Constraint(a, b, c)]
      ensures numPublic == old(numPublic) && numWitness == old(numWitness)
    {
      constraints := constraints + [Constraint(a, b, c)];
    }

    method EnforceEqual(left: Linear, right: Linear)
      modifies this
      ensures constraints == old(constraints) + [Equality(left, right)]
      ensures numPublic == old(numPublic) && numWitness == old(numWitness)
    {
      var lc := left;
      for i := 0 to |right|
        invariant lc == Minus(left, right[..i])
        invariant constraints == old(constraints) && numPublic == old(numPublic) && numWitness == old(numWitness)
      {
        assert right[..i+1][..i] == right[..i];
        lc := AddTerm(lc, right[i].v, Negated(right[i].coeff));
      }
      assert right[..|right|] == right;
      Enforce(lc, FromVar(One), []);
    }

    method IsSatisfied(pub: seq<u64>, wit: seq<u64>) returns (ok: bool)
      ensures ok == AllHold(constraints, pub, wit)
    {
      for i := 0 to |constraints|
        invariant AllHold(constraints[..i], pub, wit)
      {
        var k := constraints[i];
        var a := Evaluate(k.a, pub, wit);
        var b := Evaluate(k.b, pub, wit);
        var c := Evaluate(k.c, pub, wit);
        assert k in constraints;
        if WrapMul(a, b) != c { return false; }
        assert constraints[..i+1] == constraints[..i] + [k];
      }
      assert constraints[..|constraints|] == constraints;
      return true;
    }
  }

  // ---- Meaning over the integers ----

  /** Equal modulo 2^128. */
  ghost predicate Congruent(x: int, y: int)
  {
    (x - y) % MODULUS == 0
  }

  lemma {:induction false} CongruentBy(x: int, y: int, k: int)
    requires x == y + k * MODULUS
    ensures Congruent(x, y)
  {
  }

  lemma {:induction false} CongruentSplit(x: int, y: int) returns (k: int)
    requires Congruent(x, y)
    ensures x == y + k * MODULUS
  {
    k := (x - y) / MODULUS;
  }

  lemma {:induction false} CongruentChain(x: int, y: int, z: int)
    requires Congruent(x, y) && Congruent(y, z)
    ensures Congruent(x, z) && Congruent(y, x)
  {
    var j := CongruentSplit(x, y);
    var k := CongruentSplit(y, z);
    CongruentBy(x, z, j + k);
    CongruentBy(y, x, -j);
  }

  lemma {:induction false} WrapCongruent(x: int)
    ensures Congruent(Wrap(x), x)
  {
    var q := (x + HALF) / MODULUS;
    assert x + HALF == q * MODULUS + (x + HALF) % MODULUS;
    CongruentBy(Wrap(x), x, -q);
  }

  /** Congruent values closer than the modulus are equal. */
  lemma {:induction false} CongruentNear(x: int, y: int)
    requires -MODULUS < x - y < MODULUS
    ensures Congruent(x, y) <==> x == y
  {
  }

  lemma {:induction false} ScalarsCongruent(x: scalar, y: scalar)
    ensures Congruent(x, y) <==> x == y
  {
    CongruentNear(x, y);
  }

  lemma {:induction false} MulCongruent(a: int, b: int, x: int, y: int)
    requires Congruent(a, x) && Congruent(b, y)
    ensures Congruent(a * b, x * y)
  {
    var j := CongruentSplit(a, x);
    var k := CongruentSplit(b, y);
    var m := x * k + j * y + j * k * MODULUS;
    assert a * b == x * y + m * MODULUS by { Expand(x, y, j, k, MODULUS); }
    CongruentBy(a * b, x * y, m);
  }

  lemma {:induction false} Expand(x: int, y: int, j: int, k: int, m: int)
    ensures (x + j * m) * (y + k * m) == x * y + (x * k + j * y + j * k * m) * m
  {
    assert (x + j * m) * (y + k * m) == x * y + x * (k * m) + (j * m) * y + (j * m) * (k * m);
    assert x * (k * m) == (x * k) * m;
    assert (j * m) * y == (j * y) * m;
    assert (j * m) * (k * m) == (j * k * m) * m;
  }

  lemma {:induction false} AddCongruent(a: int, b: int, x: int, y: int)
    requires Congruent(a, x) && Congruent(b, y)
    ensures Congruent(a + b, x + y)
  {
    var j := CongruentSplit(a, x);
    var k := CongruentSplit(b, y);
    CongruentBy(a + b, x + y, j + k);
  }

  ghost function TermValue(pub: seq<u64>, wit: seq<u64>): Term -> int
  {
    (t: Term) => t.coeff * Assigned(t.v, pub, wit)
  }

  /** The unbounded value of a linear combination. */
  ghost function Value(lc: Linear, pub: seq<u64>, wit: seq<u64>): int
  {
    Sum(lc, TermValue(pub, wit))
  }

  lemma {:induction false} EvaluationCongruent(lc: Linear, pub: seq<u64>, wit: seq<u64>)
    ensures Congruent(Evaluated(lc, pub, wit), Value(lc, pub, wit))
  {
    if lc != [] {
      var front, t := lc[..|lc|-1], lc[|lc|-1];
      EvaluationCongruent(front, pub, wit);
      var x: u64 := Assigned(t.v, pub, wit);
      WrapCongruent(t.coeff * x);
      AddCongruent(Evaluated(front, pub, wit), WrapMul(t.coeff, x), Value(front, pub, wit), t.coeff * x);
      WrapCongruent(Evaluated(front, pub, wit) + WrapMul(t.coeff, x));
      CongruentChain(Evaluated(lc, pub, wit), Evaluated(front, pub, wit) + WrapMul(t.coeff, x), Value(lc, pub, wit));
    }
  }

  lemma {:induction false} ScalarsAgree(w: scalar, ab: int, xy: int, c: scalar, z: int)
    requires Congruent(w, ab) && Congruent(ab, xy) && Congruent(c, z)
    ensures w == c <==> Congruent(xy, z)
  {
    hide Congruent;
    CongruentChain(w, ab, xy);
    if Congruent(xy, z) {
      CongruentChain(w, xy, z);
      CongruentChain(c, z, xy) by { CongruentChain(xy, z, z) by { SelfCongruent(z); } }
      CongruentChain(w, z, c) by { SelfCongruent(z); CongruentChain(c, z, z); }
    }
    if w == c {
      CongruentChain(w, ab, xy);
      CongruentChain(ab, xy, xy) by { SelfCongruent(xy); }
      CongruentChain(xy, w, z) by { SelfCongruent(xy); CongruentChain(w, xy, xy); }
    }
    ScalarsCongruent(w, c);
  }

  lemma {:induction false} SelfCongruent(x: int)
    ensures Congruent(x, x)
  {
  }

  /** A constraint holds exactly when its product equation holds mod 2^128. */
  lemma {:induction false} HoldsMeans(k: Constraint, pub: seq<u64>, wit: seq<u64>)
    ensures Holds(k, pub, wit)
       <==> Congruent(Value(k.a, pub, wit) * Value(k.b, pub, wit), Value(k.c, pub, wit))
  {
    hide Congruent, Evaluated, Value, Wrap;
    var a, b, c := Evaluated(k.a, pub, wit), Evaluated(k.b, pub, wit), Evaluated(k.c, pub, wit);
    var x, y, z := Value(k.a, pub, wit), Value(k.b, pub, wit), Value(k.c, pub, wit);
    EvaluationCongruent(k.a, pub, wit);
    EvaluationCongruent(k.b, pub, wit);
    EvaluationCongruent(k.c, pub, wit);
    var ab: int := (a as int) * (b as int);
    MulCongruent(a, b, x, y);
    WrapCongruent(ab);
    ScalarsAgree(WrapMul(a, b), ab, x * y, c, z);
  }

  // ---- Values of the combinations that synthesis builds ----

  lemma {:induction false} ValueAppend(lc: Linear, t: Term, pub: seq<u64>, wit: seq<u64>)
    ensures Value(lc + [t], pub, wit) == Value(lc, pub, wit) + t.coeff * Assigned(t.v, pub, wit)
  {
    SumAppend(lc, t, TermValue(pub, wit));
  }

  lemma {:induction false} ValueOfTerm(v: Variable, c: scalar, pub: seq<u64>, wit: seq<u64>)
    ensures Value([Term(v, c)], pub, wit) == c * Assigned(v, pub, wit)
  {
    ValueAppend([], Term(v, c), pub, wit);
    assert [] + [Term(v, c)] == [Term(v, c)];
  }

  lemma {:induction false} ValueAddTerm(lc: Linear, v: Variable, c: scalar, pub: seq<u64>, wit: seq<u64>)
    ensures Value(AddTerm(lc, v, c), pub, wit) == Value(lc, pub, wit) + c * Assigned(v, pub, wit)
  {
    ValueAppend(lc, Term(v, c), pub, wit);
  }

  lemma {:induction false} ValueMinus(left: Linear, right: Linear, pub: seq<u64>, wit: seq<u64>)
    requires forall t :: t in right ==> t.coeff > -HALF
    ensures Value(Minus(left, right), pub, wit) == Value(left, pub, wit) - Value(right, pub, wit)
  {
    if right == [] {
      assert Value([], pub, wit) == 0;
    } else {
      var front, t := right[..|right|-1], right[|right|-1];
      assert t in right && forall s :: s in front ==> s in right;
      ValueMinus(left, front, pub, wit);
      assert right == front + [t];
      hide Value, Assigned;
      ValueAppend(front, t, pub, wit);
      ValueAddTerm(Minus(left, front), t.v, Negated(t.coeff), pub, wit);
      SmallNegation(t.coeff);
      NegateProduct(t.coeff, Assigned(t.v, pub, wit));
    }
  }

  lemma {:induction false} SmallNegation(c: int)
    requires -HALF < c < HALF
    ensures Negated(c) as int == -c
  {
  }

  lemma {:induction false} NegateProduct(c: int, x: int)
    ensures -c * x == -(c * x)
  {
  }

  /** An equality constraint holds exactly when the sides agree mod 2^128, and
      exactly when they agree if they are less than 2^128 apart. */
  lemma {:induction false} EqualityMeans(left: Linear, right: Linear, pub: seq<u64>, wit: seq<u64>)
    requires forall t :: t in right ==> t.coeff > -HALF
    ensures Holds(Equality(left, right), pub, wit)
       <==> Congruent(Value(left, pub, wit), Value(right, pub, wit))
    ensures -MODULUS < Value(left, pub, wit) - Value(right, pub, wit) < MODULUS ==>
              (Holds(Equality(left, right), pub, wit) <==> Value(left, pub, wit) == Value(right, pub, wit))
  {
    var x, y := Value(left, pub, wit), Value(right, pub, wit);
    HoldsMeans(Equality(left, right), pub, wit);
    ValueMinus(left, right, pub, wit);
    ValueOfTerm(One, 1, pub, wit);
    assert Value([], pub, wit) == 0;
    DifferenceVanishes(x, y);
    if -MODULUS < x - y < MODULUS { CongruentNear(x, y); }
  }

  lemma {:induction false} DifferenceVanishes(x: int, y: int)
    ensures Congruent((x - y) * 1, 0) <==> Congruent(x, y)
  {
  }
}
