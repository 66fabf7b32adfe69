/** Order-validity constraints: boolean side, instrument, sequence position and
    the non-zero gadgets of price and quantity. */
module OrderValidity {
  import opened Primitives
  import opened Orders
  import opened R1cs
  import opened ConstraintParts

  // Witness layout of one order: id, account, instrument, side, price, qty,
  // sequence, price inverse, qty inverse.
  const WIDTH: nat := 9

  function SideGadget(side: Variable): Constraint
  {
    Constraint(FromVar(side), AddTerm(FromConstant(1), side, -1), [])
  }

  function NonZeroGadget(x: Variable, inverse: Variable): Constraint
  {
    Constraint(FromVar(x), FromVar(inverse), FromVar(x))
  }

  function OrderConstraints(base: nat, instrument: u64, idx: nat): seq<Constraint>
  {
    [SideGadget(Witness(base + 3)),
     Equality(FromVar(Witness(base + 2)), FromConstant(ToScalar(instrument))),
     Equality(FromVar(Witness(base + 6)), FromConstant(ToScalar(idx))),
     NonZeroGadget(Witness(base + 4), Witness(base + 7)),
     NonZeroGadget(Witness(base + 5), Witness(base + 8))]
  }

  function OrderScalars(o: Order): seq<u64>
  {
    [o.id, o.account, o.instrument, if o.side.Buy? then 0 else 1, o.price, o.qty, o.seqNo]
    + [if o.price != 0 then 1 else 0, if o.qty != 0 then 1 else 0]
  }

  ghost predicate Sequenced(orders: seq<Order>, instrument: u64)
  {
    forall i :: 0 <= i < |orders| ==> orders[i].instrument == instrument && orders[i].seqNo == i
  }

  lemma {:induction false} SequencedStep(orders: seq<Order>, instrument: u64)
    requires orders != []
    ensures var n := |orders| - 1;
            Sequenced(orders, instrument) <==>
              Sequenced(orders[..n], instrument) && orders[n].instrument == instrument && orders[n].seqNo == n
  {
  }

  ghost function OrderPart(base: nat, instrument: u64, orders: seq<Order>): Part
  {
    if orders == [] then NOTHING
    else
      var front := OrderPart(base, instrument, orders[..|orders|-1]);
      Extend(front, OrderConstraints(base + |front.scalars|, instrument, |orders| - 1), OrderScalars(orders[|orders|-1]))
  }

  /** Inverses of price and quantity, and their gadgets. */
  method SynthesizeInverses(cs: ConstraintSystem, priceVar: Variable, qtyVar: Variable, o: Order) returns (scalars: seq<u64>)
    modifies cs
    ensures cs.constraints == old(cs.constraints)
                            + [NonZeroGadget(priceVar, Witness(old(cs.numWitness)))] + [NonZeroGadget(qtyVar, Witness(old(cs.numWitness) + 1))]
    ensures scalars == [if o.price != 0 then 1 else 0, if o.qty != 0 then 1 else 0]
    ensures cs.numWitness == old(cs.numWitness) + 2 && cs.numPublic == old(cs.numPublic)
  {
    hide FromVar;
    var invPriceVar := cs.AllocWitness();
    var invQtyVar := cs.AllocWitness();
    scalars := [if o.price != 0 then 1 else 0, if o.qty != 0 then 1 else 0];
    cs.Enforce(FromVar(priceVar), FromVar(invPriceVar), FromVar(priceVar));
    cs.Enforce(FromVar(qtyVar), FromVar(invQtyVar), FromVar(qtyVar));
  }

  /** The variables under which one order entered the system. */
  datatype OrderVars = OrderVars(
    id: Variable, account: Variable, instrument: Variable, side: Variable, price: Variable, qty: Variable, seqNo: Variable)

  function VarsAt(base: nat): OrderVars
  {
    OrderVars(Witness(base), Witness(base + 1), Witness(base + 2), Witness(base + 3), Witness(base + 4), Witness(base + 5), Witness(base + 6))
  }

  method AllocateOrder(cs: ConstraintSystem) returns (vars: OrderVars)
    modifies cs
    ensures vars == VarsAt(old(cs.numWitness))
    ensures cs.numWitness == old(cs.numWitness) + 7 && cs.numPublic == old(cs.numPublic)
    ensures cs.constraints == old(cs.constraints)
  {
    var idVar := cs.AllocWitness();
    var accVar := cs.AllocWitness();
    var instVar := cs.AllocWitness();
    var sideVar := cs.AllocWitness();
    var priceVar := cs.AllocWitness();
    var qtyVar := cs.AllocWitness();
    var seqVar := cs.AllocWitness();
    vars := OrderVars(idVar, accVar, instVar, sideVar, priceVar, qtyVar, seqVar);
  }

  method SynthesizeOrder(cs: ConstraintSystem, instrument: u64, idx: nat, o: Order) returns (vars: OrderVars, scalars: seq<u64>)
    modifies cs
    ensures vars == VarsAt(old(cs.numWitness))
    ensures cs.constraints == old(cs.constraints) + OrderConstraints(old(cs.numWitness), instrument, idx)
    ensures scalars == OrderScalars(o) && |scalars| == WIDTH && cs.numWitness == old(cs.numWitness) + WIDTH
    ensures cs.numPublic == old(cs.numPublic)
  {
    hide Equality, AddTerm, FromVar, FromConstant, ToScalar, OrderConstraints, SideGadget, NonZeroGadget;
    ghost var before, base := cs.constraints, cs.numWitness;
    vars := AllocateOrder(cs);
    scalars := [o.id, o.account, o.instrument, if o.side.Buy? then 0 else 1, o.price, o.qty, o.seqNo];
    cs.Enforce(FromVar(vars.side), AddTerm(FromConstant(1), vars.side, -1), []);
    cs.EnforceEqual(FromVar(vars.instrument), FromConstant(ToScalar(instrument)));
    cs.EnforceEqual(FromVar(vars.seqNo), FromConstant(ToScalar(idx)));
    var inverses := SynthesizeInverses(cs, vars.price, vars.qty, o);
    scalars := scalars + inverses;
    OrderConstraintsAppended(before, base, instrument, idx);
  }

  lemma {:induction false} OrderConstraintsAppended(before: seq<Constraint>, base: nat, instrument: u64, idx: nat)
    ensures before
          + [Constraint(FromVar(Witness(base + 3)), AddTerm(FromConstant(1), Witness(base + 3), -1), [])]
          + [Equality(FromVar(Witness(base + 2)), FromConstant(ToScalar(instrument)))]
          + [Equality(FromVar(Witness(base + 6)), FromConstant(ToScalar(idx)))]
          + [NonZeroGadget(Witness(base + 4), Witness(base + 7))]
          + [NonZeroGadget(Witness(base + 5), Witness(base + 8))]
         == before + OrderConstraints(base, instrument, idx)
  {
    hide Equality, AddTerm, FromVar, FromConstant, ToScalar;
    var ks := OrderConstraints(base, instrument, idx);
    Appended5(before, ks[0], ks[1], ks[2], ks[3], ks[4]);
  }

  lemma {:induction false} NoOrders(base: nat, instrument: u64, orders: seq<Order>)
    ensures OrderPart(base, instrument, orders[..0]) == NOTHING
  {
  }

  lemma {:induction false} OrderPartStep(base: nat, instrument: u64, orders: seq<Order>, i: nat)
    requires i < |orders|
    ensures OrderPart(base, instrument, orders[..i+1])
         == Extend(OrderPart(base, instrument, orders[..i]),
                   OrderConstraints(base + |OrderPart(base, instrument, orders[..i]).scalars|, instrument, i),
                   OrderScalars(orders[i]))
  {
    hide OrderConstraints, OrderScalars;
    assert orders[..i+1][..i] == orders[..i];
  }

  method SynthesizeOrderValidity(cs: ConstraintSystem, instrument: u64, orders: seq<Order>)
    returns (vars: seq<OrderVars>, scalars: seq<u64>)
    modifies cs
    ensures |vars| == |orders| && forall i :: 0 <= i < |vars| ==> vars[i] == VarsAt(old(cs.numWitness) + WIDTH * i)
    ensures var p := OrderPart(old(cs.numWitness), instrument, orders);
            cs.constraints == old(cs.constraints) + p.constraints && scalars == p.scalars
    ensures cs.numWitness == old(cs.numWitness) + |scalars| && cs.numPublic == old(cs.numPublic)
  {
    hide OrderPart, OrderConstraints, OrderScalars, VarsAt;
    ghost var before, base := cs.constraints, cs.numWitness;
    ghost var p := NOTHING;
    NoOrders(base, instrument, orders);
    vars, scalars := [], [];
    for i := 0 to |orders|
      invariant p == OrderPart(base, instrument, orders[..i])
      invariant cs.constraints == before + p.constraints && scalars == p.scalars
      invariant cs.numWitness == base + |scalars| && |scalars| == WIDTH * i && cs.numPublic == old(cs.numPublic)
      invariant |vars| == i && forall k :: 0 <= k < i ==> vars[k] == VarsAt(base + WIDTH * k)
    {
      OrderPartStep(base, instrument, orders, i);
      Associate(before, p.constraints, OrderConstraints(base + |scalars|, instrument, i));
      var v, more := SynthesizeOrder(cs, instrument, i, orders[i]);
      p := Extend(p, OrderConstraints(base + |scalars|, instrument, i), more);
      scalars := scalars + more;
      vars := vars + [v];
    }
    assert orders[..|orders|] == orders;
  }

  // ---- Meaning ----

  lemma {:induction false} SideGadgetMeans(side: Variable, pub: seq<u64>, wit: seq<u64>)
    ensures Holds(SideGadget(side), pub, wit) <==> Assigned(side, pub, wit) <= 1
  {
    var x: int := Assigned(side, pub, wit);
    ValueOfTerm(side, 1, pub, wit);
    ValueOfTerm(One, 1, pub, wit);
    ValueAddTerm(FromConstant(1), side, -1, pub, wit);
    HoldsMeans(SideGadget(side), pub, wit);
    assert R1cs.Value([], pub, wit) == 0;
    BooleanProduct(x);
  }

  lemma {:induction false} BooleanProduct(x: u64)
    ensures Congruent(x * (1 - x), 0) <==> x <= 1
  {
    var y: int := x;
    if x > 1 {
      MulLe(y, y - 1, MAX64, MAX64);
      MulLe(1, 1, y, y - 1);
      assert y * (1 - y) == -(y * (y - 1));
      CongruentNear(y * (1 - y), 0);
    }
  }

  /** The gadget holds when the inverse is one, and also for every inverse when
      the value is zero: alone it does not exclude a zero price or quantity. */
  lemma {:induction false} NonZeroGadgetMeans(x: Variable, inverse: Variable, pub: seq<u64>, wit: seq<u64>)
    ensures Holds(NonZeroGadget(x, inverse), pub, wit)
       <==> Assigned(x, pub, wit) == 0 || Assigned(inverse, pub, wit) == 1
  {
    ProductIs(x, inverse, x, pub, wit);
    FixedPoint(Assigned(x, pub, wit), Assigned(inverse, pub, wit));
  }

  lemma {:induction false} FixedPoint(x: int, y: int)
    ensures x * y == x <==> x == 0 || y == 1
  {
    assert x * y - x == x * (y - 1);
  }

  /** What the constraints of one order say of any assignment. */
  ghost predicate OrderEquations(w: seq<u64>, instrument: u64, idx: nat)
    requires |w| == WIDTH
  {
    && w[3] <= 1 && w[2] == instrument && w[6] == idx
    && (w[4] == 0 || w[7] == 1) && (w[5] == 0 || w[8] == 1)
  }

  lemma {:induction false} OrderConstraintsMean(base: nat, instrument: u64, idx: u64, pub: seq<u64>, wit: seq<u64>)
    requires base + WIDTH <= |wit|
    ensures AllHold(OrderConstraints(base, instrument, idx), pub, wit)
       <==> OrderEquations(wit[base..base + WIDTH], instrument, idx)
  {
    hide Holds, AllHold, SideGadget, NonZeroGadget, Equality, ToScalar;
    SideGadgetMeans(Witness(base + 3), pub, wit);
    VarIsConstant(Witness(base + 2), instrument, pub, wit);
    VarIsConstant(Witness(base + 6), idx, pub, wit);
    NonZeroGadgetMeans(Witness(base + 4), Witness(base + 7), pub, wit);
    NonZeroGadgetMeans(Witness(base + 5), Witness(base + 8), pub, wit);
    FiveHold(OrderConstraints(base, instrument, idx), pub, wit);
  }

  ghost predicate OrderEquationsAt(wit: seq<u64>, base: nat, instrument: u64, k: nat)
    requires base + WIDTH * (k + 1) <= |wit|
  {
    OrderEquations(wit[base + WIDTH * k..base + WIDTH * (k + 1)], instrument, k)
  }

  ghost predicate EveryOrder(wit: seq<u64>, base: nat, instrument: u64, n: nat)
    requires base + WIDTH * n <= |wit|
  {
    n == 0 || (EveryOrder(wit, base, instrument, n - 1) && OrderEquationsAt(wit, base, instrument, n - 1))
  }

  /** For every assignment, the subrelation holds exactly when the cells of every
      order satisfy that order's equations. */
  lemma {:induction false} OrderPartMeans(base: nat, instrument: u64, orders: seq<Order>, pub: seq<u64>, wit: seq<u64>)
    requires |orders| <= MAX64 && base + WIDTH * |orders| <= |wit|
    ensures |OrderPart(base, instrument, orders).scalars| == WIDTH * |orders|
    ensures AllHold(OrderPart(base, instrument, orders).constraints, pub, wit) <==> EveryOrder(wit, base, instrument, |orders|)
  {
    hide AllHold, OrderConstraints, OrderEquations, OrderPart;
    if orders == [] {
      NoOrders(base, instrument, orders);
      assert orders[..0] == orders;
      NothingToHold(pub, wit);
    } else {
      var n := |orders| - 1;
      var front := OrderPart(base, instrument, orders[..n]);
      OrderPartMeans(base, instrument, orders[..n], pub, wit);
      OrderPartStep(base, instrument, orders, n);
      assert orders[..n+1] == orders;
      OrderConstraintsMean(base + WIDTH * n, instrument, n, pub, wit);
      AllHoldJoin(front.constraints, OrderConstraints(base + WIDTH * n, instrument, n), pub, wit);
    }
  }

  lemma {:induction false} NothingToHold(pub: seq<u64>, wit: seq<u64>)
    ensures AllHold([], pub, wit)
  {
  }

  lemma {:induction false} FiveHold(ks: seq<Constraint>, pub: seq<u64>, wit: seq<u64>)
    requires |ks| == 5
    ensures AllHold(ks, pub, wit) <==>
              Holds(ks[0], pub, wit) && Holds(ks[1], pub, wit) && Holds(ks[2], pub, wit) && Holds(ks[3], pub, wit) && Holds(ks[4], pub, wit)
  {
    hide Holds;
    if AllHold(ks, pub, wit) {
      assert ks[0] in ks && ks[1] in ks && ks[2] in ks && ks[3] in ks && ks[4] in ks;
    }
  }

  /** With the orders' own scalars in place, the subrelation is satisfied
      exactly when every order names the instrument and sits at its sequence
      number. */
  lemma {:induction false} OrderPartHonest(base: nat, instrument: u64, orders: seq<Order>, pub: seq<u64>, wit: seq<u64>)
    requires Window(wit, base, OrderPart(base, instrument, orders).scalars) && |orders| <= MAX64
    ensures AllHold(OrderPart(base, instrument, orders).constraints, pub, wit)
       <==> Sequenced(orders, instrument)
  {
    hide Window, OrderConstraints, OrderScalars;
    if orders != [] {
      var n := |orders| - 1;
      var front := OrderPart(base, instrument, orders[..n]);
      var at := base + |front.scalars|;
      var sc := OrderScalars(orders[n]);
      WindowSplit(wit, base, front.scalars, sc);
      OrderPartHonest(base, instrument, orders[..n], pub, wit);
      SequencedStep(orders, instrument);
      hide AllHold, OrderConstraints, Sequenced;
      AllHoldJoin(front.constraints, OrderConstraints(at, instrument, n), pub, wit);
      HonestOrder(at, instrument, n, orders[n], pub, wit);
    }
  }

  lemma {:induction false} HonestOrder(at: nat, instrument: u64, idx: u64, o: Order, pub: seq<u64>, wit: seq<u64>)
    requires Window(wit, at, OrderScalars(o))
    ensures AllHold(OrderConstraints(at, instrument, idx), pub, wit) <==> o.instrument == instrument && o.seqNo == idx
  {
    OrderConstraintsMean(at, instrument, idx, pub, wit);
    assert wit[at..at + WIDTH] == OrderScalars(o);
  }
}
