/** Fill-bound constraints: remaining quantity, consideration product and limit
    slack of every fill. */
module FillConstraints {
  import opened Primitives
  import opened Orders
  import opened Settlement
  import opened SettlementProperties
  import opened R1cs
  import opened ConstraintParts
  import opened AllocationConstraints

  /** Money enters the witness as its low 64 bits. */
  function Narrow(x: u128): u64 { x % 0x1_0000_0000_0000_0000 }

  // Witness layout of one fill: fill quantity, order quantity, remaining,
  // consideration, limit, slack.

  function LimitConstraint(base: nat, cpVar: Variable, side: Side): Constraint
  {
    if side.Buy? then Equality(AddTerm(FromVar(Witness(base + 4)), cpVar, -1), FromVar(Witness(base + 5)))
    else Equality(AddTerm(FromVar(cpVar), Witness(base + 4), -1), FromVar(Witness(base + 5)))
  }

  function FillGadget(base: nat, cpVar: Variable, o: Order): seq<Constraint>
  {
    [Equality(AddTerm(FromVar(Witness(base + 1)), Witness(base), -1), FromVar(Witness(base + 2))),
     Constraint(FromVar(cpVar), FromVar(Witness(base)), FromVar(Witness(base + 3))),
     LimitConstraint(base, cpVar, o.side)]
  }

  function FillScalars(o: Order, f: Fill, cp: u64): seq<u64>
  {
    [f.qty, o.qty, SaturatingSubQty(o.qty, f.qty), Narrow(f.consideration)]
    + [o.price, if o.side.Buy? then SaturatingSubQty(o.price, cp) else SaturatingSubQty(cp, o.price)]
  }

  /** What synthesis refuses outright. */
  predicate FillAllowed(o: Order, f: Fill, cp: u64)
  {
    && f.qty <= o.qty
    && (f.qty > 0 ==> if o.side.Buy? then cp <= o.price else o.price <= cp)
  }

  ghost function FillsPart(base: nat, cpVar: Variable, cp: u64, orders: seq<Order>, fills: seq<Fill>): Part
    requires |orders| == |fills|
  {
    if fills == [] then NOTHING
    else
      var n := |fills| - 1;
      var front := FillsPart(base, cpVar, cp, orders[..n], fills[..n]);
      Extend(front, FillGadget(base + |front.scalars|, cpVar, orders[n]), FillScalars(orders[n], fills[n], cp))
  }

  ghost function FillBoundsPart(base: nat, cp: u64, orders: seq<Order>, fills: seq<Fill>): Part
    requires |orders| == |fills|
  {
    var p := FillsPart(base + 1, Witness(base), cp, orders, fills);
    Part(p.constraints, [cp] + p.scalars)
  }

  /** The order each fill executes, if it exists and allows the fill. */
  ghost function Executed(orders: seq<Order>, fills: seq<Fill>, cp: u64): (r: Result<seq<Order>>)
    ensures r.Ok? ==> |r.value| == |fills|
  {
    if fills == [] then Ok([])
    else
      var n := |fills| - 1;
      var front :- Executed(orders, fills[..n], cp);
      var o := FindOrder(orders, fills[n].orderId);
      if o.None? || !FillAllowed(o.value, fills[n], cp) then Err else Ok(front + [o.value])
  }

  lemma {:induction false} ExecutedStep(orders: seq<Order>, fills: seq<Fill>, cp: u64, i: nat)
    requires i < |fills|
    ensures Executed(orders, fills[..i+1], cp) ==
            match (Executed(orders, fills[..i], cp), FindOrder(orders, fills[i].orderId))
            case (Ok(front), Some(o)) => if FillAllowed(o, fills[i], cp) then Ok(front + [o]) else Err
            case _ => Err
  {
    assert fills[..i+1][..i] == fills[..i];
  }

  lemma {:induction false} ExecutedPrefix(orders: seq<Order>, fills: seq<Fill>, cp: u64, i: nat)
    requires i <= |fills| && Executed(orders, fills[..i], cp).Err?
    ensures Executed(orders, fills, cp).Err?
  {
    if i < |fills| {
      ExecutedStep(orders, fills, cp, |fills| - 1);
      assert fills[..|fills|] == fills;
      assert fills[..|fills|-1][..i] == fills[..i];
      ExecutedPrefix(orders, fills[..|fills|-1], cp, i);
    } else {
      assert fills[..i] == fills;
    }
  }

  /** Some order carries the fill's id and allows its size and its price. */
  ghost predicate Backed(orders: seq<Order>, f: Fill, cp: u64)
  {
    exists o :: o in orders && o.id == f.orderId && f.qty <= o.qty
             && (f.qty > 0 ==> if o.side.Buy? then cp <= o.price else cp >= o.price)
  }

  /** With unique ids, synthesis of the fill bounds refuses exactly a fill
      without an order, beyond its size, or beyond its limit. */
  lemma {:induction false} ExecutedMeans(orders: seq<Order>, fills: seq<Fill>, cp: u64)
    requires UniqueIds(orders)
    ensures Executed(orders, fills, cp).Ok? <==> forall f :: f in fills ==> Backed(orders, f, cp)
  {
    hide Backed, FillAllowed, UniqueIds, FindOrder;
    if fills != [] {
      var front, last := fills[..|fills|-1], fills[|fills|-1];
      assert fills == front + [last];
      ExecutedMeans(orders, front, cp);
      BackedMeans(orders, last, cp);
    }
  }

  lemma {:induction false} BackedMeans(orders: seq<Order>, f: Fill, cp: u64)
    requires UniqueIds(orders)
    ensures Backed(orders, f, cp)
       <==> FindOrder(orders, f.orderId).Some? && FillAllowed(FindOrder(orders, f.orderId).value, f, cp)
  {
    hide UniqueIds, FindOrder;
    FoundIsMember(orders, f.orderId);
    forall o | o in orders && o.id == f.orderId ensures FindOrder(orders, f.orderId) == Some(o) {
      FindOrderMeans(orders, f.orderId, o);
    }
  }

  lemma {:induction false} FillsPartStep(base: nat, cpVar: Variable, cp: u64, orders: seq<Order>, o: Order, fills: seq<Fill>, i: nat)
    requires i < |fills| && |orders| == i
    ensures FillsPart(base, cpVar, cp, orders + [o], fills[..i+1])
         == Extend(FillsPart(base, cpVar, cp, orders, fills[..i]),
                   FillGadget(base + |FillsPart(base, cpVar, cp, orders, fills[..i]).scalars|, cpVar, o),
                   FillScalars(o, fills[i], cp))
  {
    hide FillGadget, FillScalars;
    assert fills[..i+1][..i] == fills[..i] && (orders + [o])[..i] == orders;
  }

  lemma {:induction false} NoFills(base: nat, cpVar: Variable, cp: u64, orders: seq<Order>, fills: seq<Fill>)
    ensures Executed(orders, fills[..0], cp) == Ok([])
    ensures FillsPart(base, cpVar, cp, [], fills[..0]) == NOTHING
  {
  }

  method SynthesizeFill(cs: ConstraintSystem, cpVar: Variable, cp: u64, o: Order, f: Fill) returns (r: Result<seq<u64>>)
    modifies cs
    ensures r == if FillAllowed(o, f, cp) then Ok(FillScalars(o, f, cp)) else Err
    ensures r.Ok? ==> cs.constraints == old(cs.constraints) + FillGadget(old(cs.numWitness), cpVar, o)
    ensures r.Ok? ==> cs.numWitness == old(cs.numWitness) + 6
    ensures cs.numPublic == old(cs.numPublic)
  {
    hide Equality, AddTerm, FromVar, Narrow;
    if f.qty > o.qty { return Err; }
    ghost var base := cs.numWitness;
    ghost var k0 := Equality(AddTerm(FromVar(Witness(base + 1)), Witness(base), -1), FromVar(Witness(base + 2)));
    ghost var k1 := Constraint(FromVar(cpVar), FromVar(Witness(base)), FromVar(Witness(base + 3)));
    ghost var k2 := LimitConstraint(base, cpVar, o.side);
    Appended3(cs.constraints, k0, k1, k2);
    var fillVar := cs.AllocWitness();
    var qtyVar := cs.AllocWitness();
    var remVar := cs.AllocWitness();
    var considerationVar := cs.AllocWitness();
    var scalars := [f.qty, o.qty, o.qty - f.qty, Narrow(f.consideration)];
    cs.EnforceEqual(AddTerm(FromVar(qtyVar), fillVar, -1), FromVar(remVar));
    cs.Enforce(FromVar(cpVar), FromVar(fillVar), FromVar(considerationVar));
    var limitVar := cs.AllocWitness();
    var slackVar := cs.AllocWitness();
    if o.side.Buy? {
      if cp > o.price && f.qty > 0 { return Err; }
      cs.EnforceEqual(AddTerm(FromVar(limitVar), cpVar, -1), FromVar(slackVar));
      return Ok(scalars + [o.price, if o.price > cp then o.price - cp else 0]);
    } else {
      if cp < o.price && f.qty > 0 { return Err; }
      cs.EnforceEqual(AddTerm(FromVar(cpVar), limitVar, -1), FromVar(slackVar));
      return Ok(scalars + [o.price, if cp > o.price then cp - o.price else 0]);
    }
  }

  method SynthesizeFillBounds(cs: ConstraintSystem, cp: u64, orders: seq<Order>, fills: seq<Fill>) returns (r: Result<seq<u64>>)
    modifies cs
    ensures r.Ok? <==> Executed(orders, fills, cp).Ok?
    ensures r.Ok? ==> var p := FillBoundsPart(old(cs.numWitness), cp, Executed(orders, fills, cp).value, fills);
                      cs.constraints == old(cs.constraints) + p.constraints && r.value == p.scalars
    ensures r.Ok? ==> cs.numWitness == old(cs.numWitness) + |r.value|
    ensures cs.numPublic == old(cs.numPublic)
  {
    hide Executed, FillsPart, FillGadget, FillScalars, FindOrder;
    ghost var before, base := cs.constraints, cs.numWitness + 1;
    var cpVar := cs.AllocWitness();
    ghost var p := NOTHING;
    ghost var executed: seq<Order> := [];
    var scalars: seq<u64> := [];
    NoFills(base, cpVar, cp, orders, fills);
    for i := 0 to |fills|
      invariant Executed(orders, fills[..i], cp) == Ok(executed) && |executed| == i
      invariant p == FillsPart(base, cpVar, cp, executed, fills[..i])
      invariant cs.constraints == before + p.constraints && scalars == p.scalars
      invariant cs.numWitness == base + |scalars| && cs.numPublic == old(cs.numPublic)
    {
      ExecutedStep(orders, fills, cp, i);
      var o := FindOrder(orders, fills[i].orderId);
      if o.None? {
        ExecutedPrefix(orders, fills, cp, i + 1);
        return Err;
      }
      FillsPartStep(base, cpVar, cp, executed, o.value, fills, i);
      Associate(before, p.constraints, FillGadget(base + |scalars|, cpVar, o.value));
      var more := SynthesizeFill(cs, cpVar, cp, o.value, fills[i]);
      if more.Err? {
        ExecutedPrefix(orders, fills, cp, i + 1);
        return Err;
      }
      p := Extend(p, FillGadget(base + |scalars|, cpVar, o.value), more.value);
      assert |more.value| == 6 by { SixScalars(o.value, fills[i], cp); }
      scalars := scalars + more.value;
      executed := executed + [o.value];
    }
    assert fills[..|fills|] == fills;
    return Ok([cp] + scalars);
  }

  lemma {:induction false} SixScalars(o: Order, f: Fill, cp: u64)
    ensures |FillScalars(o, f, cp)| == 6
  {
  }

  // ---- Meaning ----

  lemma {:induction false} ThreeHold(ks: seq<Constraint>, pub: seq<u64>, wit: seq<u64>)
    requires |ks| == 3
    ensures AllHold(ks, pub, wit) <==> Holds(ks[0], pub, wit) && Holds(ks[1], pub, wit) && Holds(ks[2], pub, wit)
  {
    hide Holds;
    if AllHold(ks, pub, wit) { assert ks[0] in ks && ks[1] in ks && ks[2] in ks; }
  }

  lemma {:induction false} LimitHolds(at: nat, cpVar: Variable, side: Side, pub: seq<u64>, wit: seq<u64>)
    ensures Holds(LimitConstraint(at, cpVar, side), pub, wit) <==>
              if side.Buy? then Assigned(Witness(at + 4), pub, wit) - Assigned(cpVar, pub, wit) == Assigned(Witness(at + 5), pub, wit)
              else Assigned(cpVar, pub, wit) - Assigned(Witness(at + 4), pub, wit) == Assigned(Witness(at + 5), pub, wit)
  {
    hide Holds, Assigned, Equality;
    DifferenceIs(Witness(at + 4), cpVar, Witness(at + 5), pub, wit);
    DifferenceIs(cpVar, Witness(at + 4), Witness(at + 5), pub, wit);
  }

  lemma {:induction false} FillWindow(at: nat, o: Order, f: Fill, cp: u64, wit: seq<u64>)
    requires Window(wit, at, FillScalars(o, f, cp))
    ensures at + 6 <= |wit|
    ensures wit[at] == f.qty && wit[at + 1] == o.qty && wit[at + 2] == SaturatingSubQty(o.qty, f.qty)
    ensures wit[at + 3] == Narrow(f.consideration) && wit[at + 4] == o.price
    ensures wit[at + 5] == if o.side.Buy? then SaturatingSubQty(o.price, cp) else SaturatingSubQty(cp, o.price)
  {
    hide Narrow;
    var sc := FillScalars(o, f, cp);
    WindowAt(wit, at, sc, 0);
    WindowAt(wit, at, sc, 1);
    WindowAt(wit, at, sc, 2);
    WindowAt(wit, at, sc, 3);
    WindowAt(wit, at, sc, 4);
    WindowAt(wit, at, sc, 5);
  }

  /** One fill's constraints hold exactly when it fits its order, its narrowed
      consideration is price times quantity, and the limit is respected. */
  lemma {:induction false} HonestFill(at: nat, cpVar: Variable, o: Order, f: Fill, cp: u64, pub: seq<u64>, wit: seq<u64>)
    requires Window(wit, at, FillScalars(o, f, cp)) && Assigned(cpVar, pub, wit) == cp
    ensures AllHold(FillGadget(at, cpVar, o), pub, wit) <==>
              && f.qty <= o.qty && cp * f.qty == Narrow(f.consideration)
              && (if o.side.Buy? then cp <= o.price else o.price <= cp)
  {
    hide Holds, Equality, LimitConstraint, Narrow, Window, FillScalars;
    FillWindow(at, o, f, cp, wit);
    DifferenceIs(Witness(at + 1), Witness(at), Witness(at + 2), pub, wit);
    ProductIs(cpVar, Witness(at), Witness(at + 3), pub, wit);
    LimitHolds(at, cpVar, o.side, pub, wit);
    ThreeHold(FillGadget(at, cpVar, o), pub, wit);
  }

  /** Each fill executes its order within terms, at price times quantity. */
  ghost predicate AllWithinTerms(orders: seq<Order>, fills: seq<Fill>, cp: u64)
  {
    && |orders| == |fills|
    && forall i :: 0 <= i < |fills| ==> WithinTerms(orders[i], fills[i], cp)
  }

  ghost predicate WithinTerms(o: Order, f: Fill, cp: u64)
  {
    FillMatches(f, o, cp) && f.consideration == cp * f.qty
  }

  /** Every consideration fits a 64-bit scalar. */
  ghost predicate NarrowFills(fills: seq<Fill>)
  {
    forall f :: f in fills ==> f.consideration <= MAX64
  }

  lemma {:induction false} NarrowFillsStep(fills: seq<Fill>)
    requires fills != []
    ensures NarrowFills(fills) <==> NarrowFills(fills[..|fills|-1]) && fills[|fills|-1].consideration <= MAX64
  {
    assert fills == fills[..|fills|-1] + [fills[|fills|-1]];
  }

  lemma {:induction false} NarrowIsExact(x: u128)
    ensures x == Narrow(x) <==> x <= MAX64
  {
  }

  lemma {:induction false} FillsPartHonest(
      base: nat, cpVar: Variable, cp: u64, orders: seq<Order>, fills: seq<Fill>, pub: seq<u64>, wit: seq<u64>)
    requires AllWithinTerms(orders, fills, cp) && Assigned(cpVar, pub, wit) == cp
    requires Window(wit, base, FillsPart(base, cpVar, cp, orders, fills).scalars)
    ensures AllHold(FillsPart(base, cpVar, cp, orders, fills).constraints, pub, wit) <==> NarrowFills(fills)
  {
    hide Holds, FillGadget, FillScalars, Assigned, Window, Narrow, NarrowFills;
    if fills == [] {
      assert NarrowFills([]) by { NoNarrowFills(); }
    } else {
      var n := |fills| - 1;
      var front := FillsPart(base, cpVar, cp, orders[..n], fills[..n]);
      var at := base + |front.scalars|;
      assert WithinTerms(orders[n], fills[n], cp);
      assert AllWithinTerms(orders[..n], fills[..n], cp);
      WindowSplit(wit, base, front.scalars, FillScalars(orders[n], fills[n], cp));
      FillsPartHonest(base, cpVar, cp, orders[..n], fills[..n], pub, wit);
      HonestFill(at, cpVar, orders[n], fills[n], cp, pub, wit);
      NarrowIsExact(fills[n].consideration);
      NarrowFillsStep(fills);
      AllHoldJoin(front.constraints, FillGadget(at, cpVar, orders[n]), pub, wit);
    }
  }

  lemma {:induction false} NoNarrowFills()
    ensures NarrowFills([])
  {
  }

  /** Fills within their orders' terms satisfy the subrelation exactly when
      every consideration fits a 64-bit scalar. */
  lemma {:induction false} FillBoundsPartHonest(base: nat, cp: u64, orders: seq<Order>, fills: seq<Fill>, pub: seq<u64>, wit: seq<u64>)
    requires AllWithinTerms(orders, fills, cp)
    requires Window(wit, base, FillBoundsPart(base, cp, orders, fills).scalars)
    ensures AllHold(FillBoundsPart(base, cp, orders, fills).constraints, pub, wit) <==> NarrowFills(fills)
  {
    hide Holds, FillsPart, WithinTerms, NarrowFills;
    var p := FillsPart(base + 1, Witness(base), cp, orders, fills);
    WindowSplit(wit, base, [cp], p.scalars);
    WindowAt(wit, base, [cp], 0);
    FillsPartHonest(base + 1, Witness(base), cp, orders, fills, pub, wit);
  }

  /** Fills that match batch orders all execute, against those orders. */
  lemma {:induction false} MatchingFillsExecute(orders: seq<Order>, fills: seq<Fill>, cp: u64, instrument: u64, i: nat)
    requires UniqueIds(orders) && FillsMatch(fills, orders, cp) && i <= |fills|
    requires forall f :: f in fills ==> PricedAt(f, instrument, cp)
    ensures Executed(orders, fills[..i], cp).Ok?
    ensures AllWithinTerms(Executed(orders, fills[..i], cp).value, fills[..i], cp)
  {
    hide FillMatches, PricedAt, FindOrder;
    if i > 0 {
      MatchingFillsExecute(orders, fills, cp, instrument, i - 1);
      ExecutedStep(orders, fills, cp, i - 1);
      var f := fills[i-1];
      assert f in fills;
      var o :| o in orders && FillMatches(f, o, cp);
      MatchingFillExecutes(orders, f, o, cp, instrument);
      assert fills[..i] == fills[..i-1] + [f];
    }
  }

  lemma {:induction false} MatchingFillExecutes(orders: seq<Order>, f: Fill, o: Order, cp: u64, instrument: u64)
    requires UniqueIds(orders) && o in orders && FillMatches(f, o, cp) && PricedAt(f, instrument, cp)
    ensures FindOrder(orders, f.orderId) == Some(o) && FillAllowed(o, f, cp) && WithinTerms(o, f, cp)
  {
    var k :| 0 <= k < |orders| && orders[k] == o;
    FindOrderAt(orders, k);
  }

  // ---- Meaning for every assignment ----

  /** Remaining quantity, consideration and limit slack of one fill. */
  predicate FillEquations(wit: seq<u64>, at: nat, cp: u64, side: Side)
  {
    && Cell(wit, at + 1) - Cell(wit, at) == Cell(wit, at + 2)
    && cp * Cell(wit, at) == Cell(wit, at + 3)
    && (if side.Buy? then Cell(wit, at + 4) - cp == Cell(wit, at + 5) else cp - Cell(wit, at + 4) == Cell(wit, at + 5))
  }

  lemma {:induction false} FillGadgetMeans(at: nat, cpVar: Variable, o: Order, pub: seq<u64>, wit: seq<u64>)
    ensures AllHold(FillGadget(at, cpVar, o), pub, wit) <==> FillEquations(wit, at, Assigned(cpVar, pub, wit), o.side)
  {
    hide Holds, Equality, LimitConstraint, Cell, Assigned;
    CellIsAssigned(wit, at, pub);
    CellIsAssigned(wit, at + 1, pub);
    CellIsAssigned(wit, at + 2, pub);
    CellIsAssigned(wit, at + 3, pub);
    CellIsAssigned(wit, at + 4, pub);
    CellIsAssigned(wit, at + 5, pub);
    DifferenceIs(Witness(at + 1), Witness(at), Witness(at + 2), pub, wit);
    ProductIs(cpVar, Witness(at), Witness(at + 3), pub, wit);
    LimitHolds(at, cpVar, o.side, pub, wit);
    ThreeHold(FillGadget(at, cpVar, o), pub, wit);
  }

  ghost predicate EveryFill(wit: seq<u64>, base: nat, cp: u64, orders: seq<Order>)
  {
    forall k :: 0 <= k < |orders| ==> FillEquations(wit, base + 6 * k, cp, orders[k].side)
  }

  lemma {:induction false} EveryFillStep(wit: seq<u64>, base: nat, cp: u64, orders: seq<Order>)
    requires orders != []
    ensures EveryFill(wit, base, cp, orders) <==>
              && EveryFill(wit, base, cp, orders[..|orders|-1])
              && FillEquations(wit, base + 6 * (|orders| - 1), cp, orders[|orders|-1].side)
  {
    hide FillEquations;
  }

  lemma {:induction false} NoFillEquations(wit: seq<u64>, base: nat, cp: u64)
    ensures EveryFill(wit, base, cp, [])
  {
  }

  lemma {:induction false} FillsPartLast(base: nat, cpVar: Variable, cp: u64, orders: seq<Order>, fills: seq<Fill>)
    requires |orders| == |fills| && fills != []
    ensures var n := |fills| - 1;
            FillsPart(base, cpVar, cp, orders, fills)
            == Extend(FillsPart(base, cpVar, cp, orders[..n], fills[..n]),
                      FillGadget(base + |FillsPart(base, cpVar, cp, orders[..n], fills[..n]).scalars|, cpVar, orders[n]),
                      FillScalars(orders[n], fills[n], cp))
  {
    hide FillGadget, FillScalars;
  }

  lemma {:induction false} FillsPartMeans(
      base: nat, cpVar: Variable, cp: u64, orders: seq<Order>, fills: seq<Fill>, pub: seq<u64>, wit: seq<u64>)
    requires |orders| == |fills|
    ensures |FillsPart(base, cpVar, cp, orders, fills).scalars| == 6 * |fills|
    ensures AllHold(FillsPart(base, cpVar, cp, orders, fills).constraints, pub, wit)
       <==> EveryFill(wit, base, Assigned(cpVar, pub, wit), orders)
  {
    hide Holds, FillGadget, FillScalars, Assigned, EveryFill, FillEquations, FillsPart;
    if fills == [] {
      assert orders == [];
      NoFills(base, cpVar, cp, orders, fills);
      assert fills[..0] == fills;
      NoFillEquations(wit, base, Assigned(cpVar, pub, wit));
    } else {
      var n := |fills| - 1;
      var front := FillsPart(base, cpVar, cp, orders[..n], fills[..n]);
      FillsPartMeans(base, cpVar, cp, orders[..n], fills[..n], pub, wit);
      FillsPartLast(base, cpVar, cp, orders, fills);
      SixScalars(orders[n], fills[n], cp);
      FillGadgetMeans(base + 6 * n, cpVar, orders[n], pub, wit);
      AllHoldJoin(front.constraints, FillGadget(base + 6 * n, cpVar, orders[n]), pub, wit);
      EveryFillStep(wit, base, Assigned(cpVar, pub, wit), orders);
    }
  }

  /** For every assignment: with the price the first cell holds, each fill's
      cells satisfy remaining quantity, consideration and limit slack. */
  lemma {:induction false} FillBoundsPartMeans(base: nat, cp: u64, orders: seq<Order>, fills: seq<Fill>, pub: seq<u64>, wit: seq<u64>)
    requires |orders| == |fills|
    ensures AllHold(FillBoundsPart(base, cp, orders, fills).constraints, pub, wit)
       <==> EveryFill(wit, base + 1, Cell(wit, base), orders)
  {
    hide Holds, FillsPart, Assigned, EveryFill, Cell;
    FillsPartMeans(base + 1, Witness(base), cp, orders, fills, pub, wit);
    CellIsAssigned(wit, base, pub);
  }
}
