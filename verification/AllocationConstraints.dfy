/** Allocation constraints: no order above its size, no fill out of the money,
    and both sides summing to the public volume. */
module AllocationConstraints {
  import opened Primitives
  import opened Sums
  import opened Orders
  import opened Allocation
  import opened AllocationEngine
  import opened AllocationProperties
  import opened SettlementProperties
  import opened R1cs
  import opened ConstraintParts

  function FindOrder(orders: seq<Order>, id: u64): Option<Order>
  {
    if orders == [] then None else if orders[0].id == id then Some(orders[0]) else FindOrder(orders[1..], id)
  }

  lemma {:induction false} FindOrderAt(orders: seq<Order>, i: nat)
    requires UniqueIds(orders) && i < |orders|
    ensures FindOrder(orders, orders[i].id) == Some(orders[i])
  {
    if i > 0 {
      assert orders[0].id != orders[i].id;
      FindOrderAt(orders[1..], i - 1);
    }
  }

  /** With unique ids, the search finds exactly the order with the id. */
  lemma {:induction false} FindOrderMeans(orders: seq<Order>, id: u64, o: Order)
    requires UniqueIds(orders)
    ensures FindOrder(orders, id) == Some(o) <==> o in orders && o.id == id
  {
    if o in orders && o.id == id {
      var k :| 0 <= k < |orders| && orders[k] == o;
      FindOrderAt(orders, k);
    }
    FoundIsMember(orders, id);
  }

  lemma {:induction false} FoundIsMember(orders: seq<Order>, id: u64)
    ensures FindOrder(orders, id).Some? ==> FindOrder(orders, id).value in orders && FindOrder(orders, id).value.id == id
  {
    if orders != [] { FoundIsMember(orders[1..], id); }
  }

  function EntryConstraints(base: nat, o: Order, cp: u64): seq<Constraint>
  {
    if Classify(o, cp).OutOfTheMoney? then
      [Equality(FromVar(Witness(base)), [])]
    else
      [Equality(AddTerm(FromVar(Witness(base + 1)), Witness(base), -1), FromVar(Witness(base + 2)))]
  }

  function EntryScalars(o: Order, fill: u64, cp: u64): seq<u64>
  {
    if Classify(o, cp).OutOfTheMoney? then [fill, o.qty] else [fill, o.qty, SaturatingSubQty(o.qty, fill)]
  }

  datatype Sides = Sides(part: Part, buys: Linear, sells: Linear)

  const NO_SIDES := Sides(NOTHING, [], [])

  function AddEntry(s: Sides, base: nat, o: Order, fill: u64, cp: u64): Sides
  {
    var at := base + |s.part.scalars|;
    Sides(Extend(s.part, EntryConstraints(at, o, cp), EntryScalars(o, fill, cp)),
          if o.side.Buy? then AddTerm(s.buys, Witness(at), 1) else s.buys,
          if o.side.Buy? then s.sells else AddTerm(s.sells, Witness(at), 1))
  }

  /** Contribution of the entries, each paired with its batch order. */
  ghost function EntriesPart(base: nat, cp: u64, orders: seq<Order>, entries: seq<OrderAllocation>): Sides
    requires |orders| == |entries|
  {
    if entries == [] then NO_SIDES
    else
      var n := |entries| - 1;
      AddEntry(EntriesPart(base, cp, orders[..n], entries[..n]), base, orders[n], entries[n].allocatedQty, cp)
  }

  ghost function AllocationPart(base: nat, volVar: Variable, cp: u64, orders: seq<Order>, entries: seq<OrderAllocation>): Part
    requires |orders| == |entries|
  {
    var s := EntriesPart(base, cp, orders, entries);
    Extend(s.part, [Equality(s.buys, FromVar(volVar)), Equality(s.sells, FromVar(volVar))], [])
  }

  /** The order each entry refers to, if every entry refers to one. */
  ghost function Referred(orders: seq<Order>, entries: seq<OrderAllocation>): (r: Result<seq<Order>>)
    ensures r.Ok? ==> |r.value| == |entries|
  {
    if entries == [] then Ok([])
    else
      var front :- Referred(orders, entries[..|entries|-1]);
      var o := FindOrder(orders, entries[|entries|-1].orderId);
      if o.None? then Err else Ok(front + [o.value])
  }

  lemma {:induction false} ReferredStep(orders: seq<Order>, entries: seq<OrderAllocation>, i: nat)
    requires i < |entries|
    ensures Referred(orders, entries[..i+1]) ==
            match (Referred(orders, entries[..i]), FindOrder(orders, entries[i].orderId))
            case (Ok(front), Some(o)) => Ok(front + [o])
            case _ => Err
  {
    assert entries[..i+1][..i] == entries[..i];
  }

  lemma {:induction false} ReferredPrefix(orders: seq<Order>, entries: seq<OrderAllocation>, i: nat)
    requires i <= |entries| && Referred(orders, entries[..i]).Err?
    ensures Referred(orders, entries).Err?
  {
    if i < |entries| {
      ReferredStep(orders, entries, |entries| - 1);
      assert entries[..|entries|] == entries;
      assert entries[..|entries|-1][..i] == entries[..i];
      ReferredPrefix(orders, entries[..|entries|-1], i);
    } else {
      assert entries[..i] == entries;
    }
  }

  lemma {:induction false} EntriesPartStep(base: nat, cp: u64, orders: seq<Order>, o: Order, entries: seq<OrderAllocation>, i: nat)
    requires i < |entries| && |orders| == i
    ensures EntriesPart(base, cp, orders + [o], entries[..i+1])
         == AddEntry(EntriesPart(base, cp, orders, entries[..i]), base, o, entries[i].allocatedQty, cp)
  {
    assert entries[..i+1][..i] == entries[..i] && (orders + [o])[..i] == orders;
  }

  lemma {:induction false} NoEntries(base: nat, cp: u64, orders: seq<Order>, entries: seq<OrderAllocation>)
    ensures Referred(orders, entries[..0]) == Ok([])
    ensures EntriesPart(base, cp, [], entries[..0]) == NO_SIDES
  {
  }

  method SynthesizeEntry(cs: ConstraintSystem, o: Order, fill: u64, cp: u64) returns (scalars: seq<u64>, fillVar: Variable)
    modifies cs
    ensures cs.constraints == old(cs.constraints) + EntryConstraints(old(cs.numWitness), o, cp)
    ensures scalars == EntryScalars(o, fill, cp) && fillVar == Witness(old(cs.numWitness))
    ensures cs.numWitness == old(cs.numWitness) + |scalars| && cs.numPublic == old(cs.numPublic)
  {
    hide Equality, AddTerm, FromVar;
    fillVar := cs.AllocWitness();
    var qtyVar := cs.AllocWitness();
    scalars := [fill, o.qty];
    match Classify(o, cp)
    case OutOfTheMoney =>
      cs.EnforceEqual(FromVar(fillVar), []);
    case _ =>
      var remVar := cs.AllocWitness();
      scalars := [fill, o.qty, if o.qty > fill then o.qty - fill else 0];
      cs.EnforceEqual(AddTerm(FromVar(qtyVar), fillVar, -1), FromVar(remVar));
  }

  datatype Emitted = Emitted(scalars: seq<u64>, buys: Linear, sells: Linear)

  method SynthesizeEntries(cs: ConstraintSystem, orders: seq<Order>, entries: seq<OrderAllocation>, cp: u64)
    returns (r: Result<Emitted>, ghost s: Sides)
    modifies cs
    ensures r.Ok? <==> Referred(orders, entries).Ok?
    ensures r.Ok? ==> s == EntriesPart(old(cs.numWitness), cp, Referred(orders, entries).value, entries)
    ensures r.Ok? ==> r.value == Emitted(s.part.scalars, s.buys, s.sells)
    ensures r.Ok? ==> cs.constraints == old(cs.constraints) + s.part.constraints
    ensures r.Ok? ==> cs.numWitness == old(cs.numWitness) + |s.part.scalars|
    ensures cs.numPublic == old(cs.numPublic)
  {
    hide Referred, EntriesPart, FindOrder, EntryConstraints, EntryScalars, AddTerm;
    ghost var before, base := cs.constraints, cs.numWitness;
    ghost var referred: seq<Order> := [];
    s := NO_SIDES;
    var e := Emitted([], [], []);
    NoEntries(base, cp, orders, entries);
    for i := 0 to |entries|
      invariant Referred(orders, entries[..i]) == Ok(referred) && |referred| == i
      invariant s == EntriesPart(base, cp, referred, entries[..i])
      invariant e == Emitted(s.part.scalars, s.buys, s.sells)
      invariant cs.constraints == before + s.part.constraints
      invariant cs.numWitness == base + |e.scalars| && cs.numPublic == old(cs.numPublic)
    {
      ReferredStep(orders, entries, i);
      var o := FindOrder(orders, entries[i].orderId);
      if o.None? {
        ReferredPrefix(orders, entries, i + 1);
        return Err, s;
      }
      EntriesPartStep(base, cp, referred, o.value, entries, i);
      Associate(before, s.part.constraints, EntryConstraints(base + |e.scalars|, o.value, cp));
      var scalars, fillVar := SynthesizeEntry(cs, o.value, entries[i].allocatedQty, cp);
      if o.value.side.Buy? {
        e := Emitted(e.scalars + scalars, AddTerm(e.buys, fillVar, 1), e.sells);
      } else {
        e := Emitted(e.scalars + scalars, e.buys, AddTerm(e.sells, fillVar, 1));
      }
      s := AddEntry(s, base, o.value, entries[i].allocatedQty, cp);
      referred := referred + [o.value];
    }
    assert entries[..|entries|] == entries;
    r := Ok(e);
  }

  /** Refuses any allocation but the canonical one. */
  method SynthesizeAllocation(cs: ConstraintSystem, batch: Batch, cp: u64, v: u64, a: BatchAllocation)
    returns (r: Result<seq<u64>>)
    modifies cs
    ensures r.Ok? <==> Allocate(batch.orders, Some(cp), v) == Ok(a) && Referred(batch.orders, a.allocations).Ok?
    ensures r.Ok? ==>
              var p := AllocationPart(old(cs.numWitness), Public(old(cs.numPublic)), cp, Referred(batch.orders, a.allocations).value, a.allocations);
              cs.constraints == old(cs.constraints) + p.constraints && r.value == p.scalars
    ensures r.Ok? ==> cs.numWitness == old(cs.numWitness) + |r.value| && cs.numPublic == old(cs.numPublic) + 1
  {
    hide Referred, EntriesPart, Allocate, Equality;
    var honest := AllocateBatch(batch, Some(cp), v);
    if honest.Err? || honest.value != a { return Err; }
    var volVar := cs.AllocPublic();
    ghost var s;
    var e;
    e, s := SynthesizeEntries(cs, batch.orders, a.allocations, cp);
    if e.Err? { return Err; }
    ghost var k0, k1 := Equality(s.buys, FromVar(volVar)), Equality(s.sells, FromVar(volVar));
    Appended2(cs.constraints, k0, k1);
    Associate(old(cs.constraints), s.part.constraints, [k0, k1]);
    assert s.part.scalars + [] == s.part.scalars;
    cs.EnforceEqual(e.value.buys, FromVar(volVar));
    cs.EnforceEqual(e.value.sells, FromVar(volVar));
    return Ok(e.value.scalars);
  }

  // ---- Meaning ----

  lemma {:induction false} VarIsZero(v: Variable, pub: seq<u64>, wit: seq<u64>)
    ensures Holds(Equality(FromVar(v), []), pub, wit) <==> Assigned(v, pub, wit) == 0
  {
    hide Holds, Assigned, Equality;
    ValueOfTerm(v, 1, pub, wit);
    assert Value([], pub, wit) == 0;
    EqualityMeans(FromVar(v), [], pub, wit);
  }

  lemma {:induction false} HonestEntry(at: nat, o: Order, fill: u64, cp: u64, pub: seq<u64>, wit: seq<u64>)
    requires Window(wit, at, EntryScalars(o, fill, cp))
    ensures AllHold(EntryConstraints(at, o, cp), pub, wit)
       <==> if Classify(o, cp).OutOfTheMoney? then fill == 0 else fill <= o.qty
    ensures Assigned(Witness(at), pub, wit) == fill
  {
    hide Holds, Equality;
    var sc := EntryScalars(o, fill, cp);
    WindowAt(wit, at, sc, 0);
    WindowAt(wit, at, sc, 1);
    OneHolds(EntryConstraints(at, o, cp)[0], pub, wit);
    if Classify(o, cp).OutOfTheMoney? {
      VarIsZero(Witness(at), pub, wit);
    } else {
      WindowAt(wit, at, sc, 2);
      DifferenceIs(Witness(at + 1), Witness(at), Witness(at + 2), pub, wit);
    }
  }

  /** A respected allocation satisfies its entry constraints, and the side
      combinations evaluate to the side totals. */
  lemma {:induction false} EntriesPartHonest(
      base: nat, cp: u64, orders: seq<Order>, entries: seq<OrderAllocation>, pub: seq<u64>, wit: seq<u64>)
    requires Respected(orders, cp, entries)
    requires Window(wit, base, EntriesPart(base, cp, orders, entries).part.scalars)
    ensures AllHold(EntriesPart(base, cp, orders, entries).part.constraints, pub, wit)
    ensures Value(EntriesPart(base, cp, orders, entries).buys, pub, wit) == Sum(entries, AllocatedOn(Buy))
    ensures Value(EntriesPart(base, cp, orders, entries).sells, pub, wit) == Sum(entries, AllocatedOn(Sell))
  {
    hide Holds, EntryConstraints, EntryScalars, AddTerm, Assigned, Window;
    if entries != [] {
      var n := |entries| - 1;
      var front := EntriesPart(base, cp, orders[..n], entries[..n]);
      var o, fill := orders[n], entries[n].allocatedQty;
      var at := base + |front.part.scalars|;
      assert EntryRespects(o, cp, entries[n]);
      WindowSplit(wit, base, front.part.scalars, EntryScalars(o, fill, cp));
      EntriesPartHonest(base, cp, orders[..n], entries[..n], pub, wit);
      HonestEntry(at, o, fill, cp, pub, wit);
      AllHoldJoin(front.part.constraints, EntryConstraints(at, o, cp), pub, wit);
      ValueAddTerm(front.buys, Witness(at), 1, pub, wit);
      ValueAddTerm(front.sells, Witness(at), 1, pub, wit);
    }
  }

  lemma {:induction false} TotalConstraint(lc: Linear, v: Variable, pub: seq<u64>, wit: seq<u64>)
    requires Value(lc, pub, wit) == Assigned(v, pub, wit)
    ensures Holds(Equality(lc, FromVar(v)), pub, wit)
  {
    hide Holds, Assigned, Equality, Value;
    ValueOfTerm(v, 1, pub, wit);
    EqualityMeans(lc, FromVar(v), pub, wit);
  }

  /** An exact allocation satisfies the whole subrelation. */
  lemma {:induction false} AllocationPartHonest(
      base: nat, volVar: Variable, cp: u64, v: u64, orders: seq<Order>, a: BatchAllocation, pub: seq<u64>,
      wit: seq<u64>)
    requires ExactAllocation(orders, cp, v, a) && Assigned(volVar, pub, wit) == v
    requires Window(wit, base, AllocationPart(base, volVar, cp, orders, a.allocations).scalars)
    ensures AllHold(AllocationPart(base, volVar, cp, orders, a.allocations).constraints, pub, wit)
  {
    hide Holds, Equality, Value, EntriesPart, Assigned;
    var s := EntriesPart(base, cp, orders, a.allocations);
    assert s.part.scalars + [] == s.part.scalars;
    EntriesPartHonest(base, cp, orders, a.allocations, pub, wit);
    TotalConstraint(s.buys, volVar, pub, wit);
    TotalConstraint(s.sells, volVar, pub, wit);
    var ks := [Equality(s.buys, FromVar(volVar)), Equality(s.sells, FromVar(volVar))];
    AllHoldPair(ks[0], ks[1], pub, wit);
    AllHoldJoin(s.part.constraints, ks, pub, wit);
  }

  /** Entries in batch order refer to the batch's own orders. */
  lemma {:induction false} RespectedReferToOrders(orders: seq<Order>, cp: u64, entries: seq<OrderAllocation>, i: nat)
    requires UniqueIds(orders) && Respected(orders, cp, entries) && i <= |orders|
    ensures Referred(orders, entries[..i]) == Ok(orders[..i])
  {
    if i > 0 {
      RespectedReferToOrders(orders, cp, entries, i - 1);
      ReferredStep(orders, entries, i - 1);
      assert EntryRespects(orders[i-1], cp, entries[i-1]);
      FindOrderAt(orders, i - 1);
      assert orders[..i] == orders[..i-1] + [orders[i-1]];
    }
  }

  // ---- Meaning for every assignment ----

  /** An order out of the money has an empty fill cell; any other has its fill
      and its remainder make up its size cell. */
  predicate EntryEquation(wit: seq<u64>, at: nat, o: Order, cp: u64)
  {
    if Classify(o, cp).OutOfTheMoney? then Cell(wit, at) == 0
    else Cell(wit, at + 1) - Cell(wit, at) == Cell(wit, at + 2)
  }

  lemma {:induction false} EntryConstraintsMean(at: nat, o: Order, cp: u64, pub: seq<u64>, wit: seq<u64>)
    ensures AllHold(EntryConstraints(at, o, cp), pub, wit) <==> EntryEquation(wit, at, o, cp)
  {
    hide Holds, Equality, Cell, Assigned;
    CellIsAssigned(wit, at, pub);
    CellIsAssigned(wit, at + 1, pub);
    CellIsAssigned(wit, at + 2, pub);
    OneHolds(EntryConstraints(at, o, cp)[0], pub, wit);
    VarIsZero(Witness(at), pub, wit);
    DifferenceIs(Witness(at + 1), Witness(at), Witness(at + 2), pub, wit);
  }

  /** Where an entry's cells start, after those of the entries before it. */
  function EntryOffset(orders: seq<Order>, cp: u64): nat
  {
    if orders == [] then 0
    else EntryOffset(orders[..|orders|-1], cp) + if Classify(orders[|orders|-1], cp).OutOfTheMoney? then 2 else 3
  }

  ghost predicate EveryEntry(wit: seq<u64>, base: nat, orders: seq<Order>, cp: u64)
  {
    orders == [] ||
    var n := |orders| - 1;
    EveryEntry(wit, base, orders[..n], cp) && EntryEquation(wit, base + EntryOffset(orders[..n], cp), orders[n], cp)
  }

  /** Sum of one side's fill cells. */
  ghost function FillCells(wit: seq<u64>, base: nat, orders: seq<Order>, cp: u64, side: Side): nat
  {
    if orders == [] then 0
    else
      var n := |orders| - 1;
      FillCells(wit, base, orders[..n], cp, side)
      + if orders[n].side == side then Cell(wit, base + EntryOffset(orders[..n], cp)) else 0
  }

  lemma {:induction false} FillCellsBounded(wit: seq<u64>, base: nat, orders: seq<Order>, cp: u64, side: Side)
    ensures FillCells(wit, base, orders, cp, side) <= |orders| * MAX64
  {
    if orders != [] { FillCellsBounded(wit, base, orders[..|orders|-1], cp, side); }
  }

  lemma {:induction false} EntriesPartStart(base: nat, cp: u64)
    ensures EntriesPart(base, cp, [], []) == NO_SIDES
  {
  }

  lemma {:induction false} EntriesPartLast(base: nat, cp: u64, orders: seq<Order>, entries: seq<OrderAllocation>)
    requires |orders| == |entries| && entries != []
    ensures EntriesPart(base, cp, orders, entries)
         == AddEntry(EntriesPart(base, cp, orders[..|orders|-1], entries[..|orders|-1]), base,
                     orders[|orders|-1], entries[|orders|-1].allocatedQty, cp)
  {
    hide AddEntry;
  }

  lemma {:induction false} EntriesPartMeans(
      base: nat, cp: u64, orders: seq<Order>, entries: seq<OrderAllocation>, pub: seq<u64>, wit: seq<u64>)
    requires |orders| == |entries|
    ensures |EntriesPart(base, cp, orders, entries).part.scalars| == EntryOffset(orders, cp)
    ensures AllHold(EntriesPart(base, cp, orders, entries).part.constraints, pub, wit) <==> EveryEntry(wit, base, orders, cp)
    ensures Value(EntriesPart(base, cp, orders, entries).buys, pub, wit) == FillCells(wit, base, orders, cp, Buy)
    ensures Value(EntriesPart(base, cp, orders, entries).sells, pub, wit) == FillCells(wit, base, orders, cp, Sell)
  {
    hide Holds, EntryConstraints, EntryEquation, AddTerm, Cell, EntriesPart, Value, Classify;
    if entries == [] {
      assert orders == [];
      EntriesPartStart(base, cp);
      assert Value([], pub, wit) == 0 by { NoValue(pub, wit); }
    } else {
      var n := |entries| - 1;
      var front := EntriesPart(base, cp, orders[..n], entries[..n]);
      var o := orders[n];
      EntriesPartMeans(base, cp, orders[..n], entries[..n], pub, wit);
      EntriesPartLast(base, cp, orders, entries);
      var at := base + EntryOffset(orders[..n], cp);
      EntryConstraintsMean(at, o, cp, pub, wit);
      AllHoldJoin(front.part.constraints, EntryConstraints(at, o, cp), pub, wit);
      CellIsAssigned(wit, at, pub);
      ValueAddTerm(front.buys, Witness(at), 1, pub, wit);
      ValueAddTerm(front.sells, Witness(at), 1, pub, wit);
    }
  }

  lemma {:induction false} NoValue(pub: seq<u64>, wit: seq<u64>)
    ensures Value([], pub, wit) == 0
  {
  }

  lemma {:induction false} TotalMeans(lc: Linear, v: Variable, pub: seq<u64>, wit: seq<u64>)
    requires 0 <= Value(lc, pub, wit) <= MAX64 * MAX64
    ensures Holds(Equality(lc, FromVar(v)), pub, wit) <==> Value(lc, pub, wit) == Assigned(v, pub, wit)
  {
    hide Holds, Assigned, Equality, Value;
    ValueOfTerm(v, 1, pub, wit);
    EqualityMeans(lc, FromVar(v), pub, wit);
  }

  /** For every assignment and fewer than 2^64 entries: no fill cell out of the
      money, every other fill within its size cell, and each side's fill cells
      add up to the published volume over the integers. */
  lemma {:induction false} AllocationPartMeans(
      base: nat, volVar: Variable, cp: u64, orders: seq<Order>, entries: seq<OrderAllocation>, pub: seq<u64>, wit: seq<u64>)
    requires |orders| == |entries| <= MAX64
    ensures AllHold(AllocationPart(base, volVar, cp, orders, entries).constraints, pub, wit) <==>
              && EveryEntry(wit, base, orders, cp)
              && FillCells(wit, base, orders, cp, Buy) == Assigned(volVar, pub, wit)
              && FillCells(wit, base, orders, cp, Sell) == Assigned(volVar, pub, wit)
  {
    hide Holds, Equality, Value, EntriesPart, Assigned, EveryEntry, FillCells;
    var s := EntriesPart(base, cp, orders, entries);
    EntriesPartMeans(base, cp, orders, entries, pub, wit);
    FillCellsBounded(wit, base, orders, cp, Buy);
    FillCellsBounded(wit, base, orders, cp, Sell);
    MulLe(|orders|, MAX64, MAX64, MAX64);
    TotalMeans(s.buys, volVar, pub, wit);
    TotalMeans(s.sells, volVar, pub, wit);
    var ks := [Equality(s.buys, FromVar(volVar)), Equality(s.sells, FromVar(volVar))];
    AllHoldPair(ks[0], ks[1], pub, wit);
    AllHoldJoin(s.part.constraints, ks, pub, wit);
  }
}
