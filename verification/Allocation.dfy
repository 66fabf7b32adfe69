/** Price priority, then largest-remainder pro rata at the clearing price. */
module Allocation {
  import opened Primitives
  import opened Sums
  import opened Sorting
  import opened Orders
  import opened Auction
  import opened LargestRemainder

  datatype Moneyness = InTheMoney | AtTheMoney | OutOfTheMoney

  function Classify(o: Order, cp: u64): Moneyness
  {
    if o.side.Buy? then
      if o.price > cp then InTheMoney else if o.price == cp then AtTheMoney else OutOfTheMoney
    else
      if o.price < cp then InTheMoney else if o.price == cp then AtTheMoney else OutOfTheMoney
  }

  datatype OrderAllocation = OrderAllocation(
    orderId: u64, account: u64, side: Side, limitPrice: u64, originalQty: u64, allocatedQty: u64, seqNo: u64)

  datatype BatchAllocation = BatchAllocation(
    clearingPrice: Option<u64>, targetVolume: u64, totalBuy: u64, totalSell: u64, allocations: seq<OrderAllocation>)

  function Entry(o: Order, fill: u64): OrderAllocation
  {
    OrderAllocation(o.id, o.account, o.side, o.price, o.qty, fill, o.seqNo)
  }

  // ---- Selecting one moneyness class of one side ----

  predicate Selected(o: Order, side: Side, m: Moneyness, cp: u64)
  {
    o.side == side && Classify(o, cp) == m
  }

  ghost function Select(orders: seq<Order>, side: Side, m: Moneyness, cp: u64): seq<Order>
  {
    if orders == [] then []
    else
      var last := orders[|orders|-1];
      var front := Select(orders[..|orders|-1], side, m, cp);
      if Selected(last, side, m, cp) then front + [last] else front
  }

  lemma {:induction false} SelectStep(orders: seq<Order>, i: nat, side: Side, m: Moneyness, cp: u64)
    requires i < |orders|
    ensures Select(orders[..i+1], side, m, cp)
         == Select(orders[..i], side, m, cp) + (if Selected(orders[i], side, m, cp) then [orders[i]] else [])
  {
    assert orders[..i+1][..i] == orders[..i];
  }

  lemma {:induction false} SelectMembers(orders: seq<Order>, side: Side, m: Moneyness, cp: u64)
    ensures forall o :: o in Select(orders, side, m, cp) <==> o in orders && Selected(o, side, m, cp)
  {
    if orders != [] {
      var front, last := orders[..|orders|-1], orders[|orders|-1];
      SelectMembers(front, side, m, cp);
      assert forall o :: o in orders <==> o == last || o in front;
    }
  }

  lemma {:induction false} SelectUnique(orders: seq<Order>, side: Side, m: Moneyness, cp: u64)
    requires UniqueIds(orders)
    ensures UniqueIds(Select(orders, side, m, cp))
  {
    if orders != [] {
      var front, last := orders[..|orders|-1], orders[|orders|-1];
      SelectUnique(front, side, m, cp);
      SelectMembers(front, side, m, cp);
      var s := Select(front, side, m, cp);
      forall o | o in s ensures o.id != last.id {
        var k :| 0 <= k < |front| && front[k] == o;
        assert orders[k] == o;
      }
    }
  }

  /** A sum restricted to a class is the sum over the selected orders. */
  lemma {:induction false} SumSelect(orders: seq<Order>, side: Side, m: Moneyness, cp: u64, f: Order -> int, g: Order -> int)
    requires forall o :: o in orders ==> g(o) == if Selected(o, side, m, cp) then f(o) else 0
    ensures Sum(orders, g) == Sum(Select(orders, side, m, cp), f)
  {
    if orders != [] {
      var front, last := orders[..|orders|-1], orders[|orders|-1];
      assert forall o :: o in front ==> o in orders;
      SumSelect(front, side, m, cp, f, g);
      var s := Select(front, side, m, cp);
      assert last in orders;
      if Selected(last, side, m, cp) {
        assert (s + [last])[..|s|] == s;
      }
    }
  }

  /** Quantity of the orders that may trade at the clearing price. */
  ghost function Eligible(orders: seq<Order>, side: Side, cp: u64): nat
  {
    if side.Buy? then Demand(orders, cp) else Supply(orders, cp)
  }

  ghost function ClassQty(side: Side, m: Moneyness, cp: u64): Order -> int
  {
    (o: Order) => if Selected(o, side, m, cp) then o.qty else 0
  }

  lemma {:induction false} EligibleSplits(orders: seq<Order>, side: Side, cp: u64)
    ensures Eligible(orders, side, cp)
         == Qty(Select(orders, side, InTheMoney, cp)) + Qty(Select(orders, side, AtTheMoney, cp))
  {
    var f, g := ClassQty(side, InTheMoney, cp), ClassQty(side, AtTheMoney, cp);
    SumSelect(orders, side, InTheMoney, cp, QtyOf(), f);
    SumSelect(orders, side, AtTheMoney, cp, QtyOf(), g);
    SumAdd(orders, f, g, if side.Buy? then BuysFrom(cp) else SellsUpTo(cp));
  }

  // ---- Fill maps keyed by order id ----

  function Lookup(m: map<u64, u64>, id: u64): u64
  {
    if id in m then m[id] else 0
  }

  ghost function FillMap(s: seq<Order>, fills: seq<u64>): map<u64, u64>
    requires |s| == |fills|
  {
    if s == [] then map[]
    else FillMap(s[..|s|-1], fills[..|s|-1])[s[|s|-1].id := fills[|s|-1]]
  }

  lemma {:induction false} FillMapStep(s: seq<Order>, fills: seq<u64>, i: nat)
    requires |s| == |fills| && i < |s|
    ensures FillMap(s[..i+1], fills[..i+1]) == FillMap(s[..i], fills[..i])[s[i].id := fills[i]]
  {
    assert s[..i+1][..i] == s[..i] && fills[..i+1][..i] == fills[..i];
  }

  lemma {:induction false} FillMapAt(s: seq<Order>, fills: seq<u64>, i: nat)
    requires |s| == |fills| && UniqueIds(s) && i < |s|
    ensures Lookup(FillMap(s, fills), s[i].id) == fills[i]
  {
    var n := |s| - 1;
    if i < n {
      FillMapAt(s[..n], fills[..n], i);
    }
  }

  ghost function FillIn(m: map<u64, u64>): Order -> int
  {
    (o: Order) => Lookup(m, o.id)
  }

  lemma {:induction false} SumAligned(s: seq<Order>, fills: seq<u64>, m: map<u64, u64>)
    requires |s| == |fills|
    requires forall i :: 0 <= i < |s| ==> Lookup(m, s[i].id) == fills[i]
    ensures Sum(s, FillIn(m)) == Sum(fills, Amount())
  {
    if s != [] {
      SumAligned(s[..|s|-1], fills[..|s|-1], m);
    }
  }

  /** Fills recorded by id add up to the fills awarded. */
  lemma {:induction false} FillMapTotal(s: seq<Order>, fills: seq<u64>, t: seq<Order>)
    requires |s| == |fills| && UniqueIds(s) && multiset(t) == multiset(s)
    ensures Sum(t, FillIn(FillMap(s, fills))) == Sum(fills, Amount())
  {
    var m := FillMap(s, fills);
    forall i | 0 <= i < |s| ensures Lookup(m, s[i].id) == fills[i] { FillMapAt(s, fills, i); }
    SumAligned(s, fills, m);
    SumPermutation(t, s, FillIn(m));
  }

  ghost function Quantities(s: seq<Order>): seq<u64>
  {
    seq(|s|, i requires 0 <= i < |s| => s[i].qty)
  }

  lemma {:induction false} QuantitiesTotal(s: seq<Order>)
    ensures Sum(Quantities(s), Amount()) == Qty(s)
  {
    if s != [] {
      QuantitiesTotal(s[..|s|-1]);
      assert Quantities(s)[..|s|-1] == Quantities(s[..|s|-1]);
    }
  }

  // ---- In the money: price priority, then time ----

  predicate BetterPrice(side: Side, a: u64, b: u64)
  {
    if side.Buy? then a > b else a < b
  }

  function Priority(side: Side): (Order, Order) -> bool
  {
    (a: Order, b: Order) => if a.price != b.price then BetterPrice(side, a.price, b.price) else a.seqNo < b.seqNo
  }

  lemma {:induction false} PriorityIsOrder(side: Side)
    ensures StrictWeakOrder(Priority(side))
  {
  }

  /** What is left of the target when the walk reaches order `i`. */
  ghost function Remaining(s: seq<Order>, target: u64, i: nat): u64
    requires i <= |s|
  {
    if Qty(s[..i]) >= target then 0 else target - Qty(s[..i])
  }

  ghost function GreedyFills(s: seq<Order>, target: u64): seq<u64>
  {
    seq(|s|, i requires 0 <= i < |s| => Min(s[i].qty, Remaining(s, target, i)))
  }

  lemma {:induction false} RemainingStep(s: seq<Order>, target: u64, i: nat)
    requires i < |s|
    ensures Remaining(s, target, i + 1) == Remaining(s, target, i) - Min(s[i].qty, Remaining(s, target, i))
  {
    SumStep(s, i, QtyOf());
  }

  lemma {:induction false} GreedyTotal(s: seq<Order>, target: u64, i: nat)
    requires i <= |s|
    ensures Sum(GreedyFills(s, target)[..i], Amount()) == target - Remaining(s, target, i)
  {
    if i > 0 {
      GreedyTotal(s, target, i - 1);
      RemainingStep(s, target, i - 1);
      SumStep(GreedyFills(s, target), i - 1, Amount());
    }
  }

  ghost function ItmMap(itm: seq<Order>, target: u64, side: Side): map<u64, u64>
  {
    var sorted := SortBy(Priority(side), itm);
    if target <= Qty(itm) then FillMap(sorted, GreedyFills(sorted, target)) else FillMap(itm, Quantities(itm))
  }

  ghost function AtmMap(atm: seq<Order>, vRem: u64): map<u64, u64>
    requires Qty(atm) <= MAX64
  {
    if vRem == 0 || atm == [] then map[]
    else if vRem >= Qty(atm) then FillMap(atm, Quantities(atm))
    else
      LargestRemainderExact(atm, vRem);
      var ranked := Ranked(atm, vRem, Qty(atm));
      FillMap(OrdersOf(ranked), Awards(ranked, Surplus(atm, vRem, Qty(atm))))
  }

  // ---- One side ----

  datatype SideFills = SideFills(itm: map<u64, u64>, atm: map<u64, u64>)

  function FillFor(o: Order, cp: u64, f: SideFills): u64
  {
    match Classify(o, cp)
    case InTheMoney => Lookup(f.itm, o.id)
    case AtTheMoney => Lookup(f.atm, o.id)
    case OutOfTheMoney => 0
  }

  ghost function FillsFor(orders: seq<Order>, cp: u64, v: u64, side: Side): Result<SideFills>
  {
    var itm := Select(orders, side, InTheMoney, cp);
    var atm := Select(orders, side, AtTheMoney, cp);
    if Qty(itm) > MAX64 || Qty(atm) > MAX64 then Err
    else Ok(SideFills(ItmMap(itm, v, side), AtmMap(atm, SaturatingSubQty(v, Qty(itm)))))
  }

  /** One entry per order of the side, in batch order. */
  ghost function SideEntries(orders: seq<Order>, cp: u64, side: Side, f: SideFills): seq<OrderAllocation>
  {
    if orders == [] then []
    else
      var last := orders[|orders|-1];
      var front := SideEntries(orders[..|orders|-1], cp, side, f);
      if last.side == side then front + [Entry(last, FillFor(last, cp, f))] else front
  }

  ghost function AllocateSide(orders: seq<Order>, cp: u64, v: u64, side: Side): Result<seq<OrderAllocation>>
  {
    if v == 0 then Ok(SideEntries(orders, cp, side, SideFills(map[], map[])))
    else
      var f :- FillsFor(orders, cp, v, side);
      Ok(SideEntries(orders, cp, side, f))
  }

  // ---- Both sides ----

  ghost function EntryMap(entries: seq<OrderAllocation>): map<u64, OrderAllocation>
  {
    if entries == [] then map[]
    else EntryMap(entries[..|entries|-1])[entries[|entries|-1].orderId := entries[|entries|-1]]
  }

  datatype Merged = Merged(out: seq<OrderAllocation>, buys: map<u64, OrderAllocation>, sells: map<u64, OrderAllocation>)

  /** Takes each order's entry out of the map that holds it. */
  function MergeOne(m: Merged, id: u64): Merged
  {
    if id in m.buys then Merged(m.out + [m.buys[id]], m.buys - {id}, m.sells)
    else if id in m.sells then Merged(m.out + [m.sells[id]], m.buys, m.sells - {id})
    else m
  }

  ghost function Merge(orders: seq<Order>, buys: map<u64, OrderAllocation>, sells: map<u64, OrderAllocation>): Merged
  {
    if orders == [] then Merged([], buys, sells)
    else MergeOne(Merge(orders[..|orders|-1], buys, sells), orders[|orders|-1].id)
  }

  ghost function Allocated(): OrderAllocation -> int { (a: OrderAllocation) => a.allocatedQty }

  /** 64-bit unsigned accumulation wraps. */
  function Wrap64(x: int): u64 { x % 0x1_0000_0000_0000_0000 }

  function Unfilled(orders: seq<Order>): seq<OrderAllocation>
  {
    seq(|orders|, i requires 0 <= i < |orders| => Entry(orders[i], 0))
  }

  ghost function Allocate(orders: seq<Order>, price: Option<u64>, v: u64): Result<BatchAllocation>
  {
    if price.None? || v == 0 then Ok(BatchAllocation(None, 0, 0, 0, Unfilled(orders)))
    else
      var buys :- AllocateSide(orders, price.value, v, Buy);
      var sells :- AllocateSide(orders, price.value, v, Sell);
      Ok(BatchAllocation(price, v, Wrap64(Sum(buys, Allocated())), Wrap64(Sum(sells, Allocated())),
                         Merge(orders, EntryMap(buys), EntryMap(sells)).out))
  }
}
