/** What the allocation rule guarantees: exact totals on both sides, no
    overfill, no trade outside a limit, price priority and pro-rata fairness. */
module AllocationProperties {
  import opened Primitives
  import opened Sums
  import opened Sorting
  import opened Orders
  import opened Auction
  import opened LargestRemainder
  import opened Allocation

  // ---- One class of one side ----

  /** Every order in `s` has a recorded fill of at most its quantity. */
  ghost predicate Within(s: seq<Order>, m: map<u64, u64>)
  {
    forall o :: o in s ==> Lookup(m, o.id) <= o.qty
  }

  lemma {:induction false} FillMapWithin(s: seq<Order>, fills: seq<u64>, t: seq<Order>)
    requires |s| == |fills| && UniqueIds(s) && multiset(t) == multiset(s)
    requires forall i :: 0 <= i < |s| ==> fills[i] <= s[i].qty
    ensures Within(t, FillMap(s, fills))
  {
    forall o | o in t ensures Lookup(FillMap(s, fills), o.id) <= o.qty {
      InMultiset(t, s, o);
      var i :| 0 <= i < |s| && s[i] == o;
      FillMapAt(s, fills, i);
    }
  }

  lemma {:induction false} ItmExact(itm: seq<Order>, v: u64, side: Side)
    requires UniqueIds(itm)
    ensures Sum(itm, FillIn(ItmMap(itm, v, side))) == Min(v, Qty(itm))
    ensures Within(itm, ItmMap(itm, v, side))
  {
    if v <= Qty(itm) {
      var s := SortBy(Priority(side), itm);
      var fills := GreedyFills(s, v);
      UniqueIdsPermute(itm, s);
      SumPermutation(itm, s, QtyOf());
      GreedyTotal(s, v, |s|);
      assert s[..|s|] == s && fills[..|s|] == fills;
      FillMapTotal(s, fills, itm);
      FillMapWithin(s, fills, itm);
    } else {
      QuantitiesTotal(itm);
      FillMapTotal(itm, Quantities(itm), itm);
      FillMapWithin(itm, Quantities(itm), itm);
    }
  }

  lemma {:induction false} AtmExact(atm: seq<Order>, vRem: u64)
    requires UniqueIds(atm) && vRem <= Qty(atm) <= MAX64
    ensures Sum(atm, FillIn(AtmMap(atm, vRem))) == vRem
    ensures Within(atm, AtmMap(atm, vRem))
  {
    if vRem == 0 || atm == [] {
      SumScale(atm, QtyOf(), 0, FillIn(map[]));
    } else if vRem == Qty(atm) {
      QuantitiesTotal(atm);
      FillMapTotal(atm, Quantities(atm), atm);
      FillMapWithin(atm, Quantities(atm), atm);
    } else {
      var total: u64 := Qty(atm);
      var s, surplus := Ranked(atm, vRem, total), Surplus(atm, vRem, total);
      LargestRemainderExact(atm, vRem);
      RankedQuotas(atm, vRem, total);
      UniqueIdsPermute(atm, OrdersOf(s));
      FillMapTotal(OrdersOf(s), Awards(s, surplus), atm);
      FillMapWithin(OrdersOf(s), Awards(s, surplus), atm);
    }
  }

  // ---- One side ----

  ghost function SideFill(side: Side, cp: u64, f: SideFills): Order -> int
  {
    (o: Order) => if o.side == side then FillFor(o, cp, f) else 0
  }

  ghost function ClassFill(side: Side, m: Moneyness, cp: u64, fills: map<u64, u64>): Order -> int
  {
    (o: Order) => if Selected(o, side, m, cp) then Lookup(fills, o.id) else 0
  }

  ghost predicate SideExact(orders: seq<Order>, cp: u64, v: u64, side: Side, f: SideFills)
  {
    && Sum(orders, SideFill(side, cp, f)) == v
    && forall o :: o in orders && o.side == side ==> FillFor(o, cp, f) <= o.qty
  }

  /** With enough eligible quantity a side is filled to exactly the target, and
      no order beyond its own size. */
  lemma {:induction false} SideIsExact(orders: seq<Order>, cp: u64, v: u64, side: Side)
    requires UniqueIds(orders) && v <= Eligible(orders, side, cp) <= MAX64
    ensures FillsFor(orders, cp, v, side).Ok?
    ensures SideExact(orders, cp, v, side, FillsFor(orders, cp, v, side).value)
  {
    var itm := Select(orders, side, InTheMoney, cp);
    var atm := Select(orders, side, AtTheMoney, cp);
    EligibleSplits(orders, side, cp);
    SelectUnique(orders, side, InTheMoney, cp);
    SelectUnique(orders, side, AtTheMoney, cp);
    SelectMembers(orders, side, InTheMoney, cp);
    SelectMembers(orders, side, AtTheMoney, cp);
    var vRem := SaturatingSubQty(v, Qty(itm));
    var f := SideFills(ItmMap(itm, v, side), AtmMap(atm, vRem));
    ItmExact(itm, v, side);
    AtmExact(atm, vRem);
    var g, h := ClassFill(side, InTheMoney, cp, f.itm), ClassFill(side, AtTheMoney, cp, f.atm);
    SumSelect(orders, side, InTheMoney, cp, FillIn(f.itm), g);
    SumSelect(orders, side, AtTheMoney, cp, FillIn(f.atm), h);
    SumAdd(orders, g, h, SideFill(side, cp, f));
    SideWithin(orders, cp, side, f);
  }

  lemma {:induction false} SideWithin(orders: seq<Order>, cp: u64, side: Side, f: SideFills)
    requires Within(Select(orders, side, InTheMoney, cp), f.itm)
    requires Within(Select(orders, side, AtTheMoney, cp), f.atm)
    ensures forall o :: o in orders && o.side == side ==> FillFor(o, cp, f) <= o.qty
  {
    SelectMembers(orders, side, InTheMoney, cp);
    SelectMembers(orders, side, AtTheMoney, cp);
    forall o | o in orders && o.side == side ensures FillFor(o, cp, f) <= o.qty {
      if Classify(o, cp) != OutOfTheMoney {
        assert o in Select(orders, side, Classify(o, cp), cp);
      }
    }
  }

  lemma {:induction false} SideEntriesTotal(orders: seq<Order>, cp: u64, side: Side, f: SideFills)
    ensures Sum(SideEntries(orders, cp, side, f), Allocated()) == Sum(orders, SideFill(side, cp, f))
  {
    if orders != [] {
      var front, last := orders[..|orders|-1], orders[|orders|-1];
      SideEntriesTotal(front, cp, side, f);
      var s := SideEntries(front, cp, side, f);
      if last.side == side {
        assert (s + [Entry(last, FillFor(last, cp, f))])[..|s|] == s;
      }
    }
  }

  /** A zero target never fails and gives every order of the side, in batch
      order, an entry without a fill. */
  lemma {:induction false} ZeroTargetFillsNothing(orders: seq<Order>, cp: u64, side: Side)
    ensures AllocateSide(orders, cp, 0, side).Ok?
    ensures forall e :: e in AllocateSide(orders, cp, 0, side).value ==> e.side == side && e.allocatedQty == 0
    ensures forall o :: o in orders && o.side == side ==> exists e :: e in AllocateSide(orders, cp, 0, side).value && Carries(e, o)
  {
    var none := SideFills(map[], map[]);
    EntriesOfSide(orders, cp, side, none);
    forall o | o in orders && o.side == side ensures Carries(Entry(o, FillFor(o, cp, none)), o) {}
  }

  lemma {:induction false} EntriesOfSide(orders: seq<Order>, cp: u64, side: Side, f: SideFills)
    ensures forall e :: e in SideEntries(orders, cp, side, f) ==>
              exists o :: o in orders && o.side == side && e == Entry(o, FillFor(o, cp, f))
    ensures forall o :: o in orders && o.side == side ==> Entry(o, FillFor(o, cp, f)) in SideEntries(orders, cp, side, f)
  {
    hide FillFor, Entry;
    if orders != [] {
      var front, last := orders[..|orders|-1], orders[|orders|-1];
      EntriesOfSide(front, cp, side, f);
      assert forall o :: o in orders <==> o in front || o == last;
    }
  }

  // ---- Merging the sides back into batch order ----

  ghost predicate Keyed(m: map<u64, OrderAllocation>, orders: seq<Order>, cp: u64, side: Side, f: SideFills)
  {
    && (forall o :: o in orders && o.side == side ==> o.id in m && m[o.id] == Entry(o, FillFor(o, cp, f)))
    && (forall id :: id in m ==> exists o :: o in orders && o.side == side && o.id == id)
  }

  lemma {:induction false} KeyedExtends(m: map<u64, OrderAllocation>, front: seq<Order>, last: Order, cp: u64, side: Side, f: SideFills)
    requires Keyed(m, front, cp, side, f) && forall o :: o in front ==> o.id != last.id
    ensures Keyed(if last.side == side then m[last.id := Entry(last, FillFor(last, cp, f))] else m, front + [last], cp, side, f)
  {
    hide FillFor, Entry;
    var now := if last.side == side then m[last.id := Entry(last, FillFor(last, cp, f))] else m;
    forall id | id in now ensures exists o :: o in front + [last] && o.side == side && o.id == id {
      if id == last.id && last.side == side {
        assert last in front + [last];
      } else {
        var o :| o in front && o.side == side && o.id == id;
        assert o in front + [last];
      }
    }
  }

  lemma {:induction false} EntryMapAppend(s: seq<OrderAllocation>, e: OrderAllocation)
    ensures EntryMap(s + [e]) == EntryMap(s)[e.orderId := e]
  {
    assert (s + [e])[..|s|] == s;
  }

  lemma {:induction false} EntryMapKeyed(orders: seq<Order>, cp: u64, side: Side, f: SideFills)
    requires UniqueIds(orders)
    ensures Keyed(EntryMap(SideEntries(orders, cp, side, f)), orders, cp, side, f)
  {
    hide FillFor, EntryMap, Keyed;
    if orders == [] {
      NoEntriesKeyed(cp, side, f);
    } else {
      var front, last := orders[..|orders|-1], orders[|orders|-1];
      EntryMapKeyed(front, cp, side, f);
      forall o | o in front ensures o.id != last.id {
        var k :| 0 <= k < |front| && front[k] == o;
        assert orders[k] == o;
      }
      KeyedExtends(EntryMap(SideEntries(front, cp, side, f)), front, last, cp, side, f);
      EntryMapAppend(SideEntries(front, cp, side, f), Entry(last, FillFor(last, cp, f)));
      assert orders == front + [last];
    }
  }

  lemma {:induction false} NoEntriesKeyed(cp: u64, side: Side, f: SideFills)
    ensures Keyed(EntryMap([]), [], cp, side, f)
  {
  }

  ghost function IdSet(orders: seq<Order>): set<u64> { set o | o in orders :: o.id }

  function Pick(o: Order, fb: SideFills, fs: SideFills): SideFills
  {
    if o.side.Buy? then fb else fs
  }

  ghost function Positional(orders: seq<Order>, cp: u64, fb: SideFills, fs: SideFills): seq<OrderAllocation>
  {
    seq(|orders|, i requires 0 <= i < |orders| => Entry(orders[i], FillFor(orders[i], cp, Pick(orders[i], fb, fs))))
  }

  /** Each order finds its entry in the map of its own side only. */
  ghost predicate Routed(orders: seq<Order>, buys: map<u64, OrderAllocation>, sells: map<u64, OrderAllocation>, out: seq<OrderAllocation>)
  {
    && |out| == |orders|
    && forall i :: 0 <= i < |orders| ==> RoutedAt(orders[i], buys, sells, out[i])
  }

  ghost predicate RoutedAt(o: Order, buys: map<u64, OrderAllocation>, sells: map<u64, OrderAllocation>, e: OrderAllocation)
  {
    if o.side.Buy? then o.id in buys && buys[o.id] == e && o.id !in sells
    else o.id in sells && sells[o.id] == e && o.id !in buys
  }

  lemma {:induction false} MergeStep(
      m: Merged, buys: map<u64, OrderAllocation>, sells: map<u64, OrderAllocation>, taken: set<u64>, o: Order,
      e: OrderAllocation)
    requires m.buys == buys - taken && m.sells == sells - taken && o.id !in taken
    requires RoutedAt(o, buys, sells, e)
    ensures MergeOne(m, o.id) == Merged(m.out + [e], buys - (taken + {o.id}), sells - (taken + {o.id}))
  {
    assert buys - taken - {o.id} == buys - (taken + {o.id});
    assert sells - taken - {o.id} == sells - (taken + {o.id});
    if o.side.Buy? {
      assert sells - (taken + {o.id}) == sells - taken;
    } else {
      assert buys - (taken + {o.id}) == buys - taken;
    }
  }

  lemma {:induction false} NothingMerged(buys: map<u64, OrderAllocation>, sells: map<u64, OrderAllocation>)
    ensures Merge([], buys, sells) == Merged([], buys - IdSet([]), sells - IdSet([]))
  {
    assert IdSet([]) == {};
  }

  lemma {:induction false} MergeLast(orders: seq<Order>, buys: map<u64, OrderAllocation>, sells: map<u64, OrderAllocation>)
    requires orders != []
    ensures Merge(orders, buys, sells) == MergeOne(Merge(orders[..|orders|-1], buys, sells), orders[|orders|-1].id)
  {
    hide MergeOne;
  }

  lemma {:induction false} MergeFollowsRoutes(
      orders: seq<Order>, buys: map<u64, OrderAllocation>, sells: map<u64, OrderAllocation>, out: seq<OrderAllocation>)
    requires UniqueIds(orders) && Routed(orders, buys, sells, out)
    ensures Merge(orders, buys, sells) == Merged(out, buys - IdSet(orders), sells - IdSet(orders))
  {
    hide RoutedAt, MergeOne, IdSet, Merge;
    if orders == [] {
      NothingMerged(buys, sells);
    } else {
      var n := |orders| - 1;
      MergeLast(orders, buys, sells);
      assert RoutedAt(orders[n], buys, sells, out[n]);
      MergeFollowsRoutes(orders[..n], buys, sells, out[..n]);
      NewId(orders, n);
      MergeStep(Merge(orders[..n], buys, sells), buys, sells, IdSet(orders[..n]), orders[n], out[n]);
      IdSetExtends(orders[..n], orders[n]);
      assert orders == orders[..n] + [orders[n]] && out == out[..n] + [out[n]];
    }
  }

  /** The entry was taken out of its side's map, a sell only once no buy is left. */
  ghost predicate TakenFrom(e: OrderAllocation, m: Merged)
  {
    e.orderId !in m.buys && (e.side.Sell? ==> e.orderId !in m.sells)
  }

  ghost predicate KeyedBySide(m: map<u64, OrderAllocation>, side: Side)
  {
    forall id :: id in m ==> m[id].orderId == id && m[id].side == side
  }

  ghost predicate TakenOnce(m: Merged)
  {
    && KeyedBySide(m.buys, Buy) && KeyedBySide(m.sells, Sell)
    && (forall i :: 0 <= i < |m.out| ==> TakenFrom(m.out[i], m))
    && forall i, j :: 0 <= i < j < |m.out| && m.out[i].orderId == m.out[j].orderId ==> m.out[i].side.Buy? && m.out[j].side.Sell?
  }

  lemma {:induction false} MergeOneTakesOnce(m: Merged, id: u64)
    requires TakenOnce(m)
    ensures TakenOnce(MergeOne(m, id))
  {
    var n := MergeOne(m, id);
    forall i | 0 <= i < |n.out| ensures TakenFrom(n.out[i], n) {
      if i < |m.out| { assert n.out[i] == m.out[i] && TakenFrom(m.out[i], m); }
    }
    forall i, j | 0 <= i < j < |n.out| && n.out[i].orderId == n.out[j].orderId
      ensures n.out[i].side.Buy? && n.out[j].side.Sell?
    {
      assert n.out[i] == m.out[i] && TakenFrom(m.out[i], m);
      if j < |m.out| { assert n.out[j] == m.out[j]; }
    }
  }

  /** Whatever ids repeat, the merge hands out an entry at most once: a repeated
      id receives its buy entry first and its sell entry second. */
  lemma {:induction false} MergeTakesOnce(orders: seq<Order>, buys: map<u64, OrderAllocation>, sells: map<u64, OrderAllocation>)
    requires KeyedBySide(buys, Buy) && KeyedBySide(sells, Sell)
    ensures TakenOnce(Merge(orders, buys, sells))
  {
    hide MergeOne, TakenFrom, KeyedBySide;
    if orders != [] {
      var n := |orders| - 1;
      MergeTakesOnce(orders[..n], buys, sells);
      MergeOneTakesOnce(Merge(orders[..n], buys, sells), orders[n].id);
    }
  }

  lemma {:induction false} PositionalRoutes(orders: seq<Order>, cp: u64, fb: SideFills, fs: SideFills,
      buys: map<u64, OrderAllocation>, sells: map<u64, OrderAllocation>)
    requires UniqueIds(orders)
    requires Keyed(buys, orders, cp, Buy, fb) && Keyed(sells, orders, cp, Sell, fs)
    ensures Routed(orders, buys, sells, Positional(orders, cp, fb, fs))
  {
    var out := Positional(orders, cp, fb, fs);
    forall i | 0 <= i < |orders| ensures RoutedAt(orders[i], buys, sells, out[i]) {
      assert orders[i] in orders;
      if orders[i].side.Buy? { NotOnOtherSide(orders, i, sells, cp, Sell, fs); } else { NotOnOtherSide(orders, i, buys, cp, Buy, fb); }
    }
  }

  lemma {:induction false} NewId(orders: seq<Order>, i: nat)
    requires UniqueIds(orders) && i < |orders|
    ensures orders[i].id !in IdSet(orders[..i])
  {
    forall p | p in orders[..i] ensures p.id != orders[i].id {
      var j :| 0 <= j < i && orders[j] == p;
    }
  }

  lemma {:induction false} IdSetExtends(front: seq<Order>, o: Order)
    ensures IdSet(front + [o]) == IdSet(front) + {o.id}
  {
    forall id ensures id in IdSet(front + [o]) <==> id in IdSet(front) + {o.id} {
      assert forall p :: p in front + [o] <==> p in front || p == o;
    }
  }

  lemma {:induction false} NotOnOtherSide(orders: seq<Order>, i: nat, m: map<u64, OrderAllocation>, cp: u64, side: Side, f: SideFills)
    requires UniqueIds(orders) && i < |orders| && orders[i].side != side && Keyed(m, orders, cp, side, f)
    ensures orders[i].id !in m
  {
    forall p | p in orders && p.side == side ensures p.id != orders[i].id {
      var j :| 0 <= j < |orders| && orders[j] == p;
      assert i != j;
    }
  }

  // ---- The whole batch ----

  ghost function AllocatedOn(side: Side): OrderAllocation -> int
  {
    (a: OrderAllocation) => if a.side == side then a.allocatedQty else 0
  }

  /** One entry per order in batch order, nothing overfilled, nothing filled out
      of the money, and both sides filled to exactly the target. */
  ghost predicate ExactAllocation(orders: seq<Order>, cp: u64, v: u64, a: BatchAllocation)
  {
    && a.clearingPrice == Some(cp) && a.targetVolume == v && a.totalBuy == v && a.totalSell == v
    && |a.allocations| == |orders|
    && (forall i :: 0 <= i < |orders| ==> EntryRespects(orders[i], cp, a.allocations[i]))
    && Sum(a.allocations, AllocatedOn(Buy)) == v
    && Sum(a.allocations, AllocatedOn(Sell)) == v
  }

  /** The entry names the order and repeats its terms. */
  ghost predicate Carries(e: OrderAllocation, o: Order)
  {
    && e.orderId == o.id && e.account == o.account && e.side == o.side
    && e.limitPrice == o.price && e.originalQty == o.qty && e.seqNo == o.seqNo
  }

  ghost predicate EntryRespects(o: Order, cp: u64, e: OrderAllocation)
  {
    && Carries(e, o)
    && e.allocatedQty <= o.qty
    && ((if o.side.Buy? then o.price < cp else o.price > cp) ==> e.allocatedQty == 0)
  }

  lemma {:induction false} PositionalTotals(orders: seq<Order>, cp: u64, fb: SideFills, fs: SideFills)
    ensures Sum(Positional(orders, cp, fb, fs), AllocatedOn(Buy)) == Sum(orders, SideFill(Buy, cp, fb))
    ensures Sum(Positional(orders, cp, fb, fs), AllocatedOn(Sell)) == Sum(orders, SideFill(Sell, cp, fs))
  {
    if orders != [] {
      var n := |orders| - 1;
      PositionalTotals(orders[..n], cp, fb, fs);
      assert Positional(orders, cp, fb, fs)[..n] == Positional(orders[..n], cp, fb, fs);
    }
  }

  /** With unique ids the id-keyed merge is the order-by-order allocation. */
  lemma {:induction false} MergeIsPositional(orders: seq<Order>, cp: u64, fb: SideFills, fs: SideFills)
    requires UniqueIds(orders)
    ensures Merge(orders, EntryMap(SideEntries(orders, cp, Buy, fb)), EntryMap(SideEntries(orders, cp, Sell, fs))).out
         == Positional(orders, cp, fb, fs)
  {
    var buys := EntryMap(SideEntries(orders, cp, Buy, fb));
    var sells := EntryMap(SideEntries(orders, cp, Sell, fs));
    EntryMapKeyed(orders, cp, Buy, fb);
    EntryMapKeyed(orders, cp, Sell, fs);
    PositionalRoutes(orders, cp, fb, fs, buys, sells);
    MergeFollowsRoutes(orders, buys, sells, Positional(orders, cp, fb, fs));
  }

  lemma {:induction false} AllocateIsPositional(orders: seq<Order>, cp: u64, v: u64, fb: SideFills, fs: SideFills)
    requires UniqueIds(orders) && v > 0
    requires FillsFor(orders, cp, v, Buy) == Ok(fb) && FillsFor(orders, cp, v, Sell) == Ok(fs)
    requires SideExact(orders, cp, v, Buy, fb) && SideExact(orders, cp, v, Sell, fs)
    ensures Allocate(orders, Some(cp), v) == Ok(BatchAllocation(Some(cp), v, v, v, Positional(orders, cp, fb, fs)))
  {
    hide Merge, EntryMap, SideEntries, FillsFor;
    SideEntriesTotal(orders, cp, Buy, fb);
    SideEntriesTotal(orders, cp, Sell, fs);
    MergeIsPositional(orders, cp, fb, fs);
  }

  lemma {:induction false} PositionalIsExact(orders: seq<Order>, cp: u64, v: u64, fb: SideFills, fs: SideFills, a: BatchAllocation)
    requires SideExact(orders, cp, v, Buy, fb) && SideExact(orders, cp, v, Sell, fs)
    requires a == BatchAllocation(Some(cp), v, v, v, Positional(orders, cp, fb, fs))
    ensures ExactAllocation(orders, cp, v, a)
  {
    PositionalTotals(orders, cp, fb, fs);
    forall i | 0 <= i < |orders| ensures EntryRespects(orders[i], cp, a.allocations[i]) {
      assert orders[i] in orders;
    }
  }

  /** Allocation of a cleared volume cannot fail and is exact. */
  lemma {:induction false} AllocationIsExact(orders: seq<Order>, cp: u64, v: u64)
    requires UniqueIds(orders) && v > 0
    requires v <= Demand(orders, cp) <= MAX64 && v <= Supply(orders, cp) <= MAX64
    ensures Allocate(orders, Some(cp), v).Ok?
    ensures ExactAllocation(orders, cp, v, Allocate(orders, Some(cp), v).value)
  {
    SideIsExact(orders, cp, v, Buy);
    SideIsExact(orders, cp, v, Sell);
    var fb, fs := FillsFor(orders, cp, v, Buy).value, FillsFor(orders, cp, v, Sell).value;
    hide *;
    AllocateIsPositional(orders, cp, v, fb, fs);
    PositionalIsExact(orders, cp, v, fb, fs, Allocate(orders, Some(cp), v).value);
  }
}
