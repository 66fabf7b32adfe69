/** The allocator as it runs: loops over vectors, running 64-bit counters and
    id-keyed maps, each proved to compute the allocation rule. */
module AllocationEngine {
  import opened Primitives
  import opened Sums
  import opened Sorting
  import opened Orders
  import opened LargestRemainder
  import opened Allocation

  lemma {:induction false} ClassPrefixLe(orders: seq<Order>, i: nat, side: Side, m: Moneyness, cp: u64)
    requires i <= |orders|
    ensures Qty(Select(orders[..i], side, m, cp)) <= Qty(Select(orders, side, m, cp))
  {
    SumSelect(orders, side, m, cp, QtyOf(), ClassQty(side, m, cp));
    SumSelect(orders[..i], side, m, cp, QtyOf(), ClassQty(side, m, cp));
    SumPrefixLe(orders, i, ClassQty(side, m, cp));
  }

  lemma {:induction false} QtyAppend(s: seq<Order>, o: Order)
    ensures Qty(s + [o]) == Qty(s) + o.qty
  {
    assert (s + [o])[..|s|] == s;
  }

  datatype Classes = Classes(itm: seq<Order>, atm: seq<Order>, qItm: u64, qAtm: u64)

  lemma {:induction false} NothingSelected(orders: seq<Order>, cp: u64, side: Side)
    ensures Select(orders[..0], side, InTheMoney, cp) == [] && Select(orders[..0], side, AtTheMoney, cp) == []
    ensures Qty([]) == 0
  {
  }

  method Partition(orders: seq<Order>, cp: u64, side: Side) returns (r: Result<Classes>)
    ensures var itm, atm := Select(orders, side, InTheMoney, cp), Select(orders, side, AtTheMoney, cp);
            r == if Qty(itm) > MAX64 || Qty(atm) > MAX64 then Err else Ok(Classes(itm, atm, Qty(itm), Qty(atm)))
  {
    hide Qty, Select, Classify;
    NothingSelected(orders, cp, side);
    var itm: seq<Order>, atm: seq<Order> := [], [];
    var qItm: u64, qAtm: u64 := 0, 0;
    for i := 0 to |orders|
      invariant itm == Select(orders[..i], side, InTheMoney, cp) && qItm == Qty(itm)
      invariant atm == Select(orders[..i], side, AtTheMoney, cp) && qAtm == Qty(atm)
    {
      var o := orders[i];
      SelectStep(orders, i, side, InTheMoney, cp);
      SelectStep(orders, i, side, AtTheMoney, cp);
      ClassPrefixLe(orders, i + 1, side, InTheMoney, cp);
      ClassPrefixLe(orders, i + 1, side, AtTheMoney, cp);
      QtyAppend(itm, o);
      QtyAppend(atm, o);
      if o.side == side {
        match Classify(o, cp)
        case InTheMoney =>
          var res := AddQty(qItm, o.qty);
          if res.Err? { return Err; }
          qItm, itm := res.value, itm + [o];
        case AtTheMoney =>
          var res := AddQty(qAtm, o.qty);
          if res.Err? { return Err; }
          qAtm, atm := res.value, atm + [o];
        case OutOfTheMoney =>
      }
    }
    assert orders[..|orders|] == orders;
    return Ok(Classes(itm, atm, qItm, qAtm));
  }

  method FillInTheMoney(itm: seq<Order>, target: u64, qItm: u64, side: Side) returns (fills: map<u64, u64>, vRem: u64)
    requires qItm == Qty(itm)
    ensures fills == ItmMap(itm, target, side)
    ensures vRem == SaturatingSubQty(target, qItm)
  {
    fills := map[];
    if target <= qItm {
      var remTarget: u64 := target;
      var sorted := SortBy(Priority(side), itm);
      ghost var awards := GreedyFills(sorted, target);
      for i := 0 to |sorted|
        invariant remTarget == Remaining(sorted, target, i)
        invariant fills == FillMap(sorted[..i], awards[..i])
      {
        var fill: u64 := Min(sorted[i].qty, remTarget);
        FillMapStep(sorted, awards, i);
        RemainingStep(sorted, target, i);
        fills := fills[sorted[i].id := fill];
        remTarget := remTarget - fill;
      }
      assert sorted[..|sorted|] == sorted && awards[..|sorted|] == awards;
      vRem := 0;
    } else {
      fills := FillFully(itm);
      vRem := target - qItm;
    }
  }

  method FillFully(s: seq<Order>) returns (fills: map<u64, u64>)
    ensures fills == FillMap(s, Quantities(s))
  {
    fills := map[];
    for i := 0 to |s|
      invariant fills == FillMap(s[..i], Quantities(s)[..i])
    {
      FillMapStep(s, Quantities(s), i);
      fills := fills[s[i].id := s[i].qty];
    }
    assert s[..|s|] == s && Quantities(s)[..|s|] == Quantities(s);
  }

  method FillAtTheMoney(atm: seq<Order>, vRem: u64, qAtm: u64) returns (fills: map<u64, u64>)
    requires qAtm == Qty(atm)
    ensures fills == AtmMap(atm, vRem)
  {
    if vRem > 0 && atm != [] {
      if vRem >= qAtm {
        fills := FillFully(atm);
      } else {
        fills := ProRate(atm, vRem, qAtm);
      }
    } else {
      fills := map[];
    }
  }

  lemma {:induction false} NoSum<T>(s: seq<T>, f: T -> int)
    ensures Sum(s[..0], f) == 0
  {
  }

  /** Floor shares with a running 64-bit base sum, then one extra lot to each of
      the largest remainders while the surplus counts down. */
  method ProRate(atm: seq<Order>, vRem: u64, qAtm: u64) returns (fills: map<u64, u64>)
    requires vRem < qAtm == Qty(atm)
    ensures 0 <= Surplus(atm, vRem, qAtm)
    ensures fills == FillMap(OrdersOf(Ranked(atm, vRem, qAtm)),
                             Awards(Ranked(atm, vRem, qAtm), Surplus(atm, vRem, qAtm)))
  {
    hide FillMap, Awards, OrdersOf, QuotaOf, Qty, Sum;
    LargestRemainderExact(atm, vRem);
    ghost var quotas := Quotas(atm, vRem, qAtm);
    var candidates: seq<Quota> := [];
    var baseSum: u64 := 0;
    assert Sum(quotas[..0], BaseOf()) == 0 by { NoSum(quotas, BaseOf()); }
    for i := 0 to |atm|
      invariant candidates == quotas[..i]
      invariant baseSum == Sum(quotas[..i], BaseOf())
    {
      SumStep(quotas, i, BaseOf());
      SumPrefixLe(quotas, i + 1, BaseOf());
      var c := QuotaOf(atm[i], vRem, qAtm);
      baseSum := baseSum + c.baseFill;
      candidates := candidates + [c];
    }
    assert quotas[..|atm|] == quotas;
    var surplus: u64 := vRem - baseSum;
    var sorted := SortBy(QuotaLess, candidates);
    fills := AwardExtras(sorted, surplus);
  }

  method AwardExtras(sorted: seq<Quota>, surplus: u64) returns (fills: map<u64, u64>)
    ensures fills == FillMap(OrdersOf(sorted), Awards(sorted, surplus))
  {
    fills := map[];
    var left: u64 := surplus;
    ghost var s, awards := OrdersOf(sorted), Awards(sorted, surplus);
    for i := 0 to |sorted|
      invariant left == if i < surplus then surplus - i else 0
      invariant fills == FillMap(s[..i], awards[..i])
    {
      var extra := if left > 0 then 1 else 0;
      if left > 0 { left := left - 1; }
      var c := sorted[i];
      var total: u64 := Min(c.baseFill + extra, c.order.qty);
      FillMapStep(s, awards, i);
      fills := fills[c.order.id := total];
    }
    assert s[..|s|] == s && awards[..|s|] == awards;
  }

  method EntriesFor(orders: seq<Order>, cp: u64, side: Side, f: SideFills) returns (entries: seq<OrderAllocation>)
    ensures entries == SideEntries(orders, cp, side, f)
  {
    entries := [];
    for i := 0 to |orders|
      invariant entries == SideEntries(orders[..i], cp, side, f)
    {
      assert orders[..i+1][..i] == orders[..i];
      if orders[i].side == side {
        entries := entries + [Entry(orders[i], FillFor(orders[i], cp, f))];
      }
    }
    assert orders[..|orders|] == orders;
  }

  method AllocateOneSide(orders: seq<Order>, cp: u64, v: u64, side: Side) returns (r: Result<seq<OrderAllocation>>)
    ensures r == AllocateSide(orders, cp, v, side)
  {
    if v == 0 {
      var zeros := EntriesFor(orders, cp, side, SideFills(map[], map[]));
      return Ok(zeros);
    }
    var p := Partition(orders, cp, side);
    if p.Err? { return Err; }
    var itmFills, vRem := FillInTheMoney(p.value.itm, v, p.value.qItm, side);
    var atmFills := FillAtTheMoney(p.value.atm, vRem, p.value.qAtm);
    var entries := EntriesFor(orders, cp, side, SideFills(itmFills, atmFills));
    return Ok(entries);
  }

  lemma {:induction false} WrapAdd(a: int, b: int)
    ensures Wrap64(Wrap64(a) + b) == Wrap64(a + b)
  {
    var m := 0x1_0000_0000_0000_0000;
    assert a == m * (a / m) + a % m;
    var c := a % m + b;
    assert c == m * (c / m) + c % m;
    var q := a / m + c / m;
    assert a + b == m * q + c % m;
  }

  method SumAllocated(entries: seq<OrderAllocation>) returns (total: u64)
    ensures total == Wrap64(Sum(entries, Allocated()))
  {
    total := 0;
    for i := 0 to |entries|
      invariant total == Wrap64(Sum(entries[..i], Allocated()))
    {
      SumStep(entries, i, Allocated());
      WrapAdd(Sum(entries[..i], Allocated()), entries[i].allocatedQty);
      total := Wrap64(total + entries[i].allocatedQty);
    }
    SumAll(entries, Allocated());
  }

  method ById(entries: seq<OrderAllocation>) returns (m: map<u64, OrderAllocation>)
    ensures m == EntryMap(entries)
  {
    m := map[];
    for i := 0 to |entries|
      invariant m == EntryMap(entries[..i])
    {
      assert entries[..i+1][..i] == entries[..i];
      m := m[entries[i].orderId := entries[i]];
    }
    assert entries[..|entries|] == entries;
  }

  method AllocateBatch(batch: Batch, price: Option<u64>, v: u64) returns (r: Result<BatchAllocation>)
    ensures r == Allocate(batch.orders, price, v)
  {
    hide AllocateSide, EntryMap, MergeOne, Sum, Allocated, Wrap64;
    if price.None? || v == 0 {
      return Ok(BatchAllocation(None, 0, 0, 0, Unfilled(batch.orders)));
    }
    var cp := price.value;
    var buys := AllocateOneSide(batch.orders, cp, v, Buy);
    if buys.Err? { return Err; }
    var sells := AllocateOneSide(batch.orders, cp, v, Sell);
    if sells.Err? { return Err; }
    var buySum := SumAllocated(buys.value);
    var sellSum := SumAllocated(sells.value);
    var buyMap := ById(buys.value);
    var sellMap := ById(sells.value);
    var m := Merged([], buyMap, sellMap);
    for i := 0 to |batch.orders|
      invariant m == Merge(batch.orders[..i], buyMap, sellMap)
    {
      assert batch.orders[..i+1][..i] == batch.orders[..i];
      m := MergeOne(m, batch.orders[i].id);
    }
    assert batch.orders[..|batch.orders|] == batch.orders;
    return Ok(BatchAllocation(price, v, buySum, sellSum, m.out));
  }
}
