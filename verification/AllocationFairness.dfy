/** Who is served first, how equals compare, and when the choice of sorting
    algorithm could be seen in the result. */
module AllocationFairness {
  import opened Primitives
  import opened Sums
  import opened Sorting
  import opened Orders
  import opened Auction
  import opened LargestRemainder
  import opened Allocation
  import opened AllocationProperties

  // ---- Price priority ----

  lemma {:induction false} GreedyServesInOrder(s: seq<Order>, target: u64, i: nat, j: nat)
    requires i < j < |s| && GreedyFills(s, target)[j] > 0
    ensures GreedyFills(s, target)[i] == s[i].qty
  {
    SumStep(s, i, QtyOf());
    assert s[..j][..i+1] == s[..i+1];
    SumPrefixLe(s[..j], i + 1, QtyOf());
  }

  lemma {:induction false} ItmServesInOrder(itm: seq<Order>, v: u64, side: Side, o: Order, p: Order)
    requires UniqueIds(itm) && o in itm && p in itm && Priority(side)(o, p)
    requires Lookup(ItmMap(itm, v, side), p.id) > 0
    ensures Lookup(ItmMap(itm, v, side), o.id) == o.qty
  {
    hide FillMap, Lookup, SortBy, Qty, Sum, UniqueIds, SortedBy, StrictWeakOrder, Priority;
    if v <= Qty(itm) {
      var s := SortBy(Priority(side), itm);
      var fills := GreedyFills(s, v);
      PriorityIsOrder(side);
      SortBySorted(Priority(side), itm);
      UniqueIdsPermute(itm, s);
      var i, j := IndexIn(itm, s, o), IndexIn(itm, s, p);
      FillMapAt(s, fills, i);
      FillMapAt(s, fills, j);
      SortedPlaces(Priority(side), s, i, j);
      GreedyServesInOrder(s, v, i, j);
    } else {
      FullFill(itm, o);
    }
  }

  lemma {:induction false} SortedPlaces<T(!new)>(less: (T, T) -> bool, s: seq<T>, i: nat, j: nat)
    requires StrictWeakOrder(less) && SortedBy(less, s) && i < |s| && j < |s| && less(s[i], s[j])
    ensures i < j
  {
  }

  ghost function IndexIn(t: seq<Order>, s: seq<Order>, o: Order): (i: nat)
    requires multiset(t) == multiset(s) && o in t
    ensures i < |s| && s[i] == o
  {
    InMultiset(t, s, o);
    var i :| 0 <= i < |s| && s[i] == o;
    i
  }

  lemma {:induction false} FullFill(s: seq<Order>, o: Order)
    requires UniqueIds(s) && o in s
    ensures Lookup(FillMap(s, Quantities(s)), o.id) == o.qty
  {
    var i :| 0 <= i < |s| && s[i] == o;
    FillMapAt(s, Quantities(s), i);
  }

  /** A worse-priced order trades only once every better-priced order of its
      side is complete; inside the money, earlier orders come first too. */
  lemma {:induction false} SidePriority(orders: seq<Order>, cp: u64, v: u64, side: Side, o: Order, p: Order)
    requires UniqueIds(orders) && FillsFor(orders, cp, v, side).Ok?
    requires o in orders && p in orders && o.side == side && p.side == side
    requires BetterPrice(side, o.price, p.price) || (Classify(p, cp).InTheMoney? && Priority(side)(o, p))
    requires FillFor(p, cp, FillsFor(orders, cp, v, side).value) > 0
    ensures FillFor(o, cp, FillsFor(orders, cp, v, side).value) == o.qty
  {
    var itm := Select(orders, side, InTheMoney, cp);
    SelectMembers(orders, side, InTheMoney, cp);
    SelectUnique(orders, side, InTheMoney, cp);
    assert o in itm;
    if Classify(p, cp).InTheMoney? {
      assert p in itm;
      ItmServesInOrder(itm, v, side, o, p);
    } else {
      FullFill(itm, o);
    }
  }

  /** Inside the money, of two orders at one price the earlier one is complete
      before the later one trades. */
  lemma {:induction false} SideTimePriority(orders: seq<Order>, cp: u64, v: u64, side: Side, o: Order, p: Order)
    requires UniqueIds(orders) && FillsFor(orders, cp, v, side).Ok?
    requires o in orders && p in orders && o.side == side && p.side == side
    requires o.price == p.price != cp && o.seqNo < p.seqNo
    ensures FillFor(p, cp, FillsFor(orders, cp, v, side).value) > 0
            ==> FillFor(o, cp, FillsFor(orders, cp, v, side).value) == o.qty
  {
    hide FillsFor;
    if FillFor(p, cp, FillsFor(orders, cp, v, side).value) > 0 {
      SidePriority(orders, cp, v, side, o, p);
    }
  }

  // ---- Fairness at the money ----

  lemma {:induction false} AtmFairness(atm: seq<Order>, vRem: u64, o: Order, p: Order)
    requires UniqueIds(atm) && Qty(atm) <= MAX64 && o in atm && p in atm && p.qty <= o.qty
    ensures Lookup(AtmMap(atm, vRem), p.id) <= Lookup(AtmMap(atm, vRem), o.id) + (if p.qty == o.qty then 1 else 0)
  {
    if vRem > 0 {
      if vRem >= Qty(atm) {
        FullFill(atm, o);
        FullFill(atm, p);
      } else {
        ProRataFairness(atm, vRem, o, p);
      }
    }
  }

  lemma {:induction false} ProRataFairness(atm: seq<Order>, vRem: u64, o: Order, p: Order)
    requires UniqueIds(atm) && 0 < vRem < Qty(atm) <= MAX64 && o in atm && p in atm && p.qty <= o.qty
    ensures Lookup(AtmMap(atm, vRem), p.id) <= Lookup(AtmMap(atm, vRem), o.id) + (if p.qty == o.qty then 1 else 0)
  {
    var total: u64 := Qty(atm);
    LargestRemainderExact(atm, vRem);
    var s, surplus := Ranked(atm, vRem, total), Surplus(atm, vRem, total);
    RankedQuotas(atm, vRem, total);
    UniqueIdsPermute(atm, OrdersOf(s));
    var i, j := IndexIn(atm, OrdersOf(s), o), IndexIn(atm, OrdersOf(s), p);
    FillMapAt(OrdersOf(s), Awards(s, surplus), i);
    FillMapAt(OrdersOf(s), Awards(s, surplus), j);
    LargerNeverGetsLess(s, surplus, vRem, total, i, j);
  }

  /** One order of a ranking got an extra lot and the other did not. */
  lemma {:induction false} RankDecides(s: seq<Quota>, surplus: nat, i: nat, j: nat)
    requires SortedBy(QuotaLess, s) && i < |s| && j < |s|
    requires forall k :: 0 <= k < |s| ==> AwardAt(s[k], k, surplus) == s[k].baseFill + (if k < surplus then 1 else 0)
    requires AwardAt(s[i], i, surplus) > s[i].baseFill && AwardAt(s[j], j, surplus) <= s[j].baseFill
    ensures s[i].remainder >= s[j].remainder
    ensures s[i].remainder == s[j].remainder && s[i].order.seqNo == s[j].order.seqNo ==> s[i].order.id <= s[j].order.id
    ensures s[i].remainder == s[j].remainder ==> s[i].order.seqNo <= s[j].order.seqNo
  {
    assert i < surplus <= j;
    assert !QuotaLess(s[j], s[i]);
  }

  /** Every order at the money gets its share rounded down or up, and the lots
      rounded up go to the largest remainders, then to the earlier order, then
      to the smaller id. */
  lemma {:induction false} RemainderDecides(atm: seq<Order>, v: u64, o: Order, p: Order)
    requires UniqueIds(atm) && 0 < v < Qty(atm) <= MAX64 && o in atm && p in atm && o.id != p.id
    ensures o.qty * v / Qty(atm) <= Lookup(AtmMap(atm, v), o.id) <= o.qty * v / Qty(atm) + 1
    ensures Lookup(AtmMap(atm, v), o.id) > o.qty * v / Qty(atm) && Lookup(AtmMap(atm, v), p.id) <= p.qty * v / Qty(atm)
            ==> RoundedUpBefore(o, p, v, Qty(atm))
  {
    hide SortedBy, QuotaLess, FillMap, SortBy;
    var total: u64 := Qty(atm);
    LargestRemainderExact(atm, v);
    var s, surplus := Ranked(atm, v, total), Surplus(atm, v, total);
    RankedQuotas(atm, v, total);
    UniqueIdsPermute(atm, OrdersOf(s));
    var i, j := IndexIn(atm, OrdersOf(s), o), IndexIn(atm, OrdersOf(s), p);
    FillMapAt(OrdersOf(s), Awards(s, surplus), i);
    FillMapAt(OrdersOf(s), Awards(s, surplus), j);
    assert s[i] in s && s[j] in s;
    if AwardAt(s[i], i, surplus) > s[i].baseFill && AwardAt(s[j], j, surplus) <= s[j].baseFill {
      RankDecides(s, surplus, i, j);
    }
  }

  /** The remainder of one share is larger, or they tie and the order is earlier,
      or these tie and its id is smaller. */
  ghost predicate RoundedUpBefore(o: Order, p: Order, v: u64, total: u64)
    requires total > 0
  {
    var r, t := o.qty * v % total, p.qty * v % total;
    r > t || (r == t && (o.seqNo < p.seqNo || (o.seqNo == p.seqNo && o.id < p.id)))
  }

  lemma {:induction false} SideFairness(orders: seq<Order>, cp: u64, v: u64, side: Side, o: Order, p: Order)
    requires UniqueIds(orders) && FillsFor(orders, cp, v, side).Ok?
    requires o in orders && p in orders && o.side == side && p.side == side
    requires Classify(o, cp).AtTheMoney? && Classify(p, cp).AtTheMoney? && p.qty <= o.qty
    ensures FillFor(p, cp, FillsFor(orders, cp, v, side).value)
         <= FillFor(o, cp, FillsFor(orders, cp, v, side).value) + (if p.qty == o.qty then 1 else 0)
  {
    var atm := Select(orders, side, AtTheMoney, cp);
    SelectMembers(orders, side, AtTheMoney, cp);
    SelectUnique(orders, side, AtTheMoney, cp);
    AtmFairness(atm, SaturatingSubQty(v, Qty(Select(orders, side, InTheMoney, cp))), o, p);
  }

  // ---- The published allocation ----

  /** What the orders inside the money leave of the target, and the quantity at
      the money that shares it. */
  ghost function LeftAtMoney(orders: seq<Order>, cp: u64, v: u64, side: Side): int
  {
    v - Qty(Select(orders, side, InTheMoney, cp))
  }

  ghost function QtyAtMoney(orders: seq<Order>, cp: u64, side: Side): nat
  {
    Qty(Select(orders, side, AtTheMoney, cp))
  }

  /** The larger order gets at least as much; equal orders differ by one lot. */
  ghost predicate SharesFairly(o: Order, a: u64, p: Order, b: u64)
  {
    p.qty <= o.qty ==> b <= a + (if o.qty == p.qty then 1 else 0)
  }

  ghost predicate SharesByRemainder(o: Order, a: u64, p: Order, b: u64, left: u64, total: u64)
    requires total > 0
  {
    && o.qty * left / total <= a <= o.qty * left / total + 1
    && (a > o.qty * left / total && b <= p.qty * left / total ==> RoundedUpBefore(o, p, left, total))
  }

  /** What order `o` with fill `a` may claim against order `p` with fill `b` of
      its side: price, then time, then the proportional share. */
  ghost predicate Prevails(orders: seq<Order>, cp: u64, v: u64, o: Order, a: u64, p: Order, b: u64)
  {
    var left, total := LeftAtMoney(orders, cp, v, o.side), QtyAtMoney(orders, cp, o.side);
    && ((if o.side.Buy? then o.price > p.price else o.price < p.price) && b > 0 ==> a == o.qty)
    && (o.price == p.price != cp && o.seqNo < p.seqNo && b > 0 ==> a == o.qty)
    && (o.price == p.price == cp ==> SharesFairly(o, a, p, b))
    && (o.price == p.price == cp && 0 < left < total <= MAX64 ==> SharesByRemainder(o, a, p, b, left, total))
  }

  lemma {:induction false} SideByRemainder(orders: seq<Order>, cp: u64, v: u64, side: Side, o: Order, p: Order)
    requires UniqueIds(orders) && FillsFor(orders, cp, v, side).Ok?
    requires o in orders && p in orders && o.side == side && p.side == side && o.price == p.price == cp && o.id != p.id
    requires 0 < LeftAtMoney(orders, cp, v, side) < QtyAtMoney(orders, cp, side) <= MAX64
    ensures var f := FillsFor(orders, cp, v, side).value;
            SharesByRemainder(o, FillFor(o, cp, f), p, FillFor(p, cp, f), LeftAtMoney(orders, cp, v, side), QtyAtMoney(orders, cp, side))
  {
    hide RoundedUpBefore, AtmMap, ItmMap, Qty, UniqueIds;
    var atm := Select(orders, side, AtTheMoney, cp);
    SelectMembers(orders, side, AtTheMoney, cp);
    SelectUnique(orders, side, AtTheMoney, cp);
    RemainderDecides(atm, LeftAtMoney(orders, cp, v, side), o, p);
  }

  lemma {:induction false} SidePrevails(orders: seq<Order>, cp: u64, v: u64, side: Side, o: Order, p: Order)
    requires UniqueIds(orders) && FillsFor(orders, cp, v, side).Ok?
    requires o in orders && p in orders && o.side == side && p.side == side && o.id != p.id
    ensures var f := FillsFor(orders, cp, v, side).value;
            Prevails(orders, cp, v, o, FillFor(o, cp, f), p, FillFor(p, cp, f))
  {
    hide FillsFor, FillFor, SharesByRemainder, LeftAtMoney, QtyAtMoney;
    var f := FillsFor(orders, cp, v, side).value;
    if BetterPrice(side, o.price, p.price) && FillFor(p, cp, f) > 0 { SidePriority(orders, cp, v, side, o, p); }
    if o.price == p.price != cp && o.seqNo < p.seqNo { SideTimePriority(orders, cp, v, side, o, p); }
    if o.price == p.price == cp && p.qty <= o.qty { SideFairness(orders, cp, v, side, o, p); }
    if o.price == p.price == cp && 0 < LeftAtMoney(orders, cp, v, side) < QtyAtMoney(orders, cp, side) <= MAX64 {
      SideByRemainder(orders, cp, v, side, o, p);
    }
  }

  /** Price, time and pro-rata priority of a cleared batch's allocation: what
      every order may claim against every other order of its side. */
  lemma {:induction false} AllocationIsFair(orders: seq<Order>, cp: u64, v: u64, i: nat, j: nat)
    requires UniqueIds(orders) && v > 0
    requires v <= Demand(orders, cp) <= MAX64 && v <= Supply(orders, cp) <= MAX64
    requires i < |orders| && j < |orders| && i != j && orders[i].side == orders[j].side
    ensures Allocate(orders, Some(cp), v).Ok? && |Allocate(orders, Some(cp), v).value.allocations| == |orders|
    ensures var a := Allocate(orders, Some(cp), v).value.allocations;
            Prevails(orders, cp, v, orders[i], a[i].allocatedQty, orders[j], a[j].allocatedQty)
  {
    hide FillsFor, Prevails, FillFor;
    SideIsExact(orders, cp, v, Buy);
    SideIsExact(orders, cp, v, Sell);
    var fb, fs := FillsFor(orders, cp, v, Buy).value, FillsFor(orders, cp, v, Sell).value;
    AllocateIsPositional(orders, cp, v, fb, fs);
    SidePrevails(orders, cp, v, orders[i].side, orders[i], orders[j]);
  }

  // ---- Is the sorting algorithm observable? ----

  ghost predicate DistinctTimes(s: seq<Order>)
  {
    forall i, j :: 0 <= i < j < |s| ==> s[i].seqNo != s[j].seqNo
  }

  /** With distinct sequence numbers every correct sort of the in-the-money
      orders gives the same fills. */
  lemma {:induction false} ItmSortUnobservable(itm: seq<Order>, side: Side, anySort: seq<Order>)
    requires DistinctTimes(itm)
    requires multiset(anySort) == multiset(itm) && SortedBy(Priority(side), anySort)
    ensures anySort == SortBy(Priority(side), itm)
  {
    PriorityIsOrder(side);
    SortBySorted(Priority(side), itm);
    var s := SortBy(Priority(side), itm);
    forall i, j | 0 <= i < |s| && 0 <= j < |s| && s[i] != s[j]
      ensures Priority(side)(s[i], s[j]) || Priority(side)(s[j], s[i])
    {
      InMultiset(itm, s, s[i]);
      InMultiset(itm, s, s[j]);
      var k :| 0 <= k < |itm| && itm[k] == s[i];
      var m :| 0 <= m < |itm| && itm[m] == s[j];
      assert k != m;
    }
    SortedUnique(Priority(side), s, anySort);
  }

  lemma {:induction false} RankedIsPermutation(atm: seq<Order>, v: u64, total: u64)
    requires v < total
    ensures multiset(Ranked(atm, v, total)) == multiset(Quotas(atm, v, total))
  {
  }

  lemma {:induction false} QuotaOrders(atm: seq<Order>, v: u64, total: u64)
    requires v < total
    ensures forall i :: 0 <= i < |atm| ==> Quotas(atm, v, total)[i].order == atm[i]
  {
  }

  /** The remainder ranking breaks every tie by id, so with unique ids the
      pro-rata result never depends on the sort. */
  lemma {:induction false} ProRataSortUnobservable(atm: seq<Order>, v: u64, total: u64, anySort: seq<Quota>)
    requires v < total && UniqueIds(atm)
    requires multiset(anySort) == multiset(Quotas(atm, v, total)) && SortedBy(QuotaLess, anySort)
    ensures anySort == Ranked(atm, v, total)
  {
    hide Ranked, QuotaOf, SortedBy, AreQuotas;
    var s, qs := Ranked(atm, v, total), Quotas(atm, v, total);
    RankedQuotas(atm, v, total);
    RankedIsPermutation(atm, v, total);
    QuotaOrders(atm, v, total);
    forall i, j | 0 <= i < |s| && 0 <= j < |s| && s[i] != s[j] ensures s[i].order.id != s[j].order.id {
      InMultiset(qs, s, s[i]);
      InMultiset(qs, s, s[j]);
      var k :| 0 <= k < |qs| && qs[k] == s[i];
      var m :| 0 <= m < |qs| && qs[m] == s[j];
      assert k != m;
    }
    SortedUnique(QuotaLess, s, anySort);
  }
}
