/** Settling canonical fills conserves cash and inventory by construction: the
    conservation guards of the transition can never fire. */
module SettlementProperties {
  import opened Primitives
  import opened Sums
  import opened Orders
  import opened Auction
  import opened Allocation
  import opened AllocationProperties
  import opened Ledgers
  import opened Settlement

  // ---- What one settled fill does to the totals ----

  ghost predicate Positive(f: Fill) { f.qty > 0 && f.consideration > 0 }

  function Sign(side: Side): int { if side.Buy? then 1 else -1 }

  ghost function CashOut(): Fill -> int { (f: Fill) => Sign(f.side) * f.consideration }

  ghost function InventoryIn(instrument: u64): Fill -> int
  {
    (f: Fill) => if f.instrument == instrument then Sign(f.side) * f.qty else 0
  }

  lemma {:induction false} SettledAccount(a: Account, f: Fill, instrument: u64)
    requires SettleAccount(a, f).Ok?
    ensures SettleAccount(a, f).value.cash == a.cash - CashOut()(f)
    ensures InventoryOf(SettleAccount(a, f).value, instrument) == InventoryOf(a, instrument) + InventoryIn(instrument)(f)
    ensures SettleAccount(a, f).value.salt == a.salt
  {
  }

  /** A settled account holds no empty position if it held none before. */
  lemma {:induction false} NoEmptyPositions(a: Account, f: Fill)
    requires SettleAccount(a, f).Ok? && f.qty > 0
    requires forall x :: x in a.inventory ==> a.inventory[x] > 0
    ensures forall x :: x in SettleAccount(a, f).value.inventory ==> SettleAccount(a, f).value.inventory[x] > 0
  {
  }

  /** A fill that settles found its account already open: a fresh account can
      neither pay nor deliver a positive amount. */
  lemma {:induction false} SettleEffect(l: Accounts, f: Fill, instrument: u64)
    requires Positive(f) && Settle(l, f).Ok?
    ensures Settle(l, f).value.Keys == l.Keys
    ensures TotalCash(Settle(l, f).value) == TotalCash(l) - CashOut()(f)
    ensures TotalInventory(Settle(l, f).value, instrument) == TotalInventory(l, instrument) + InventoryIn(instrument)(f)
  {
    assert f.account in l;
    var a := SettleAccount(l[f.account], f).value;
    SettledAccount(l[f.account], f, instrument);
    TotalUpdate(l, f.account, a, Cash());
    TotalUpdate(l, f.account, a, Holding(instrument));
  }

  lemma {:induction false} SettleAllEffect(l: Accounts, fills: seq<Fill>, instrument: u64)
    requires SettleAll(l, fills).Ok? && forall f :: f in fills ==> Positive(f)
    ensures SettleAll(l, fills).value.Keys == l.Keys
    ensures TotalCash(SettleAll(l, fills).value) == TotalCash(l) - Sum(fills, CashOut())
    ensures TotalInventory(SettleAll(l, fills).value, instrument)
         == TotalInventory(l, instrument) + Sum(fills, InventoryIn(instrument))
  {
    if fills != [] {
      var front, last := fills[..|fills|-1], fills[|fills|-1];
      assert last in fills && forall f :: f in front ==> f in fills;
      SettleAllEffect(l, front, instrument);
      SettleEffect(SettleAll(l, front).value, last, instrument);
    }
  }

  // ---- Canonical fills balance ----

  ghost function NetQty(): Fill -> int { (f: Fill) => Sign(f.side) * f.qty }

  ghost predicate PricedAt(f: Fill, instrument: u64, cp: u64)
  {
    Positive(f) && f.instrument == instrument && f.price == cp && f.consideration == cp * f.qty
  }

  /** Fills at one price on one instrument, equal in quantity on both sides. */
  ghost predicate Balanced(fills: seq<Fill>, instrument: u64, cp: u64, v: u64)
  {
    && (forall f :: f in fills ==> PricedAt(f, instrument, cp))
    && Sum(fills, QtyFilled(Buy)) == v
    && Sum(fills, QtyFilled(Sell)) == v
  }

  lemma {:induction false} BalancedNetsToZero(fills: seq<Fill>, instrument: u64, cp: u64, v: u64)
    requires Balanced(fills, instrument, cp, v)
    ensures Sum(fills, CashOut()) == 0 && Sum(fills, InventoryIn(instrument)) == 0
  {
    SumAdd(fills, NetQty(), QtyFilled(Sell), QtyFilled(Buy));
    SumSame(fills, NetQty(), InventoryIn(instrument));
    forall f | f in fills ensures CashOut()(f) == cp * NetQty()(f) { }
    SumScale(fills, NetQty(), cp, CashOut());
  }

  lemma {:induction false} BalancedPositive(fills: seq<Fill>, instrument: u64, cp: u64, v: u64)
    requires Balanced(fills, instrument, cp, v)
    ensures forall f :: f in fills ==> Positive(f)
  {
  }

  lemma {:induction false} BalancedSettlement(pre: Accounts, fills: seq<Fill>, post: Accounts, instrument: u64, cp: u64, v: u64)
    requires Balanced(fills, instrument, cp, v) && SettleAll(pre, fills) == Ok(post)
    ensures post.Keys == pre.Keys
    ensures TotalCash(post) == TotalCash(pre)
    ensures TotalInventory(post, instrument) == TotalInventory(pre, instrument)
  {
    hide *;
    BalancedPositive(fills, instrument, cp, v);
    BalancedNetsToZero(fills, instrument, cp, v);
    SettleAllEffect(pre, fills, instrument);
  }

  lemma {:induction false} TouchedInstrument(fills: seq<Fill>, instrument: u64, cp: u64, v: u64)
    requires Balanced(fills, instrument, cp, v)
    ensures Touched(fills) == if fills == [] then {} else {instrument}
  {
    if fills != [] { assert fills[0] in fills; }
  }

  lemma {:induction false} ConservedWhenRepresentable(pre: Accounts, post: Accounts, fills: seq<Fill>, instrument: u64)
    requires Touched(fills) == if fills == [] then {} else {instrument}
    requires TotalCash(post) == TotalCash(pre)
    requires TotalInventory(post, instrument) == TotalInventory(pre, instrument)
    ensures Conserved(pre, post, fills) <==>
              TotalCash(pre) <= MAX128 && (fills != [] ==> TotalInventory(pre, instrument) <= MAX64)
  {
    hide TotalCash, TotalInventory, Touched;
    if fills != [] { assert instrument in Touched(fills); }
  }

  /** The conservation guards cannot fire on balanced fills: whenever every
      debit and credit succeeds, the transition succeeds exactly when the
      pre-state totals it re-adds are representable. */
  lemma {:induction false} GuardsNeverFire(pre: Accounts, fills: seq<Fill>, instrument: u64, cp: u64, v: u64)
    requires Balanced(fills, instrument, cp, v)
    ensures SettleAll(pre, fills).Ok? ==> SettleAll(pre, fills).value.Keys == pre.Keys
    ensures Transition(pre, fills).Ok? <==>
              && SettleAll(pre, fills).Ok?
              && TotalCash(pre) <= MAX128
              && (fills != [] ==> TotalInventory(pre, instrument) <= MAX64)
    ensures Transition(pre, fills).Ok? ==> Transition(pre, fills) == SettleAll(pre, fills)
  {
    hide SettleAll, TotalCash, TotalInventory, Touched, Balanced, Conserved;
    if SettleAll(pre, fills).Ok? {
      TouchedInstrument(fills, instrument, cp, v);
      BalancedSettlement(pre, fills, SettleAll(pre, fills).value, instrument, cp, v);
      ConservedWhenRepresentable(pre, SettleAll(pre, fills).value, fills, instrument);
    }
  }

  /** Of any positive fills, balanced or not, the transition accepts exactly those
      that settle, net to zero cash and zero of every instrument they touch, and
      start from representable totals. */
  lemma {:induction false} TransitionConservesExactly(pre: Accounts, fills: seq<Fill>)
    requires forall f :: f in fills ==> Positive(f)
    ensures Transition(pre, fills).Ok? <==>
              && SettleAll(pre, fills).Ok?
              && Sum(fills, CashOut()) == 0 && TotalCash(pre) <= MAX128
              && forall f :: f in fills ==>
                   Sum(fills, InventoryIn(f.instrument)) == 0 && TotalInventory(pre, f.instrument) <= MAX64
  {
    hide SettleAll, TotalCash, TotalInventory, Positive, Sum;
    if SettleAll(pre, fills).Ok? {
      SettleAllEffect(pre, fills, 0);
      forall x: u64
        ensures TotalInventory(SettleAll(pre, fills).value, x) == TotalInventory(pre, x) + Sum(fills, InventoryIn(x))
      {
        SettleAllEffect(pre, fills, x);
      }
      forall f | f in fills ensures f.instrument in Touched(fills) {}
    }
  }

  // ---- The pipeline produces balanced fills ----

  ghost predicate FillMatches(f: Fill, o: Order, cp: u64)
  {
    && f.orderId == o.id && f.account == o.account && f.side == o.side
    && f.qty <= o.qty
    && (if o.side.Buy? then cp <= o.price else o.price <= cp)
  }

  /** Every fill belongs to one order of the batch and respects its terms. */
  ghost predicate FillsMatch(fills: seq<Fill>, orders: seq<Order>, cp: u64)
  {
    forall f :: f in fills ==> exists o :: o in orders && FillMatches(f, o, cp)
  }

  ghost predicate Respected(orders: seq<Order>, cp: u64, entries: seq<OrderAllocation>)
  {
    |entries| == |orders| && forall i :: 0 <= i < |orders| ==> EntryRespects(orders[i], cp, entries[i])
  }

  lemma {:induction false} CreatedFill(id: nat, o: Order, e: OrderAllocation, instrument: u64, cp: u64)
    requires EntryRespects(o, cp, e) && e.allocatedQty > 0 && cp > 0
    ensures CreateFill(id, e, instrument, cp).Ok?
    ensures PricedAt(CreateFill(id, e, instrument, cp).value, instrument, cp)
    ensures FillMatches(CreateFill(id, e, instrument, cp).value, o, cp)
    ensures forall side :: QtyFilled(side)(CreateFill(id, e, instrument, cp).value) == AllocatedOn(side)(e)
  {
    ProductNeverOverflows(cp, e.allocatedQty);
    MulLe(1, 1, cp, e.allocatedQty);
  }

  lemma {:induction false} FillsOfLast(entries: seq<OrderAllocation>, instrument: u64, cp: u64)
    requires entries != [] && FillsOf(entries[..|entries|-1], instrument, cp).Ok?
    ensures var fills, last := FillsOf(entries[..|entries|-1], instrument, cp).value, entries[|entries|-1];
            FillsOf(entries, instrument, cp) ==
            if last.allocatedQty == 0 then Ok(fills)
            else match CreateFill(|fills|, last, instrument, cp) case Ok(f) => Ok(fills + [f]) case Err => Err
  {
    hide CreateFill;
  }

  /** Filling in allocation order keeps every term and every quantity. */
  lemma {:induction false} FillsOfEntries(orders: seq<Order>, entries: seq<OrderAllocation>, instrument: u64, cp: u64, side: Side)
    requires Respected(orders, cp, entries) && cp > 0
    ensures FillsOf(entries, instrument, cp).Ok?
    ensures forall f :: f in FillsOf(entries, instrument, cp).value ==> PricedAt(f, instrument, cp)
    ensures FillsMatch(FillsOf(entries, instrument, cp).value, orders, cp)
    ensures Sum(FillsOf(entries, instrument, cp).value, QtyFilled(side)) == Sum(entries, AllocatedOn(side))
  {
    hide EntryRespects, PricedAt, FillMatches, QtyFilled, AllocatedOn, CreateFill, FillsOf, Sum, FillsMatch;
    if entries == [] {
      NothingToFill(orders, instrument, cp, side);
    } else {
      var n := |entries| - 1;
      var front := orders[..n];
      assert EntryRespects(orders[n], cp, entries[n]);
      assert Respected(front, cp, entries[..n]);
      FillsOfEntries(front, entries[..n], instrument, cp, side);
      FillsOfLast(entries, instrument, cp);
      var fills := FillsOf(entries[..n], instrument, cp).value;
      forall o | o in front ensures o in orders {}
      MatchMore(fills, front, orders, cp);
      assert entries == entries[..n] + [entries[n]];
      SumAppend(entries[..n], entries[n], AllocatedOn(side));
      if entries[n].allocatedQty > 0 {
        CreatedFill(|fills|, orders[n], entries[n], instrument, cp);
        var f := CreateFill(|fills|, entries[n], instrument, cp).value;
        MatchOneMore(fills, f, orders, orders[n], cp);
        SumAppend(fills, f, QtyFilled(side));
      } else {
        NothingAllocated(entries[n], side);
      }
    }
  }

  lemma {:induction false} NothingToFill(orders: seq<Order>, instrument: u64, cp: u64, side: Side)
    ensures FillsOf([], instrument, cp) == Ok([]) && FillsMatch([], orders, cp)
    ensures Sum([], QtyFilled(side)) == Sum([], AllocatedOn(side))
  {
  }

  lemma {:induction false} MatchOneMore(fills: seq<Fill>, f: Fill, orders: seq<Order>, o: Order, cp: u64)
    requires FillsMatch(fills, orders, cp) && o in orders && FillMatches(f, o, cp)
    ensures FillsMatch(fills + [f], orders, cp)
  {
    hide FillMatches;
  }

  lemma {:induction false} MatchMore(fills: seq<Fill>, front: seq<Order>, orders: seq<Order>, cp: u64)
    requires FillsMatch(fills, front, cp) && forall o :: o in front ==> o in orders
    ensures FillsMatch(fills, orders, cp)
  {
    hide FillMatches;
  }

  lemma {:induction false} NothingAllocated(e: OrderAllocation, side: Side)
    requires e.allocatedQty == 0
    ensures AllocatedOn(side)(e) == 0
  {
  }

  /** One entry per order, in batch order, without a fill. */
  ghost predicate NothingAllocatedTo(orders: seq<Order>, entries: seq<OrderAllocation>)
  {
    && |entries| == |orders|
    && forall i :: 0 <= i < |orders| ==> Carries(entries[i], orders[i]) && entries[i].allocatedQty == 0
  }

  /** The fill that one entry becomes. */
  ghost predicate FillOf(f: Fill, number: nat, e: OrderAllocation, instrument: u64, cp: u64)
  {
    && f.fillId == number && f.orderId == e.orderId && f.account == e.account && f.side == e.side
    && f.instrument == instrument && f.price == cp && f.qty == e.allocatedQty > 0 && f.consideration == cp * e.allocatedQty
  }

  /** Fills are numbered from zero and are, in allocation order, the entries with
      a fill: `from[k]` is the entry of fill `k`, and no such entry is left out. */
  lemma {:induction false} FillsAreEntries(entries: seq<OrderAllocation>, instrument: u64, cp: u64) returns (from: seq<nat>)
    requires FillsOf(entries, instrument, cp).Ok?
    ensures |from| == |FillsOf(entries, instrument, cp).value|
    ensures forall k :: 0 <= k < |from| ==>
              from[k] < |entries| && FillOf(FillsOf(entries, instrument, cp).value[k], k, entries[from[k]], instrument, cp)
    ensures forall k, l :: 0 <= k < l < |from| ==> from[k] < from[l]
    ensures forall i: nat :: i < |entries| && entries[i].allocatedQty > 0 ==> i in from
  {
    hide FillOf, CreateFill, FillsOf;
    if entries == [] {
      from := [];
      NothingToFill([], instrument, cp, Buy);
    } else {
      var n := |entries| - 1;
      FrontFilled(entries, instrument, cp);
      from := FillsAreEntries(entries[..n], instrument, cp);
      FillsOfLast(entries, instrument, cp);
      if entries[n].allocatedQty > 0 {
        CreatedOf(|from|, entries[n], instrument, cp);
        from := from + [n];
      }
    }
  }

  lemma {:induction false} FrontFilled(entries: seq<OrderAllocation>, instrument: u64, cp: u64)
    requires entries != [] && FillsOf(entries, instrument, cp).Ok?
    ensures FillsOf(entries[..|entries|-1], instrument, cp).Ok?
  {
    hide CreateFill;
  }

  lemma {:induction false} CreatedOf(number: nat, e: OrderAllocation, instrument: u64, cp: u64)
    requires e.allocatedQty > 0
    ensures CreateFill(number, e, instrument, cp).Ok?
    ensures FillOf(CreateFill(number, e, instrument, cp).value, number, e, instrument, cp)
  {
    ProductNeverOverflows(cp, e.allocatedQty);
  }

  /** What a validated batch's fills are, once it clears. */
  ghost predicate Settleable(batch: Batch, outcome: ClearingOutcome, a: BatchAllocation, fills: seq<Fill>)
  {
    if outcome.price.Some? then
      && ExactAllocation(batch.orders, outcome.price.value, outcome.volume, a)
      && Balanced(fills, batch.instrument, outcome.price.value, outcome.volume)
      && FillsMatch(fills, batch.orders, outcome.price.value)
    else
      && fills == [] && outcome.volume == 0
      && a.clearingPrice.None? && a.targetVolume == 0 && a.totalBuy == 0 && a.totalSell == 0
      && NothingAllocatedTo(batch.orders, a.allocations)
  }

  lemma {:induction false} ExactAllocationSettles(batch: Batch, cp: u64, v: u64, a: BatchAllocation)
    requires cp > 0 && v > 0 && ExactAllocation(batch.orders, cp, v, a)
    ensures CanonicalFills(batch.instrument, a).Ok?
    ensures Balanced(CanonicalFills(batch.instrument, a).value, batch.instrument, cp, v)
    ensures FillsMatch(CanonicalFills(batch.instrument, a).value, batch.orders, cp)
  {
    FillsOfEntries(batch.orders, a.allocations, batch.instrument, cp, Buy);
    FillsOfEntries(batch.orders, a.allocations, batch.instrument, cp, Sell);
  }

  /** Once a validated batch clears, allocation and fill generation cannot
      fail, and the fills are exact, balanced and within every order's terms. */
  lemma {:induction false} NothingFailsAfterClearing(batch: Batch, outcome: ClearingOutcome)
    requires Admissible(batch.instrument, batch.orders) && Clear(batch.orders) == Ok(outcome)
    ensures Allocate(batch.orders, outcome.price, outcome.volume).Ok?
    ensures var a := Allocate(batch.orders, outcome.price, outcome.volume).value;
            && CanonicalFills(batch.instrument, a).Ok?
            && Settleable(batch, outcome, a, CanonicalFills(batch.instrument, a).value)
  {
    ClearingPriceAttainsMaximum(batch.orders, outcome);
    if outcome.price.Some? {
      var cp := outcome.price.value;
      DemandSupplyBounded(batch.orders, cp);
      AllocationIsExact(batch.orders, cp, outcome.volume);
      hide Allocate;
      ExactAllocationSettles(batch, cp, outcome.volume, Allocate(batch.orders, outcome.price, outcome.volume).value);
    }
  }
}
