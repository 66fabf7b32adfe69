/** The transition checker: it re-derives the whole result, re-checks every fill
    and total, and rebuilds the post-state account by account. */
module Checker {
  import opened Primitives
  import opened Sums
  import opened Orders
  import opened Auction
  import opened Allocation
  import opened AllocationEngine
  import opened Ledgers
  import opened Settlement

  // ---- The checker's own definition ----

  ghost function OrderMap(orders: seq<Order>): map<u64, Order>
  {
    if orders == [] then map[] else OrderMap(orders[..|orders|-1])[orders[|orders|-1].id := orders[|orders|-1]]
  }

  datatype SideTotals = SideTotals(buys: u64, sells: u64)

  /** One fill against its order: size, limit, running side total, product. */
  function CheckFill(byId: map<u64, Order>, t: SideTotals, f: Fill): Result<SideTotals>
  {
    if f.orderId !in byId then Err
    else
      var o := byId[f.orderId];
      if f.qty > o.qty then Err
      else if f.side.Buy? && f.price > o.price then Err
      else if f.side.Sell? && f.price < o.price then Err
      else
        var total :- AddQty(if f.side.Buy? then t.buys else t.sells, f.qty);
        var product :- PriceTimesQty(f.price, f.qty);
        if f.consideration != product then Err
        else Ok(if f.side.Buy? then t.(buys := total) else t.(sells := total))
  }

  ghost function CheckFills(byId: map<u64, Order>, fills: seq<Fill>): Result<SideTotals>
  {
    if fills == [] then Ok(SideTotals(0, 0))
    else
      var t :- CheckFills(byId, fills[..|fills|-1]);
      CheckFill(byId, t, fills[|fills|-1])
  }

  /** Same accounts, and in each the same cash and batch-instrument holding. */
  ghost predicate Reconstructs(actual: Accounts, expected: Accounts, instrument: u64)
  {
    && |actual| == |expected|
    && forall id :: id in expected ==> MatchesAt(actual, expected, instrument, id)
  }

  predicate MatchesAt(actual: Accounts, expected: Accounts, instrument: u64, id: u64)
    requires id in expected
  {
    && id in actual
    && actual[id].cash == expected[id].cash
    && InventoryOf(actual[id], instrument) == InventoryOf(expected[id], instrument)
  }

  ghost predicate Rederives(batch: Batch, proposed: ExecutionResult)
  {
    && Clear(batch.orders) == Ok(proposed.outcome)
    && Allocate(batch.orders, proposed.outcome.price, proposed.outcome.volume) == Ok(proposed.allocation)
    && CanonicalFills(batch.instrument, proposed.allocation) == Ok(proposed.fills)
  }

  ghost predicate FillsPass(batch: Batch, fills: seq<Fill>)
  {
    var t := CheckFills(OrderMap(batch.orders), fills);
    t.Ok? && t.value.buys == t.value.sells
  }

  ghost predicate PostStatePasses(pre: Accounts, batch: Batch, proposed: ExecutionResult)
  {
    && CashConserved(pre, proposed.post)
    && InventoryConserved(pre, proposed.post, batch.instrument)
    && Transition(pre, proposed.fills).Ok?
    && Reconstructs(proposed.post, Transition(pre, proposed.fills).value, batch.instrument)
  }

  ghost predicate Accepts(pre: Accounts, batch: Batch, proposed: ExecutionResult)
  {
    Rederives(batch, proposed) && FillsPass(batch, proposed.fills) && PostStatePasses(pre, batch, proposed)
  }

  // ---- The checker as it runs ----

  lemma {:induction false} CheckFillsPrefix(byId: map<u64, Order>, fills: seq<Fill>, i: nat)
    requires i <= |fills| && CheckFills(byId, fills[..i]).Err?
    ensures CheckFills(byId, fills).Err?
  {
    if i < |fills| {
      assert fills[..|fills|-1][..i] == fills[..i];
      CheckFillsPrefix(byId, fills[..|fills|-1], i);
    } else {
      assert fills[..i] == fills;
    }
  }

  method CollectOrders(orders: seq<Order>) returns (byId: map<u64, Order>)
    ensures byId == OrderMap(orders)
  {
    byId := map[];
    for i := 0 to |orders|
      invariant byId == OrderMap(orders[..i])
    {
      assert orders[..i+1][..i] == orders[..i];
      byId := byId[orders[i].id := orders[i]];
    }
    assert orders[..|orders|] == orders;
  }

  // ---- What the running fold decides ----

  /** A fill within an order's size and limit, at price times quantity. */
  ghost predicate FillSound(byId: map<u64, Order>, f: Fill)
  {
    && f.orderId in byId
    && f.qty <= byId[f.orderId].qty
    && (if f.side.Buy? then f.price <= byId[f.orderId].price else byId[f.orderId].price <= f.price)
    && f.consideration == f.price * f.qty
  }

  ghost predicate AllFillsSound(byId: map<u64, Order>, fills: seq<Fill>)
  {
    forall f :: f in fills ==> FillSound(byId, f)
  }

  lemma {:induction false} AllFillsSoundStep(byId: map<u64, Order>, fills: seq<Fill>)
    requires fills != []
    ensures AllFillsSound(byId, fills)
       <==> AllFillsSound(byId, fills[..|fills|-1]) && FillSound(byId, fills[|fills|-1])
  {
    hide FillSound;
    assert fills == fills[..|fills|-1] + [fills[|fills|-1]];
  }

  lemma {:induction false} CheckFillMeans(byId: map<u64, Order>, t: SideTotals, f: Fill)
    ensures CheckFill(byId, t, f).Ok? <==>
              FillSound(byId, f) && t.buys + QtyFilled(Buy)(f) <= MAX64 && t.sells + QtyFilled(Sell)(f) <= MAX64
    ensures CheckFill(byId, t, f).Ok? ==>
              CheckFill(byId, t, f).value == SideTotals(t.buys + QtyFilled(Buy)(f), t.sells + QtyFilled(Sell)(f))
  {
    ProductNeverOverflows(f.price, f.qty);
  }

  lemma {:induction false} CheckFillsMeans(byId: map<u64, Order>, fills: seq<Fill>)
    ensures CheckFills(byId, fills).Ok? <==>
              AllFillsSound(byId, fills) && Sum(fills, QtyFilled(Buy)) <= MAX64 && Sum(fills, QtyFilled(Sell)) <= MAX64
    ensures CheckFills(byId, fills).Ok? ==>
              CheckFills(byId, fills).value.buys == Sum(fills, QtyFilled(Buy))
              && CheckFills(byId, fills).value.sells == Sum(fills, QtyFilled(Sell))
  {
    hide CheckFill, FillSound, AllFillsSound;
    if fills == [] {
      NoFillsSound(byId);
    } else {
      var n := |fills| - 1;
      CheckFillsMeans(byId, fills[..n]);
      AllFillsSoundStep(byId, fills);
      SumPrefixLe(fills, n, QtyFilled(Buy));
      SumPrefixLe(fills, n, QtyFilled(Sell));
      if CheckFills(byId, fills[..n]).Ok? {
        CheckFillMeans(byId, CheckFills(byId, fills[..n]).value, fills[n]);
      }
    }
  }

  lemma {:induction false} NoFillsSound(byId: map<u64, Order>)
    ensures AllFillsSound(byId, [])
  {
  }

  /** The fill checks pass exactly when every fill is sound and both sides
      execute the same total, within 64 bits. */
  lemma {:induction false} FillsPassMeans(batch: Batch, fills: seq<Fill>)
    ensures FillsPass(batch, fills) <==>
              && AllFillsSound(OrderMap(batch.orders), fills)
              && Sum(fills, QtyFilled(Buy)) == Sum(fills, QtyFilled(Sell)) <= MAX64
  {
    hide CheckFills, AllFillsSound, OrderMap, Sum;
    CheckFillsMeans(OrderMap(batch.orders), fills);
  }

  method VerifyFills(batch: Batch, fills: seq<Fill>) returns (ok: bool)
    ensures ok == FillsPass(batch, fills)
    ensures ok <==>
              && AllFillsSound(OrderMap(batch.orders), fills)
              && Sum(fills, QtyFilled(Buy)) == Sum(fills, QtyFilled(Sell)) <= MAX64
  {
    hide CheckFill, OrderMap, AllFillsSound, Sum;
    FillsPassMeans(batch, fills);
    var byId := CollectOrders(batch.orders);
    var t := SideTotals(0, 0);
    for i := 0 to |fills|
      invariant CheckFills(byId, fills[..i]) == Ok(t)
    {
      assert fills[..i+1][..i] == fills[..i];
      var next := CheckFill(byId, t, fills[i]);
      if next.Err? {
        CheckFillsPrefix(byId, fills, i + 1);
        return false;
      }
      t := next.value;
    }
    assert fills[..|fills|] == fills;
    return t.buys == t.sells;
  }

  method VerifyReconstruction(actual: Accounts, expected: Accounts, instrument: u64) returns (ok: bool)
    ensures ok == Reconstructs(actual, expected, instrument)
  {
    if |actual| != |expected| { return false; }
    var todo := expected.Keys;
    while todo != {}
      invariant todo <= expected.Keys
      invariant forall id :: id in expected && id !in todo ==> MatchesAt(actual, expected, instrument, id)
      decreases todo
    {
      var id :| id in todo;
      if !MatchesAt(actual, expected, instrument, id) { return false; }
      todo := todo - {id};
    }
    return true;
  }

  method VerifyTransition(pre: Ledger, batch: Batch, proposed: ExecutionResult) returns (ok: bool)
    ensures ok == Accepts(pre.accounts, batch, proposed)
    ensures unchanged(pre)
  {
    var outcome := DetermineClearingOutcome(batch.orders);
    if outcome.Err? || outcome.value != proposed.outcome { return false; }
    var allocation := AllocateBatch(batch, outcome.value.price, outcome.value.volume);
    if allocation.Err? || allocation.value != proposed.allocation { return false; }
    var fills := GenerateCanonicalFills(batch, allocation.value);
    if fills.Err? || fills.value != proposed.fills { return false; }
    assert Rederives(batch, proposed);
    var fillsOk := VerifyFills(batch, proposed.fills);
    if !fillsOk { return false; }
    ok := VerifyPostState(pre, batch, proposed);
  }

  method VerifyPostState(pre: Ledger, batch: Batch, proposed: ExecutionResult) returns (ok: bool)
    ensures ok == PostStatePasses(pre.accounts, batch, proposed)
    ensures unchanged(pre)
  {
    hide TotalCash, TotalInventory, Transition, Reconstructs;
    var post := new Ledger(proposed.post);
    var preCash := pre.TotalCashChecked();
    var postCash := post.TotalCashChecked();
    if preCash.Err? || postCash.Err? || preCash.value != postCash.value { return false; }
    var preInv := pre.TotalInventoryChecked(batch.instrument);
    var postInv := post.TotalInventoryChecked(batch.instrument);
    if preInv.Err? || postInv.Err? || preInv.value != postInv.value { return false; }
    var expected := ApplyBatchTransition(pre, proposed.fills);
    if expected.Err? { return false; }
    ok := VerifyReconstruction(proposed.post, expected.value, batch.instrument);
  }
}
