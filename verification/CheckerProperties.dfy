/** The checker accepts exactly what execution produces. */
module CheckerProperties {
  import opened Primitives
  import opened Sums
  import opened Orders
  import opened Auction
  import opened Allocation
  import opened Ledgers
  import opened Settlement
  import opened SettlementProperties
  import opened Checker

  /** Same account set, cash, and holdings of one instrument. */
  ghost predicate Agree(a: Accounts, b: Accounts, instrument: u64)
  {
    && a.Keys == b.Keys
    && forall id :: id in b ==> MatchesAt(a, b, instrument, id)
  }

  lemma {:induction false} ReconstructsIsAgreement(actual: Accounts, expected: Accounts, instrument: u64)
    ensures Reconstructs(actual, expected, instrument) <==> Agree(actual, expected, instrument)
  {
    assert |actual.Keys| == |actual| && |expected.Keys| == |expected|;
    if Reconstructs(actual, expected, instrument) {
      assert expected.Keys <= actual.Keys;
      Pigeonhole(expected.Keys, actual.Keys);
    }
  }

  lemma {:induction false} AgreeingTotals(a: Accounts, b: Accounts, instrument: u64)
    requires Agree(a, b, instrument)
    ensures TotalCash(a) == TotalCash(b) && TotalInventory(a, instrument) == TotalInventory(b, instrument)
  {
    TotalSame(a, b, Cash());
    TotalSame(a, b, Holding(instrument));
  }

  // ---- Canonical fills pass the fill checks ----

  lemma {:induction false} OrderMapAt(orders: seq<Order>, o: Order)
    requires UniqueIds(orders) && o in orders
    ensures o.id in OrderMap(orders) && OrderMap(orders)[o.id] == o
  {
    var front, last := orders[..|orders|-1], orders[|orders|-1];
    if o != last {
      assert o in front;
      OrderMapAt(front, o);
      var k :| 0 <= k < |front| && front[k] == o;
      assert orders[k] == o;
    }
  }

  lemma {:induction false} MatchingFillSound(orders: seq<Order>, f: Fill, o: Order, instrument: u64, cp: u64)
    requires UniqueIds(orders) && o in orders && FillMatches(f, o, cp) && PricedAt(f, instrument, cp)
    ensures FillSound(OrderMap(orders), f)
  {
    OrderMapAt(orders, o);
  }

  lemma {:induction false} SettleableFillsPass(batch: Batch, outcome: ClearingOutcome, a: BatchAllocation, fills: seq<Fill>)
    requires UniqueIds(batch.orders) && Settleable(batch, outcome, a, fills)
    ensures FillsPass(batch, fills)
  {
    hide FillMatches, PricedAt, OrderMap, FillSound;
    FillsPassMeans(batch, fills);
    if outcome.price.Some? {
      var cp := outcome.price.value;
      forall f | f in fills ensures FillSound(OrderMap(batch.orders), f) {
        var o :| o in batch.orders && FillMatches(f, o, cp);
        MatchingFillSound(batch.orders, f, o, batch.instrument, cp);
      }
    }
  }

  // ---- The equivalence ----

  ghost predicate Representable(l: Accounts, instrument: u64)
  {
    TotalCash(l) <= MAX128 && TotalInventory(l, instrument) <= MAX64
  }

  /** A successful transition conserves the batch instrument even when no fill
      touched it and the transition did not look. */
  lemma {:induction false} TransitionConserves(pre: Accounts, batch: Batch, outcome: ClearingOutcome, a: BatchAllocation, fills: seq<Fill>)
    requires Settleable(batch, outcome, a, fills) && Transition(pre, fills).Ok?
    ensures TotalCash(Transition(pre, fills).value) == TotalCash(pre) <= MAX128
    ensures TotalInventory(Transition(pre, fills).value, batch.instrument) == TotalInventory(pre, batch.instrument)
    ensures Transition(pre, fills).value.Keys == pre.Keys
  {
    hide TotalCash, TotalInventory;
    if outcome.price.Some? {
      BalancedSettlement(pre, fills, Transition(pre, fills).value, batch.instrument, outcome.price.value, outcome.volume);
    }
  }

  lemma {:induction false} PostStateEquivalence(pre: Accounts, batch: Batch, proposed: ExecutionResult)
    requires Settleable(batch, proposed.outcome, proposed.allocation, proposed.fills)
    ensures PostStatePasses(pre, batch, proposed) <==>
              && Representable(pre, batch.instrument)
              && Transition(pre, proposed.fills).Ok?
              && Agree(proposed.post, Transition(pre, proposed.fills).value, batch.instrument)
  {
    hide TotalCash, TotalInventory, Settleable, Transition, Agree, Reconstructs;
    if Transition(pre, proposed.fills).Ok? {
      var post := Transition(pre, proposed.fills).value;
      TransitionConserves(pre, batch, proposed.outcome, proposed.allocation, proposed.fills);
      ReconstructsIsAgreement(proposed.post, post, batch.instrument);
      if Agree(proposed.post, post, batch.instrument) {
        AgreeingTotals(proposed.post, post, batch.instrument);
      }
    }
  }

  /** For every validated batch and every pre-ledger, the checker accepts a
      proposal if and only if the pre-state totals are representable, execution
      succeeds, and the proposal is its outcome, allocation and fills with the
      same accounts, cash and batch-instrument inventory. */
  lemma {:induction false} CheckerCharacterisesExecution(pre: Accounts, batch: Batch, proposed: ExecutionResult)
    requires Admissible(batch.instrument, batch.orders)
    ensures Accepts(pre, batch, proposed) <==>
              && Representable(pre, batch.instrument)
              && Execute(pre, batch).Ok?
              && Execute(pre, batch).value.outcome == proposed.outcome
              && Execute(pre, batch).value.allocation == proposed.allocation
              && Execute(pre, batch).value.fills == proposed.fills
              && Agree(proposed.post, Execute(pre, batch).value.post, batch.instrument)
  {
    hide Clear, Allocate, CanonicalFills, Transition, Representable, Agree, FillsPass, PostStatePasses, Settleable;
    if Rederives(batch, proposed) {
      NothingFailsAfterClearing(batch, proposed.outcome);
      SettleableFillsPass(batch, proposed.outcome, proposed.allocation, proposed.fills);
      PostStateEquivalence(pre, batch, proposed);
    }
  }

  /** Execution's own result is accepted, whatever it settled. */
  lemma {:induction false} ExecutionIsAccepted(pre: Accounts, batch: Batch)
    requires Admissible(batch.instrument, batch.orders) && Representable(pre, batch.instrument)
    requires Execute(pre, batch).Ok?
    ensures Accepts(pre, batch, Execute(pre, batch).value)
  {
    hide Execute, Representable, Accepts;
    CheckerCharacterisesExecution(pre, batch, Execute(pre, batch).value);
  }

  /** Acceptance alone, of any batch at all, conserves cash and inventory. */
  lemma {:induction false} AcceptanceConserves(pre: Accounts, batch: Batch, proposed: ExecutionResult)
    requires Accepts(pre, batch, proposed)
    ensures TotalCash(proposed.post) == TotalCash(pre)
    ensures TotalInventory(proposed.post, batch.instrument) == TotalInventory(pre, batch.instrument)
  {
  }
}
