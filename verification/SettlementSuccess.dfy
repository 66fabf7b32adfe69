/** Which ledgers settle which fills: the exact condition, account by account,
    and what the order of fills has to do with it. */
module SettlementSuccess {
  import opened Primitives
  import opened Sums
  import opened Orders
  import opened Auction
  import opened Allocation
  import opened Ledgers
  import opened Settlement
  import opened SettlementProperties

  /** The fills of one account, in settlement order. */
  function Own(fills: seq<Fill>, id: u64): seq<Fill>
  {
    if fills == [] then []
    else
      var front := Own(fills[..|fills|-1], id);
      if fills[|fills|-1].account == id then front + [fills[|fills|-1]] else front
  }

  // ---- What settlement did to each account ----

  ghost predicate FollowsAt(a: Account, b: Account, own: seq<Fill>, instrument: u64)
  {
    && b.cash == a.cash - Sum(own, CashOut())
    && InventoryOf(b, instrument) == InventoryOf(a, instrument) + Sum(own, InventoryIn(instrument))
  }

  lemma {:induction false} SettledStep(m: Accounts, f: Fill, instrument: u64, id: u64)
    requires Positive(f) && Settle(m, f).Ok? && id in m
    ensures id in Settle(m, f).value
    ensures Settle(m, f).value[id].cash == m[id].cash - (if f.account == id then CashOut()(f) else 0)
    ensures InventoryOf(Settle(m, f).value[id], instrument)
         == InventoryOf(m[id], instrument) + (if f.account == id then InventoryIn(instrument)(f) else 0)
  {
    if f.account == id { SettledAccount(m[id], f, instrument); }
  }

  lemma {:induction false} OwnFillsSettle(pre: Accounts, fills: seq<Fill>, instrument: u64, id: u64)
    requires SettleAll(pre, fills).Ok? && id in pre && forall f :: f in fills ==> Positive(f)
    ensures id in SettleAll(pre, fills).value
    ensures FollowsAt(pre[id], SettleAll(pre, fills).value[id], Own(fills, id), instrument)
  {
    if fills != [] {
      var front, last := fills[..|fills|-1], fills[|fills|-1];
      assert last in fills && forall f :: f in front ==> f in fills;
      OwnFillsSettle(pre, front, instrument, id);
      SettledStep(SettleAll(pre, front).value, last, instrument, id);
      SumAppend(Own(front, id), last, CashOut());
      SumAppend(Own(front, id), last, InventoryIn(instrument));
    }
  }

  // ---- When settlement succeeds ----

  /** The account exists and its balances, moved by these fills, are representable. */
  ghost predicate Covers(pre: Accounts, id: u64, own: seq<Fill>, instrument: u64)
  {
    && id in pre
    && 0 <= pre[id].cash - Sum(own, CashOut()) <= MAX128
    && 0 <= InventoryOf(pre[id], instrument) + Sum(own, InventoryIn(instrument)) <= MAX64
  }

  /** The account covers its own fills at every point of their order. */
  ghost predicate Affords(pre: Accounts, id: u64, own: seq<Fill>, instrument: u64)
  {
    forall i :: 0 < i <= |own| ==> Covers(pre, id, own[..i], instrument)
  }

  ghost predicate AffordsOwn(pre: Accounts, id: u64, fills: seq<Fill>, instrument: u64)
  {
    Affords(pre, id, Own(fills, id), instrument)
  }

  ghost predicate AllAfford(pre: Accounts, fills: seq<Fill>, instrument: u64)
  {
    forall id: u64 :: AffordsOwn(pre, id, fills, instrument)
  }

  ghost predicate Trades(f: Fill, instrument: u64)
  {
    Positive(f) && f.instrument == instrument
  }

  lemma {:induction false} SettlesExactly(m: Accounts, f: Fill, instrument: u64)
    requires Trades(f, instrument)
    ensures Settle(m, f).Ok? <==> Covers(m, f.account, [f], instrument)
  {
    SumAppend([], f, CashOut());
    SumAppend([], f, InventoryIn(instrument));
    assert [] + [f] == [f];
  }

  lemma {:induction false} AffordsOneMore(pre: Accounts, id: u64, own: seq<Fill>, f: Fill, instrument: u64)
    ensures Affords(pre, id, own + [f], instrument)
       <==> Affords(pre, id, own, instrument) && Covers(pre, id, own + [f], instrument)
  {
    hide Covers;
    forall i | 0 <= i <= |own| ensures (own + [f])[..i] == own[..i] {}
    assert (own + [f])[..|own|+1] == own + [f];
    if Affords(pre, id, own + [f], instrument) {
      forall i | 0 < i <= |own| ensures Covers(pre, id, own[..i], instrument) {
        assert (own + [f])[..i] == own[..i];
      }
    }
  }

  lemma {:induction false} CoversOneMore(pre: Accounts, a: Accounts, id: u64, own: seq<Fill>, f: Fill, instrument: u64)
    requires a.Keys == pre.Keys && (id in pre ==> FollowsAt(pre[id], a[id], own, instrument))
    ensures Covers(pre, id, own + [f], instrument) <==> Covers(a, id, [f], instrument)
  {
    SumAppend(own, f, CashOut());
    SumAppend(own, f, InventoryIn(instrument));
    SumAppend([], f, CashOut());
    SumAppend([], f, InventoryIn(instrument));
    assert [] + [f] == [f];
  }

  /** Fills of one instrument settle if and only if every account covers its own
      fills, one after the other in their order. */
  lemma {:induction false} SettlementSucceedsExactly(pre: Accounts, fills: seq<Fill>, instrument: u64)
    requires forall f :: f in fills ==> Trades(f, instrument)
    ensures SettleAll(pre, fills).Ok? <==> AllAfford(pre, fills, instrument)
  {
    hide Covers, FollowsAt, Settle, Affords, AllAfford;
    if fills == [] {
      NothingToAfford(pre, instrument);
    } else {
      var front, last := fills[..|fills|-1], fills[|fills|-1];
      assert last in fills && forall f :: f in front ==> f in fills;
      var id := last.account;
      SettlementSucceedsExactly(pre, front, instrument);
      AffordsOneMore(pre, id, Own(front, id), last, instrument);
      if SettleAll(pre, front).Ok? {
        var m := SettleAll(pre, front).value;
        SettleAllEffect(pre, front, instrument);
        if id in pre { OwnFillsSettle(pre, front, instrument, id); }
        CoversOneMore(pre, m, id, Own(front, id), last, instrument);
        SettlesExactly(m, last, instrument);
      }
      OthersUnmoved(pre, fills, instrument);
    }
  }

  lemma {:induction false} NothingToAfford(pre: Accounts, instrument: u64)
    ensures AllAfford(pre, [], instrument)
  {
  }

  lemma {:induction false} OthersUnmoved(pre: Accounts, fills: seq<Fill>, instrument: u64)
    requires fills != []
    ensures var front, last := fills[..|fills|-1], fills[|fills|-1];
            && (AllAfford(pre, fills, instrument) ==> Affords(pre, last.account, Own(front, last.account) + [last], instrument))
            && (AllAfford(pre, front, instrument) ==> Affords(pre, last.account, Own(front, last.account), instrument))
            && (AllAfford(pre, front, instrument) && Affords(pre, last.account, Own(front, last.account) + [last], instrument)
                ==> AllAfford(pre, fills, instrument))
            && (AllAfford(pre, fills, instrument) && Affords(pre, last.account, Own(front, last.account), instrument)
                ==> AllAfford(pre, front, instrument))
  {
    hide Affords;
    var front, last := fills[..|fills|-1], fills[|fills|-1];
    if AllAfford(pre, fills, instrument) { assert AffordsOwn(pre, last.account, fills, instrument); }
    if AllAfford(pre, front, instrument) { assert AffordsOwn(pre, last.account, front, instrument); }
    forall id: u64 | id != last.account
      ensures AffordsOwn(pre, id, fills, instrument) <==> AffordsOwn(pre, id, front, instrument) {}
  }

  // ---- Only the order inside an account matters ----

  ghost function SettleOwn(a: Account, own: seq<Fill>): Result<Account>
  {
    if own == [] then Ok(a)
    else
      var b :- SettleOwn(a, own[..|own|-1]);
      SettleAccount(b, own[|own|-1])
  }

  lemma {:induction false} SettledAlone(pre: Accounts, fills: seq<Fill>, id: u64)
    requires SettleAll(pre, fills).Ok? && id in pre
    ensures id in SettleAll(pre, fills).value
    ensures SettleOwn(pre[id], Own(fills, id)) == Ok(SettleAll(pre, fills).value[id])
  {
    hide SettleAccount;
    if fills != [] {
      var front, last := fills[..|fills|-1], fills[|fills|-1];
      SettledAlone(pre, front, id);
      assert (Own(front, id) + [last])[..|Own(front, id)|] == Own(front, id);
    }
  }

  /** Two settlement orders that give every account the same fills in the same
      order succeed together and reach the same ledger. */
  lemma {:induction false} InterleavingIsUnobservable(pre: Accounts, fills: seq<Fill>, others: seq<Fill>, instrument: u64)
    requires forall f :: f in fills ==> Trades(f, instrument)
    requires forall f :: f in others ==> Trades(f, instrument)
    requires forall id: u64 :: Own(fills, id) == Own(others, id)
    ensures SettleAll(pre, fills) == SettleAll(pre, others)
  {
    hide SettleAll, Own, Affords, SettleOwn;
    forall id: u64 ensures AffordsOwn(pre, id, fills, instrument) <==> AffordsOwn(pre, id, others, instrument) {}
    SettlementSucceedsExactly(pre, fills, instrument);
    SettlementSucceedsExactly(pre, others, instrument);
    if SettleAll(pre, fills).Ok? {
      var a, b := SettleAll(pre, fills).value, SettleAll(pre, others).value;
      SettleAllEffect(pre, fills, instrument);
      SettleAllEffect(pre, others, instrument);
      forall id | id in pre ensures a[id] == b[id] {
        SettledAlone(pre, fills, id);
        SettledAlone(pre, others, id);
      }
      assert a == b;
    }
  }

  /** Inside one account the order decides: selling first pays for buying. */
  lemma {:induction false} OwnOrderIsObservable()
    ensures exists pre: Accounts, a: Fill, b: Fill ::
              Trades(a, 1) && Trades(b, 1) && SettleAll(pre, [a, b]).Ok? && SettleAll(pre, [b, a]).Err?
  {
    var pre: Accounts := map[1 := Account(0, map[1 := 1], NO_SALT)];
    var sell, buy := Fill(0, 1, 1, 1, Sell, 1, 1, 1), Fill(1, 2, 1, 1, Buy, 1, 1, 1);
    assert [sell, buy][..1] == [sell] && [sell][..0] == [] && [buy, sell][..1] == [buy] && [buy][..0] == [];
    assert SettleAll(pre, [sell]) == Settle(pre, sell);
    assert SettleAll(pre, [buy]) == Settle(pre, buy);
    assert SettleAll(pre, [sell, buy]).Ok?;
    assert SettleAll(pre, [buy, sell]).Err?;
  }

  // ---- When a validated batch executes ----

  /** The fills that a clearing batch settles. */
  ghost function FillsAt(batch: Batch, outcome: ClearingOutcome): seq<Fill>
    requires Admissible(batch.instrument, batch.orders) && Clear(batch.orders) == Ok(outcome)
  {
    NothingFailsAfterClearing(batch, outcome);
    CanonicalFills(batch.instrument, Allocate(batch.orders, outcome.price, outcome.volume).value).value
  }

  lemma {:induction false} FillsTrade(batch: Batch, outcome: ClearingOutcome)
    requires Admissible(batch.instrument, batch.orders) && Clear(batch.orders) == Ok(outcome)
    ensures forall f :: f in FillsAt(batch, outcome) ==> Trades(f, batch.instrument)
  {
    hide Clear, Admissible, Allocate, CanonicalFills;
    NothingFailsAfterClearing(batch, outcome);
  }

  /** A validated batch executes if and only if each side's quantity fits 64
      bits, the ledger's totals are representable, and every account covers its
      own fills in order. */
  lemma {:induction false} ExecutionSucceedsExactly(pre: Accounts, batch: Batch)
    requires Admissible(batch.instrument, batch.orders)
    ensures Clear(batch.orders).Ok? <==> Total(batch.orders, Buy) <= MAX64 && Total(batch.orders, Sell) <= MAX64
    ensures Execute(pre, batch).Ok? <==>
              && Clear(batch.orders).Ok?
              && TotalCash(pre) <= MAX128
              && var fills := FillsAt(batch, Clear(batch.orders).value);
                 && (fills != [] ==> TotalInventory(pre, batch.instrument) <= MAX64)
                 && AllAfford(pre, fills, batch.instrument)
  {
    FitsClears(batch.orders);
    hide Clear, Admissible, Allocate, CanonicalFills, Transition, SettleAll, TotalCash, TotalInventory, AllAfford, Trades,
      Balanced;
    if Clear(batch.orders).Ok? {
      var outcome := Clear(batch.orders).value;
      NothingFailsAfterClearing(batch, outcome);
      FillsTrade(batch, outcome);
      var fills := FillsAt(batch, outcome);
      SettlementSucceedsExactly(pre, fills, batch.instrument);
      if outcome.price.Some? {
        GuardsNeverFire(pre, fills, batch.instrument, outcome.price.value, outcome.volume);
      } else {
        NothingSettled(pre);
        NothingToAfford(pre, batch.instrument);
      }
    }
  }

  lemma {:induction false} FitsClears(orders: seq<Order>)
    ensures Clear(orders).Ok? <==> Total(orders, Buy) <= MAX64 && Total(orders, Sell) <= MAX64
  {
  }

  lemma {:induction false} NothingSettled(pre: Accounts)
    ensures Transition(pre, []).Ok? <==> TotalCash(pre) <= MAX128
  {
    hide TotalCash;
  }
}
