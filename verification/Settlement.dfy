/** Canonical fills, their settlement on a ledger, and batch execution. */
module Settlement {
  import opened Primitives
  import opened Orders
  import opened Auction
  import opened Allocation
  import opened AllocationEngine
  import opened Ledgers

  datatype Fill = Fill(
    fillId: nat, orderId: u64, account: u64, instrument: u64, side: Side, price: u64, qty: u64, consideration: u128)

  function CreateFill(fillId: nat, e: OrderAllocation, instrument: u64, cp: u64): Result<Fill>
  {
    var consideration :- PriceTimesQty(cp, e.allocatedQty);
    Ok(Fill(fillId, e.orderId, e.account, instrument, e.side, cp, e.allocatedQty, consideration))
  }

  /** One fill per non-zero allocation, numbered in allocation order. */
  ghost function FillsOf(entries: seq<OrderAllocation>, instrument: u64, cp: u64): Result<seq<Fill>>
  {
    if entries == [] then Ok([])
    else
      var fills :- FillsOf(entries[..|entries|-1], instrument, cp);
      var last := entries[|entries|-1];
      if last.allocatedQty == 0 then Ok(fills)
      else
        var fill :- CreateFill(|fills|, last, instrument, cp);
        Ok(fills + [fill])
  }

  ghost function CanonicalFills(instrument: u64, a: BatchAllocation): Result<seq<Fill>>
  {
    if a.clearingPrice.None? || a.targetVolume == 0 then Ok([])
    else FillsOf(a.allocations, instrument, a.clearingPrice.value)
  }

  lemma {:induction false} FillsOfPrefix(entries: seq<OrderAllocation>, i: nat, instrument: u64, cp: u64)
    requires i <= |entries| && FillsOf(entries[..i], instrument, cp).Err?
    ensures FillsOf(entries, instrument, cp).Err?
  {
    if i < |entries| {
      assert entries[..|entries|-1][..i] == entries[..i];
      FillsOfPrefix(entries[..|entries|-1], i, instrument, cp);
    } else {
      assert entries[..i] == entries;
    }
  }

  method GenerateCanonicalFills(batch: Batch, a: BatchAllocation) returns (r: Result<seq<Fill>>)
    ensures r == CanonicalFills(batch.instrument, a)
  {
    if a.clearingPrice.None? || a.targetVolume == 0 { return Ok([]); }
    var cp := a.clearingPrice.value;
    var fills: seq<Fill> := [];
    for i := 0 to |a.allocations|
      invariant FillsOf(a.allocations[..i], batch.instrument, cp) == Ok(fills)
    {
      assert a.allocations[..i+1][..i] == a.allocations[..i];
      if a.allocations[i].allocatedQty != 0 {
        var fill := CreateFill(|fills|, a.allocations[i], batch.instrument, cp);
        if fill.Err? {
          FillsOfPrefix(a.allocations, i + 1, batch.instrument, cp);
          return Err;
        }
        fills := fills + [fill.value];
      }
    }
    assert a.allocations[..|a.allocations|] == a.allocations;
    return Ok(fills);
  }

  /** Quantity that a fill executes on one side. */
  ghost function QtyFilled(side: Side): Fill -> int
  {
    (f: Fill) => if f.side == side then f.qty else 0
  }

  // ---- Settlement ----

  function SettleAccount(a: Account, f: Fill): Result<Account>
  {
    if f.side.Buy? then
      var paid :- DebitCash(a, f.consideration);
      CreditInventory(paid, f.instrument, f.qty)
    else
      var delivered :- DebitInventory(a, f.instrument, f.qty);
      CreditCash(delivered, f.consideration)
  }

  function Settle(l: Accounts, f: Fill): Result<Accounts>
  {
    var m := Open(l, f.account);
    var a :- SettleAccount(m[f.account], f);
    Ok(m[f.account := a])
  }

  ghost function SettleAll(l: Accounts, fills: seq<Fill>): Result<Accounts>
  {
    if fills == [] then Ok(l)
    else
      var m :- SettleAll(l, fills[..|fills|-1]);
      Settle(m, fills[|fills|-1])
  }

  ghost predicate CashConserved(pre: Accounts, post: Accounts)
  {
    TotalCash(pre) == TotalCash(post) <= MAX128
  }

  ghost predicate InventoryConserved(pre: Accounts, post: Accounts, instrument: u64)
  {
    TotalInventory(pre, instrument) == TotalInventory(post, instrument) <= MAX64
  }

  function Touched(fills: seq<Fill>): set<u64> { set f | f in fills :: f.instrument }

  ghost predicate Conserved(pre: Accounts, post: Accounts, fills: seq<Fill>)
  {
    && CashConserved(pre, post)
    && forall x :: x in Touched(fills) ==> InventoryConserved(pre, post, x)
  }

  /** Settles every fill, then re-checks conservation of what was touched. */
  ghost function Transition(pre: Accounts, fills: seq<Fill>): Result<Accounts>
  {
    var post :- SettleAll(pre, fills);
    if Conserved(pre, post, fills) then Ok(post) else Err
  }

  lemma {:induction false} SettleAllPrefix(l: Accounts, fills: seq<Fill>, i: nat)
    requires i <= |fills| && SettleAll(l, fills[..i]).Err?
    ensures SettleAll(l, fills).Err?
  {
    if i < |fills| {
      assert fills[..|fills|-1][..i] == fills[..i];
      SettleAllPrefix(l, fills[..|fills|-1], i);
    } else {
      assert fills[..i] == fills;
    }
  }

  /** Settles one fill on the working ledger: the second leg may fail after the
      first was booked, in which case the caller discards the ledger. */
  method SettleOn(post: Ledger, f: Fill) returns (ok: bool)
    modifies post
    ensures ok == Settle(old(post.accounts), f).Ok?
    ensures ok ==> Settle(old(post.accounts), f) == Ok(post.accounts)
  {
    var a := post.GetOrCreateAccount(f.account);
    ghost var before := post.accounts;
    if f.side.Buy? {
      ok := post.Commit(f.account, DebitCash(a, f.consideration));
      if !ok { return; }
      ok := post.Commit(f.account, CreditInventory(post.accounts[f.account], f.instrument, f.qty));
    } else {
      ok := post.Commit(f.account, DebitInventory(a, f.instrument, f.qty));
      if !ok { return; }
      ok := post.Commit(f.account, CreditCash(post.accounts[f.account], f.consideration));
    }
    assert ok ==> post.accounts == before[f.account := post.accounts[f.account]];
  }

  method ApplyBatchTransition(pre: Ledger, fills: seq<Fill>) returns (r: Result<Accounts>)
    ensures r == Transition(pre.accounts, fills)
    ensures unchanged(pre)
  {
    var post := new Ledger(pre.accounts);
    for i := 0 to |fills|
      invariant fresh(post) && unchanged(pre)
      invariant SettleAll(pre.accounts, fills[..i]) == Ok(post.accounts)
    {
      assert fills[..i+1][..i] == fills[..i];
      var ok := SettleOn(post, fills[i]);
      if !ok {
        SettleAllPrefix(pre.accounts, fills, i + 1);
        return Err;
      }
    }
    assert fills[..|fills|] == fills;

    var ok := CheckConservation(pre, post, fills);
    return if ok then Ok(post.accounts) else Err;
  }

  method CheckConservation(pre: Ledger, post: Ledger, fills: seq<Fill>) returns (ok: bool)
    ensures ok == Conserved(pre.accounts, post.accounts, fills)
  {
    hide TotalCash, TotalInventory;
    var preCash := pre.TotalCashChecked();
    var postCash := post.TotalCashChecked();
    if preCash.Err? || postCash.Err? || preCash.value != postCash.value { return false; }
    var todo := Touched(fills);
    while todo != {}
      invariant todo <= Touched(fills)
      invariant forall x :: x in Touched(fills) && x !in todo ==> InventoryConserved(pre.accounts, post.accounts, x)
      decreases todo
    {
      var x :| x in todo;
      var preInv := pre.TotalInventoryChecked(x);
      var postInv := post.TotalInventoryChecked(x);
      if preInv.Err? || postInv.Err? || preInv.value != postInv.value {
        assert !InventoryConserved(pre.accounts, post.accounts, x);
        return false;
      }
      todo := todo - {x};
    }
    return true;
  }

  // ---- Execution ----

  datatype ExecutionResult = ExecutionResult(
    outcome: ClearingOutcome, allocation: BatchAllocation, fills: seq<Fill>, post: Accounts)

  ghost function Execute(pre: Accounts, batch: Batch): Result<ExecutionResult>
  {
    var outcome :- Clear(batch.orders);
    var allocation :- Allocate(batch.orders, outcome.price, outcome.volume);
    var fills :- CanonicalFills(batch.instrument, allocation);
    var post :- Transition(pre, fills);
    Ok(ExecutionResult(outcome, allocation, fills, post))
  }

  method ExecuteBatch(pre: Ledger, batch: Batch) returns (r: Result<ExecutionResult>)
    ensures r == Execute(pre.accounts, batch)
    ensures unchanged(pre)
  {
    var outcome := DetermineClearingOutcome(batch.orders);
    if outcome.Err? { return Err; }
    var allocation := AllocateBatch(batch, outcome.value.price, outcome.value.volume);
    if allocation.Err? { return Err; }
    var fills := GenerateCanonicalFills(batch, allocation.value);
    if fills.Err? { return Err; }
    var post := ApplyBatchTransition(pre, fills.value);
    if post.Err? { return Err; }
    return Ok(ExecutionResult(outcome.value, allocation.value, fills.value, post.value));
  }
}
