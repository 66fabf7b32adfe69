/** Honest runs that the circuit refuses: one concrete input for each way in
    which a run can exceed its scalars. */
module ProverLimits {
  import opened Primitives
  import opened Sums
  import opened Sorting
  import opened Orders
  import opened Auction
  import opened Allocation
  import opened AllocationProperties
  import opened Ledgers
  import opened Settlement
  import opened SettlementProperties
  import opened SettlementSuccess
  import opened CheckerProperties
  import opened Commitments
  import opened LedgerCommitment
  import opened Accounting
  import opened AccountingConstraints
  import opened FillConstraints
  import opened ConservationSatisfaction
  import opened Prover
  import opened ProverProperties

  // ---- Every executable batch has an honest statement ----

  function Preimages(orders: seq<Order>): seq<SaltedOrder>
  {
    seq(|orders|, i requires 0 <= i < |orders| => SaltedOrder(orders[i], NO_SALT))
  }

  ghost function WitnessOf(pre: Accounts, batch: Batch): BatchWitness
    requires Execute(pre, batch).Ok?
  {
    var r := Execute(pre, batch).value;
    BatchWitness(pre, r.post, batch, Preimages(batch.orders), r.allocation, r.fills,
                 ManifestOf(Preimages(batch.orders), QtyMap(r.allocation.allocations)), 0)
  }

  ghost function StatementOf(pre: Accounts, batch: Batch): PublicInputs
    requires Execute(pre, batch).Ok?
  {
    var w, r := WitnessOf(pre, batch), Execute(pre, batch).value;
    PublicInputs(LedgerRoot(pre, batch.instrument), LedgerRoot(r.post, batch.instrument), HeaderOf(w), NO_ORACLE,
                 if r.outcome.price.Some? then r.outcome.price.value else 0, r.outcome.volume)
  }

  lemma {:induction false} AgreesWithItself(a: Accounts, instrument: u64)
    ensures Agree(a, a, instrument)
  {
  }

  lemma {:induction false} PositivePrice(orders: seq<Order>, out: ClearingOutcome)
    requires Clear(orders) == Ok(out) && forall o :: o in orders ==> o.price != 0
    ensures out.price.Some? ==> out.price.value > 0
  {
    hide Clear;
    ClearingPriceAttainsMaximum(orders, out);
  }

  /** A validated batch that executes on a representable ledger is an honest run. */
  lemma {:induction false} ExecutionIsHonest(pre: Accounts, batch: Batch)
    requires Admissible(batch.instrument, batch.orders) && |batch.orders| <= MAX32
    requires Execute(pre, batch).Ok? && Representable(pre, batch.instrument)
    ensures HonestRun(StatementOf(pre, batch), WitnessOf(pre, batch))
  {
    hide HeaderOf, LedgerRoot, Clear, Allocate, CanonicalFills, Transition, Representable, Agree, BuiltFrom, ManifestOf, QtyMap;
    var r := Execute(pre, batch).value;
    AgreesWithItself(r.post, batch.instrument);
    forall o | o in batch.orders ensures o.price != 0 { assert Acceptable(batch.instrument, o); }
    PositivePrice(batch.orders, r.outcome);
    ManifestIsBuilt(Preimages(batch.orders), r.allocation.allocations);
  }

  lemma {:induction false} ManifestIsBuilt(preimages: seq<SaltedOrder>, entries: seq<OrderAllocation>)
    ensures BuiltFrom(ManifestOf(preimages, QtyMap(entries)), preimages, entries)
  {
  }

  // ---- A pair of orders that cross exactly ----

  function PairOf(p: u64, q: u64, s: u64): Batch
    requires s < MAX64
  {
    Batch(1, 1, [Order(1, 1, 1, Buy, p, q, s), Order(2, 2, 1, Sell, p, q, s + 1)])
  }

  /** The buyer holds cash, the seller the units. */
  function Traders(cash: u128, q: u64): Accounts
  {
    map[1 := Account(cash, map[], NO_SALT), 2 := Account(0, map[1 := q], NO_SALT)]
  }

  lemma {:induction false} PairAdmissible(p: u64, q: u64, s: u64)
    requires s < MAX64 && p > 0 && q > 0
    ensures Admissible(1, PairOf(p, q, s).orders)
  {
  }

  lemma {:induction false} PairCurves(p: u64, q: u64, s: u64, x: u64)
    requires s < MAX64
    ensures Demand(PairOf(p, q, s).orders, x) == (if x <= p then q else 0)
    ensures Supply(PairOf(p, q, s).orders, x) == (if p <= x then q else 0)
    ensures Total(PairOf(p, q, s).orders, Buy) == q && Total(PairOf(p, q, s).orders, Sell) == q
  {
    var o := PairOf(p, q, s).orders;
    hide Sum;
    SumOfTwo(o, BuysFrom(x));
    SumOfTwo(o, SellsUpTo(x));
    SumOfTwo(o, QtyOn(Buy));
    SumOfTwo(o, QtyOn(Sell));
  }

  lemma {:induction false} PairClears(p: u64, q: u64, s: u64)
    requires s < MAX64 && p > 0 && q > 0
    ensures Clear(PairOf(p, q, s).orders) == Ok(ClearingOutcome(Some(p), q))
  {
    var orders := PairOf(p, q, s).orders;
    PairAdmissible(p, q, s);
    forall o | o in orders ensures o.price != 0 { assert Acceptable(1, o); }
    PairCurves(p, q, s, p);
    FitsClears(orders);
    hide Clear, Demand, Supply, Total, PairOf;
    var out := Clear(orders).value;
    ClearingIsOptimal(orders, p);
    ClearingPriceAttainsMaximum(orders, out);
    PairCurves(p, q, s, out.price.value);
  }

  function PairEntries(p: u64, q: u64, s: u64): seq<OrderAllocation>
    requires s < MAX64
  {
    [Entry(PairOf(p, q, s).orders[0], q), Entry(PairOf(p, q, s).orders[1], q)]
  }

  lemma {:induction false} PairAllocates(p: u64, q: u64, s: u64)
    requires s < MAX64 && p > 0 && q > 0
    ensures Allocate(PairOf(p, q, s).orders, Some(p), q) == Ok(BatchAllocation(Some(p), q, q, q, PairEntries(p, q, s)))
  {
    var orders := PairOf(p, q, s).orders;
    PairAdmissible(p, q, s);
    PairCurves(p, q, s, p);
    hide Allocate, Demand, Supply;
    AllocationIsExact(orders, p, q);
    var e := Allocate(orders, Some(p), q).value.allocations;
    assert EntryRespects(orders[0], p, e[0]) && EntryRespects(orders[1], p, e[1]);
    PairTotals(e);
    assert e == PairEntries(p, q, s);
  }

  lemma {:induction false} PairTotals(e: seq<OrderAllocation>)
    requires |e| == 2 && e[0].side == Buy && e[1].side == Sell
    ensures Sum(e, AllocatedOn(Buy)) == e[0].allocatedQty && Sum(e, AllocatedOn(Sell)) == e[1].allocatedQty
  {
    SumOfTwo(e, AllocatedOn(Buy));
    SumOfTwo(e, AllocatedOn(Sell));
  }

  function PairFills(p: u64, q: u64): seq<Fill>
    requires p * q <= MAX128
  {
    MulLe(0, 0, p, q);
    [Fill(0, 1, 1, 1, Buy, p, q, p * q), Fill(1, 2, 2, 1, Sell, p, q, p * q)]
  }

  lemma {:induction false} ProductFits(p: u64, q: u64)
    ensures 0 <= p * q <= MAX128
  {
    MulLe(p, q, MAX64, MAX64);
  }

  lemma {:induction false} PairFilled(p: u64, q: u64, s: u64)
    requires s < MAX64 && p > 0 && q > 0
    ensures p * q <= MAX128
    ensures CanonicalFills(1, BatchAllocation(Some(p), q, q, q, PairEntries(p, q, s))) == Ok(PairFills(p, q))
  {
    ProductFits(p, q);
    ProductNeverOverflows(p, q);
    hide PriceTimesQty;
    var e := PairEntries(p, q, s);
    var one := [e[0]];
    assert e[..1] == one && one[..0] == [];
    var none: seq<Fill>, first := [], PairFills(p, q)[0];
    assert FillsOf(one[..0], 1, p) == Ok(none);
    assert CreateFill(|none|, e[0], 1, p) == Ok(first) && none + [first] == [first];
    assert FillsOf(one, 1, p) == Ok([first]);
    assert PairFills(p, q) == [PairFills(p, q)[0]] + [PairFills(p, q)[1]];
  }

  /** The ledger after the trade. */
  function Traded(cash: u128, p: u64, q: u64): Accounts
    requires 0 <= p * q <= cash
  {
    map[1 := Account(cash - p * q, map[1 := q], NO_SALT), 2 := Account(p * q, map[], NO_SALT)]
  }

  lemma {:induction false} PairSettles(cash: u128, p: u64, q: u64, c: u128)
    requires q > 0 && c == p * q <= cash
    ensures SettleAll(Traders(cash, q), PairFills(p, q)) == Ok(Traded(cash, p, q))
  {
    var pre, fills := Traders(cash, q), PairFills(p, q);
    assert fills[..1] == [fills[0]] && fills[..1][..0] == [];
    var mid := map[1 := Account(cash - c, map[1 := q], NO_SALT), 2 := Account(0, map[1 := q], NO_SALT)];
    assert SettleAll(pre, fills[..1]) == Settle(pre, fills[0]);
    assert Settle(pre, fills[0]) == Ok(mid) by { assert pre[1 := mid[1]] == mid; }
    assert map[1 := q] - {1} == map[];
    assert mid[2 := Account(c, map[], NO_SALT)] == Traded(cash, p, q);
  }

  lemma {:induction false} BlankTotals(l: Accounts, g: Account -> int)
    requires g(OPENED) == 0 && forall id :: id in l ==> l[id] == OPENED
    ensures TotalBy(l, g) == 0
  {
    AscendingKeys(l.Keys);
    SumScale(Ascending(l.Keys), Measure(l, g), 0, Measure(l, g));
  }

  lemma {:induction false} TradersTotal(cash: u128, q: u64, g: Account -> int)
    requires g(OPENED) == 0
    ensures TotalBy(Traders(cash, q), g) == g(Traders(cash, q)[1]) + g(Traders(cash, q)[2])
  {
    hide TotalBy;
    var t := Traders(cash, q);
    var blank: Accounts := map[1 := OPENED, 2 := OPENED];
    BlankTotals(blank, g);
    TotalUpdate(blank, 1, t[1], g);
    var half := blank[1 := t[1]];
    TotalUpdate(half, 2, t[2], g);
    assert half[2 := t[2]] == t;
  }

  lemma {:induction false} TradersRepresentable(cash: u128, q: u64)
    ensures TotalCash(Traders(cash, q)) == cash && TotalInventory(Traders(cash, q), 1) == q
  {
    hide TotalBy;
    TradersTotal(cash, q, Cash());
    TradersTotal(cash, q, Holding(1));
  }

  lemma {:induction false} PairBalanced(p: u64, q: u64)
    requires p > 0 && q > 0 && 0 < p * q <= MAX128
    ensures Balanced(PairFills(p, q), 1, p, q)
  {
    var f := PairFills(p, q);
    assert f[..1] == [f[0]] && f[..1][..0] == [];
  }

  /** The pair executes completely, whatever its size. */
  lemma {:induction false} PairExecutes(cash: u128, p: u64, q: u64, s: u64)
    requires s < MAX64 && p > 0 && q > 0 && p * q <= cash
    ensures 0 <= p * q <= MAX128
    ensures Execute(Traders(cash, q), PairOf(p, q, s)).Ok?
    ensures Execute(Traders(cash, q), PairOf(p, q, s)).value.fills == PairFills(p, q)
    ensures Execute(Traders(cash, q), PairOf(p, q, s)).value.post == Traded(cash, p, q)
    ensures Representable(Traders(cash, q), 1)
  {
    hide Clear, Allocate, CanonicalFills, SettleAll, Transition, TotalCash, TotalInventory, Balanced, PairFills,
      Traded, Traders;
    ProductFits(p, q);
    MulLe(1, 1, p, q);
    PairClears(p, q, s);
    PairAllocates(p, q, s);
    PairFilled(p, q, s);
    PairSettles(cash, p, q, p * q);
    TradersRepresentable(cash, q);
    PairBalanced(p, q);
    GuardsNeverFire(Traders(cash, q), PairFills(p, q), 1, p, q);
  }

  /** Some honest run of this pair exists, and the circuit decides it by the
      three width conditions. */
  lemma {:induction false} PairVerdict(
      cash: u128, p: u64, q: u64, s: u64, project: Projection) returns (inputs: PublicInputs, w: BatchWitness)
    requires s < MAX64 && p > 0 && q > 0 && p * q <= cash
    ensures w.pre == Traders(cash, q) && w.batch == PairOf(p, q, s)
    ensures Admissible(w.batch.instrument, w.batch.orders) && HonestRun(inputs, w)
    ensures NumberedFromZero(w.batch.orders) <==> s == 0
    ensures NarrowFills(w.fills) <==> p * q <= MAX64
    ensures Provable(inputs, w, project) <==> s == 0 && p * q <= MAX64 && cash / WORD == (cash - p * q) / WORD
  {
    PairExecutes(cash, p, q, s);
    PairAdmissible(p, q, s);
    var pre, batch := Traders(cash, q), PairOf(p, q, s);
    inputs, w := StatementOf(pre, batch), WitnessOf(pre, batch);
    hide Execute, HonestRun, Provable, Representable, Admissible, StatementOf;
    ExecutionIsHonest(pre, batch);
    ProvableExactly(inputs, w, project);
    PairWidths(cash, p, q, s);
  }

  lemma {:induction false} PairWidths(cash: u128, p: u64, q: u64, s: u64)
    requires s < MAX64 && 0 <= p * q <= cash
    ensures NumberedFromZero(PairOf(p, q, s).orders) <==> s == 0
    ensures NarrowFills(PairFills(p, q)) <==> p * q <= MAX64
    ensures p * q <= MAX64 ==>
              (SameHighWords(Traders(cash, q), Traded(cash, p, q)) <==> cash / WORD == (cash - p * q) / WORD)
  {
    var orders, fills := PairOf(p, q, s).orders, PairFills(p, q);
    assert orders[0].seqNo == s;
    assert fills[0] in fills;
    assert 1 in Traders(cash, q) && 2 in Traders(cash, q);
  }

  /** Sequence numbers starting at one. */
  lemma {:induction false} NumberingFromOneIsRefused(project: Projection)
    ensures exists i: PublicInputs, w: BatchWitness ::
              Admissible(w.batch.instrument, w.batch.orders) && HonestRun(i, w) && !Provable(i, w, project)
  {
    hide HonestRun, Provable, Admissible;
    var i, w := PairVerdict(1, 1, 1, 1, project);
  }

  /** A consideration of 2^64: price 2^32, quantity 2^32. */
  lemma {:induction false} WideConsiderationIsRefused(project: Projection)
    ensures exists i: PublicInputs, w: BatchWitness ::
              && Admissible(w.batch.instrument, w.batch.orders) && HonestRun(i, w) && NumberedFromZero(w.batch.orders)
              && !Provable(i, w, project)
  {
    hide HonestRun, Provable, Admissible;
    var i, w := PairVerdict(WORD, 0x1_0000_0000, 0x1_0000_0000, 0, project);
  }

  /** A buyer whose 2^64 units of cash drop below 2^64 by paying one. */
  lemma {:induction false} HighWordCrossingIsRefused(project: Projection)
    ensures exists i: PublicInputs, w: BatchWitness ::
              && Admissible(w.batch.instrument, w.batch.orders) && HonestRun(i, w) && NumberedFromZero(w.batch.orders)
              && NarrowFills(w.fills) && !Provable(i, w, project)
  {
    hide HonestRun, Provable, Admissible;
    var i, w := PairVerdict(WORD, 1, 1, 0, project);
  }
}
