/** The circuit adds nothing to the plaintext checks except the width of its
    scalars: which honest runs are provable, exactly. */
module ProverProperties {
  import opened Primitives
  import opened Orders
  import opened Auction
  import opened Allocation
  import opened AllocationProperties
  import opened Ledgers
  import opened Settlement
  import opened SettlementProperties
  import opened Checker
  import opened CheckerProperties
  import opened Commitments
  import opened Merkle
  import opened LedgerCommitment
  import opened Accounting
  import opened RecordBinding
  import opened R1cs
  import opened ConstraintParts
  import opened OrderValidity
  import opened AccountingConstraints
  import opened ClearingConstraints
  import opened AllocationConstraints
  import opened FillConstraints
  import opened ConservationConstraints
  import opened ConservationSatisfaction
  import opened Prover

  // ---- Synthesis cannot fail on a checked, validated batch ----

  /** Entry `i` belongs to order `i` and does not overfill it. */
  ghost predicate InBatchOrder(orders: seq<Order>, entries: seq<OrderAllocation>)
  {
    && |entries| == |orders|
    && forall i :: 0 <= i < |orders| ==> EntryOf(orders[i], entries[i])
  }

  predicate EntryOf(o: Order, e: OrderAllocation)
  {
    e == Entry(o, e.allocatedQty) && e.allocatedQty <= o.qty
  }

  lemma {:induction false} SettleableInBatchOrder(batch: Batch, outcome: ClearingOutcome, a: BatchAllocation, fills: seq<Fill>)
    requires Settleable(batch, outcome, a, fills)
    ensures InBatchOrder(batch.orders, a.allocations)
  {
  }

  lemma {:induction false} QtyMapAt(orders: seq<Order>, entries: seq<OrderAllocation>, i: nat)
    requires UniqueIds(orders) && InBatchOrder(orders, entries) && i < |orders|
    ensures Lookup(QtyMap(entries), orders[i].id) == entries[i].allocatedQty
  {
    var n := |orders| - 1;
    assert EntryOf(orders[n], entries[n]);
    if i < n {
      QtyMapAt(orders[..n], entries[..n], i);
    }
  }

  lemma {:induction false} FirstEntryAt(orders: seq<Order>, entries: seq<OrderAllocation>, i: nat)
    requires UniqueIds(orders) && InBatchOrder(orders, entries) && i < |orders|
    ensures FirstEntry(entries, orders[i].id) == Some(entries[i])
  {
    assert EntryOf(orders[0], entries[0]) && EntryOf(orders[i], entries[i]);
    if i > 0 {
      forall k | 0 <= k < |orders[1..]| ensures EntryOf(orders[1..][k], entries[1..][k]) {
        assert EntryOf(orders[k+1], entries[k+1]);
      }
      FirstEntryAt(orders[1..], entries[1..], i - 1);
    }
  }

  lemma {:induction false} SameDisposition(o: Order, e: OrderAllocation, quantities: map<u64, u64>)
    requires EntryOf(o, e) && o.qty > 0 && Lookup(quantities, o.id) == e.allocatedQty
    ensures Implied(o, quantities) == ExpectedDisposition(e)
  {
  }

  /** The synthesizer's re-check of a disposition, read from the entries, is the
      one that the order's executed quantity implies. */
  lemma {:induction false} DispositionAgreesMeans(orders: seq<Order>, entries: seq<OrderAllocation>, r: Record)
    requires UniqueIds(orders) && InBatchOrder(orders, entries) && forall o :: o in orders ==> o.qty > 0
    ensures DispositionAgrees(r, entries) <==>
              exists i :: 0 <= i < |orders| && orders[i].id == r.orderId && r.disposition == Implied(orders[i], QtyMap(entries))
  {
    hide QtyMap, Implied, ExpectedDisposition, FirstEntry, Lookup, UniqueIds;
    forall i | 0 <= i < |orders| && orders[i].id == r.orderId
      ensures FirstEntry(entries, r.orderId) == Some(entries[i])
      ensures Implied(orders[i], QtyMap(entries)) == ExpectedDisposition(entries[i])
    {
      assert EntryOf(orders[i], entries[i]) && orders[i] in orders;
      FirstEntryAt(orders, entries, i);
      QtyMapAt(orders, entries, i);
      SameDisposition(orders[i], entries[i], QtyMap(entries));
    }
    if DispositionAgrees(r, entries) {
      var i := FirstEntryIs(entries, r.orderId);
      assert EntryOf(orders[i], entries[i]);
    }
  }

  lemma {:induction false} FirstEntryIs(entries: seq<OrderAllocation>, id: u64) returns (i: nat)
    requires FirstEntry(entries, id).Some?
    ensures i < |entries| && entries[i].orderId == id
  {
    if entries[0].orderId == id {
      i := 0;
    } else {
      var j := FirstEntryIs(entries[1..], id);
      i := j + 1;
    }
  }

  lemma {:induction false} BoundRecordAgrees(
      i: nat, orders: seq<Order>, preimages: seq<SaltedOrder>, r: Record, entries: seq<OrderAllocation>)
    requires PreimagesMatch(orders, preimages) && UniqueIds(orders) && InBatchOrder(orders, entries) && i < |orders|
    requires r.orderId == orders[i].id && orders[i].qty > 0
    requires RecordPasses(r, CommittedLeaves(preimages), OrderMap(orders), QtyMap(entries))
    ensures RecordAgrees(i, r, preimages[i], CommittedLeaves(preimages), entries)
  {
    hide Root, Path, Fold, CommitOrder, QtyMap, OrderMap, FirstEntry, Implied, ExpectedDisposition, Lookup;
    var leaves := CommittedLeaves(preimages);
    assert EntryOf(orders[i], entries[i]);
    InclusionComplete(leaves, i);
    OrderMapAt(orders, orders[i]);
    QtyMapAt(orders, entries, i);
    FirstEntryAt(orders, entries, i);
    SameDisposition(orders[i], entries[i], QtyMap(entries));
  }

  lemma {:induction false} AccountedRecordsAgree(
      orders: seq<Order>, preimages: seq<SaltedOrder>, m: Manifest, entries: seq<OrderAllocation>)
    requires PreimagesMatch(orders, preimages) && UniqueIds(orders) && InBatchOrder(orders, entries)
    requires forall o :: o in orders ==> o.qty > 0
    requires |CommittedLeaves(preimages)| == |orders| && Bound(m.records, orders, CommittedLeaves(preimages))
    requires Accounted(orders, CommittedLeaves(preimages), m, QtyMap(entries))
    ensures |m.records| == |preimages|
    ensures RecordsAgree(m.records, preimages, CommittedLeaves(preimages), entries)
  {
    hide RecordAgrees, RecordPasses, InBatchOrder, QtyMap, OrderMap, CommittedLeaves, NoRepeats, CoversLeaves;
    forall i | 0 <= i < |m.records|
      ensures RecordAgrees(i, m.records[i], preimages[i], CommittedLeaves(preimages), entries)
    {
      assert BoundAt(m.records[i], i, orders[i].id, CommittedLeaves(preimages)[i]);
      assert orders[i] in orders;
      BoundRecordAgrees(i, orders, preimages, m.records[i], entries);
    }
  }

  /** The transition part of the plaintext checks settles the validated batch. */
  lemma {:induction false} AcceptedIsSettleable(inputs: PublicInputs, w: BatchWitness)
    requires Admissible(w.batch.instrument, w.batch.orders) && Accepts(w.pre, w.batch, Proposal(inputs, w))
    ensures Settleable(w.batch, Claimed(inputs), w.allocation, w.fills)
  {
    hide Clear, Allocate, CanonicalFills, FillsPass, PostStatePasses, Settleable;
    NothingFailsAfterClearing(w.batch, Claimed(inputs));
  }

  lemma {:induction false} ExactEntriesRefer(orders: seq<Order>, cp: u64, v: u64, a: BatchAllocation)
    requires UniqueIds(orders) && ExactAllocation(orders, cp, v, a)
    ensures Referred(orders, a.allocations) == Ok(orders)
  {
    RespectedReferToOrders(orders, cp, a.allocations, |orders|);
    assert a.allocations[..|orders|] == a.allocations && orders[..|orders|] == orders;
  }

  lemma {:induction false} SettleableFillsExecute(batch: Batch, cp: u64, v: u64, fills: seq<Fill>)
    requires UniqueIds(batch.orders) && Balanced(fills, batch.instrument, cp, v) && FillsMatch(fills, batch.orders, cp)
    ensures Executed(batch.orders, fills, cp).Ok?
    ensures AllWithinTerms(Executed(batch.orders, fills, cp).value, fills, cp)
  {
    hide PricedAt, FillsMatch, QtyFilled, AllWithinTerms, Executed;
    MatchingFillsExecute(batch.orders, fills, cp, batch.instrument, |fills|);
    assert fills[..|fills|] == fills;
  }

  /** Once the plaintext checks pass on a validated batch, no synthesizer can
      refuse it. */
  lemma {:induction false} CheckedIsSynthesizable(inputs: PublicInputs, w: BatchWitness)
    requires Admissible(w.batch.instrument, w.batch.orders) && CheckedInTheClear(inputs, w)
    ensures Synthesizable(inputs, w)
    ensures Settleable(w.batch, Claimed(inputs), w.allocation, w.fills)
    ensures Bound(CanonicalManifest(w).records, w.batch.orders, CommittedLeaves(w.preimages))
  {
    hide Accepts, Accounted, RootsBound, RecordsAgree, HeaderOf, Balanced, ExactAllocation, Referred, Executed,
      QtyMap, Normalized, FillsMatch, Bound, InBatchOrder;
    AcceptedIsSettleable(inputs, w);
    SettleableInBatchOrder(w.batch, Claimed(inputs), w.allocation, w.fills);
    LeafCount(w.batch.orders, w.preimages);
    NormalizedIsBound(w.accounting.records, w.batch.orders, CommittedLeaves(w.preimages));
    AccountedRecordsAgree(w.batch.orders, w.preimages, CanonicalManifest(w), w.allocation.allocations);
    if PublishedPrice(inputs).Some? {
      ExactEntriesRefer(w.batch.orders, inputs.clearingPrice, inputs.clearedVolume, w.allocation);
      SettleableFillsExecute(w.batch, inputs.clearingPrice, inputs.clearedVolume, w.fills);
    }
  }

  // ---- Satisfaction, subrelation by subrelation ----

  lemma {:induction false} ThenSatisfied(p: Part, q: Part, pub: seq<u64>, wit: seq<u64>)
    requires Window(wit, 0, Then(p, q).scalars)
    ensures Window(wit, 0, p.scalars) && Window(wit, |p.scalars|, q.scalars)
    ensures AllHold(Then(p, q).constraints, pub, wit) <==> AllHold(p.constraints, pub, wit) && AllHold(q.constraints, pub, wit)
  {
    hide Holds, AllHold;
    WindowSplit(wit, 0, p.scalars, q.scalars);
    AllHoldJoin(p.constraints, q.constraints, pub, wit);
  }

  /** Orders carry their position in the batch as sequence number. */
  ghost predicate NumberedFromZero(orders: seq<Order>)
  {
    forall i :: 0 <= i < |orders| ==> orders[i].seqNo == i
  }

  lemma {:induction false} SequencedIsNumbered(instrument: u64, orders: seq<Order>)
    requires Admissible(instrument, orders)
    ensures Sequenced(orders, instrument) <==> NumberedFromZero(orders)
  {
    forall i | 0 <= i < |orders| ensures orders[i].instrument == instrument {
      assert orders[i] in orders;
      assert Acceptable(instrument, orders[i]);
    }
  }

  lemma {:induction false} BoundInPosition(records: seq<Record>, orders: seq<Order>, leaves: seq<Digest>)
    requires |orders| == |leaves| && Bound(records, orders, leaves)
    ensures InPosition(records) && |records| == |orders|
  {
    forall i | 0 <= i < |records| ensures records[i].leafIndex == i { assert BoundAt(records[i], i, orders[i].id, leaves[i]); }
  }

  lemma {:induction false} IntakeSatisfied(inputs: PublicInputs, w: BatchWitness, project: Projection, pub: seq<u64>, wit: seq<u64>)
    requires Admissible(w.batch.instrument, w.batch.orders) && CheckedInTheClear(inputs, w)
    requires pub == PublicScalars(inputs, w, project)
    requires Window(wit, 0, IntakePart(inputs, w, project).scalars)
    ensures AllHold(IntakePart(inputs, w, project).constraints, pub, wit) <==> NumberedFromZero(w.batch.orders)
  {
    hide Accepts, Accounted, RootsBound, HeaderOf, OrderPart, AccountingPart, Root, Window, AllHold, Bound,
      Normalized, CommittedLeaves, NumberedFromZero, Settleable, QtyMap, Admissible, RecordsAgree, Synthesizable;
    CheckedIsSynthesizable(inputs, w);
    LeafCount(w.batch.orders, w.preimages);
    var records, root := CanonicalManifest(w).records, project(Root(CommittedLeaves(w.preimages)));
    BoundInPosition(records, w.batch.orders, CommittedLeaves(w.preimages));
    var p := OrderPart(0, w.batch.instrument, w.batch.orders);
    ThenSatisfied(p, AccountingPart(|p.scalars|, 0, records, root), pub, wit);
    OrderPartHonest(0, w.batch.instrument, w.batch.orders, pub, wit);
    AccountingPartHonest(|p.scalars|, 0, records, root, pub, wit);
    SequencedIsNumbered(w.batch.instrument, w.batch.orders);
  }

  lemma {:induction false} AuctionSatisfied(inputs: PublicInputs, w: BatchWitness, project: Projection, pub: seq<u64>, wit: seq<u64>)
    requires Admissible(w.batch.instrument, w.batch.orders) && CheckedInTheClear(inputs, w)
    requires pub == PublicScalars(inputs, w, project)
    requires Window(wit, 0, AuctionPart(inputs, w, project).scalars)
    ensures AllHold(AuctionPart(inputs, w, project).constraints, pub, wit) <==> NumberedFromZero(w.batch.orders)
  {
    hide Accounted, RootsBound, HeaderOf, IntakePart, ClearingPart, Root, Window, AllHold, Normalized,
      CommittedLeaves, NumberedFromZero,
      QtyMap, Admissible, PreimagesMatch, Clear, Allocate, CanonicalFills, FillsPass, PostStatePasses, Volume, PriceSet;
    var intake := IntakePart(inputs, w, project);
    ClearFits(w.batch.orders);
    ThenSatisfied(intake, ClearingPart(|intake.scalars|, 2, w.batch.orders, inputs.clearingPrice, inputs.clearedVolume), pub, wit);
    IntakeSatisfied(inputs, w, project, pub, wit);
    ClearingPartHonest(|intake.scalars|, 2, w.batch.orders, inputs.clearingPrice, inputs.clearedVolume, pub, wit);
    forall p | p in PriceSet(w.batch.orders) ensures Volume(w.batch.orders, p) <= inputs.clearedVolume {
      ClearingIsOptimal(w.batch.orders, p);
    }
  }

  /** The two subrelations of a crossed book. */
  lemma {:induction false} CrossedSatisfied(auction: Part, w: BatchWitness, cp: u64, v: u64, pub: seq<u64>, wit: seq<u64>)
    requires UniqueIds(w.batch.orders) && |pub| == 5 && pub[4] == v
    requires ExactAllocation(w.batch.orders, cp, v, w.allocation) && Balanced(w.fills, w.batch.instrument, cp, v)
    requires FillsMatch(w.fills, w.batch.orders, cp)
    requires Referred(w.batch.orders, w.allocation.allocations).Ok? && Executed(w.batch.orders, w.fills, cp).Ok?
    requires Window(wit, 0, Crossed(auction, w, cp).scalars)
    ensures Window(wit, 0, auction.scalars)
    ensures AllHold(Crossed(auction, w, cp).constraints, pub, wit) <==> AllHold(auction.constraints, pub, wit) && NarrowFills(w.fills)
  {
    hide UniqueIds, Balanced, FillsMatch, AllocationPart, FillBoundsPart, Window, AllHold, ExactAllocation,
      NarrowFills, Referred, Executed, AllWithinTerms;
    ExactEntriesRefer(w.batch.orders, cp, v, w.allocation);
    SettleableFillsExecute(w.batch, cp, v, w.fills);
    var executed := Executed(w.batch.orders, w.fills, cp).value;
    ExactLength(w.batch.orders, cp, v, w.allocation);
    var entries := AllocationPart(|auction.scalars|, Public(4), cp, w.batch.orders, w.allocation.allocations);
    var allocation := Then(auction, entries);
    var bounds := FillBoundsPart(|allocation.scalars|, cp, executed, w.fills);
    ThenSatisfied(allocation, bounds, pub, wit);
    ThenSatisfied(auction, entries, pub, wit);
    AllocationPartHonest(|auction.scalars|, Public(4), cp, v, w.batch.orders, w.allocation, pub, wit);
    FillBoundsPartHonest(|allocation.scalars|, cp, executed, w.fills, pub, wit);
  }

  lemma {:induction false} ExactLength(orders: seq<Order>, cp: u64, v: u64, a: BatchAllocation)
    requires ExactAllocation(orders, cp, v, a)
    ensures |a.allocations| == |orders|
  {
  }

  lemma {:induction false} ExecutionSatisfied(inputs: PublicInputs, w: BatchWitness, project: Projection, pub: seq<u64>, wit: seq<u64>)
    requires Admissible(w.batch.instrument, w.batch.orders) && CheckedInTheClear(inputs, w) && Synthesizable(inputs, w)
    requires Settleable(w.batch, Claimed(inputs), w.allocation, w.fills)
    requires pub == PublicScalars(inputs, w, project)
    requires Window(wit, 0, ExecutionPart(inputs, w, project).scalars)
    ensures AllHold(ExecutionPart(inputs, w, project).constraints, pub, wit)
       <==> NumberedFromZero(w.batch.orders) && NarrowFills(w.fills)
  {
    hide CheckedInTheClear, AuctionPart, Crossed, Window, AllHold, NumberedFromZero, RecordsAgree,
      ExactAllocation, Balanced, FillsMatch, Referred, Executed, CommittedLeaves, Root;
    var auction := AuctionPart(inputs, w, project);
    if PublishedPrice(inputs).Some? {
      CrossedSatisfied(auction, w, inputs.clearingPrice, inputs.clearedVolume, pub, wit);
    }
    AuctionSatisfied(inputs, w, project, pub, wit);
  }

  lemma {:induction false} FillCount(entries: seq<OrderAllocation>, instrument: u64, cp: u64)
    requires FillsOf(entries, instrument, cp).Ok?
    ensures |FillsOf(entries, instrument, cp).value| <= |entries|
  {
    if entries != [] { FillCount(entries[..|entries|-1], instrument, cp); }
  }

  lemma {:induction false} SettleableIsPositive(batch: Batch, outcome: ClearingOutcome, a: BatchAllocation, fills: seq<Fill>)
    requires Settleable(batch, outcome, a, fills)
    ensures forall f :: f in fills ==> Positive(f) && f.instrument == batch.instrument
    ensures NarrowFills(fills) <==> Scalable(fills, batch.instrument)
  {
    if outcome.price.Some? {
      forall f | f in fills ensures PricedAt(f, batch.instrument, outcome.price.value) {}
    }
  }

  /** The checked post-state is the pre-state moved by each account's fills. */
  lemma {:induction false} AcceptedFollows(pre: Accounts, batch: Batch, proposed: ExecutionResult)
    requires Settleable(batch, proposed.outcome, proposed.allocation, proposed.fills)
    requires PostStatePasses(pre, batch, proposed)
    ensures Follows(pre, proposed.post, proposed.fills, batch.instrument)
    ensures TotalCash(proposed.post) == TotalCash(pre)
    ensures TotalInventory(proposed.post, batch.instrument) == TotalInventory(pre, batch.instrument)
  {
    hide TotalCash, TotalInventory, Settleable, SettleAll, Reconstructs, Agree, Follows, Conserved, Positive;
    SettleableIsPositive(batch, proposed.outcome, proposed.allocation, proposed.fills);
    TransitionConserves(pre, batch, proposed.outcome, proposed.allocation, proposed.fills);
    ReconstructsIsAgreement(proposed.post, Transition(pre, proposed.fills).value, batch.instrument);
    SettlementFollows(pre, proposed.fills, proposed.post, batch.instrument);
  }

  lemma {:induction false} AcceptedFillCount(inputs: PublicInputs, w: BatchWitness)
    requires CheckedInTheClear(inputs, w) && Settleable(w.batch, Claimed(inputs), w.allocation, w.fills)
    ensures |w.fills| <= |w.batch.orders| <= MAX32
  {
    hide Accounted, RootsBound, HeaderOf, Normalized, CommittedLeaves, Clear, Allocate, FillsPass,
      PostStatePasses, FillsOf, Balanced, FillsMatch;
    if PublishedPrice(inputs).Some? && w.allocation.targetVolume != 0 {
      FillCount(w.allocation.allocations, w.batch.instrument, inputs.clearingPrice);
    }
  }

  /** A checked, validated batch satisfies its circuit exactly when orders are
      numbered from zero, considerations fit 64 bits, and no account's cash
      crosses a multiple of 2^64. */
  lemma {:induction false} CircuitSatisfied(inputs: PublicInputs, w: BatchWitness, project: Projection)
    requires Admissible(w.batch.instrument, w.batch.orders) && CheckedInTheClear(inputs, w)
    ensures Synthesizable(inputs, w)
    ensures Satisfied(inputs, w, project) <==>
              NumberedFromZero(w.batch.orders) && NarrowFills(w.fills) && SameHighWords(w.pre, w.post)
  {
    hide InputsBound, Accounted, RootsBound, ExecutionPart, LedgersPart, AllHold, NumberedFromZero, NarrowFills,
      SameHighWords, Synthesizable,
      Settleable, Admissible, Scalable, Follows, TotalCash, TotalInventory, Clear, Allocate, CanonicalFills, FillsPass, PostStatePasses, Bound, PublicScalars;
    CheckedIsSynthesizable(inputs, w);
    var execution := ExecutionPart(inputs, w, project);
    var c := Circuit(inputs, w, project);
    OrderCount(inputs, w);
    var pub, wit := PublicScalars(inputs, w, project), c.scalars;
    assert [] + c.scalars + [] == c.scalars;
    WindowPlaced([], c.scalars, []);
    ThenSatisfied(execution, LedgersPart(|execution.scalars|, w.pre, w.post, w.fills, w.batch.instrument), pub, wit);
    ExecutionSatisfied(inputs, w, project, pub, wit);
    SettleableIsPositive(w.batch, Claimed(inputs), w.allocation, w.fills);
    AcceptedFollows(w.pre, w.batch, Proposal(inputs, w));
    AcceptedFillCount(inputs, w);
    if NarrowFills(w.fills) {
      LedgersPartHonest(|execution.scalars|, w.pre, w.post, w.fills, w.batch.instrument, pub, wit);
    }
  }

  lemma {:induction false} OrderCount(inputs: PublicInputs, w: BatchWitness)
    requires CheckedInTheClear(inputs, w)
    ensures |w.batch.orders| <= MAX32
  {
  }

  // ---- The plaintext checks accept exactly the honest runs ----

  /** The records are a permutation of those built from the preimages, and the
      committed count is theirs.  The counts per disposition are not read. */
  ghost predicate BuiltFrom(m: Manifest, preimages: seq<SaltedOrder>, entries: seq<OrderAllocation>)
  {
    && multiset(m.records) == multiset(RecordsOf(preimages, QtyMap(entries)))
    && m.totalCommitted == |preimages|
  }

  /** The batch executes, the witness is its result, and every published value
      is the one that the witness determines. */
  ghost predicate HonestRun(inputs: PublicInputs, w: BatchWitness)
  {
    && PreimagesMatch(w.batch.orders, w.preimages)
    && Representable(w.pre, w.batch.instrument)
    && Execute(w.pre, w.batch).Ok?
    && Execute(w.pre, w.batch).value.allocation == w.allocation
    && Execute(w.pre, w.batch).value.fills == w.fills
    && Agree(w.post, Execute(w.pre, w.batch).value.post, w.batch.instrument)
    && BuiltFrom(w.accounting, w.preimages, w.allocation.allocations)
    && Publishes(inputs, Execute(w.pre, w.batch).value.outcome)
    && inputs.headerHash == HeaderOf(w)
    && inputs.preRoot == LedgerRoot(w.pre, w.batch.instrument)
    && inputs.postRoot == LedgerRoot(w.post, w.batch.instrument)
    && inputs.oracleHash == NO_ORACLE
  }

  /** The volume and the price, or a zero price when nothing crossed. */
  ghost predicate Publishes(inputs: PublicInputs, out: ClearingOutcome)
  {
    && inputs.clearedVolume == out.volume
    && (if out.price.Some? then inputs.clearingPrice == out.price.value > 0 else inputs.clearingPrice == 0)
  }

  /** What the header that a statement must carry states, byte by byte. */
  lemma {:induction false} HeaderStates(w: BatchWitness)
    requires |w.batch.orders| <= MAX32
    ensures HeaderOf(w).Leaf?
    ensures var s := HeaderOf(w).payload;
            && |s| == 38 && TextAt(s, 0, "FCBH") && NumberAt(s, 4, 1, 1) && NumberAt(s, 5, 4, 1)
            && NumberAt(s, 9, 8, w.batch.batchId) && NumberAt(s, 17, 8, w.batch.instrument) && NumberAt(s, 25, 8, w.cutoff)
            && NumberAt(s, 33, 4, |w.batch.orders|) && s[37] == Embedded(Root(CommittedLeaves(w.preimages)))
  {
    hide CommitHeader, NumberAt, TextAt, Root, CommittedLeaves;
    HeaderLayout(1, w.batch.batchId, w.batch.instrument, w.cutoff, |w.batch.orders|, Root(CommittedLeaves(w.preimages)));
  }

  lemma {:induction false} BoundRecordIsBuilt(i: nat, orders: seq<Order>, preimages: seq<SaltedOrder>, r: Record, quantities: map<u64, u64>)
    requires PreimagesMatch(orders, preimages) && UniqueIds(orders) && i < |orders|
    requires BoundAt(r, i, orders[i].id, CommittedLeaves(preimages)[i])
    requires RecordPasses(r, CommittedLeaves(preimages), OrderMap(orders), quantities)
    ensures r == RecordsOf(preimages, quantities)[i]
  {
    OrderMapAt(orders, orders[i]);
  }

  lemma {:induction false} BuiltIsBound(orders: seq<Order>, preimages: seq<SaltedOrder>, quantities: map<u64, u64>)
    requires PreimagesMatch(orders, preimages) && |CommittedLeaves(preimages)| == |orders|
    ensures Bound(RecordsOf(preimages, quantities), orders, CommittedLeaves(preimages))
  {
  }

  lemma {:induction false} BoundAccountedIsBuilt(orders: seq<Order>, preimages: seq<SaltedOrder>, m: Manifest, quantities: map<u64, u64>)
    requires PreimagesMatch(orders, preimages) && UniqueIds(orders) && |CommittedLeaves(preimages)| == |orders|
    requires Bound(m.records, orders, CommittedLeaves(preimages))
    ensures Accounted(orders, CommittedLeaves(preimages), m, quantities)
       <==> m.records == RecordsOf(preimages, quantities) && m.totalCommitted == |orders|
  {
    hide CommittedLeaves, CommitOrder, OrderMap, RecordPasses, CoversLeaves, NoRepeats, Implied, Accounted;
    if m.records == RecordsOf(preimages, quantities) && m.totalCommitted == |orders| {
      forall i | 0 <= i < |preimages| ensures preimages[i].order in orders { assert preimages[i].order == orders[i]; }
      BuiltManifestAccepted(orders, preimages, m, quantities);
    }
    if Accounted(orders, CommittedLeaves(preimages), m, quantities) {
      AccountedPasses(orders, CommittedLeaves(preimages), m, quantities);
      forall i | 0 <= i < |m.records| ensures m.records[i] == RecordsOf(preimages, quantities)[i] {
        assert BoundAt(m.records[i], i, orders[i].id, CommittedLeaves(preimages)[i]);
        BoundRecordIsBuilt(i, orders, preimages, m.records[i], quantities);
      }
    }
  }

  lemma {:induction false} AccountedPasses(orders: seq<Order>, leaves: seq<Digest>, m: Manifest, quantities: map<u64, u64>)
    requires Accounted(orders, leaves, m, quantities)
    ensures |m.records| == |orders| && m.totalCommitted == |orders|
    ensures forall i :: 0 <= i < |m.records| ==> RecordPasses(m.records[i], leaves, OrderMap(orders), quantities)
  {
  }

  /** Binding by position, then the accounting check, accepts exactly the
      permutations of the built manifest. */
  lemma {:induction false} AccountingIsBuilt(orders: seq<Order>, preimages: seq<SaltedOrder>, m: Manifest, entries: seq<OrderAllocation>)
    requires PreimagesMatch(orders, preimages) && UniqueIds(orders)
    ensures |CommittedLeaves(preimages)| == |orders|
    ensures BuiltFrom(m, preimages, entries) <==>
              && Normalized(m.records, orders, CommittedLeaves(preimages)).Ok?
              && Accounted(orders, CommittedLeaves(preimages),
                           m.(records := Normalized(m.records, orders, CommittedLeaves(preimages)).value), QtyMap(entries))
  {
    LeafCount(orders, preimages);
    var built := RecordsOf(preimages, QtyMap(entries));
    BuiltIsBound(orders, preimages, QtyMap(entries));
    hide Normalized, Accounted, CommittedLeaves, Bound, RecordsOf, QtyMap, UniqueIds;
    NormalizedIsTheBoundPermutation(m.records, orders, CommittedLeaves(preimages), built);
    if Normalized(m.records, orders, CommittedLeaves(preimages)).Ok? {
      var c := Normalized(m.records, orders, CommittedLeaves(preimages)).value;
      NormalizedIsBound(m.records, orders, CommittedLeaves(preimages));
      BoundAccountedIsBuilt(orders, preimages, m.(records := c), QtyMap(entries));
    }
  }

  /** For a validated batch the plaintext checks pass exactly on honest runs. */
  lemma {:induction false} CheckedIsHonest(inputs: PublicInputs, w: BatchWitness)
    requires Admissible(w.batch.instrument, w.batch.orders)
    ensures CheckedInTheClear(inputs, w) <==> HonestRun(inputs, w)
  {
    hide PreimagesMatch, BuiltFrom, Accounted, LedgerRoot, HeaderOf, Normalized, CommittedLeaves, QtyMap, Accepts,
      Execute, Representable, Agree;
    CheckerCharacterisesExecution(w.pre, w.batch, Proposal(inputs, w));
    if PreimagesMatch(w.batch.orders, w.preimages) {
      AccountingIsBuilt(w.batch.orders, w.preimages, w.accounting, w.allocation.allocations);
    }
  }

  /** Every published price, volume, allocation and fill is re-derived before
      synthesis, so the circuit decides nothing but the width of its scalars:
      for every validated batch, a proof exists exactly when the run is honest,
      its orders are numbered from zero, its considerations fit 64 bits, and no
      account's cash crosses a multiple of 2^64. */
  lemma {:induction false} ProvableExactly(inputs: PublicInputs, w: BatchWitness, project: Projection)
    requires Admissible(w.batch.instrument, w.batch.orders)
    ensures Provable(inputs, w, project) <==>
              && HonestRun(inputs, w)
              && NumberedFromZero(w.batch.orders)
              && NarrowFills(w.fills)
              && SameHighWords(w.pre, w.post)
  {
    hide CheckedInTheClear, HonestRun, Synthesizable, Satisfied, NumberedFromZero, NarrowFills, SameHighWords;
    CheckedIsHonest(inputs, w);
    if CheckedInTheClear(inputs, w) { CircuitSatisfied(inputs, w, project); }
  }

  /** Neither the plaintext checks nor the circuit read the counts per
      disposition that a manifest carries. */
  lemma {:induction false} DispositionCountsAreNotRead(inputs: PublicInputs, w: BatchWitness, m: Manifest, project: Projection)
    requires Admissible(w.batch.instrument, w.batch.orders)
    requires m.records == w.accounting.records && m.totalCommitted == w.accounting.totalCommitted
    ensures Provable(inputs, w.(accounting := m), project) <==> Provable(inputs, w, project)
  {
    hide Provable, NumberedFromZero, NarrowFills, SameHighWords, Execute, Representable, Agree, RecordsOf, CommitHeader, LedgerRoot;
    ProvableExactly(inputs, w, project);
    ProvableExactly(inputs, w.(accounting := m), project);
  }

  /** In particular every honest run with all balances below 2^64 is provable
      when its orders are numbered from zero. */
  lemma {:induction false} SmallHonestRunsAreProvable(inputs: PublicInputs, w: BatchWitness, project: Projection)
    requires Admissible(w.batch.instrument, w.batch.orders) && HonestRun(inputs, w) && NumberedFromZero(w.batch.orders)
    requires forall id :: id in w.pre ==> w.pre[id].cash <= MAX64
    requires forall id :: id in w.post ==> w.post[id].cash <= MAX64
    requires NarrowFills(w.fills)
    ensures Provable(inputs, w, project)
  {
    hide HonestRun, Provable;
    ProvableExactly(inputs, w, project);
  }
}
