/** The constraint count that a certificate records, as a closed formula. */
module ProverSize {
  import opened Primitives
  import opened Sorting
  import opened Orders
  import opened Auction
  import opened Allocation
  import opened Ledgers
  import opened Settlement
  import opened Checker
  import opened Merkle
  import opened Accounting
  import opened RecordBinding
  import opened R1cs
  import opened ConstraintParts
  import opened OrderValidity
  import opened AccountingConstraints
  import opened ClearingConstraints
  import opened AllocationConstraints
  import opened FillConstraints
  import opened ConservationConstraints
  import opened Prover

  lemma {:induction false} OrderPartSize(base: nat, instrument: u64, orders: seq<Order>)
    ensures |OrderPart(base, instrument, orders).constraints| == 5 * |orders|
  {
    if orders != [] { OrderPartSize(base, instrument, orders[..|orders|-1]); }
  }

  lemma {:induction false} RecordsPartSize(base: nat, rootVar: Variable, records: seq<Record>, root: u64)
    ensures |RecordsPart(base, rootVar, records, root).constraints| == 2 * |records|
  {
    hide Equality;
    if records != [] { RecordsPartSize(base, rootVar, records[..|records|-1], root); }
  }

  lemma {:induction false} CandidatesPartSize(base: nat, volVar: Variable, orders: seq<Order>, prices: seq<u64>, vol: u64)
    requires TotalsFit(orders)
    ensures |CandidatesPart(base, volVar, orders, prices, vol).constraints| == 2 * |prices|
  {
    hide TotalsFit, Equality, Demand, Supply;
    if prices != [] { CandidatesPartSize(base, volVar, orders, prices[..|prices|-1], vol); }
  }

  lemma {:induction false} EntriesPartSize(base: nat, cp: u64, orders: seq<Order>, entries: seq<OrderAllocation>)
    requires |orders| == |entries|
    ensures |EntriesPart(base, cp, orders, entries).part.constraints| == |entries|
  {
    hide Equality, AddTerm, Classify;
    if entries != [] { EntriesPartSize(base, cp, orders[..|entries|-1], entries[..|entries|-1]); }
  }

  lemma {:induction false} FillsPartSize(base: nat, cpVar: Variable, cp: u64, orders: seq<Order>, fills: seq<Fill>)
    requires |orders| == |fills|
    ensures |FillsPart(base, cpVar, cp, orders, fills).constraints| == 3 * |fills|
  {
    hide Equality, LimitConstraint, FillScalars;
    if fills != [] { FillsPartSize(base, cpVar, cp, orders[..|fills|-1], fills[..|fills|-1]); }
  }

  lemma {:induction false} AccountsPartSize(base: nat, rows: seq<Row>, owns: seq<seq<Fill>>)
    requires |rows| == |owns|
    ensures |AccountsPart(base, rows, owns).part.constraints| == 2 * |rows|
  {
    hide Equality, AccountScalars, AddColumns, ExpectedCash, ExpectedInv;
    if rows != [] { AccountsPartSize(base, rows[..|rows|-1], owns[..|rows|-1]); }
  }

  lemma {:induction false} RecordsLength(inputs: PublicInputs, w: BatchWitness)
    requires CheckedInTheClear(inputs, w)
    ensures |w.preimages| == |w.batch.orders|
    ensures Normalized(w.accounting.records, w.batch.orders, CommittedLeaves(w.preimages)).Ok?
    ensures |CanonicalManifest(w).records| == |w.batch.orders|
  {
    hide Accepts, RootsBound, RecordsPass, CoversLeaves, Root;
  }

  lemma {:induction false} IntakeSize(inputs: PublicInputs, w: BatchWitness, project: Projection)
    requires CheckedInTheClear(inputs, w)
    ensures |IntakePart(inputs, w, project).constraints| == 7 * |w.batch.orders| + 1
  {
    hide CheckedInTheClear, OrderPart, RecordsPart, Equality, Root, CommittedLeaves, CanonicalManifest;
    var orders := OrderPart(0, w.batch.instrument, w.batch.orders);
    OrderPartSize(0, w.batch.instrument, w.batch.orders);
    RecordsLength(inputs, w);
    RecordsPartSize(|orders.scalars|, Public(1), CanonicalManifest(w).records, project(Root(CommittedLeaves(w.preimages))));
  }

  lemma {:induction false} AuctionSize(inputs: PublicInputs, w: BatchWitness, project: Projection)
    requires CheckedInTheClear(inputs, w)
    ensures |AuctionPart(inputs, w, project).constraints|
         == 7 * |w.batch.orders| + 1 + 2 * |PriceSet(w.batch.orders)| + 2
  {
    hide IntakePart, CandidatesPart, Equality, TotalsFit, Clear, CheckedInTheClear;
    var intake := IntakePart(inputs, w, project);
    IntakeSize(inputs, w, project);
    AuctionFits(inputs, w);
    AscendingKeys(PriceSet(w.batch.orders));
    CandidatesPartSize(|intake.scalars|, Public(3), w.batch.orders, Candidates(w.batch.orders), inputs.clearedVolume);
  }

  lemma {:induction false} AuctionFits(inputs: PublicInputs, w: BatchWitness)
    requires CheckedInTheClear(inputs, w)
    ensures Clear(w.batch.orders).Ok? && TotalsFit(w.batch.orders)
  {
    hide InputsBound, FillsPass, PostStatePasses, Accounted, RootsBound, Clear, Allocate, CanonicalFills;
    ClearFits(w.batch.orders);
  }

  lemma {:induction false} CrossedSize(auction: Part, w: BatchWitness, cp: u64)
    requires Referred(w.batch.orders, w.allocation.allocations).Ok? && Executed(w.batch.orders, w.fills, cp).Ok?
    ensures |Crossed(auction, w, cp).constraints|
         == |auction.constraints| + |w.allocation.allocations| + 2 + 3 * |w.fills|
  {
    hide Referred, Executed, EntriesPart, FillsPart, Equality;
    var referred, executed := Referred(w.batch.orders, w.allocation.allocations).value, Executed(w.batch.orders, w.fills, cp).value;
    EntriesPartSize(|auction.scalars|, cp, referred, w.allocation.allocations);
    var allocation := Then(auction, AllocationPart(|auction.scalars|, Public(4), cp, referred, w.allocation.allocations));
    FillsPartSize(|allocation.scalars| + 1, Witness(|allocation.scalars|), cp, executed, w.fills);
  }

  lemma {:induction false} LedgersSize(base: nat, pre: Accounts, post: Accounts, fills: seq<Fill>, instrument: u64)
    ensures |LedgersPart(base, pre, post, fills, instrument).constraints| == 2 * |pre| + 2
  {
    hide AccountsPart, Equality, Ascending, RowOf;
    var keys := Ascending(pre.Keys);
    AscendingKeys(pre.Keys);
    AccountsPartSize(base, RowsOf(pre, post, keys, instrument), OwnsOf(fills, keys));
    assert |pre| == |pre.Keys|;
  }

  /** Seven constraints for an order and its record, two for a candidate price
      and for an account, and when the book crossed one for an entry and three
      for a fill; with those on the totals, this is the count that the
      certificate records beside its own statement. */
  lemma {:induction false} CertificateCounts(inputs: PublicInputs, w: BatchWitness, project: Projection)
    requires Provable(inputs, w, project)
    ensures ProofOf(inputs, w, project).Ok?
    ensures var proof := ProofOf(inputs, w, project).value;
            && proof.version == 1 && proof.inputs == inputs
            && proof.constraintCount
               == 7 * |w.batch.orders| + 2 * |PriceSet(w.batch.orders)| + 2 * |w.pre| + 5
                  + (if inputs.clearingPrice > 0 then |w.allocation.allocations| + 3 * |w.fills| + 2 else 0)
  {
    hide CheckedInTheClear, Synthesizable, Satisfied, AuctionPart, Crossed, LedgersPart, PriceSet;
    AuctionSize(inputs, w, project);
    WhenCrossed(inputs, w);
    if inputs.clearingPrice > 0 { CrossedSize(AuctionPart(inputs, w, project), w, inputs.clearingPrice); }
    LedgersSize(|ExecutionPart(inputs, w, project).scalars|, w.pre, w.post, w.fills, w.batch.instrument);
  }

  lemma {:induction false} WhenCrossed(inputs: PublicInputs, w: BatchWitness)
    requires CheckedInTheClear(inputs, w) && Synthesizable(inputs, w)
    ensures inputs.clearingPrice > 0 ==>
              Referred(w.batch.orders, w.allocation.allocations).Ok? && Executed(w.batch.orders, w.fills, inputs.clearingPrice).Ok?
  {
    hide CheckedInTheClear, RecordsAgree, Referred, Executed;
  }
}
