/** The single-batch prover: input binding, plaintext checks, synthesis of the
    subrelations in order, and satisfaction of the concatenated witness. */
module Prover {
  import opened Primitives
  import opened Orders
  import opened Auction
  import opened Allocation
  import opened Ledgers
  import opened Settlement
  import opened Checker
  import opened Commitments
  import opened Merkle
  import opened LedgerCommitment
  import opened Accounting
  import opened RecordBinding
  import opened R1cs
  import opened ConstraintParts
  import opened OrderValidity
  import opened AccountingConstraints
  import opened ClearingConstraints
  import opened AllocationConstraints
  import opened FillConstraints
  import opened ConservationConstraints

  datatype PublicInputs = PublicInputs(
    preRoot: Digest, postRoot: Digest, headerHash: Digest, oracleHash: Digest, clearingPrice: u64, clearedVolume: u64)

  /** Private data of one batch; the batch cleared without reference prices. */
  datatype BatchWitness = BatchWitness(
    pre: Accounts, post: Accounts, batch: Batch, preimages: seq<SaltedOrder>,
    allocation: BatchAllocation, fills: seq<Fill>, accounting: Manifest, cutoff: u64)

  /** The certificate keeps what its text records: the constraint count. */
  datatype BatchProof = BatchProof(version: u8, inputs: PublicInputs, constraintCount: nat)

  // ---- What the prover demands ----

  ghost predicate PreimagesMatch(orders: seq<Order>, preimages: seq<SaltedOrder>)
  {
    && |preimages| == |orders| <= MAX32
    && forall i :: 0 <= i < |orders| ==> preimages[i].order == orders[i]
  }

  ghost function HeaderOf(w: BatchWitness): Digest
  {
    CommitHeader(1, w.batch.batchId, w.batch.instrument, w.cutoff, |w.batch.orders|, Root(CommittedLeaves(w.preimages)))
  }

  ghost predicate InputsBound(inputs: PublicInputs, w: BatchWitness)
  {
    && PreimagesMatch(w.batch.orders, w.preimages)
    && HeaderOf(w) == inputs.headerHash
    && Normalized(w.accounting.records, w.batch.orders, CommittedLeaves(w.preimages)).Ok?
  }

  ghost function CanonicalManifest(w: BatchWitness): Manifest
    requires |w.preimages| == |w.batch.orders|
    requires Normalized(w.accounting.records, w.batch.orders, CommittedLeaves(w.preimages)).Ok?
  {
    w.accounting.(records := Normalized(w.accounting.records, w.batch.orders, CommittedLeaves(w.preimages)).value)
  }

  function PublishedPrice(inputs: PublicInputs): Option<u64>
  {
    if inputs.clearingPrice > 0 then Some(inputs.clearingPrice) else None
  }

  function Claimed(inputs: PublicInputs): ClearingOutcome
  {
    ClearingOutcome(PublishedPrice(inputs), inputs.clearedVolume)
  }

  function Proposal(inputs: PublicInputs, w: BatchWitness): ExecutionResult
  {
    ExecutionResult(Claimed(inputs), w.allocation, w.fills, w.post)
  }

  ghost predicate RootsBound(inputs: PublicInputs, w: BatchWitness)
  {
    && inputs.preRoot == LedgerRoot(w.pre, w.batch.instrument)
    && inputs.postRoot == LedgerRoot(w.post, w.batch.instrument)
    && inputs.oracleHash == NO_ORACLE
  }

  /** Everything checked in the clear, before any constraint exists. */
  ghost predicate CheckedInTheClear(inputs: PublicInputs, w: BatchWitness)
  {
    && InputsBound(inputs, w)
    && Accepts(w.pre, w.batch, Proposal(inputs, w))
    && Accounted(w.batch.orders, CommittedLeaves(w.preimages), CanonicalManifest(w), QtyMap(w.allocation.allocations))
    && RootsBound(inputs, w)
  }

  // ---- The circuit ----

  /** What the synthesizers re-check beyond the plaintext guards. */
  ghost predicate Synthesizable(inputs: PublicInputs, w: BatchWitness)
    requires CheckedInTheClear(inputs, w)
  {
    && RecordsAgree(CanonicalManifest(w).records, w.preimages, CommittedLeaves(w.preimages), w.allocation.allocations)
    && (PublishedPrice(inputs).Some? ==>
          && Referred(w.batch.orders, w.allocation.allocations).Ok?
          && Executed(w.batch.orders, w.fills, inputs.clearingPrice).Ok?)
  }

  function Then(p: Part, q: Part): Part { Extend(p, q.constraints, q.scalars) }

  ghost function IntakePart(inputs: PublicInputs, w: BatchWitness, project: Projection): Part
    requires CheckedInTheClear(inputs, w)
  {
    var orders := OrderPart(0, w.batch.instrument, w.batch.orders);
    Then(orders, AccountingPart(|orders.scalars|, 0, CanonicalManifest(w).records, project(Root(CommittedLeaves(w.preimages)))))
  }

  ghost function AuctionPart(inputs: PublicInputs, w: BatchWitness, project: Projection): Part
    requires CheckedInTheClear(inputs, w)
  {
    ClearFits(w.batch.orders);
    var intake := IntakePart(inputs, w, project);
    Then(intake, ClearingPart(|intake.scalars|, 2, w.batch.orders, inputs.clearingPrice, inputs.clearedVolume))
  }

  ghost function Crossed(auction: Part, w: BatchWitness, cp: u64): Part
    requires Referred(w.batch.orders, w.allocation.allocations).Ok? && Executed(w.batch.orders, w.fills, cp).Ok?
  {
    var allocation := Then(auction, AllocationPart(|auction.scalars|, Public(4), cp,
        Referred(w.batch.orders, w.allocation.allocations).value, w.allocation.allocations));
    Then(allocation, FillBoundsPart(|allocation.scalars|, cp, Executed(w.batch.orders, w.fills, cp).value, w.fills))
  }

  /** Allocation and fill bounds enter only when the book crossed. */
  ghost function ExecutionPart(inputs: PublicInputs, w: BatchWitness, project: Projection): Part
    requires CheckedInTheClear(inputs, w) && Synthesizable(inputs, w)
  {
    var auction := AuctionPart(inputs, w, project);
    if PublishedPrice(inputs).None? then auction else Crossed(auction, w, inputs.clearingPrice)
  }

  ghost function Circuit(inputs: PublicInputs, w: BatchWitness, project: Projection): Part
    requires CheckedInTheClear(inputs, w) && Synthesizable(inputs, w)
  {
    var execution := ExecutionPart(inputs, w, project);
    Then(execution, LedgersPart(|execution.scalars|, w.pre, w.post, w.fills, w.batch.instrument))
  }

  ghost function PublicScalars(inputs: PublicInputs, w: BatchWitness, project: Projection): seq<u64>
    requires |w.batch.orders| <= MAX32
  {
    [|w.batch.orders|, project(Root(CommittedLeaves(w.preimages))), inputs.clearingPrice, inputs.clearedVolume, inputs.clearedVolume]
  }

  ghost predicate Satisfied(inputs: PublicInputs, w: BatchWitness, project: Projection)
    requires CheckedInTheClear(inputs, w) && Synthesizable(inputs, w)
  {
    var c := Circuit(inputs, w, project);
    AllHold(c.constraints, PublicScalars(inputs, w, project), c.scalars)
  }

  /** A proof is produced exactly when all three stages pass. */
  ghost predicate Provable(inputs: PublicInputs, w: BatchWitness, project: Projection)
  {
    CheckedInTheClear(inputs, w) && Synthesizable(inputs, w) && Satisfied(inputs, w, project)
  }

  ghost function ProofOf(inputs: PublicInputs, w: BatchWitness, project: Projection): Result<BatchProof>
  {
    if Provable(inputs, w, project) then Ok(BatchProof(1, inputs, |Circuit(inputs, w, project).constraints|)) else Err
  }

  // ---- The prover as it runs ----

  method CommitPreimages(orders: seq<Order>, preimages: seq<SaltedOrder>) returns (r: Result<seq<Digest>>)
    ensures r == if PreimagesMatch(orders, preimages) then Ok(CommittedLeaves(preimages)) else Err
  {
    hide CommitOrder;
    if |preimages| != |orders| || |orders| > MAX32 { return Err; }
    var leaves: seq<Digest> := [];
    for i := 0 to |orders|
      invariant |leaves| == i && forall k :: 0 <= k < i ==> leaves[k] == CommitOrder(preimages[k])
      invariant forall k :: 0 <= k < i ==> preimages[k].order == orders[k]
    {
      if preimages[i].order != orders[i] { return Err; }
      leaves := leaves + [CommitOrder(preimages[i])];
    }
    assert leaves == CommittedLeaves(preimages);
    return Ok(leaves);
  }

  /** Plaintext checks, in order: transition, accounting, state roots, oracle. */
  method CheckPlaintext(inputs: PublicInputs, w: BatchWitness, tree: MerkleTree, m: Manifest) returns (ok: bool)
    requires tree.Valid()
    ensures ok == (&& Accepts(w.pre, w.batch, Proposal(inputs, w))
                   && Accounted(w.batch.orders, tree.leaves, m, QtyMap(w.allocation.allocations))
                   && RootsBound(inputs, w))
    ensures unchanged(tree)
  {
    hide Accepts, Accounted, QtyMap, LedgerRoot, Root, Layers, TopOf;
    var pre := new Ledger(w.pre);
    var post := new Ledger(w.post);
    ok := VerifyTransition(pre, w.batch, Proposal(inputs, w));
    if !ok { return; }
    ok := VerifyAccounting(w.batch, tree, m, w.allocation);
    if !ok { return; }
    var preRoot := ComputeLedgerRoot(pre, w.batch.instrument);
    if inputs.preRoot != preRoot { return false; }
    var postRoot := ComputeLedgerRoot(post, w.batch.instrument);
    if inputs.postRoot != postRoot { return false; }
    ok := inputs.oracleHash == NO_ORACLE;
  }

  method SynthesizeIntake(cs: ConstraintSystem, inputs: PublicInputs, w: BatchWitness, tree: MerkleTree, m: Manifest, project: Projection)
    returns (r: Result<seq<u64>>)
    requires CheckedInTheClear(inputs, w) && tree.Valid()
    requires tree.leaves == CommittedLeaves(w.preimages) && m == CanonicalManifest(w)
    requires cs.constraints == [] && cs.numWitness == 0 && cs.numPublic == 0
    modifies cs
    ensures r.Ok? <==> RecordsAgree(m.records, w.preimages, tree.leaves, w.allocation.allocations)
    ensures r.Ok? ==> r.value == IntakePart(inputs, w, project).scalars && cs.constraints == IntakePart(inputs, w, project).constraints
    ensures r.Ok? ==> cs.numWitness == |r.value| && cs.numPublic == 2
    ensures unchanged(tree)
  {
    hide Accepts, Accounted, RecordsAgree, RootsBound, OrderPart, AccountingPart, Root, QtyMap, Layers,
      Normalized, HeaderOf, CommittedLeaves;
    ghost var p := OrderPart(0, w.batch.instrument, w.batch.orders);
    var orderVars, orderScalars := SynthesizeOrderValidity(cs, w.batch.instrument, w.batch.orders);
    assert cs.constraints == p.constraints by { assert [] + p.constraints == p.constraints; }
    var more := SynthesizeAccounting(cs, w.batch, w.preimages, tree, m, w.allocation, project);
    if more.Err? { return Err; }
    return Ok(orderScalars + more.value);
  }

  method SynthesizeAuction(cs: ConstraintSystem, inputs: PublicInputs, w: BatchWitness, intake: seq<u64>, project: Projection)
    returns (scalars: seq<u64>)
    requires CheckedInTheClear(inputs, w)
    requires intake == IntakePart(inputs, w, project).scalars && cs.constraints == IntakePart(inputs, w, project).constraints
    requires cs.numWitness == |intake| && cs.numPublic == 2
    modifies cs
    ensures scalars == AuctionPart(inputs, w, project).scalars && cs.constraints == AuctionPart(inputs, w, project).constraints
    ensures cs.numWitness == |scalars| && cs.numPublic == 4
  {
    hide InputsBound, FillsPass, PostStatePasses, Accounted, RootsBound, IntakePart, ClearingPart, Clear,
      Allocate, CanonicalFills;
    var more := SynthesizeClearing(cs, w.batch.orders, Claimed(inputs));
    assert more.Ok?;
    scalars := intake + more.value;
  }

  method SynthesizeExecution(cs: ConstraintSystem, inputs: PublicInputs, w: BatchWitness, auction: seq<u64>, project: Projection)
    returns (r: Result<seq<u64>>)
    requires CheckedInTheClear(inputs, w)
    requires RecordsAgree(CanonicalManifest(w).records, w.preimages, CommittedLeaves(w.preimages), w.allocation.allocations)
    requires auction == AuctionPart(inputs, w, project).scalars && cs.constraints == AuctionPart(inputs, w, project).constraints
    requires cs.numWitness == |auction| && cs.numPublic == 4
    modifies cs
    ensures r.Ok? <==> Synthesizable(inputs, w)
    ensures r.Ok? ==> r.value == ExecutionPart(inputs, w, project).scalars && cs.constraints == ExecutionPart(inputs, w, project).constraints
    ensures r.Ok? ==> cs.numWitness == |r.value|
  {
    hide InputsBound, FillsPass, PostStatePasses, Accounted, RootsBound, AuctionPart, Clear, Allocate, CanonicalFills,
      RecordsAgree, AllocationPart, FillBoundsPart, Referred, Executed;
    if PublishedPrice(inputs).None? { return Ok(auction); }
    var cp := inputs.clearingPrice;
    var allocation := SynthesizeAllocation(cs, w.batch, cp, inputs.clearedVolume, w.allocation);
    if allocation.Err? { return Err; }
    var bounds := SynthesizeFillBounds(cs, cp, w.batch.orders, w.fills);
    if bounds.Err? { return Err; }
    return Ok(auction + allocation.value + bounds.value);
  }

  /** All subrelations in order: the allocated indices and the pushed scalars
      line up throughout. */
  method Synthesize(cs: ConstraintSystem, inputs: PublicInputs, w: BatchWitness, tree: MerkleTree, m: Manifest, project: Projection)
    returns (r: Result<seq<u64>>)
    requires CheckedInTheClear(inputs, w) && tree.Valid()
    requires tree.leaves == CommittedLeaves(w.preimages) && m == CanonicalManifest(w)
    requires cs.constraints == [] && cs.numWitness == 0 && cs.numPublic == 0
    modifies cs
    ensures r.Ok? <==> Synthesizable(inputs, w)
    ensures r.Ok? ==> r.value == Circuit(inputs, w, project).scalars && cs.constraints == Circuit(inputs, w, project).constraints
    ensures unchanged(tree)
  {
    hide InputsBound, Accepts, Accounted, RootsBound, IntakePart, AuctionPart, ExecutionPart, RecordsAgree, LedgersPart,
      Referred, Executed, CanonicalManifest, CommittedLeaves, Layers;
    var intake := SynthesizeIntake(cs, inputs, w, tree, m, project);
    if intake.Err? { return Err; }
    var auction := SynthesizeAuction(cs, inputs, w, intake.value, project);
    var execution := SynthesizeExecution(cs, inputs, w, auction, project);
    if execution.Err? { return Err; }
    var conservation := SynthesizeConservation(cs, w.pre, w.post, w.fills, w.batch.instrument);
    return Ok(execution.value + conservation);
  }

  method ProveChecked(inputs: PublicInputs, w: BatchWitness, tree: MerkleTree, m: Manifest, project: Projection)
    returns (r: Result<BatchProof>)
    requires CheckedInTheClear(inputs, w) && tree.Valid()
    requires tree.leaves == CommittedLeaves(w.preimages) && m == CanonicalManifest(w)
    ensures r == ProofOf(inputs, w, project)
    ensures unchanged(tree)
  {
    hide HeaderOf, Normalized, Accepts, Accounted, RootsBound, Circuit, Synthesizable, AllHold, Root, Layers,
      CanonicalManifest, CommittedLeaves;
    var cs := new ConstraintSystem();
    var scalars := Synthesize(cs, inputs, w, tree, m, project);
    if scalars.Err? { return Err; }
    var root := tree.GetRoot();
    var pub := [|w.batch.orders|, project(root), inputs.clearingPrice, inputs.clearedVolume, inputs.clearedVolume];
    assert pub == PublicScalars(inputs, w, project);
    var ok := cs.IsSatisfied(pub, scalars.value);
    if !ok { return Err; }
    return Ok(BatchProof(1, inputs, |cs.constraints|));
  }

  method Prove(inputs: PublicInputs, w: BatchWitness, project: Projection) returns (r: Result<BatchProof>)
    ensures r == ProofOf(inputs, w, project)
  {
    hide Accepts, Accounted, Circuit, Synthesizable, Satisfied, RootsBound, Root, Layers, QtyMap, Normalized,
      CommittedLeaves, CommitHeader, PreimagesMatch;
    var leaves := CommitPreimages(w.batch.orders, w.preimages);
    if leaves.Err? { return Err; }
    var tree := new MerkleTree(leaves.value);
    var root := tree.GetRoot();
    if CommitHeader(1, w.batch.batchId, w.batch.instrument, w.cutoff, |w.batch.orders|, root) != inputs.headerHash { return Err; }
    LeafCount(w.batch.orders, w.preimages);
    var canonical := NormalizeRecords(w.accounting.records, w.batch.orders, leaves.value);
    if canonical.Err? { return Err; }
    var m := w.accounting.(records := canonical.value);
    var ok := CheckPlaintext(inputs, w, tree, m);
    if !ok { return Err; }
    r := ProveChecked(inputs, w, tree, m, project);
  }

  lemma {:induction false} LeafCount(orders: seq<Order>, preimages: seq<SaltedOrder>)
    requires PreimagesMatch(orders, preimages)
    ensures |preimages| == |orders| == |CommittedLeaves(preimages)|
  {
  }
}
