/** What a proved session guarantees as a whole, although its steps are linked
    by digests alone, and what verification checks of a session without them. */
module SessionProperties {
  import opened Primitives
  import opened Orders
  import opened Allocation
  import Auction
  import opened Ledgers
  import opened Settlement
  import opened Checker
  import opened CheckerProperties
  import opened Commitments
  import opened Merkle
  import opened LedgerCommitment
  import opened Accounting
  import opened RecordBinding
  import opened AccountingConstraints
  import opened Prover
  import opened Session

  // ---- Conservation over the whole session ----

  ghost predicate SameTotals(l: Accounts, m: Accounts, instrument: u64)
  {
    TotalCash(l) == TotalCash(m) && TotalInventory(l, instrument) == TotalInventory(m, instrument)
  }

  lemma {:induction false} RootsShareTotals(l: Accounts, m: Accounts, instrument: u64)
    requires LedgerRoot(l, instrument) == LedgerRoot(m, instrument)
    ensures SameTotals(l, m, instrument)
  {
    hide LedgerRoot, TotalCash, TotalInventory;
    RootDeterminesLedger(l, m, instrument);
  }

  lemma {:induction false} StepConserves(s: RunningState, step: SessionStep, project: Projection)
    requires Foldable(s, step, project)
    ensures LedgerRoot(step.data.pre, s.instrument) == s.ledgerRoot
    ensures LedgerRoot(step.data.post, s.instrument) == Advance(s, step).ledgerRoot
    ensures SameTotals(step.data.pre, step.data.post, s.instrument)
  {
    hide InputsBound, Accounted, Synthesizable, Satisfied, LedgerRoot, TotalCash, TotalInventory, Accepts, CommitHistory;
    AcceptanceConserves(step.data.pre, step.data.batch, Proposal(step.inputs, step.data));
  }

  lemma {:induction false} InstrumentKept(s: RunningState, steps: seq<SessionStep>)
    ensures Reached(s, steps).instrument == s.instrument
  {
    hide CommitHistory;
    if steps != [] { InstrumentKept(s, steps[..|steps|-1]); }
  }

  /** Over any number of proved steps from any initial state, every ledger
      that opens the initial root and every ledger that opens the final root
      hold the same total cash and the same total of the session's instrument. */
  lemma {:induction false} SessionConserves(s: RunningState, steps: seq<SessionStep>, project: Projection, l: Accounts, m: Accounts)
    requires AllFold(s, steps, project)
    requires LedgerRoot(l, s.instrument) == s.ledgerRoot
    requires LedgerRoot(m, s.instrument) == Reached(s, steps).ledgerRoot
    ensures SameTotals(l, m, s.instrument)
  {
    hide LedgerRoot, Foldable, Advance, SameTotals;
    if steps == [] {
      RootsShareTotals(l, m, s.instrument);
    } else {
      var front, last := steps[..|steps|-1], steps[|steps|-1];
      InstrumentKept(s, front);
      StepConserves(Reached(s, front), last, project);
      SessionConserves(s, front, project, l, last.data.pre);
      RootsShareTotals(last.data.post, m, s.instrument);
      TotalsChain(l, last.data.pre, last.data.post, m, s.instrument);
    }
  }

  lemma {:induction false} TotalsChain(a: Accounts, b: Accounts, c: Accounts, d: Accounts, instrument: u64)
    requires SameTotals(a, b, instrument) && SameTotals(b, c, instrument) && SameTotals(c, d, instrument)
    ensures SameTotals(a, d, instrument)
  {
    hide TotalCash, TotalInventory;
  }

  /** First pre-ledger to last post-ledger. */
  lemma {:induction false} FirstToLastConserved(s: RunningState, steps: seq<SessionStep>, project: Projection)
    requires steps != [] && AllFold(s, steps, project)
    ensures SameTotals(steps[0].data.pre, steps[|steps|-1].data.post, s.instrument)
  {
    hide AllFold, Foldable, LedgerRoot, SameTotals, Advance;
    var n := |steps| - 1;
    FoldsAt(s, steps, 0, project);
    NothingFolded(s, steps, project);
    StepConserves(s, steps[0], project);
    FoldsAt(s, steps, n, project);
    InstrumentKept(s, steps[..n]);
    StepConserves(Reached(s, steps[..n]), steps[n], project);
    FoldOneMore(s, steps, n, project);
    assert steps[..n+1] == steps;
    SessionConserves(s, steps, project, steps[0].data.pre, steps[n].data.post);
  }

  // ---- The running state counts and orders its steps ----

  lemma {:induction false} LastFold(s: RunningState, steps: seq<SessionStep>, project: Projection)
    requires steps != [] && AllFold(s, steps, project)
    ensures AllFold(s, steps[..|steps|-1], project)
    ensures Continues(Reached(s, steps[..|steps|-1]), steps[|steps|-1])
    ensures Reached(s, steps).batchId == steps[|steps|-1].data.batch.batchId
    ensures Reached(s, steps).timestamp == steps[|steps|-1].timestamp
  {
    hide Provable, CommitHistory, Continues;
  }

  lemma {:induction false} Successor(a: int, n: nat)
    ensures ((a + n) % (MAX64 + 1) + 1) % (MAX64 + 1) == (a + (n + 1)) % (MAX64 + 1)
  {
  }

  /** Batch numbers count up modulo 2^64 and time never runs backwards. */
  lemma {:induction false} StepsAreNumbered(s: RunningState, steps: seq<SessionStep>, project: Projection)
    requires AllFold(s, steps, project)
    ensures Reached(s, steps).batchId == (s.batchId + |steps|) % (MAX64 + 1)
    ensures s.timestamp <= Reached(s, steps).timestamp
    ensures forall i :: 0 <= i < |steps| ==> s.timestamp <= steps[i].timestamp <= Reached(s, steps).timestamp
  {
    hide AllFold, Reached;
    if steps == [] {
      NothingFolded(s, steps, project);
      assert steps[..0] == steps;
    } else {
      var n := |steps| - 1;
      LastFold(s, steps, project);
      StepsAreNumbered(s, steps[..n], project);
      Successor(s.batchId, n);
      forall i | 0 <= i < |steps| ensures s.timestamp <= steps[i].timestamp <= Reached(s, steps).timestamp {
        if i < n { assert steps[i] == steps[..n][i]; }
      }
    }
  }

  // ---- The final history pins down every batch ----

  ghost function HistoryDepth(d: Digest): nat
  {
    if d.Leaf? && d.payload != [] && d.payload[0].Embedded? then 1 + HistoryDepth(d.payload[0].d) else 0
  }

  lemma {:induction false} OneDeeper(r: Replay, p: BatchProof)
    ensures HistoryDepth(ReplayOne(r, p).history) == HistoryDepth(r.history) + 1
  {
  }

  lemma {:induction false} ReplayDeepens(start: Replay, steps: seq<BatchProof>)
    ensures HistoryDepth(ReplayAll(start, steps).history) == HistoryDepth(start.history) + |steps|
  {
    hide HistoryDepth, ReplayOne;
    if steps != [] {
      ReplayDeepens(start, steps[..|steps|-1]);
      OneDeeper(ReplayAll(start, steps[..|steps|-1]), steps[|steps|-1]);
    }
  }

  lemma {:induction false} ReachedDeepens(s: RunningState, steps: seq<SessionStep>)
    ensures HistoryDepth(Reached(s, steps).history) == HistoryDepth(s.history) + |steps|
  {
    if steps != [] { ReachedDeepens(s, steps[..|steps|-1]); }
  }

  /** From genesis, the batch number and the depth of the history both count
      the batches. */
  lemma {:induction false} GenesisCountsBatches(root: Digest, instrument: u64, steps: seq<SessionStep>, project: Projection)
    requires AllFold(Genesis(root, instrument), steps, project)
    ensures Reached(Genesis(root, instrument), steps).batchId == |steps| % (MAX64 + 1)
    ensures HistoryDepth(Reached(Genesis(root, instrument), steps).history) == |steps|
    ensures Reached(Genesis(root, instrument), steps).instrument == instrument
    ensures Genesis(root, instrument).ledgerRoot == root && Genesis(root, instrument).timestamp == 0
  {
    hide AllFold, Reached;
    InstrumentKept(Genesis(root, instrument), steps);
    StepsAreNumbered(Genesis(root, instrument), steps, project);
    ReachedDeepens(Genesis(root, instrument), steps);
  }

  /** What a link of the history commits to. */
  predicate SameLink(p: BatchProof, q: BatchProof)
  {
    && p.inputs.headerHash == q.inputs.headerHash
    && p.inputs.clearingPrice == q.inputs.clearingPrice
    && p.inputs.clearedVolume == q.inputs.clearedVolume
  }

  lemma {:induction false} SameHistorySameLinks(s: Replay, a: seq<BatchProof>, t: Replay, b: seq<BatchProof>)
    requires |a| == |b| && ReplayAll(s, a).history == ReplayAll(t, b).history
    ensures s.history == t.history
    ensures forall i :: 0 <= i < |a| ==> SameLink(a[i], b[i])
  {
    hide CommitHistory;
    if a != [] {
      var n := |a| - 1;
      var p, q := a[n].inputs, b[n].inputs;
      CommitHistoryInjective(
        ReplayAll(s, a[..n]).history, p.headerHash, p.clearingPrice, p.clearedVolume,
        ReplayAll(t, b[..n]).history, q.headerHash, q.clearingPrice, q.clearedVolume);
      SameHistorySameLinks(s, a[..n], t, b[..n]);
    }
  }

  /** Two accepted sessions with equal boundary states have the same number of
      steps and, at every step, the same header hash, price and volume. */
  lemma {:induction false} BoundariesDetermineSteps(initial: RunningState, final: RunningState, p: SessionProof, q: SessionProof)
    requires SessionAccepted(initial, final, p) && SessionAccepted(initial, final, q)
    ensures |p.steps| == |q.steps|
    ensures forall i :: 0 <= i < |p.steps| ==> SameLink(p.steps[i], q.steps[i])
  {
    hide Chained, ReplayAll, HistoryDepth, SameLink;
    var start := Replay(initial.ledgerRoot, initial.history);
    ReplayDeepens(start, p.steps);
    ReplayDeepens(start, q.steps);
    SameHistorySameLinks(start, p.steps, start, q.steps);
  }

  // ---- ... down to the orders and the result of each batch ----

  lemma {:induction false} CommitHeaderInjective(b: u64, i: u64, c: u64, n: nat, r: Digest, b': u64, i': u64, c': u64, n': nat, r': Digest)
    requires n <= MAX32 && n' <= MAX32
    requires CommitHeader(1, b, i, c, n, r) == CommitHeader(1, b', i', c', n', r')
    ensures b == b' && i == i' && c == c' && n == n' && r == r'
  {
    hide LittleEndian;
    var tag := [Byte(70), Byte(67), Byte(66), Byte(72), ENCODING_VERSION];
    var t4, t4' := LE32(n) + [Embedded(r)], LE32(n') + [Embedded(r')];
    var t3, t3' := LE64(c) + t4, LE64(c') + t4';
    var t2, t2' := LE64(i) + t3, LE64(i') + t3';
    var t1, t1' := LE64(b) + t2, LE64(b') + t2';
    SplitField(tag, LE32(1) + t1, tag, LE32(1) + t1');
    SplitField(LE32(1), t1, LE32(1), t1');
    SplitField(LE64(b), t2, LE64(b'), t2');
    SplitField(LE64(i), t3, LE64(i'), t3');
    SplitField(LE64(c), t4, LE64(c'), t4');
    SplitField(LE32(n), [Embedded(r)], LE32(n'), [Embedded(r')]);
    assert [Embedded(r)][0] == [Embedded(r')][0];
    LE64Injective(b, b');
    LE64Injective(i, i');
    LE64Injective(c, c');
    WordSizes();
    LittleEndianInjective(n, n', 4);
  }

  lemma {:induction false} PreimageLeavesPerfect(preimages: seq<SaltedOrder>)
    ensures AllPerfect(CommittedLeaves(preimages), 0) && |CommittedLeaves(preimages)| == |preimages|
  {
    hide EncodeOrder;
  }

  lemma {:induction false} SameLeavesSamePreimages(a: seq<SaltedOrder>, b: seq<SaltedOrder>)
    requires CommittedLeaves(a) == CommittedLeaves(b)
    ensures a == b
  {
    hide EncodeOrder;
    PreimageLeavesPerfect(a);
    PreimageLeavesPerfect(b);
    forall i | 0 <= i < |a| ensures a[i] == b[i] {
      assert CommittedLeaves(a)[i] == CommitOrder(a[i]) && CommittedLeaves(b)[i] == CommitOrder(b[i]);
      EncodeOrderInjective(a[i], b[i]);
    }
  }

  /** Same batch, same preimages, same allocation and fills. */
  predicate SameBatch(a: BatchWitness, b: BatchWitness)
  {
    a.batch == b.batch && a.preimages == b.preimages && a.cutoff == b.cutoff && a.allocation == b.allocation && a.fills == b.fills
  }

  lemma {:induction false} MatchingPreimagesSameOrders(a: seq<Order>, b: seq<Order>, preimages: seq<SaltedOrder>)
    requires PreimagesMatch(a, preimages) && PreimagesMatch(b, preimages)
    ensures a == b
  {
  }

  lemma {:induction false} HeaderDeterminesPreimages(a: BatchWitness, b: BatchWitness)
    requires PreimagesMatch(a.batch.orders, a.preimages) && PreimagesMatch(b.batch.orders, b.preimages)
    requires HeaderOf(a) == HeaderOf(b)
    ensures a.batch == b.batch && a.preimages == b.preimages && a.cutoff == b.cutoff
  {
    hide CommitHeader, CommittedLeaves, Root, AllPerfect;
    OrderLimit(a.batch.orders, a.preimages);
    OrderLimit(b.batch.orders, b.preimages);
    hide PreimagesMatch;
    CommitHeaderInjective(
      a.batch.batchId, a.batch.instrument, a.cutoff, |a.batch.orders|, Root(CommittedLeaves(a.preimages)),
      b.batch.batchId, b.batch.instrument, b.cutoff, |b.batch.orders|, Root(CommittedLeaves(b.preimages)));
    PreimageLeavesPerfect(a.preimages);
    PreimageLeavesPerfect(b.preimages);
    RootDeterminesLeaves(CommittedLeaves(a.preimages), CommittedLeaves(b.preimages));
    SameLeavesSamePreimages(a.preimages, b.preimages);
    MatchingPreimagesSameOrders(a.batch.orders, b.batch.orders, a.preimages);
  }

  lemma {:induction false} OrderLimit(orders: seq<Order>, preimages: seq<SaltedOrder>)
    requires PreimagesMatch(orders, preimages)
    ensures |orders| <= MAX32
  {
  }

  /** A header hash that two provable statements share pins down the batch, its
      preimages and, through re-derivation, its allocation and fills. */
  lemma {:induction false} HeaderDeterminesBatch(i: PublicInputs, a: BatchWitness, j: PublicInputs, b: BatchWitness, project: Projection)
    requires Provable(i, a, project) && Provable(j, b, project) && i.headerHash == j.headerHash
    ensures SameBatch(a, b)
  {
    hide PreimagesMatch, HeaderOf, Normalized, CommittedLeaves, Accounted, RootsBound, Synthesizable, Satisfied,
      FillsPass, PostStatePasses, Allocate, CanonicalFills;
    HeaderDeterminesPreimages(a, b);
  }

  /** Two proved sessions that share their first and last running state went
      through the same batches, orders, allocations and fills. */
  lemma {:induction false} SharedBoundariesShareBatches(
      s: RunningState, a: seq<SessionStep>, b: seq<SessionStep>, pa: seq<BatchProof>, pb: seq<BatchProof>, project: Projection)
    requires a != [] && b != [] && AllFold(s, a, project) && AllFold(s, b, project)
    requires ProofsOf(pa, a, project) && ProofsOf(pb, b, project)
    requires Reached(s, a) == Reached(s, b)
    ensures |a| == |b|
    ensures forall i :: 0 <= i < |a| ==> SameBatch(a[i].data, b[i].data)
  {
    hide AllFold, Provable, Circuit, Reached, SessionAccepted, SameBatch;
    ProvedSessionsVerify(s, a, pa, project);
    ProvedSessionsVerify(s, b, pb, project);
    BoundariesDetermineSteps(s, Reached(s, a), SessionProof(1, |a|, s, Reached(s, a), pa), SessionProof(1, |b|, s, Reached(s, b), pb));
    forall i | 0 <= i < |a| ensures SameBatch(a[i].data, b[i].data) {
      assert ProofOf(a[i].inputs, a[i].data, project) == Ok(pa[i]);
      assert ProofOf(b[i].inputs, b[i].data, project) == Ok(pb[i]);
      assert SameLink(pa[i], pb[i]);
      HeaderDeterminesBatch(a[i].inputs, a[i].data, b[i].inputs, b[i].data, project);
    }
  }

  // ---- ... and down to the ledgers in between ----

  lemma {:induction false} AgreeBothWays(a: Accounts, b: Accounts, c: Accounts, d: Accounts, instrument: u64)
    requires Agree(a, b, instrument) && Agree(b, c, instrument) && Agree(d, c, instrument)
    ensures Agree(a, d, instrument)
  {
  }

  lemma {:induction false} SettlementsOfAgreeingLedgersAgree(l: Accounts, m: Accounts, f: Fill, instrument: u64)
    requires Agree(l, m, instrument) && f.instrument == instrument && Settle(l, f).Ok?
    ensures Settle(m, f).Ok? && Agree(Settle(l, f).value, Settle(m, f).value, instrument)
  {
    var x, y := Open(l, f.account), Open(m, f.account);
    assert Agree(x, y, instrument);
    assert MatchesAt(x, y, instrument, f.account);
    var a, b := SettleAccount(x[f.account], f).value, SettleAccount(y[f.account], f).value;
    assert a.cash == b.cash && InventoryOf(a, instrument) == InventoryOf(b, instrument);
    var p, q := Settle(l, f).value, Settle(m, f).value;
    assert p == x[f.account := a] && q == y[f.account := b];
    forall id | id in q ensures MatchesAt(p, q, instrument, id) {
      assert id != f.account ==> MatchesAt(x, y, instrument, id);
    }
  }

  lemma {:induction false} SettleAllAgrees(l: Accounts, m: Accounts, fills: seq<Fill>, instrument: u64)
    requires Agree(l, m, instrument) && forall f :: f in fills ==> f.instrument == instrument
    requires SettleAll(l, fills).Ok?
    ensures SettleAll(m, fills).Ok? && Agree(SettleAll(l, fills).value, SettleAll(m, fills).value, instrument)
  {
    hide Agree, Settle;
    if fills != [] {
      var n := |fills| - 1;
      assert fills[n] in fills;
      SettleAllAgrees(l, m, fills[..n], instrument);
      SettlementsOfAgreeingLedgersAgree(SettleAll(l, fills[..n]).value, SettleAll(m, fills[..n]).value, fills[n], instrument);
    }
  }

  lemma {:induction false} FillsNameInstrument(entries: seq<OrderAllocation>, instrument: u64, cp: u64)
    requires FillsOf(entries, instrument, cp).Ok?
    ensures forall f :: f in FillsOf(entries, instrument, cp).value ==> f.instrument == instrument
  {
    if entries != [] { FillsNameInstrument(entries[..|entries|-1], instrument, cp); }
  }

  lemma {:induction false} CanonicalFillsNameInstrument(instrument: u64, a: BatchAllocation)
    requires CanonicalFills(instrument, a).Ok?
    ensures forall f :: f in CanonicalFills(instrument, a).value ==> f.instrument == instrument
  {
    hide FillsOf;
    if a.clearingPrice.Some? && a.targetVolume != 0 { FillsNameInstrument(a.allocations, instrument, a.clearingPrice.value); }
  }

  /** What acceptance says of the post-ledger, with the fills' instrument. */
  lemma {:induction false} AcceptedPost(pre: Accounts, batch: Batch, proposed: ExecutionResult)
    requires Accepts(pre, batch, proposed)
    ensures forall f :: f in proposed.fills ==> f.instrument == batch.instrument
    ensures SettleAll(pre, proposed.fills).Ok?
    ensures Agree(proposed.post, SettleAll(pre, proposed.fills).value, batch.instrument)
  {
    hide Auction.Clear, Allocate, CanonicalFills, FillsPass, CashConserved, InventoryConserved, SettleAll, Conserved, Reconstructs, Agree;
    CanonicalFillsNameInstrument(batch.instrument, proposed.allocation);
    ReconstructsIsAgreement(proposed.post, Transition(pre, proposed.fills).value, batch.instrument);
  }

  /** The same batch from agreeing ledgers leaves agreeing ledgers. */
  lemma {:induction false} SameBatchKeepsAgreement(i: PublicInputs, a: BatchWitness, j: PublicInputs, b: BatchWitness, project: Projection)
    requires Provable(i, a, project) && Provable(j, b, project) && SameBatch(a, b)
    requires Agree(a.pre, b.pre, a.batch.instrument)
    ensures Agree(a.post, b.post, a.batch.instrument)
  {
    hide InputsBound, Accepts, Accounted, RootsBound, Synthesizable, Satisfied, SettleAll, Agree;
    AcceptedPost(a.pre, a.batch, Proposal(i, a));
    AcceptedPost(b.pre, b.batch, Proposal(j, b));
    SettleAllAgrees(a.pre, b.pre, a.fills, a.batch.instrument);
    AgreeBothWays(a.post, SettleAll(a.pre, a.fills).value, SettleAll(b.pre, b.fills).value, b.post, a.batch.instrument);
  }

  lemma {:induction false} SameRootAgrees(l: Accounts, m: Accounts, instrument: u64)
    requires LedgerRoot(l, instrument) == LedgerRoot(m, instrument)
    ensures Agree(l, m, instrument)
  {
    hide LedgerRoot, TotalCash, TotalInventory;
    RootDeterminesLedger(l, m, instrument);
    forall id | id in m ensures MatchesAt(l, m, instrument, id) { assert SameAt(l, m, instrument, id); }
  }

  /** Step `k` opens the root that the steps before it reached. */
  lemma {:induction false} StepRoots(s: RunningState, steps: seq<SessionStep>, k: nat, project: Projection)
    requires AllFold(s, steps, project) && k < |steps|
    ensures Provable(steps[k].inputs, steps[k].data, project)
    ensures steps[k].data.batch.instrument == s.instrument
    ensures LedgerRoot(steps[k].data.pre, s.instrument) == Reached(s, steps[..k]).ledgerRoot
    ensures LedgerRoot(steps[k].data.post, s.instrument) == Reached(s, steps[..k+1]).ledgerRoot
  {
    hide AllFold, Provable, LedgerRoot, SameTotals, Reached, CommitHistory;
    FoldsAt(s, steps, k, project);
    InstrumentKept(s, steps[..k]);
    FoldOneMore(s, steps, k, project);
    StepConserves(Reached(s, steps[..k]), steps[k], project);
  }

  /** Sessions that went through the same batches from one state agree on every
      ledger along the way. */
  lemma {:induction false} SameBatchesSameLedgers(s: RunningState, a: seq<SessionStep>, b: seq<SessionStep>, k: nat, project: Projection)
    requires AllFold(s, a, project) && AllFold(s, b, project) && |a| == |b| && k < |a|
    requires forall i :: 0 <= i < |a| ==> SameBatch(a[i].data, b[i].data)
    ensures Agree(a[k].data.pre, b[k].data.pre, s.instrument)
    ensures Agree(a[k].data.post, b[k].data.post, s.instrument)
  {
    hide AllFold, Provable, LedgerRoot, Reached, Agree;
    StepRoots(s, a, k, project);
    StepRoots(s, b, k, project);
    if k == 0 {
      NothingFolded(s, a, project);
      NothingFolded(s, b, project);
      SameRootAgrees(a[k].data.pre, b[k].data.pre, s.instrument);
    } else {
      SameBatchesSameLedgers(s, a, b, k - 1, project);
      StepRoots(s, a, k - 1, project);
      StepRoots(s, b, k - 1, project);
      SameRootAgrees(a[k].data.pre, a[k-1].data.post, s.instrument);
      SameRootAgrees(b[k].data.pre, b[k-1].data.post, s.instrument);
      AgreeBothWays(a[k].data.pre, a[k-1].data.post, b[k-1].data.post, b[k].data.pre, s.instrument);
    }
    SameBatchKeepsAgreement(a[k].inputs, a[k].data, b[k].inputs, b[k].data, project);
  }

  /** Two proved sessions that share their first and last running state agree at
      every step in account set, cash and inventory of the instrument. */
  lemma {:induction false} SharedBoundariesShareLedgers(
      s: RunningState, a: seq<SessionStep>, b: seq<SessionStep>, pa: seq<BatchProof>, pb: seq<BatchProof>, project: Projection)
    requires a != [] && b != [] && AllFold(s, a, project) && AllFold(s, b, project)
    requires ProofsOf(pa, a, project) && ProofsOf(pb, b, project)
    requires Reached(s, a) == Reached(s, b)
    ensures |a| == |b|
    ensures forall k :: 0 <= k < |a| ==>
              Agree(a[k].data.pre, b[k].data.pre, s.instrument) && Agree(a[k].data.post, b[k].data.post, s.instrument)
  {
    hide AllFold, Provable, Reached, ProofsOf, SameBatch, Agree;
    SharedBoundariesShareBatches(s, a, b, pa, pb, project);
    forall k | 0 <= k < |a|
      ensures Agree(a[k].data.pre, b[k].data.pre, s.instrument) && Agree(a[k].data.post, b[k].data.post, s.instrument)
    {
      SameBatchesSameLedgers(s, a, b, k, project);
    }
  }

  // ---- What verification leaves to proving ----

  datatype Link = Link(headerHash: Digest, price: u64, volume: u64)

  function Extended(history: Digest, links: seq<Link>): Digest
  {
    if links == [] then history
    else
      var last := links[|links|-1];
      CommitHistory(Extended(history, links[..|links|-1]), last.headerHash, last.price, last.volume)
  }

  ghost predicate Extends(history: Digest, longer: Digest)
  {
    exists links: seq<Link> :: links != [] && Extended(history, links) == longer
  }

  function LinksOf(steps: seq<BatchProof>): seq<Link>
  {
    if steps == [] then []
    else
      var last := steps[|steps|-1].inputs;
      LinksOf(steps[..|steps|-1]) + [Link(last.headerHash, last.clearingPrice, last.clearedVolume)]
  }

  lemma {:induction false} ReplayExtends(start: Replay, steps: seq<BatchProof>)
    ensures ReplayAll(start, steps).history == Extended(start.history, LinksOf(steps))
    ensures |LinksOf(steps)| == |steps|
  {
    hide CommitHistory;
    if steps != [] {
      var front := steps[..|steps|-1];
      ReplayExtends(start, front);
      assert LinksOf(steps)[..|front|] == LinksOf(front);
    }
  }

  /** Certificates for these links that go to the target root in one step. */
  function Certificates(root: Digest, target: Digest, links: seq<Link>): seq<BatchProof>
  {
    if links == [] then []
    else
      var n := |links| - 1;
      var inputs := PublicInputs(
        if n == 0 then root else target, target, links[n].headerHash, NO_ORACLE, links[n].price, links[n].volume);
      Certificates(root, target, links[..n]) + [BatchProof(1, inputs, 1)]
  }

  lemma {:induction false} ChainedGrows(start: Replay, front: seq<BatchProof>, p: BatchProof)
    requires Chained(start, front) && CertificatePasses(p) && p.inputs.preRoot == ReplayAll(start, front).root
    ensures Chained(start, front + [p])
    ensures ReplayAll(start, front + [p]) == ReplayOne(ReplayAll(start, front), p)
  {
    hide CertificatePasses, ReplayOne;
    var all := front + [p];
    assert all[..|front|] == front;
    forall i | 0 <= i < |all| ensures LinksAt(start, all, i) {
      if i < |front| { assert LinksAt(start, front, i) && all[..i] == front[..i]; }
    }
  }

  lemma {:induction false} CertificatesReplay(start: Replay, target: Digest, links: seq<Link>)
    ensures |Certificates(start.root, target, links)| == |links|
    ensures Chained(start, Certificates(start.root, target, links))
    ensures ReplayAll(start, Certificates(start.root, target, links))
         == Replay(if links == [] then start.root else target, Extended(start.history, links))
  {
    hide CommitHistory, Chained, ReplayAll;
    if links == [] {
      NoCertificates(start);
    } else {
      var n := |links| - 1;
      var front, all := Certificates(start.root, target, links[..n]), Certificates(start.root, target, links);
      CertificatesReplay(start, target, links[..n]);
      ChainedGrows(start, front, all[n]);
      assert all == front + [all[n]];
    }
  }

  lemma {:induction false} NoCertificates(start: Replay)
    ensures Chained(start, []) && ReplayAll(start, []) == start
  {
  }

  /** The certificate has version one and some constraint, and starts where the
      one before it ended. */
  ghost predicate CertificateAt(initial: Digest, steps: seq<BatchProof>, i: nat)
    requires i < |steps|
  {
    && steps[i].version == 1 && steps[i].constraintCount > 0
    && steps[i].inputs.preRoot == if i == 0 then initial else steps[i-1].inputs.postRoot
  }

  lemma {:induction false} ReplayRoot(start: Replay, steps: seq<BatchProof>, i: nat)
    requires i <= |steps|
    ensures ReplayAll(start, steps[..i]).root == if i == 0 then start.root else steps[i-1].inputs.postRoot
  {
    hide CommitHistory;
  }

  /** A session is accepted if and only if its version, boundaries and count are
      right, its certificates chain from the first root to the last, and their
      links extend the first history to the last. */
  lemma {:induction false} AcceptedMeans(initial: RunningState, final: RunningState, p: SessionProof)
    ensures SessionAccepted(initial, final, p) <==>
              && p.version == 1 && p.initial == initial && p.final == final
              && |p.steps| == p.batches && p.batches > 0
              && (forall i :: 0 <= i < |p.steps| ==> CertificateAt(initial.ledgerRoot, p.steps, i))
              && p.steps[|p.steps|-1].inputs.postRoot == final.ledgerRoot
              && Extended(initial.history, LinksOf(p.steps)) == final.history
  {
    hide ReplayAll, Extended, LinksOf, CommitHistory;
    var start := Replay(initial.ledgerRoot, initial.history);
    ReplayExtends(start, p.steps);
    ReplayRoot(start, p.steps, |p.steps|);
    assert p.steps[..|p.steps|] == p.steps;
    forall i | 0 <= i < |p.steps| ensures LinksAt(start, p.steps, i) <==> CertificateAt(initial.ledgerRoot, p.steps, i) {
      ReplayRoot(start, p.steps, i);
    }
  }

  /** Between two running states some session verifies if and only if the final
      history extends the initial one.  Both ledger roots are free, so it is
      proving, not verification, that conserves cash and inventory. */
  lemma {:induction false} VerifiableBoundaries(initial: RunningState, final: RunningState)
    ensures (exists p :: SessionAccepted(initial, final, p)) <==> Extends(initial.history, final.history)
  {
    hide CommitHistory, Chained, ReplayAll, Extended, LinksOf, Certificates;
    var start := Replay(initial.ledgerRoot, initial.history);
    if p :| SessionAccepted(initial, final, p) {
      ReplayExtends(start, p.steps);
    }
    if Extends(initial.history, final.history) {
      var links: seq<Link> :| links != [] && Extended(initial.history, links) == final.history;
      CertificatesReplay(start, final.ledgerRoot, links);
      var p := SessionProof(1, |links|, initial, final, Certificates(start.root, final.ledgerRoot, links));
      assert SessionAccepted(initial, final, p);
    }
  }

  /** The batch number, time and instrument of either boundary can be replaced
      in an accepted session: only proving ties them to the steps. */
  lemma {:induction false} BoundaryLabelsAreFree(
      initial: RunningState, final: RunningState, p: SessionProof, other: RunningState, another: RunningState)
    requires SessionAccepted(initial, final, p)
    requires other.ledgerRoot == initial.ledgerRoot && other.history == initial.history
    requires another.ledgerRoot == final.ledgerRoot && another.history == final.history
    ensures SessionAccepted(other, another, p.(initial := other, final := another))
  {
    hide Chained, ReplayAll;
  }
}
