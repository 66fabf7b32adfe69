/** Multi-batch sessions: a running state folded over steps, proved step by step
    and verified from the step certificates alone. */
module Session {
  import opened Primitives
  import opened Commitments
  import opened AccountingConstraints
  import opened ConservationConstraints
  import opened Prover

  datatype RunningState = RunningState(
    ledgerRoot: Digest, history: Digest, batchId: u64, timestamp: u64, instrument: u64)

  datatype SessionStep = SessionStep(inputs: PublicInputs, data: BatchWitness, timestamp: u64)

  datatype SessionProof = SessionProof(
    version: nat, batches: nat, initial: RunningState, final: RunningState, steps: seq<BatchProof>)

  function Genesis(root: Digest, instrument: u64): RunningState
  {
    RunningState(root, Zero, 0, 0, instrument)
  }

  // ---- One step ----

  /** Batch numbers continue modulo 2^64; instrument, time and ledger root continue. */
  predicate Continues(s: RunningState, step: SessionStep)
  {
    && step.data.batch.batchId == (s.batchId + 1) % (MAX64 + 1)
    && step.data.batch.instrument == s.instrument
    && s.timestamp <= step.timestamp
    && step.inputs.preRoot == s.ledgerRoot
  }

  function Advance(s: RunningState, step: SessionStep): RunningState
  {
    RunningState(
      step.inputs.postRoot,
      CommitHistory(s.history, step.inputs.headerHash, step.inputs.clearingPrice, step.inputs.clearedVolume),
      step.data.batch.batchId, step.timestamp, s.instrument)
  }

  ghost predicate Foldable(s: RunningState, step: SessionStep, project: Projection)
  {
    Continues(s, step) && Provable(step.inputs, step.data, project)
  }

  method FoldStep(s: RunningState, step: SessionStep, project: Projection) returns (r: Result<RunningState>)
    ensures r == if Foldable(s, step, project) then Ok(Advance(s, step)) else Err
    ensures r.Ok? <==>
              && Provable(step.inputs, step.data, project)
              && step.data.batch.batchId == (if s.batchId == MAX64 then 0 else s.batchId + 1)
              && step.data.batch.instrument == s.instrument && step.timestamp >= s.timestamp
              && step.inputs.preRoot == s.ledgerRoot
    ensures r.Ok? ==>
              && r.value.ledgerRoot == step.inputs.postRoot && r.value.batchId == step.data.batch.batchId
              && r.value.timestamp == step.timestamp && r.value.instrument == s.instrument
              && r.value.history == CommitHistory(s.history, step.inputs.headerHash, step.inputs.clearingPrice, step.inputs.clearedVolume)
  {
    hide Provable, Circuit, CommitHistory;
    if step.data.batch.batchId != (s.batchId + 1) % (MAX64 + 1) { return Err; }
    if step.data.batch.instrument != s.instrument { return Err; }
    if step.timestamp < s.timestamp { return Err; }
    if step.inputs.preRoot != s.ledgerRoot { return Err; }
    var proof := Prove(step.inputs, step.data, project);
    if proof.Err? { return Err; }
    var history := CommitHistory(s.history, step.inputs.headerHash, step.inputs.clearingPrice, step.inputs.clearedVolume);
    return Ok(RunningState(step.inputs.postRoot, history, step.data.batch.batchId, step.timestamp, s.instrument));
  }

  // ---- Proving a session ----

  /** Every step folds from the state that the steps before it reached. */
  ghost predicate AllFold(s: RunningState, steps: seq<SessionStep>, project: Projection)
  {
    steps == [] ||
    var front := steps[..|steps|-1];
    AllFold(s, front, project) && Foldable(Reached(s, front), steps[|steps|-1], project)
  }

  function Reached(s: RunningState, steps: seq<SessionStep>): RunningState
  {
    if steps == [] then s else Advance(Reached(s, steps[..|steps|-1]), steps[|steps|-1])
  }

  ghost predicate ProofsOf(proofs: seq<BatchProof>, steps: seq<SessionStep>, project: Projection)
  {
    && |proofs| == |steps|
    && forall i :: 0 <= i < |steps| ==> ProofOf(steps[i].inputs, steps[i].data, project) == Ok(proofs[i])
  }

  lemma {:induction false} FoldOneMore(s: RunningState, steps: seq<SessionStep>, i: nat, project: Projection)
    requires i < |steps|
    ensures AllFold(s, steps[..i+1], project)
       <==> AllFold(s, steps[..i], project) && Foldable(Reached(s, steps[..i]), steps[i], project)
    ensures Reached(s, steps[..i+1]) == Advance(Reached(s, steps[..i]), steps[i])
  {
    hide Foldable, Advance;
    assert steps[..i+1][..i] == steps[..i];
  }

  lemma {:induction false} FoldStopsAt(s: RunningState, steps: seq<SessionStep>, i: nat, project: Projection)
    requires i <= |steps| && !AllFold(s, steps[..i], project)
    ensures !AllFold(s, steps, project)
    decreases |steps| - i
  {
    hide Foldable, Advance;
    if i < |steps| {
      FoldOneMore(s, steps, i, project);
      FoldStopsAt(s, steps, i + 1, project);
    } else {
      assert steps[..i] == steps;
    }
  }

  lemma {:induction false} NothingFolded(s: RunningState, steps: seq<SessionStep>, project: Projection)
    ensures AllFold(s, steps[..0], project) && Reached(s, steps[..0]) == s
  {
  }

  method ProveSession(initial: RunningState, steps: seq<SessionStep>, project: Projection) returns (r: Result<SessionProof>)
    ensures r.Ok? <==> steps != [] && AllFold(initial, steps, project)
    ensures r.Ok? ==> r.value == SessionProof(1, |steps|, initial, Reached(initial, steps), r.value.steps)
    ensures r.Ok? ==> ProofsOf(r.value.steps, steps, project)
  {
    hide AllFold, Reached, Advance, Continues, Provable, Circuit;
    if steps == [] { return Err; }
    var current := initial;
    var proofs: seq<BatchProof> := [];
    NothingFolded(initial, steps, project);
    for i := 0 to |steps|
      invariant AllFold(initial, steps[..i], project) && current == Reached(initial, steps[..i])
      invariant |proofs| == i
      invariant forall k :: 0 <= k < i ==> ProofOf(steps[k].inputs, steps[k].data, project) == Ok(proofs[k])
    {
      FoldOneMore(initial, steps, i, project);
      var folded := FoldStep(current, steps[i], project);
      if folded.Err? {
        FoldStopsAt(initial, steps, i + 1, project);
        return Err;
      }
      current := folded.value;
      var proof := Prove(steps[i].inputs, steps[i].data, project);
      if proof.Err? { return Err; }
      proofs := proofs + [proof.value];
    }
    assert steps[..|steps|] == steps;
    return Ok(SessionProof(1, |steps|, initial, current, proofs));
  }

  // ---- Verifying a session ----

  /** The step certificate's shape: version one, its own inputs, some constraint. */
  predicate CertificatePasses(p: BatchProof)
  {
    p.version == 1 && p.constraintCount != 0
  }

  method VerifyBatchProof(expected: PublicInputs, p: BatchProof) returns (ok: bool)
    ensures ok == (p.version == 1 && p.constraintCount > 0 && p.inputs == expected)
  {
    if p.version != 1 { return false; }
    if expected.preRoot != p.inputs.preRoot || expected.postRoot != p.inputs.postRoot || expected.headerHash != p.inputs.headerHash
      || expected.oracleHash != p.inputs.oracleHash || expected.clearingPrice != p.inputs.clearingPrice
      || expected.clearedVolume != p.inputs.clearedVolume { return false; }
    return p.constraintCount != 0;
  }

  datatype Replay = Replay(root: Digest, history: Digest)

  function ReplayOne(r: Replay, p: BatchProof): Replay
  {
    Replay(p.inputs.postRoot, CommitHistory(r.history, p.inputs.headerHash, p.inputs.clearingPrice, p.inputs.clearedVolume))
  }

  function ReplayAll(start: Replay, steps: seq<BatchProof>): Replay
  {
    if steps == [] then start else ReplayOne(ReplayAll(start, steps[..|steps|-1]), steps[|steps|-1])
  }

  /** Every certificate passes and starts at the root where the last one ended. */
  ghost predicate Chained(start: Replay, steps: seq<BatchProof>)
  {
    forall i :: 0 <= i < |steps| ==> LinksAt(start, steps, i)
  }

  predicate LinksAt(start: Replay, steps: seq<BatchProof>, i: nat)
    requires i < |steps|
  {
    CertificatePasses(steps[i]) && steps[i].inputs.preRoot == ReplayAll(start, steps[..i]).root
  }

  ghost predicate SessionAccepted(initial: RunningState, final: RunningState, p: SessionProof)
  {
    && p.version == 1 && p.initial == initial && p.final == final
    && |p.steps| == p.batches && p.steps != []
    && Chained(Replay(initial.ledgerRoot, initial.history), p.steps)
    && ReplayAll(Replay(initial.ledgerRoot, initial.history), p.steps) == Replay(final.ledgerRoot, final.history)
  }

  method VerifySession(initial: RunningState, final: RunningState, p: SessionProof) returns (ok: bool)
    ensures ok == SessionAccepted(initial, final, p)
  {
    hide CommitHistory;
    if p.version != 1 { return false; }
    if p.initial != initial || p.final != final { return false; }
    if |p.steps| != p.batches || p.steps == [] { return false; }
    ghost var start := Replay(initial.ledgerRoot, initial.history);
    var history, root := initial.history, initial.ledgerRoot;
    for i := 0 to |p.steps|
      invariant Replay(root, history) == ReplayAll(start, p.steps[..i])
      invariant forall k :: 0 <= k < i ==> LinksAt(start, p.steps, k)
    {
      assert p.steps[..i+1][..i] == p.steps[..i];
      var step := p.steps[i];
      var ok := VerifyBatchProof(step.inputs, step);
      if !ok || step.inputs.preRoot != root {
        assert !LinksAt(start, p.steps, i);
        return false;
      }
      history := CommitHistory(history, step.inputs.headerHash, step.inputs.clearingPrice, step.inputs.clearedVolume);
      root := step.inputs.postRoot;
    }
    assert p.steps[..|p.steps|] == p.steps;
    return root == final.ledgerRoot && history == final.history;
  }

  // ---- Proving and verifying agree ----

  lemma {:induction false} CircuitNotEmpty(inputs: PublicInputs, w: BatchWitness, project: Projection)
    requires Provable(inputs, w, project)
    ensures |Circuit(inputs, w, project).constraints| > 0
  {
    hide CheckedInTheClear, Synthesizable, Satisfied, ExecutionPart, AccountsPart, RowsOf, OwnsOf;
  }

  lemma {:induction false} ReplayFollows(s: RunningState, steps: seq<SessionStep>, proofs: seq<BatchProof>, i: nat, project: Projection)
    requires ProofsOf(proofs, steps, project) && i <= |steps|
    ensures ReplayAll(Replay(s.ledgerRoot, s.history), proofs[..i])
         == Replay(Reached(s, steps[..i]).ledgerRoot, Reached(s, steps[..i]).history)
  {
    hide CommitHistory, Provable, Circuit;
    if i > 0 {
      ReplayFollows(s, steps, proofs, i - 1, project);
      assert proofs[..i][..i-1] == proofs[..i-1] && steps[..i][..i-1] == steps[..i-1];
      assert ProofOf(steps[i-1].inputs, steps[i-1].data, project) == Ok(proofs[i-1]);
    }
  }

  lemma {:induction false} FoldsAt(s: RunningState, steps: seq<SessionStep>, i: nat, project: Projection)
    requires AllFold(s, steps, project) && i < |steps|
    ensures Foldable(Reached(s, steps[..i]), steps[i], project)
  {
    hide Foldable, Advance;
    if !Foldable(Reached(s, steps[..i]), steps[i], project) {
      FoldOneMore(s, steps, i, project);
      FoldStopsAt(s, steps, i + 1, project);
    }
  }

  /** Whatever the session prover returns, the session verifier accepts. */
  lemma {:induction false} ProvedSessionsVerify(
      initial: RunningState, steps: seq<SessionStep>, proofs: seq<BatchProof>, project: Projection)
    requires steps != [] && AllFold(initial, steps, project) && ProofsOf(proofs, steps, project)
    ensures SessionAccepted(initial, Reached(initial, steps), SessionProof(1, |steps|, initial, Reached(initial, steps), proofs))
  {
    hide AllFold, Provable, Circuit, CommitHistory, Reached, ReplayAll, Advance;
    var start := Replay(initial.ledgerRoot, initial.history);
    forall i | 0 <= i < |proofs| ensures LinksAt(start, proofs, i) {
      assert ProofOf(steps[i].inputs, steps[i].data, project) == Ok(proofs[i]);
      FoldsAt(initial, steps, i, project);
      ReplayFollows(initial, steps, proofs, i, project);
      CircuitNotEmpty(steps[i].inputs, steps[i].data, project);
    }
    ReplayFollows(initial, steps, proofs, |steps|, project);
    assert proofs[..|steps|] == proofs && steps[..|steps|] == steps;
  }
}
