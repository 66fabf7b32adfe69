/** Complete-input accounting constraints: each record at its own index, its
    committed leaf folding to the public root, and the record count public. */
module AccountingConstraints {
  import opened Primitives
  import opened Orders
  import opened Allocation
  import opened Commitments
  import opened Merkle
  import opened Accounting
  import opened R1cs
  import opened ConstraintParts

  /** The 64-bit projection of a digest; an arbitrary function of it. */
  type Projection = Digest -> u64

  // ---- Plaintext agreement re-checked during synthesis ----

  function FirstEntry(entries: seq<OrderAllocation>, id: u64): Option<OrderAllocation>
  {
    if entries == [] then None
    else if entries[0].orderId == id then Some(entries[0])
    else FirstEntry(entries[1..], id)
  }

  function ExpectedDisposition(e: OrderAllocation): Disposition
  {
    if e.allocatedQty == 0 then Disposition(DispositionKind.Unfilled, 0, 0)
    else if e.allocatedQty == e.originalQty then Disposition(FullyExecuted, e.allocatedQty, 0)
    else Disposition(PartiallyExecuted, e.allocatedQty, SaturatingSubQty(e.originalQty, e.allocatedQty))
  }

  predicate DispositionAgrees(r: Record, entries: seq<OrderAllocation>)
  {
    var e := FirstEntry(entries, r.orderId);
    e.Some? && r.disposition == ExpectedDisposition(e.value)
  }

  ghost predicate RecordAgrees(idx: nat, r: Record, p: SaltedOrder, leaves: seq<Digest>, entries: seq<OrderAllocation>)
  {
    && idx < |leaves|
    && Fold(Path(leaves, idx), CommitOrder(p)) == Root(leaves)
    && DispositionAgrees(r, entries)
  }

  ghost predicate RecordsAgree(records: seq<Record>, preimages: seq<SaltedOrder>, leaves: seq<Digest>, entries: seq<OrderAllocation>)
    requires |records| <= |preimages|
  {
    forall i :: 0 <= i < |records| ==> RecordAgrees(i, records[i], preimages[i], leaves, entries)
  }

  // ---- Contribution ----

  function RecordConstraints(base: nat, idx: nat, rootVar: Variable): seq<Constraint>
  {
    [Equality(FromVar(Witness(base)), FromConstant(ToScalar(idx))),
     Equality(FromVar(Witness(base + 1)), FromVar(rootVar))]
  }

  ghost function RecordsPart(base: nat, rootVar: Variable, records: seq<Record>, root: u64): Part
  {
    if records == [] then NOTHING
    else
      var n := |records| - 1;
      var front := RecordsPart(base, rootVar, records[..n], root);
      Extend(front, RecordConstraints(base + |front.scalars|, n, rootVar), [Wrap64(records[n].leafIndex), root])
  }

  lemma {:induction false} RecordsPartStep(base: nat, rootVar: Variable, records: seq<Record>, root: u64, i: nat)
    requires i < |records|
    ensures RecordsPart(base, rootVar, records[..i+1], root)
         == Extend(RecordsPart(base, rootVar, records[..i], root),
                   RecordConstraints(base + |RecordsPart(base, rootVar, records[..i], root).scalars|, i, rootVar),
                   [Wrap64(records[i].leafIndex), root])
  {
    assert records[..i+1][..i] == records[..i];
  }

  lemma {:induction false} NoRecords(base: nat, rootVar: Variable, records: seq<Record>, root: u64)
    ensures RecordsPart(base, rootVar, records[..0], root) == NOTHING
  {
  }

  function Units(n: nat): Linear
  {
    if n == 0 then [] else AddTerm(Units(n - 1), One, 1)
  }

  /** Each verified leaf folds to the root, so every record carries the same
      projection. */
  ghost function AccountingPart(base: nat, pubBase: nat, records: seq<Record>, root: u64): Part
  {
    Extend(RecordsPart(base, Public(pubBase + 1), records, root),
           [Equality(Units(|records|), FromVar(Public(pubBase)))], [])
  }

  method SynthesizeInclusion(cs: ConstraintSystem, rootVar: Variable, root: Digest, leaf: Digest, path: seq<Step>, project: Projection)
    returns (r: Result<u64>)
    modifies cs
    ensures r == if Fold(path, leaf) == root then Ok(project(root)) else Err
    ensures r.Ok? ==> cs.constraints == old(cs.constraints) + [Equality(FromVar(Witness(old(cs.numWitness))), FromVar(rootVar))]
    ensures r.Ok? ==> cs.numWitness == old(cs.numWitness) + 1
    ensures cs.numPublic == old(cs.numPublic)
  {
    var verified := VerifyProof(path, root, leaf);
    if !verified { return Err; }
    var current := leaf;
    for i := 0 to |path|
      invariant current == Fold(path[..i], leaf)
    {
      assert path[..i+1][..i] == path[..i];
      current := Combine(path[i], current);
    }
    assert path[..|path|] == path;
    var rootWitness := cs.AllocWitness();
    cs.EnforceEqual(FromVar(rootWitness), FromVar(rootVar));
    return Ok(project(current));
  }

  method SynthesizeRecord(cs: ConstraintSystem, tree: MerkleTree, idx: nat, r: Record, p: SaltedOrder, entries: seq<OrderAllocation>,
                          rootVar: Variable, root: Digest, project: Projection)
    returns (scalars: Result<seq<u64>>)
    requires tree.Valid() && root == Root(tree.leaves)
    modifies cs
    ensures scalars.Ok? <==> RecordAgrees(idx, r, p, tree.leaves, entries)
    ensures scalars.Ok? ==> scalars.value == [Wrap64(r.leafIndex), project(root)]
    ensures scalars.Ok? ==> cs.constraints == old(cs.constraints) + RecordConstraints(old(cs.numWitness), idx, rootVar)
    ensures scalars.Ok? ==> cs.numWitness == old(cs.numWitness) + 2
    ensures cs.numPublic == old(cs.numPublic)
  {
    hide Equality, ToScalar, FromVar, FromConstant, Fold, Root, Path;
    ghost var before, base := cs.constraints, cs.numWitness;
    ghost var ks := RecordConstraints(base, idx, rootVar);
    Appended2(before, ks[0], ks[1]);
    var indexVar := cs.AllocWitness();
    cs.EnforceEqual(FromVar(indexVar), FromConstant(ToScalar(idx)));
    var proof := tree.GenerateProof(idx);
    if proof.None? { return Err; }
    var included := SynthesizeInclusion(cs, rootVar, root, CommitOrder(p), proof.value, project);
    if included.Err? { return Err; }
    if !DispositionAgrees(r, entries) { return Err; }
    return Ok([Wrap64(r.leafIndex), included.value]);
  }

  method SynthesizeRecords(cs: ConstraintSystem, tree: MerkleTree, records: seq<Record>, preimages: seq<SaltedOrder>,
                           entries: seq<OrderAllocation>, rootVar: Variable, root: Digest, project: Projection)
    returns (r: Result<seq<u64>>, count: Linear)
    requires tree.Valid() && root == Root(tree.leaves) && |records| <= |preimages|
    modifies cs
    ensures r.Ok? <==> RecordsAgree(records, preimages, tree.leaves, entries)
    ensures r.Ok? ==> var p := RecordsPart(old(cs.numWitness), rootVar, records, project(root));
                      cs.constraints == old(cs.constraints) + p.constraints && r.value == p.scalars
    ensures r.Ok? ==> cs.numWitness == old(cs.numWitness) + |r.value|
    ensures cs.numPublic == old(cs.numPublic) && unchanged(tree)
    ensures r.Ok? ==> count == Units(|records|)
  {
    hide RecordAgrees, RecordsPart, RecordConstraints, Root, Layers, Wrap64;
    ghost var leaves, before, base := tree.leaves, cs.constraints, cs.numWitness;
    ghost var rootValue := project(root);
    ghost var p := NOTHING;
    NoRecords(base, rootVar, records, rootValue);
    count := [];
    var scalars: seq<u64> := [];
    for i := 0 to |records|
      invariant unchanged(tree) && tree.leaves == leaves
      invariant forall k :: 0 <= k < i ==> RecordAgrees(k, records[k], preimages[k], leaves, entries)
      invariant p == RecordsPart(base, rootVar, records[..i], rootValue)
      invariant cs.constraints == before + p.constraints && scalars == p.scalars
      invariant cs.numWitness == base + |scalars| && cs.numPublic == old(cs.numPublic)
      invariant count == Units(i)
    {
      RecordsPartStep(base, rootVar, records, rootValue, i);
      Associate(before, p.constraints, RecordConstraints(base + |scalars|, i, rootVar));
      var more := SynthesizeRecord(cs, tree, i, records[i], preimages[i], entries, rootVar, root, project);
      if more.Err? { return Err, count; }
      p := Extend(p, RecordConstraints(base + |scalars|, i, rootVar), more.value);
      scalars := scalars + more.value;
      count := AddTerm(count, One, 1);
    }
    assert records[..|records|] == records;
    r := Ok(scalars);
  }

  method SynthesizeAccounting(cs: ConstraintSystem, batch: Batch, preimages: seq<SaltedOrder>, tree: MerkleTree, m: Manifest,
                              allocation: BatchAllocation, project: Projection)
    returns (r: Result<seq<u64>>)
    requires tree.Valid() && |preimages| == |batch.orders|
    modifies cs
    ensures r.Ok? <==>
              && Accounted(batch.orders, tree.leaves, m, QtyMap(allocation.allocations))
              && RecordsAgree(m.records, preimages, tree.leaves, allocation.allocations)
    ensures r.Ok? ==>
              var p := AccountingPart(old(cs.numWitness), old(cs.numPublic), m.records, project(Root(tree.leaves)));
              cs.constraints == old(cs.constraints) + p.constraints && r.value == p.scalars
    ensures r.Ok? ==> cs.numWitness == old(cs.numWitness) + |r.value| && cs.numPublic == old(cs.numPublic) + 2
    ensures unchanged(tree)
  {
    hide Root, QtyMap, RecordAgrees, RecordsAgree, RecordConstraints, Equality, RecordsPart, Units, RecordsPass,
      CoversLeaves, Layers;
    var accounted := VerifyAccounting(batch, tree, m, allocation);
    if !accounted { return Err; }
    var root := tree.GetRoot();
    var batchLenVar := cs.AllocPublic();
    var rootVar := cs.AllocPublic();
    var scalars, count := SynthesizeRecords(cs, tree, m.records, preimages, allocation.allocations, rootVar, root, project);
    if scalars.Err? { return Err; }
    ghost var p := RecordsPart(old(cs.numWitness), rootVar, m.records, project(root));
    Associate(old(cs.constraints), p.constraints, [Equality(count, FromVar(batchLenVar))]);
    assert p.scalars + [] == p.scalars;
    cs.EnforceEqual(count, FromVar(batchLenVar));
    return scalars;
  }

  // ---- Meaning ----

  ghost predicate InPosition(records: seq<Record>)
  {
    forall i :: 0 <= i < |records| ==> records[i].leafIndex == i
  }

  lemma {:induction false} HonestRecord(at: nat, idx: u64, leafIndex: u64, root: u64, rootVar: Variable, pub: seq<u64>, wit: seq<u64>)
    requires Window(wit, at, [leafIndex, root])
    ensures AllHold(RecordConstraints(at, idx, rootVar), pub, wit) <==> leafIndex == idx && root == Assigned(rootVar, pub, wit)
  {
    WindowAt(wit, at, [leafIndex, root], 0);
    WindowAt(wit, at, [leafIndex, root], 1);
    hide Holds, Equality, ToScalar;
    VarIsConstant(Witness(at), idx, pub, wit);
    VarsEqual(Witness(at + 1), rootVar, pub, wit);
    var ks := RecordConstraints(at, idx, rootVar);
    AllHoldPair(ks[0], ks[1], pub, wit);
  }

  lemma {:induction false} RecordsPartHonest(base: nat, rootVar: Variable, records: seq<Record>, root: u64, pub: seq<u64>, wit: seq<u64>)
    requires |records| <= MAX64 && InPosition(records) && root == Assigned(rootVar, pub, wit)
    requires Window(wit, base, RecordsPart(base, rootVar, records, root).scalars)
    ensures AllHold(RecordsPart(base, rootVar, records, root).constraints, pub, wit)
  {
    if records != [] {
      var n := |records| - 1;
      var front := RecordsPart(base, rootVar, records[..n], root);
      var at := base + |front.scalars|;
      assert records[n].leafIndex == n;
      assert RecordsPart(base, rootVar, records, root) == Extend(front, RecordConstraints(at, n, rootVar), [Wrap64(n), root]);
      assert InPosition(records[..n]);
      hide *;
      WindowSplit(wit, base, front.scalars, [Wrap64(n), root]);
      RecordsPartHonest(base, rootVar, records[..n], root, pub, wit);
      SmallWrap(n);
      HonestRecord(at, n, n, root, rootVar, pub, wit);
      AllHoldJoin(front.constraints, RecordConstraints(at, n, rootVar), pub, wit);
    }
  }

  lemma {:induction false} SmallWrap(x: u64)
    ensures Wrap64(x) == x
  {
  }

  lemma {:induction false} UnitsValue(n: nat, pub: seq<u64>, wit: seq<u64>)
    ensures Value(Units(n), pub, wit) == n
  {
    if n == 0 {
      assert Value([], pub, wit) == 0;
    } else {
      UnitsValue(n - 1, pub, wit);
      ValueAddTerm(Units(n - 1), One, 1, pub, wit);
      OneIsOne(pub, wit);
    }
  }

  lemma {:induction false} CountConstraint(n: u64, v: Variable, pub: seq<u64>, wit: seq<u64>)
    ensures Holds(Equality(Units(n), FromVar(v)), pub, wit) <==> n == Assigned(v, pub, wit)
  {
    hide Holds, Value, Assigned, Equality, Units;
    UnitsValue(n, pub, wit);
    ValueOfTerm(v, 1, pub, wit);
    EqualityMeans(Units(n), FromVar(v), pub, wit);
  }

  /** Records in leaf order, with the batch length and root projection public,
      satisfy the subrelation. */
  lemma {:induction false} AccountingPartHonest(base: nat, pubBase: nat, records: seq<Record>, root: u64, pub: seq<u64>, wit: seq<u64>)
    requires |records| <= MAX64 && InPosition(records)
    requires pubBase + 1 < |pub| && pub[pubBase] == |records| && pub[pubBase + 1] == root
    requires Window(wit, base, AccountingPart(base, pubBase, records, root).scalars)
    ensures AllHold(AccountingPart(base, pubBase, records, root).constraints, pub, wit)
  {
    var p := RecordsPart(base, Public(pubBase + 1), records, root);
    assert p.scalars + [] == p.scalars;
    RecordsPartHonest(base, Public(pubBase + 1), records, root, pub, wit);
    CountConstraint(|records|, Public(pubBase), pub, wit);
    AllHoldJoin(p.constraints, [Equality(Units(|records|), FromVar(Public(pubBase)))], pub, wit);
  }

  // ---- Meaning for every assignment ----

  predicate RecordEquations(wit: seq<u64>, at: nat, idx: nat, root: u64)
  {
    Cell(wit, at) == idx && Cell(wit, at + 1) == root
  }

  lemma {:induction false} RecordConstraintsMean(at: nat, idx: u64, rootVar: Variable, pub: seq<u64>, wit: seq<u64>)
    ensures AllHold(RecordConstraints(at, idx, rootVar), pub, wit)
       <==> RecordEquations(wit, at, idx, Assigned(rootVar, pub, wit))
  {
    hide Holds, Equality, ToScalar, Assigned, Cell;
    CellIsAssigned(wit, at, pub);
    CellIsAssigned(wit, at + 1, pub);
    VarIsConstant(Witness(at), idx, pub, wit);
    VarsEqual(Witness(at + 1), rootVar, pub, wit);
    var ks := RecordConstraints(at, idx, rootVar);
    AllHoldPair(ks[0], ks[1], pub, wit);
  }

  ghost predicate EveryRecord(wit: seq<u64>, base: nat, n: nat, root: u64)
  {
    forall k: nat :: k < n ==> RecordEquations(wit, base + 2 * k, k, root)
  }

  lemma {:induction false} EveryRecordStep(wit: seq<u64>, base: nat, n: nat, root: u64)
    requires n > 0
    ensures EveryRecord(wit, base, n, root)
       <==> EveryRecord(wit, base, n - 1, root) && RecordEquations(wit, base + 2 * (n - 1), n - 1, root)
  {
    hide RecordEquations;
  }

  lemma {:induction false} RecordsPartMeans(base: nat, rootVar: Variable, records: seq<Record>, root: u64, pub: seq<u64>, wit: seq<u64>)
    requires |records| <= MAX64
    ensures |RecordsPart(base, rootVar, records, root).scalars| == 2 * |records|
    ensures AllHold(RecordsPart(base, rootVar, records, root).constraints, pub, wit)
       <==> EveryRecord(wit, base, |records|, Assigned(rootVar, pub, wit))
  {
    hide Holds, RecordConstraints, Assigned, RecordEquations, RecordsPart, Wrap64;
    if records == [] {
      NoRecords(base, rootVar, records, root);
      assert records[..0] == records;
    } else {
      var n := |records| - 1;
      var front := RecordsPart(base, rootVar, records[..n], root);
      RecordsPartMeans(base, rootVar, records[..n], root, pub, wit);
      RecordsPartStep(base, rootVar, records, root, n);
      assert records[..n+1] == records;
      RecordConstraintsMean(base + 2 * n, n, rootVar, pub, wit);
      AllHoldJoin(front.constraints, RecordConstraints(base + 2 * n, n, rootVar), pub, wit);
      EveryRecordStep(wit, base, n + 1, Assigned(rootVar, pub, wit));
    }
  }

  /** For every assignment: the index cells count from zero, every root cell is
      the published root scalar, and the published length is the record count. */
  lemma {:induction false} AccountingPartMeans(base: nat, pubBase: nat, records: seq<Record>, root: u64, pub: seq<u64>, wit: seq<u64>)
    requires |records| <= MAX64 && pubBase + 1 < |pub|
    ensures AllHold(AccountingPart(base, pubBase, records, root).constraints, pub, wit)
       <==> EveryRecord(wit, base, |records|, pub[pubBase + 1]) && pub[pubBase] == |records|
  {
    hide Holds, Equality, RecordsPart, EveryRecord;
    var p := RecordsPart(base, Public(pubBase + 1), records, root);
    RecordsPartMeans(base, Public(pubBase + 1), records, root, pub, wit);
    CountConstraint(|records|, Public(pubBase), pub, wit);
    var k := Equality(Units(|records|), FromVar(Public(pubBase)));
    OneHolds(k, pub, wit);
    AllHoldJoin(p.constraints, [k], pub, wit);
  }
}
