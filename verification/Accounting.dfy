/** Complete-input accounting: every committed leaf and every batch order is
    accounted for exactly once, with the disposition its allocation implies. */
module Accounting {
  import opened Primitives
  import opened Sums
  import opened Orders
  import opened Allocation
  import opened AllocationProperties
  import opened Checker
  import opened CheckerProperties
  import opened Commitments
  import opened Merkle

  datatype DispositionKind = FullyExecuted | PartiallyExecuted | Unfilled | Cancelled | Expired

  datatype Disposition = Disposition(kind: DispositionKind, fillQty: u64, unfilledQty: u64)

  datatype Record = Record(leafIndex: nat, orderId: u64, commitment: Digest, disposition: Disposition)

  datatype Manifest = Manifest(
    records: seq<Record>, totalCommitted: nat,
    totalFully: nat, totalPartially: nat, totalUnfilled: nat, totalCancelled: nat, totalExpired: nat)

  ghost function QtyMap(entries: seq<OrderAllocation>): map<u64, u64>
  {
    if entries == [] then map[]
    else QtyMap(entries[..|entries|-1])[entries[|entries|-1].orderId := entries[|entries|-1].allocatedQty]
  }

  function Implied(o: Order, quantities: map<u64, u64>): Disposition
  {
    var filled := Lookup(quantities, o.id);
    if filled == o.qty then Disposition(FullyExecuted, filled, 0)
    else if filled != 0 && filled < o.qty then Disposition(PartiallyExecuted, filled, o.qty - filled)
    else Disposition(DispositionKind.Unfilled, 0, 0)
  }

  method CollectQuantities(entries: seq<OrderAllocation>) returns (m: map<u64, u64>)
    ensures m == QtyMap(entries)
  {
    m := map[];
    for i := 0 to |entries|
      invariant m == QtyMap(entries[..i])
    {
      assert entries[..i+1][..i] == entries[..i];
      m := m[entries[i].orderId := entries[i].allocatedQty];
    }
    assert entries[..|entries|] == entries;
  }

  // ---- Building a manifest ----

  ghost function CommittedLeaves(preimages: seq<SaltedOrder>): seq<Digest>
  {
    seq(|preimages|, i requires 0 <= i < |preimages| => CommitOrder(preimages[i]))
  }

  ghost function RecordsOf(preimages: seq<SaltedOrder>, quantities: map<u64, u64>): seq<Record>
  {
    seq(|preimages|, i requires 0 <= i < |preimages| =>
      Record(i, preimages[i].order.id, CommitOrder(preimages[i]), Implied(preimages[i].order, quantities)))
  }

  ghost function OfKind(kind: DispositionKind): Record -> int
  {
    (r: Record) => if r.disposition.kind == kind then 1 else 0
  }

  /** The counters count the records of each disposition. */
  ghost predicate CountsRecords(m: Manifest)
  {
    && m.totalCommitted == |m.records|
    && m.totalFully == Sum(m.records, OfKind(FullyExecuted))
    && m.totalPartially == Sum(m.records, OfKind(PartiallyExecuted))
    && m.totalUnfilled == Sum(m.records, OfKind(DispositionKind.Unfilled))
    && m.totalCancelled == Sum(m.records, OfKind(Cancelled))
    && m.totalExpired == Sum(m.records, OfKind(Expired))
  }

  ghost function CountOf(records: seq<Record>, kind: DispositionKind): nat
  {
    SumNonNegative(records, OfKind(kind));
    Sum(records, OfKind(kind))
  }

  /** The manifest of preimages under an allocation, counters included. */
  ghost function ManifestOf(preimages: seq<SaltedOrder>, quantities: map<u64, u64>): (m: Manifest)
    ensures CountsRecords(m)
  {
    var records := RecordsOf(preimages, quantities);
    Manifest(records, |records|, CountOf(records, FullyExecuted), CountOf(records, PartiallyExecuted),
             CountOf(records, DispositionKind.Unfilled), CountOf(records, Cancelled), CountOf(records, Expired))
  }

  method BuildAccounting(preimages: seq<SaltedOrder>, allocation: BatchAllocation) returns (tree: MerkleTree, m: Manifest)
    ensures fresh(tree) && tree.Valid() && tree.leaves == CommittedLeaves(preimages)
    ensures m == ManifestOf(preimages, QtyMap(allocation.allocations))
  {
    var leaves: seq<Digest> := [];
    for i := 0 to |preimages|
      invariant leaves == CommittedLeaves(preimages)[..i]
    {
      leaves := leaves + [CommitOrder(preimages[i])];
    }
    var quantities := CollectQuantities(allocation.allocations);
    m := BuildRecords(preimages, leaves, quantities);
    tree := new MerkleTree(leaves);
  }

  ghost predicate Tallied(records: seq<Record>, fully: nat, partially: nat, unfilled: nat)
  {
    && fully == Sum(records, OfKind(FullyExecuted))
    && partially == Sum(records, OfKind(PartiallyExecuted))
    && unfilled == Sum(records, OfKind(DispositionKind.Unfilled))
    && Sum(records, OfKind(Cancelled)) == 0 && Sum(records, OfKind(Expired)) == 0
  }

  lemma {:induction false} TallyOne(records: seq<Record>, r: Record, fully: nat, partially: nat, unfilled: nat)
    requires Tallied(records, fully, partially, unfilled)
    requires !r.disposition.kind.Cancelled? && !r.disposition.kind.Expired?
    ensures Tallied(records + [r],
              fully + (if r.disposition.kind.FullyExecuted? then 1 else 0),
              partially + (if r.disposition.kind.PartiallyExecuted? then 1 else 0),
              unfilled + (if r.disposition.kind.Unfilled? then 1 else 0))
  {
    SumAppend(records, r, OfKind(FullyExecuted));
    SumAppend(records, r, OfKind(PartiallyExecuted));
    SumAppend(records, r, OfKind(DispositionKind.Unfilled));
    SumAppend(records, r, OfKind(Cancelled));
    SumAppend(records, r, OfKind(Expired));
  }

  lemma {:induction false} NothingTallied()
    ensures Tallied([], 0, 0, 0)
  {
  }

  /** Neither cancellation nor expiry is ever implied by an allocation. */
  lemma {:induction false} ImpliedKinds(o: Order, quantities: map<u64, u64>)
    ensures !Implied(o, quantities).kind.Cancelled? && !Implied(o, quantities).kind.Expired?
  {
  }

  /** A record accounts for every unit of its order: executed and open units add
      up to the quantity, and an order without a fill reports neither. */
  lemma {:induction false} ImpliedAccounts(o: Order, quantities: map<u64, u64>)
    requires 0 < o.qty && Lookup(quantities, o.id) <= o.qty
    ensures var d, filled := Implied(o, quantities), Lookup(quantities, o.id);
            && (d.kind.FullyExecuted? <==> filled == o.qty)
            && (d.kind.PartiallyExecuted? <==> 0 < filled < o.qty)
            && (d.kind.Unfilled? <==> filled == 0)
            && d.fillQty == filled
            && (if filled > 0 then d.fillQty + d.unfilledQty == o.qty else d.unfilledQty == 0)
  {
  }

  method BuildRecords(preimages: seq<SaltedOrder>, leaves: seq<Digest>, quantities: map<u64, u64>) returns (m: Manifest)
    requires leaves == CommittedLeaves(preimages)
    ensures m.records == RecordsOf(preimages, quantities)
    ensures CountsRecords(m)
  {
    hide Tallied, Implied, CommitOrder;
    var records: seq<Record> := [];
    var fully, partially, unfilled := 0, 0, 0;
    NothingTallied();
    for i := 0 to |preimages|
      invariant records == RecordsOf(preimages, quantities)[..i]
      invariant Tallied(records, fully, partially, unfilled)
    {
      var o := preimages[i].order;
      var d := Implied(o, quantities);
      var r := Record(i, o.id, leaves[i], d);
      ImpliedKinds(o, quantities);
      TallyOne(records, r, fully, partially, unfilled);
      if d.kind.FullyExecuted? {
        fully := fully + 1;
      } else if d.kind.PartiallyExecuted? {
        partially := partially + 1;
      } else {
        unfilled := unfilled + 1;
      }
      records := records + [r];
    }
    m := Manifest(records, |preimages|, fully, partially, unfilled, 0, 0);
    TalliedCounts(m);
  }

  lemma {:induction false} TalliedCounts(m: Manifest)
    requires Tallied(m.records, m.totalFully, m.totalPartially, m.totalUnfilled)
    requires m.totalCommitted == |m.records| && m.totalCancelled == 0 && m.totalExpired == 0
    ensures CountsRecords(m)
  {
  }

  // ---- Verifying a manifest ----

  ghost predicate RecordPasses(r: Record, leaves: seq<Digest>, byId: map<u64, Order>, quantities: map<u64, u64>)
  {
    && r.leafIndex < |leaves|
    && Fold(Path(leaves, r.leafIndex), r.commitment) == Root(leaves)
    && r.orderId in byId
    && r.disposition == Implied(byId[r.orderId], quantities)
  }

  ghost predicate NoRepeats(records: seq<Record>)
  {
    forall i, j :: 0 <= i < j < |records| ==>
      records[i].leafIndex != records[j].leafIndex && records[i].orderId != records[j].orderId
  }

  ghost predicate RecordsPass(records: seq<Record>, leaves: seq<Digest>, byId: map<u64, Order>, quantities: map<u64, u64>)
  {
    NoRepeats(records) && forall j :: 0 <= j < |records| ==> RecordPasses(records[j], leaves, byId, quantities)
  }

  ghost predicate CoversLeaves(records: seq<Record>, n: nat)
  {
    forall i: nat :: i < n ==> LeafCovered(records, i)
  }

  ghost predicate LeafCovered(records: seq<Record>, i: nat)
  {
    exists j :: 0 <= j < |records| && records[j].leafIndex == i
  }

  ghost predicate Accounted(orders: seq<Order>, leaves: seq<Digest>, m: Manifest, quantities: map<u64, u64>)
  {
    && |leaves| == |orders| && |m.records| == |orders| && m.totalCommitted == |orders|
    && RecordsPass(m.records, leaves, OrderMap(orders), quantities)
    && CoversLeaves(m.records, |orders|)
  }

  method VerifyRecord(tree: MerkleTree, root: Digest, r: Record, byId: map<u64, Order>, quantities: map<u64, u64>) returns (ok: bool)
    requires tree.Valid() && root == Root(tree.leaves)
    ensures ok == RecordPasses(r, tree.leaves, byId, quantities)
  {
    var proof := tree.GenerateProof(r.leafIndex);
    if proof.None? { return false; }
    var included := VerifyProof(proof.value, root, r.commitment);
    if !included { return false; }
    if r.orderId !in byId { return false; }
    return r.disposition == Implied(byId[r.orderId], quantities);
  }

  /** The record loop: no repeated leaf or id, and every record passes. */
  method ScanRecords(tree: MerkleTree, records: seq<Record>, byId: map<u64, Order>, quantities: map<u64, u64>)
    returns (ok: bool, seen: set<nat>)
    requires tree.Valid()
    ensures ok == RecordsPass(records, tree.leaves, byId, quantities)
    ensures ok ==> forall i: nat :: i in seen <==> LeafCovered(records, i)
    ensures unchanged(tree)
  {
    hide LeafCovered, IdRecorded, NoRepeats, RecordPasses, Root;
    var root := tree.GetRoot();
    ghost var leaves := tree.leaves;
    EmptyScan(records);
    seen := {};
    var seenIds: set<u64> := {};
    for j := 0 to |records|
      invariant unchanged(tree)
      invariant NoRepeats(records[..j])
      invariant forall k :: 0 <= k < j ==> RecordPasses(records[k], leaves, byId, quantities)
      invariant forall i: nat :: i in seen <==> LeafCovered(records[..j], i)
      invariant forall id :: id in seenIds <==> IdRecorded(records[..j], id)
    {
      var r := records[j];
      if r.leafIndex in seen || r.orderId in seenIds {
        RepeatRejected(records, j);
        return false, seen;
      }
      var passes := VerifyRecord(tree, root, r, byId, quantities);
      if !passes { return false, seen; }
      NoRepeatsExtends(records, j);
      ExtendCover(records, j);
      ExtendIds(records, j);
      seen := seen + {r.leafIndex};
      seenIds := seenIds + {r.orderId};
    }
    assert records[..|records|] == records;
    ok := true;
  }

  lemma {:induction false} EmptyScan(records: seq<Record>)
    ensures NoRepeats(records[..0])
    ensures forall i: nat :: !LeafCovered(records[..0], i)
    ensures forall id :: !IdRecorded(records[..0], id)
  {
  }

  method VerifyAccounting(batch: Batch, tree: MerkleTree, m: Manifest, allocation: BatchAllocation) returns (ok: bool)
    requires tree.Valid()
    ensures ok == Accounted(batch.orders, tree.leaves, m, QtyMap(allocation.allocations))
    ensures unchanged(tree)
  {
    var n := |batch.orders|;
    if |tree.leaves| != n { return false; }
    if |m.records| != n || m.totalCommitted != n { return false; }
    var byId := CollectOrders(batch.orders);
    var quantities := CollectQuantities(allocation.allocations);
    hide OrderMap, QtyMap, RecordsPass, LeafCovered;
    var passes, seen := ScanRecords(tree, m.records, byId, quantities);
    if !passes { return false; }
    for i := 0 to n
      invariant forall k: nat :: k < i ==> LeafCovered(m.records, k)
    {
      if i !in seen { return false; }
    }
    return true;
  }

  ghost predicate IdRecorded(records: seq<Record>, id: u64)
  {
    exists j :: 0 <= j < |records| && records[j].orderId == id
  }

  lemma {:induction false} RepeatRejected(records: seq<Record>, j: nat)
    requires j < |records|
    requires LeafCovered(records[..j], records[j].leafIndex) || IdRecorded(records[..j], records[j].orderId)
    ensures !NoRepeats(records)
  {
    var k :| 0 <= k < j && (records[..j][k].leafIndex == records[j].leafIndex || records[..j][k].orderId == records[j].orderId);
    assert records[k] == records[..j][k];
  }

  lemma {:induction false} NoRepeatsExtends(records: seq<Record>, j: nat)
    requires j < |records| && NoRepeats(records[..j])
    requires !LeafCovered(records[..j], records[j].leafIndex) && !IdRecorded(records[..j], records[j].orderId)
    ensures NoRepeats(records[..j+1])
  {
    forall k | 0 <= k < j
      ensures records[k].leafIndex != records[j].leafIndex && records[k].orderId != records[j].orderId
    {
      assert records[..j][k] == records[k];
    }
    assert records[..j+1] == records[..j] + [records[j]];
  }

  lemma {:induction false} ExtendIds(records: seq<Record>, j: nat)
    requires j < |records|
    ensures forall id :: IdRecorded(records[..j+1], id) <==> IdRecorded(records[..j], id) || id == records[j].orderId
  {
    forall id ensures IdRecorded(records[..j+1], id) <==> IdRecorded(records[..j], id) || id == records[j].orderId {
      if IdRecorded(records[..j], id) {
        var k :| 0 <= k < j && records[..j][k].orderId == id;
        assert records[..j+1][k].orderId == id;
      }
      if id == records[j].orderId { assert records[..j+1][j].orderId == id; }
      if IdRecorded(records[..j+1], id) {
        var k :| 0 <= k < j + 1 && records[..j+1][k].orderId == id;
        if k < j { assert records[..j][k].orderId == id; }
      }
    }
  }

  lemma {:induction false} ExtendCover(records: seq<Record>, j: nat)
    requires j < |records|
    ensures forall i: nat :: LeafCovered(records[..j+1], i) <==> LeafCovered(records[..j], i) || i == records[j].leafIndex
  {
    forall i: nat
      ensures LeafCovered(records[..j+1], i) <==> LeafCovered(records[..j], i) || i == records[j].leafIndex
    {
      if LeafCovered(records[..j], i) {
        var k :| 0 <= k < j && records[..j][k].leafIndex == i;
        assert records[..j+1][k].leafIndex == i;
      }
      if i == records[j].leafIndex { assert records[..j+1][j].leafIndex == i; }
      if LeafCovered(records[..j+1], i) {
        var k :| 0 <= k < j + 1 && records[..j+1][k].leafIndex == i;
        if k < j { assert records[..j][k].leafIndex == i; }
      }
    }
  }

  // ---- Acceptance is a bijection ----

  ghost function LeafIndices(records: seq<Record>): set<nat> { set r | r in records :: r.leafIndex }

  ghost function RecordIds(records: seq<Record>): set<u64> { set r | r in records :: r.orderId }

  lemma {:induction false} NoRepeatsCount(records: seq<Record>)
    requires NoRepeats(records)
    ensures |LeafIndices(records)| == |records| && |RecordIds(records)| == |records|
  {
    if records != [] {
      var front, last := records[..|records|-1], records[|records|-1];
      NoRepeatsCount(front);
      assert forall r :: r in records <==> r == last || r in front;
      assert LeafIndices(records) == LeafIndices(front) + {last.leafIndex};
      assert RecordIds(records) == RecordIds(front) + {last.orderId};
      assert last.leafIndex !in LeafIndices(front) && last.orderId !in RecordIds(front);
    }
  }

  lemma {:induction false} UniqueIdsCount(orders: seq<Order>)
    requires UniqueIds(orders)
    ensures |IdSet(orders)| == |orders|
  {
    if orders != [] {
      var n := |orders| - 1;
      UniqueIdsCount(orders[..n]);
      NewId(orders, n);
      IdSetExtends(orders[..n], orders[n]);
      assert orders == orders[..n] + [orders[n]];
    }
  }

  ghost function Below(n: nat): set<nat>
  {
    if n == 0 then {} else Below(n - 1) + {n - 1}
  }

  lemma {:induction false} BelowCount(n: nat)
    ensures |Below(n)| == n
    ensures forall i: nat :: i in Below(n) <==> i < n
  {
    if n > 0 {
      BelowCount(n - 1);
    }
  }

  lemma {:induction false} OrderMapHolds(orders: seq<Order>, id: u64)
    requires UniqueIds(orders)
    ensures id in OrderMap(orders) <==> id in IdSet(orders)
    ensures id in OrderMap(orders) ==> OrderMap(orders)[id] in orders && OrderMap(orders)[id].id == id
  {
    if id in IdSet(orders) {
      var o :| o in orders && o.id == id;
      OrderMapAt(orders, o);
    }
    OrderMapKeys(orders, id);
  }

  lemma {:induction false} OrderMapKeys(orders: seq<Order>, id: u64)
    ensures id in OrderMap(orders) ==> id in IdSet(orders)
  {
    if orders != [] {
      OrderMapKeys(orders[..|orders|-1], id);
      assert orders[|orders|-1] in orders;
      assert forall o :: o in orders[..|orders|-1] ==> o in orders;
    }
  }

  /** The final scan for omitted leaves never rejects: n records with distinct
      indices below n already cover every leaf, and with distinct ids every
      order of the batch. */
  lemma {:induction false} OmissionScanIsRedundant(orders: seq<Order>, leaves: seq<Digest>, records: seq<Record>, quantities: map<u64, u64>)
    requires UniqueIds(orders) && |leaves| == |orders| == |records|
    requires RecordsPass(records, leaves, OrderMap(orders), quantities)
    ensures CoversLeaves(records, |orders|)
    ensures RecordIds(records) == IdSet(orders)
  {
    hide Fold, Root, Path, OrderMap, Implied, Below, UniqueIds;
    var n := |orders|;
    NoRepeatsCount(records);
    UniqueIdsCount(orders);
    BelowCount(n);
    forall r | r in records ensures r.leafIndex in Below(n) && r.orderId in IdSet(orders) {
      var j :| 0 <= j < |records| && records[j] == r;
      OrderMapHolds(orders, r.orderId);
    }
    Pigeonhole(LeafIndices(records), Below(n));
    Pigeonhole(RecordIds(records), IdSet(orders));
    forall i: nat | i < n ensures LeafCovered(records, i) {
      assert i in LeafIndices(records);
    }
  }

  /** The record names one committed leaf and one order with its disposition. */
  ghost predicate Faithful(r: Record, orders: seq<Order>, leaves: seq<Digest>, quantities: map<u64, u64>)
  {
    && r.leafIndex < |leaves| && r.commitment == leaves[r.leafIndex]
    && exists o :: o in orders && o.id == r.orderId && r.disposition == Implied(o, quantities)
  }

  ghost predicate Bijective(orders: seq<Order>, leaves: seq<Digest>, records: seq<Record>, quantities: map<u64, u64>)
  {
    && NoRepeats(records)
    && CoversLeaves(records, |orders|)
    && RecordIds(records) == IdSet(orders)
    && forall j :: 0 <= j < |records| ==> Faithful(records[j], orders, leaves, quantities)
  }

  lemma {:induction false} RecordPassesIsFaithful(r: Record, orders: seq<Order>, leaves: seq<Digest>, quantities: map<u64, u64>)
    requires UniqueIds(orders)
    ensures RecordPasses(r, leaves, OrderMap(orders), quantities) <==> Faithful(r, orders, leaves, quantities)
  {
    OrderMapHolds(orders, r.orderId);
    if r.leafIndex < |leaves| { InclusionSound(leaves, r.leafIndex, r.commitment); }
    forall o | o in orders && o.id == r.orderId ensures OrderMap(orders)[o.id] == o && o.id in OrderMap(orders) {
      OrderMapAt(orders, o);
    }
  }

  /** For a batch with unique ids, a manifest is accepted exactly when its
      records pair the leaves 0..n-1 with the batch's order ids, one to one on
      both sides, each carrying the committed leaf and the implied disposition. */
  lemma {:induction false} AcceptedIsBijective(orders: seq<Order>, leaves: seq<Digest>, m: Manifest, quantities: map<u64, u64>)
    requires UniqueIds(orders)
    ensures Accounted(orders, leaves, m, quantities) <==>
              && |leaves| == |orders| && |m.records| == |orders| && m.totalCommitted == |orders|
              && Bijective(orders, leaves, m.records, quantities)
  {
    forall j | 0 <= j < |m.records|
      ensures RecordPasses(m.records[j], leaves, OrderMap(orders), quantities)
         <==> Faithful(m.records[j], orders, leaves, quantities)
    {
      RecordPassesIsFaithful(m.records[j], orders, leaves, quantities);
    }
    hide RecordPasses, Faithful, OrderMap, CoversLeaves, NoRepeats, RecordIds, IdSet;
    if |leaves| == |orders| == |m.records| && RecordsPass(m.records, leaves, OrderMap(orders), quantities) {
      OmissionScanIsRedundant(orders, leaves, m.records, quantities);
    }
  }

  /** A manifest built from preimages of exactly the batch's orders, in any
      order, is accepted against the tree built beside it. */
  lemma {:induction false} BuiltManifestAccepted(orders: seq<Order>, preimages: seq<SaltedOrder>, m: Manifest, quantities: map<u64, u64>)
    requires UniqueIds(orders) && |preimages| == |orders|
    requires forall i, j :: 0 <= i < j < |preimages| ==> preimages[i].order.id != preimages[j].order.id
    requires forall i :: 0 <= i < |preimages| ==> preimages[i].order in orders
    requires m.records == RecordsOf(preimages, quantities) && m.totalCommitted == |orders|
    ensures Accounted(orders, CommittedLeaves(preimages), m, quantities)
  {
    var leaves := CommittedLeaves(preimages);
    forall j | 0 <= j < |m.records| ensures RecordPasses(m.records[j], leaves, OrderMap(orders), quantities) {
      assert leaves[j] == CommitOrder(preimages[j]);
      RecordPassesIsFaithful(m.records[j], orders, leaves, quantities);
    }
    OmissionScanIsRedundant(orders, leaves, m.records, quantities);
  }
}
