/** Limit orders and the canonical, validated batch. */
module Orders {
  import opened Primitives
  import opened Sums
  import opened Sorting

  datatype Side = Buy | Sell

  datatype Order = Order(id: u64, account: u64, instrument: u64, side: Side, price: u64, qty: u64, seqNo: u64)

  datatype Batch = Batch(batchId: u64, instrument: u64, orders: seq<Order>)

  /** Canonical batch order: sequence number, then order id. */
  predicate BatchLess(a: Order, b: Order)
  {
    if a.seqNo != b.seqNo then a.seqNo < b.seqNo else a.id < b.id
  }

  ghost predicate UniqueIds(orders: seq<Order>)
  {
    forall i, j :: 0 <= i < j < |orders| ==> orders[i].id != orders[j].id
  }

  predicate Acceptable(instrument: u64, o: Order)
  {
    o.instrument == instrument && o.price != 0 && o.qty != 0
  }

  /** What intake demands of an order list. */
  ghost predicate Admissible(instrument: u64, orders: seq<Order>)
  {
    && UniqueIds(orders)
    && forall o :: o in orders ==> Acceptable(instrument, o)
  }

  /** A batch as intake produces it. */
  ghost predicate Valid(b: Batch)
  {
    Admissible(b.instrument, b.orders) && SortedBy(BatchLess, b.orders)
  }

  function Canonical(batchId: u64, instrument: u64, orders: seq<Order>): Batch
  {
    Batch(batchId, instrument, SortBy(BatchLess, orders))
  }

  ghost function Create(batchId: u64, instrument: u64, orders: seq<Order>): Result<Batch>
  {
    if Admissible(instrument, orders) then Ok(Canonical(batchId, instrument, orders)) else Err
  }

  /** Intake: one pass of validation with an early exit, then the canonical sort.
      The batch keeps exactly the submitted orders, by arrival and then by id. */
  method CreateBatch(batchId: u64, instrument: u64, orders: seq<Order>) returns (r: Result<Batch>)
    ensures r == Create(batchId, instrument, orders)
    ensures r.Ok? <==>
              && (forall i, j :: 0 <= i < j < |orders| ==> orders[i].id != orders[j].id)
              && (forall o :: o in orders ==> o.instrument == instrument && o.price > 0 && o.qty > 0)
    ensures r.Ok? ==> r.value.batchId == batchId && r.value.instrument == instrument
    ensures r.Ok? ==> Valid(r.value) && multiset(r.value.orders) == multiset(orders)
    ensures r.Ok? ==>
              var s := r.value.orders;
              forall i, j :: 0 <= i < j < |s| ==>
                s[i].seqNo < s[j].seqNo || (s[i].seqNo == s[j].seqNo && s[i].id < s[j].id)
  {
    var seen: set<u64> := {};
    for i := 0 to |orders|
      invariant Admissible(instrument, orders[..i])
      invariant forall x :: x in seen <==> exists j :: 0 <= j < i && orders[j].id == x
    {
      var o := orders[i];
      assert o in orders;
      if !Acceptable(instrument, o) { return Err; }
      if o.id in seen { return Err; }
      seen := seen + {o.id};
    }
    assert orders[..|orders|] == orders;
    r := Ok(Canonical(batchId, instrument, orders));
    CanonicalIsValid(batchId, instrument, orders);
    ArrivalOrder(r.value);
  }

  lemma {:induction false} BatchLessIsOrder()
    ensures StrictWeakOrder(BatchLess)
  {
  }

  lemma {:induction false} IdsSeparate(orders: seq<Order>)
    requires UniqueIds(orders)
    ensures SeparatedBy(BatchLess, orders) && Distinct(orders)
  {
  }

  lemma {:induction false} CanonicalIsValid(batchId: u64, instrument: u64, orders: seq<Order>)
    requires Admissible(instrument, orders)
    ensures Valid(Canonical(batchId, instrument, orders))
  {
    BatchLessIsOrder();
    SortBySorted(BatchLess, orders);
    AdmissiblePermutes(instrument, orders, SortBy(BatchLess, orders));
  }

  /** A validated batch lists its orders strictly by sequence number, and equal
      sequence numbers by id. */
  lemma {:induction false} ArrivalOrder(b: Batch)
    requires Valid(b)
    ensures forall i, j :: 0 <= i < j < |b.orders| ==>
              b.orders[i].seqNo < b.orders[j].seqNo
              || (b.orders[i].seqNo == b.orders[j].seqNo && b.orders[i].id < b.orders[j].id)
  {
  }

  lemma {:induction false} UniqueIdsPermute(a: seq<Order>, b: seq<Order>)
    requires multiset(a) == multiset(b) && UniqueIds(a)
    ensures UniqueIds(b)
  {
    IdsSeparate(a);
    DistinctPermutes(a, b);
    forall i, j | 0 <= i < j < |b| ensures b[i].id != b[j].id {
      InMultiset(a, b, b[i]);
      InMultiset(a, b, b[j]);
      var k :| 0 <= k < |a| && a[k] == b[i];
      var m :| 0 <= m < |a| && a[m] == b[j];
      assert k != m;
    }
  }

  lemma {:induction false} AdmissiblePermutes(instrument: u64, a: seq<Order>, b: seq<Order>)
    requires multiset(a) == multiset(b) && Admissible(instrument, a)
    ensures Admissible(instrument, b)
  {
    UniqueIdsPermute(a, b);
    forall x ensures x in a <==> x in b { InMultiset(a, b, x); }
  }

  /** Intake order is not observable: permuting the submitted orders changes
      neither acceptance nor the batch, whichever correct sort is used. */
  lemma {:induction false} IntakeOrderUnobservable(batchId: u64, instrument: u64, a: seq<Order>, b: seq<Order>, anySort: seq<Order>)
    requires multiset(a) == multiset(b)
    requires multiset(anySort) == multiset(b) && SortedBy(BatchLess, anySort)
    ensures Create(batchId, instrument, a) == Create(batchId, instrument, b)
    ensures Create(batchId, instrument, a).Ok? ==> Create(batchId, instrument, a).value.orders == anySort
  {
    if Admissible(instrument, a) {
      AdmissiblePermutes(instrument, a, b);
    }
    if Admissible(instrument, b) {
      AdmissiblePermutes(instrument, b, a);
      AdmissiblePermutes(instrument, a, anySort);
      IdsSeparate(anySort);
      BatchLessIsOrder();
      SortBySorted(BatchLess, a);
      SortBySorted(BatchLess, b);
      SortedUnique(BatchLess, anySort, SortBy(BatchLess, a));
      SortedUnique(BatchLess, anySort, SortBy(BatchLess, b));
    }
  }
}
