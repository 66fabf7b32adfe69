/** Accounting records arrive in any order; the prover puts each at its own leaf
    index before anything reads them by position. */
module RecordBinding {
  import opened Primitives
  import opened Sums
  import opened Sorting
  import opened Orders
  import opened Commitments
  import opened Accounting

  /** One slot per leaf; a record out of range or aimed at a taken slot fails. */
  ghost function Slots(records: seq<Record>, n: nat): (r: Result<seq<Option<Record>>>)
    ensures r.Ok? ==> |r.value| == n
  {
    if records == [] then Ok(seq(n, _ => None))
    else
      var slots :- Slots(records[..|records|-1], n);
      var last := records[|records|-1];
      if last.leafIndex >= n || slots[last.leafIndex].Some? then Err
      else Ok(slots[last.leafIndex := Some(last)])
  }

  /** The slot holds a record of this order under this leaf commitment. */
  predicate SlotBinds(slot: Option<Record>, id: u64, leaf: Digest)
  {
    slot.Some? && slot.value.orderId == id && slot.value.commitment == leaf
  }

  ghost predicate SlotsBind(slots: seq<Option<Record>>, orders: seq<Order>, leaves: seq<Digest>)
    requires |slots| == |orders| == |leaves|
  {
    forall i :: 0 <= i < |slots| ==> SlotBinds(slots[i], orders[i].id, leaves[i])
  }

  ghost function Taken(slots: seq<Option<Record>>): seq<Record>
    requires forall i :: 0 <= i < |slots| ==> slots[i].Some?
  {
    seq(|slots|, i requires 0 <= i < |slots| => slots[i].value)
  }

  ghost function Normalized(records: seq<Record>, orders: seq<Order>, leaves: seq<Digest>): (r: Result<seq<Record>>)
    requires |orders| == |leaves|
    ensures r.Ok? ==> |r.value| == |orders|
  {
    if |records| != |orders| then Err
    else
      var slots :- Slots(records, |orders|);
      if SlotsBind(slots, orders, leaves) then
        assert forall i :: 0 <= i < |slots| ==> SlotBinds(slots[i], orders[i].id, leaves[i]);
        Ok(Taken(slots))
      else Err
  }

  lemma {:induction false} SlotsPrefix(records: seq<Record>, n: nat, i: nat)
    requires i <= |records| && Slots(records[..i], n).Err?
    ensures Slots(records, n).Err?
  {
    if i < |records| {
      assert records[..|records|-1][..i] == records[..i];
      SlotsPrefix(records[..|records|-1], n, i);
    } else {
      assert records[..i] == records;
    }
  }

  lemma {:induction false} SlotsStep(records: seq<Record>, n: nat, i: nat)
    requires i < |records|
    ensures Slots(records[..i+1], n) ==
            match Slots(records[..i], n)
            case Err => Err
            case Ok(slots) =>
              if records[i].leafIndex >= n || slots[records[i].leafIndex].Some? then Err
              else Ok(slots[records[i].leafIndex := Some(records[i])])
  {
    assert records[..i+1][..i] == records[..i];
  }

  method NormalizeRecords(records: seq<Record>, orders: seq<Order>, leaves: seq<Digest>) returns (r: Result<seq<Record>>)
    requires |orders| == |leaves|
    ensures r == Normalized(records, orders, leaves)
  {
    hide Slots;
    var n := |orders|;
    if |records| != n { return Err; }
    var slots: seq<Option<Record>> := seq(n, _ => None);
    assert Slots(records[..0], n) == Ok(slots) by { NoSlotsTaken(records, n); }
    for i := 0 to |records|
      invariant Slots(records[..i], n) == Ok(slots)
    {
      SlotsStep(records, n, i);
      if records[i].leafIndex >= n || slots[records[i].leafIndex].Some? {
        SlotsPrefix(records, n, i + 1);
        return Err;
      }
      slots := slots[records[i].leafIndex := Some(records[i])];
    }
    assert records[..|records|] == records;
    var canonical: seq<Record> := [];
    for i := 0 to n
      invariant |canonical| == i
      invariant forall k :: 0 <= k < i ==> SlotBinds(slots[k], orders[k].id, leaves[k]) && canonical[k] == slots[k].value
    {
      if !SlotBinds(slots[i], orders[i].id, leaves[i]) { return Err; }
      canonical := canonical + [slots[i].value];
    }
    assert canonical == Taken(slots);
    r := Ok(canonical);
  }

  lemma {:induction false} NoSlotsTaken(records: seq<Record>, n: nat)
    ensures Slots(records[..0], n) == Ok(seq(n, _ => None))
  {
  }

  // ---- Normalisation is the unique bound permutation ----

  /** Record `i` names leaf `i`, its order and its commitment. */
  ghost predicate Bound(records: seq<Record>, orders: seq<Order>, leaves: seq<Digest>)
    requires |orders| == |leaves|
  {
    && |records| == |orders|
    && forall i :: 0 <= i < |records| ==> BoundAt(records[i], i, orders[i].id, leaves[i])
  }

  predicate BoundAt(r: Record, i: nat, id: u64, leaf: Digest)
  {
    r.leafIndex == i && r.orderId == id && r.commitment == leaf
  }

  ghost function Occupied(slots: seq<Option<Record>>): multiset<Record>
  {
    if slots == [] then multiset{}
    else
      var last := slots[|slots|-1];
      Occupied(slots[..|slots|-1]) + if last.Some? then multiset{last.value} else multiset{}
  }

  lemma {:induction false} OccupySlot(slots: seq<Option<Record>>, i: nat, r: Record)
    requires i < |slots| && slots[i].None?
    ensures Occupied(slots[i := Some(r)]) == Occupied(slots) + multiset{r}
  {
    var n := |slots| - 1;
    if i == n {
      assert slots[i := Some(r)][..n] == slots[..n];
    } else {
      OccupySlot(slots[..n], i, r);
      assert slots[i := Some(r)][..n] == slots[..n][i := Some(r)];
    }
  }

  lemma {:induction false} NothingOccupied(n: nat)
    ensures Occupied(seq(n, _ => None)) == multiset{}
  {
    if n > 0 {
      NothingOccupied(n - 1);
      assert seq(n, _ => None)[..n-1] == seq<Option<Record>>(n - 1, _ => None);
    }
  }

  lemma {:induction false} TakenIsOccupied(slots: seq<Option<Record>>)
    requires forall i :: 0 <= i < |slots| ==> slots[i].Some?
    ensures multiset(Taken(slots)) == Occupied(slots)
  {
    if slots != [] {
      var n := |slots| - 1;
      TakenIsOccupied(slots[..n]);
      assert Taken(slots) == Taken(slots[..n]) + [slots[n].value];
    }
  }

  ghost predicate InSlot(slots: seq<Option<Record>>)
  {
    forall i :: 0 <= i < |slots| && slots[i].Some? ==> slots[i].value.leafIndex == i
  }

  lemma {:induction false} InSlotUpdate(slots: seq<Option<Record>>, r: Record)
    requires InSlot(slots) && r.leafIndex < |slots|
    ensures InSlot(slots[r.leafIndex := Some(r)])
  {
  }

  lemma {:induction false} SlotsHold(records: seq<Record>, n: nat, i: nat)
    requires i <= |records| && Slots(records[..i], n).Ok?
    ensures Occupied(Slots(records[..i], n).value) == multiset(records[..i])
    ensures InSlot(Slots(records[..i], n).value)
  {
    hide Slots, Occupied, InSlot;
    if i == 0 {
      NoSlotsTaken(records, n);
      NothingOccupied(n);
      NothingInSlots(n);
    } else {
      SlotsStep(records, n, i - 1);
      SlotsHold(records, n, i - 1);
      OccupySlot(Slots(records[..i-1], n).value, records[i-1].leafIndex, records[i-1]);
      InSlotUpdate(Slots(records[..i-1], n).value, records[i-1]);
      assert records[..i] == records[..i-1] + [records[i-1]];
    }
  }

  lemma {:induction false} NothingInSlots(n: nat)
    ensures InSlot(seq(n, _ => None))
  {
  }

  /** While records come from a bound list, each lands in its own free slot. */
  lemma {:induction false} BoundRecordsFit(records: seq<Record>, c: seq<Record>, k: nat)
    requires k <= |records| && Distinct(records)
    requires forall i :: 0 <= i < |c| ==> c[i].leafIndex == i
    requires forall r :: r in records ==> r in c
    ensures Slots(records[..k], |c|).Ok?
    ensures var s := Slots(records[..k], |c|).value;
            forall i :: 0 <= i < |c| ==> s[i] == if c[i] in records[..k] then Some(c[i]) else None
  {
    hide Slots;
    if k == 0 {
      NoSlotsTaken(records, |c|);
    } else {
      BoundRecordsFit(records, c, k - 1);
      SlotsStep(records, |c|, k - 1);
      var r := records[k-1];
      assert r in records;
      assert c[r.leafIndex] == r;
      assert r !in records[..k-1];
      assert records[..k] == records[..k-1] + [r];
    }
  }

  lemma {:induction false} BoundIsDistinct(c: seq<Record>)
    requires forall i :: 0 <= i < |c| ==> c[i].leafIndex == i
    ensures Distinct(c)
  {
  }

  lemma {:induction false} NormalizedIsBound(records: seq<Record>, orders: seq<Order>, leaves: seq<Digest>)
    requires |orders| == |leaves| && Normalized(records, orders, leaves).Ok?
    ensures multiset(Normalized(records, orders, leaves).value) == multiset(records)
    ensures Bound(Normalized(records, orders, leaves).value, orders, leaves)
  {
    hide Slots, Occupied;
    assert records[..|records|] == records;
    SlotsHold(records, |orders|, |records|);
    var slots := Slots(records, |orders|).value;
    assert forall i :: 0 <= i < |slots| ==> SlotBinds(slots[i], orders[i].id, leaves[i]);
    TakenIsOccupied(slots);
  }

  lemma {:induction false} BoundIsNormalized(records: seq<Record>, orders: seq<Order>, leaves: seq<Digest>, c: seq<Record>)
    requires |orders| == |leaves| && Bound(c, orders, leaves) && multiset(c) == multiset(records)
    ensures Normalized(records, orders, leaves) == Ok(c)
  {
    hide Slots;
    forall i | 0 <= i < |c| ensures c[i].leafIndex == i { assert BoundAt(c[i], i, orders[i].id, leaves[i]); }
    BoundIsDistinct(c);
    DistinctPermutes(c, records);
    SameLength(c, records);
    forall r ensures r in records <==> r in c { InMultiset(c, records, r); }
    BoundRecordsFit(records, c, |records|);
    assert records[..|records|] == records;
    var slots := Slots(records, |orders|).value;
    forall i | 0 <= i < |slots| ensures slots[i] == Some(c[i]) && SlotBinds(slots[i], orders[i].id, leaves[i]) {
      assert c[i] in c;
      assert BoundAt(c[i], i, orders[i].id, leaves[i]);
    }
    assert Taken(slots) == c;
  }

  /** Normalisation succeeds exactly when the records are a permutation of a
      list bound leaf by leaf, and then returns that list. */
  lemma {:induction false} NormalizedIsTheBoundPermutation(records: seq<Record>, orders: seq<Order>, leaves: seq<Digest>, c: seq<Record>)
    requires |orders| == |leaves|
    ensures Normalized(records, orders, leaves) == Ok(c)
       <==> multiset(c) == multiset(records) && Bound(c, orders, leaves)
  {
    hide Normalized, Bound;
    if Normalized(records, orders, leaves) == Ok(c) { NormalizedIsBound(records, orders, leaves); }
    if multiset(c) == multiset(records) && Bound(c, orders, leaves) { BoundIsNormalized(records, orders, leaves, c); }
  }
}
