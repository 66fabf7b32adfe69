/** Uniform-price clearing: the price that maximises executable volume. */
module Auction {
  import opened Primitives
  import opened Sums
  import opened Sorting
  import opened Orders

  datatype Evaluation = Evaluation(price: u64, demand: nat, supply: nat, volume: nat)
  datatype VolumeMaximizers = VolumeMaximizers(maxVolume: u64, evaluations: seq<Evaluation>, prices: seq<u64>)
  datatype ClearingOutcome = ClearingOutcome(price: Option<u64>, volume: u64)

  // ---- Demand, supply and volume as sums over the order list ----

  ghost function BuysFrom(p: u64): Order -> int
  {
    (o: Order) => if o.side.Buy? && o.price >= p then o.qty else 0
  }

  ghost function SellsUpTo(p: u64): Order -> int
  {
    (o: Order) => if o.side.Sell? && o.price <= p then o.qty else 0
  }

  ghost function QtyOn(side: Side): Order -> int
  {
    (o: Order) => if o.side == side then o.qty else 0
  }

  ghost function Demand(orders: seq<Order>, p: u64): nat
  {
    SumNonNegative(orders, BuysFrom(p));
    Sum(orders, BuysFrom(p))
  }

  ghost function Supply(orders: seq<Order>, p: u64): nat
  {
    SumNonNegative(orders, SellsUpTo(p));
    Sum(orders, SellsUpTo(p))
  }

  ghost function Volume(orders: seq<Order>, p: u64): nat
  {
    Min(Demand(orders, p), Supply(orders, p))
  }

  ghost function Total(orders: seq<Order>, side: Side): nat
  {
    SumNonNegative(orders, QtyOn(side));
    Sum(orders, QtyOn(side))
  }

  lemma {:induction false} DemandSupplyBounded(orders: seq<Order>, p: u64)
    ensures Demand(orders, p) <= Total(orders, Buy)
    ensures Supply(orders, p) <= Total(orders, Sell)
  {
    SumLe(orders, BuysFrom(p), QtyOn(Buy));
    SumLe(orders, SellsUpTo(p), QtyOn(Sell));
  }

  // ---- The checked scans ----

  method DemandFromOrders(orders: seq<Order>, p: u64) returns (r: Result<u64>)
    ensures r == if Demand(orders, p) <= MAX64 then Ok(Demand(orders, p)) else Err
  {
    var total: u64 := 0;
    for i := 0 to |orders|
      invariant total == Sum(orders[..i], BuysFrom(p))
    {
      SumStep(orders, i, BuysFrom(p));
      SumPrefixLe(orders, i + 1, BuysFrom(p));
      if orders[i].side.Buy? && orders[i].price >= p {
        var res := AddQty(total, orders[i].qty);
        if res.Err? { return Err; }
        total := res.value;
      }
    }
    SumAll(orders, BuysFrom(p));
    return Ok(total);
  }

  method SupplyFromOrders(orders: seq<Order>, p: u64) returns (r: Result<u64>)
    ensures r == if Supply(orders, p) <= MAX64 then Ok(Supply(orders, p)) else Err
  {
    var total: u64 := 0;
    for i := 0 to |orders|
      invariant total == Sum(orders[..i], SellsUpTo(p))
    {
      SumStep(orders, i, SellsUpTo(p));
      SumPrefixLe(orders, i + 1, SellsUpTo(p));
      if orders[i].side.Sell? && orders[i].price <= p {
        var res := AddQty(total, orders[i].qty);
        if res.Err? { return Err; }
        total := res.value;
      }
    }
    SumAll(orders, SellsUpTo(p));
    return Ok(total);
  }

  // ---- Candidate prices ----

  ghost function PriceSet(orders: seq<Order>): set<u64>
  {
    set o | o in orders :: o.price
  }

  /** The distinct order prices in ascending order. */
  ghost function Candidates(orders: seq<Order>): seq<u64>
  {
    Ascending(PriceSet(orders))
  }

  method CandidatePrices(orders: seq<Order>) returns (prices: seq<u64>)
    ensures prices == Candidates(orders)
  {
    var all: seq<u64> := [];
    for i := 0 to |orders|
      invariant |all| == i
      invariant forall k :: 0 <= k < i ==> all[k] == orders[k].price
    {
      all := all + [orders[i].price];
    }
    assert forall x :: x in all <==> x in PriceSet(orders) by {
      forall x ensures x in all <==> x in PriceSet(orders) {
        if x in all {
          var k :| 0 <= k < |all| && all[k] == x;
          assert orders[k] in orders;
        }
        if x in PriceSet(orders) {
          var k :| 0 <= k < |orders| && orders[k].price == x;
          assert all[k] == x;
        }
      }
    }
    var sorted := SortBy(NumberLess, all);
    SortBySorted(NumberLess, all);
    forall x ensures x in sorted <==> x in all { InMultiset(sorted, all, x); }
    prices := Unique(sorted);
    AscendingKeys(PriceSet(orders));
    IncreasingUnique(prices, Candidates(orders));
  }

  lemma {:induction false} ExtendIncreasing(s: seq<u64>, x: u64)
    requires Increasing(s) && (s == [] || s[|s|-1] < x)
    ensures Increasing(s + [x])
  {
    var r := s + [x];
    forall i, j | 0 <= i < j < |r| ensures r[i] < r[j] {
      if j == |s| && i < |s| - 1 { assert s[i] < s[|s|-1]; }
    }
  }

  /** Drops repeats of a sorted vector. */
  method Unique(sorted: seq<u64>) returns (out: seq<u64>)
    requires SortedBy(NumberLess, sorted)
    ensures Increasing(out)
    ensures forall x :: x in out <==> x in sorted
  {
    out := [];
    for i := 0 to |sorted|
      invariant Increasing(out)
      invariant forall x :: x in out <==> x in sorted[..i]
      invariant if i == 0 then out == [] else out != [] && out[|out|-1] == sorted[i-1]
    {
      assert i > 0 ==> !NumberLess(sorted[i], sorted[i-1]);
      if out == [] || out[|out|-1] != sorted[i] {
        ExtendIncreasing(out, sorted[i]);
        out := out + [sorted[i]];
      }
    }
    assert sorted[..|sorted|] == sorted;
  }

  // ---- The sweep ----

  ghost function MaxVolume(orders: seq<Order>, prices: seq<u64>): nat
  {
    if prices == [] then 0
    else
      var m := MaxVolume(orders, prices[..|prices|-1]);
      var v := Volume(orders, prices[|prices|-1]);
      if v > m then v else m
  }

  lemma {:induction false} MaxVolumeIsMaximum(orders: seq<Order>, prices: seq<u64>)
    ensures forall p :: p in prices ==> Volume(orders, p) <= MaxVolume(orders, prices)
    ensures MaxVolume(orders, prices) == 0 || exists p :: p in prices && Volume(orders, p) == MaxVolume(orders, prices)
  {
    if prices != [] {
      var front, last := prices[..|prices|-1], prices[|prices|-1];
      MaxVolumeIsMaximum(orders, front);
      assert last in prices;
      assert forall p :: p in prices <==> p == last || p in front;
    }
  }

  ghost function Maximizing(orders: seq<Order>, prices: seq<u64>, v: nat): seq<u64>
  {
    if prices == [] then []
    else
      var last := prices[|prices|-1];
      var rest := Maximizing(orders, prices[..|prices|-1], v);
      if Volume(orders, last) == v then rest + [last] else rest
  }

  lemma {:induction false} MaximizingMembers(orders: seq<Order>, prices: seq<u64>, v: nat)
    ensures forall p :: p in Maximizing(orders, prices, v) <==> p in prices && Volume(orders, p) == v
  {
    if prices != [] {
      var front, last := prices[..|prices|-1], prices[|prices|-1];
      MaximizingMembers(orders, front, v);
      assert forall p :: p in prices <==> p == last || p in front;
    }
  }

  lemma {:induction false} MaxVolumeFits(orders: seq<Order>, prices: seq<u64>)
    requires TotalsFit(orders)
    ensures MaxVolume(orders, prices) <= MAX64
  {
    if prices != [] {
      DemandSupplyBounded(orders, prices[|prices|-1]);
      MaxVolumeFits(orders, prices[..|prices|-1]);
    }
  }

  lemma {:induction false} MaximizingIncreases(orders: seq<Order>, prices: seq<u64>, v: nat)
    requires Increasing(prices)
    ensures Increasing(Maximizing(orders, prices, v))
  {
    if prices != [] {
      var front := prices[..|prices|-1];
      MaximizingIncreases(orders, front, v);
      MaximizingMembers(orders, front, v);
      var rest := Maximizing(orders, front, v);
      if rest != [] {
        assert rest[|rest|-1] in rest;
        assert rest[|rest|-1] in front;
      }
      if Volume(orders, prices[|prices|-1]) == v {
        ExtendIncreasing(rest, prices[|prices|-1]);
      }
    }
  }

  ghost function Evaluations(orders: seq<Order>, prices: seq<u64>): seq<Evaluation>
  {
    seq(|prices|, i requires 0 <= i < |prices| =>
      Evaluation(prices[i], Demand(orders, prices[i]), Supply(orders, prices[i]), Volume(orders, prices[i])))
  }

  ghost predicate TotalsFit(orders: seq<Order>)
  {
    Total(orders, Buy) <= MAX64 && Total(orders, Sell) <= MAX64
  }

  /** The naive definition that the sweep refines. */
  ghost function MaximizersOf(orders: seq<Order>): (r: Result<VolumeMaximizers>)
    ensures r.Ok? ==> Increasing(r.value.prices)
  {
    var c := Candidates(orders);
    var v := MaxVolume(orders, c);
    AscendingKeys(PriceSet(orders));
    MaximizingIncreases(orders, c, v);
    if TotalsFit(orders) then
      MaxVolumeFits(orders, c);
      Ok(VolumeMaximizers(v, Evaluations(orders, c), Maximizing(orders, c, v)))
    else Err
  }

  /** Quantity on one side whose limit is among the listed prices. */
  ghost function QtyIn(side: Side, prices: seq<u64>): Order -> int
  {
    (o: Order) => if o.side == side && o.price in prices then o.qty else 0
  }

  lemma {:induction false} QtyInBounded(orders: seq<Order>, side: Side, prices: seq<u64>)
    ensures 0 <= Sum(orders, QtyIn(side, prices)) <= Total(orders, side)
  {
    SumNonNegative(orders, QtyIn(side, prices));
    SumLe(orders, QtyIn(side, prices), QtyOn(side));
  }

  lemma {:induction false} AddPrice(orders: seq<Order>, side: Side, prices: seq<u64>, p: u64, more: seq<u64>)
    requires p !in prices
    requires forall x :: x in more <==> x in prices || x == p
    ensures Sum(orders, QtyIn(side, more)) == Sum(orders, QtyIn(side, prices)) + Sum(orders, QtyIn(side, [p]))
  {
    SumAdd(orders, QtyIn(side, prices), QtyIn(side, [p]), QtyIn(side, more));
  }

  /** An ascending list that covers every order price. */
  ghost predicate Lists(orders: seq<Order>, c: seq<u64>)
  {
    Increasing(c) && forall o :: o in orders ==> o.price in c
  }

  lemma {:induction false} CandidatesList(orders: seq<Order>)
    ensures Lists(orders, Candidates(orders))
  {
    AscendingKeys(PriceSet(orders));
    forall o | o in orders ensures o.price in Candidates(orders) {
      assert o.price in PriceSet(orders);
    }
  }

  lemma {:induction false} Rank(c: seq<u64>, k: nat, x: u64)
    requires Increasing(c) && k < |c| && x in c
    ensures x in c[..k+1] <==> x <= c[k]
    ensures x in c[k..] <==> x >= c[k]
  {
    var i :| 0 <= i < |c| && c[i] == x;
    assert i <= k ==> c[..k+1][i] == x;
    assert i >= k ==> c[k..][i-k] == x;
  }

  /** Prefixes and suffixes of the candidate list add up to supply and demand. */
  lemma {:induction false} SweepMeaning(orders: seq<Order>, c: seq<u64>, k: nat)
    requires Lists(orders, c) && k < |c|
    ensures Sum(orders, QtyIn(Sell, c[..k+1])) == Supply(orders, c[k])
    ensures Sum(orders, QtyIn(Buy, c[k..])) == Demand(orders, c[k])
  {
    forall o | o in orders
      ensures QtyIn(Sell, c[..k+1])(o) == SellsUpTo(c[k])(o)
      ensures QtyIn(Buy, c[k..])(o) == BuysFrom(c[k])(o)
    {
      Rank(c, k, o.price);
    }
    SumSame(orders, QtyIn(Sell, c[..k+1]), SellsUpTo(c[k]));
    SumSame(orders, QtyIn(Buy, c[k..]), BuysFrom(c[k]));
  }

  lemma {:induction false} AllCandidates(orders: seq<Order>, c: seq<u64>, side: Side)
    requires Lists(orders, c)
    ensures Sum(orders, QtyIn(side, c)) == Total(orders, side)
  {
    SumSame(orders, QtyIn(side, c), QtyOn(side));
  }

  lemma {:induction false} ZeroQty(orders: seq<Order>, side: Side)
    ensures Sum(orders, QtyIn(side, [])) == 0
  {
    SumScale(orders, QtyOn(side), 0, QtyIn(side, []));
  }

  method LowerBound(prices: seq<u64>, p: u64) returns (idx: nat)
    requires Increasing(prices)
    ensures idx <= |prices|
    ensures forall k :: 0 <= k < idx ==> prices[k] < p
    ensures forall k :: idx <= k < |prices| ==> p <= prices[k]
  {
    var lo, hi := 0, |prices|;
    while lo < hi
      invariant 0 <= lo <= hi <= |prices|
      invariant forall k :: 0 <= k < lo ==> prices[k] < p
      invariant forall k :: hi <= k < |prices| ==> p <= prices[k]
    {
      var mid := lo + (hi - lo) / 2;
      if prices[mid] < p { lo := mid + 1; } else { hi := mid; }
    }
    idx := lo;
  }

  lemma {:induction false} Located(c: seq<u64>, idx: nat, p: u64)
    requires Increasing(c) && p in c && idx <= |c|
    requires forall k :: 0 <= k < idx ==> c[k] < p
    requires forall k :: idx <= k < |c| ==> p <= c[k]
    ensures idx < |c|
    ensures forall k :: 0 <= k < |c| ==> (c[k] == p <==> k == idx)
  {
    var j :| 0 <= j < |c| && c[j] == p;
    forall k | 0 <= k < |c| ensures c[k] == p <==> k == j { }
    assert idx <= j && c[idx] <= c[j];
  }

  /** One order moves exactly its own price bucket. */
  lemma {:induction false} BucketStep(orders: seq<Order>, i: nat, side: Side, p: u64)
    requires i < |orders|
    ensures Sum(orders[..i+1], QtyIn(side, [p]))
         == Sum(orders[..i], QtyIn(side, [p])) + (if orders[i].side == side && orders[i].price == p then orders[i].qty else 0)
    ensures Sum(orders[..i+1], QtyIn(side, [p])) <= Total(orders, side)
  {
    SumStep(orders, i, QtyIn(side, [p]));
    SumPrefixLe(orders, i + 1, QtyIn(side, [p]));
    QtyInBounded(orders, side, [p]);
  }

  ghost predicate BucketsHold(orders: seq<Order>, c: seq<u64>, side: Side, bucket: seq<u64>)
  {
    |bucket| == |c| && forall k :: 0 <= k < |c| ==> bucket[k] == Sum(orders, QtyIn(side, [c[k]]))
  }

  /** Adds order `i` to one side's table, or reports that the table overflows. */
  method Deposit(orders: seq<Order>, c: seq<u64>, i: nat, side: Side, bucket: seq<u64>) returns (r: Result<seq<u64>>)
    requires i < |orders| && Lists(orders, c) && BucketsHold(orders[..i], c, side, bucket)
    ensures r.Ok? ==> BucketsHold(orders[..i+1], c, side, r.value)
    ensures r.Err? ==> Total(orders, side) > MAX64
  {
    var o := orders[i];
    var idx := LowerBound(c, o.price);
    assert o in orders;
    Located(c, idx, o.price);
    forall k | 0 <= k < |c|
      ensures Sum(orders[..i+1], QtyIn(side, [c[k]])) == bucket[k] + (if k == idx && o.side == side then o.qty else 0)
      ensures Sum(orders[..i+1], QtyIn(side, [c[k]])) <= Total(orders, side)
    {
      BucketStep(orders, i, side, c[k]);
    }
    if idx < |c| && c[idx] == o.price && o.side == side {
      var res := AddQty(bucket[idx], o.qty);
      if res.Err? { return Err; }
      return Ok(bucket[idx := res.value]);
    }
    return Ok(bucket);
  }

  /** Bucketing pass: quantity per candidate price, one table per side. */
  method FillBuckets(orders: seq<Order>, c: seq<u64>) returns (r: Result<(seq<u64>, seq<u64>)>)
    requires Lists(orders, c)
    ensures r.Ok? ==> BucketsHold(orders, c, Buy, r.value.0) && BucketsHold(orders, c, Sell, r.value.1)
    ensures r.Err? ==> !TotalsFit(orders)
  {
    var buys: seq<u64> := seq(|c|, _ => 0);
    var sells: seq<u64> := seq(|c|, _ => 0);
    for i := 0 to |orders|
      invariant BucketsHold(orders[..i], c, Buy, buys)
      invariant BucketsHold(orders[..i], c, Sell, sells)
    {
      var b := Deposit(orders, c, i, Buy, buys);
      if b.Err? { return Err; }
      var s := Deposit(orders, c, i, Sell, sells);
      if s.Err? { return Err; }
      buys, sells := b.value, s.value;
    }
    assert orders[..|orders|] == orders;
    return Ok((buys, sells));
  }

  /** Prefix sums of the sell table give supply at every candidate. */
  method SupplySweep(orders: seq<Order>, c: seq<u64>, sells: seq<u64>) returns (r: Result<seq<u64>>)
    requires Lists(orders, c) && BucketsHold(orders, c, Sell, sells)
    ensures r.Ok? <==> Total(orders, Sell) <= MAX64
    ensures r.Ok? ==> |r.value| == |c| && forall k :: 0 <= k < |c| ==> r.value[k] == Supply(orders, c[k])
  {
    hide Sum, QtyIn, Supply, Total;
    var supply: seq<u64> := seq(|c|, _ => 0);
    var running: u64 := 0;
    ZeroQty(orders, Sell);
    for k := 0 to |c|
      invariant |supply| == |c|
      invariant running == Sum(orders, QtyIn(Sell, c[..k]))
      invariant forall j :: 0 <= j < k ==> supply[j] == Supply(orders, c[j])
    {
      AddPrice(orders, Sell, c[..k], c[k], c[..k+1]);
      QtyInBounded(orders, Sell, c[..k+1]);
      var res := AddQty(running, sells[k]);
      if res.Err? { return Err; }
      running := res.value;
      SweepMeaning(orders, c, k);
      supply := supply[k := running];
    }
    assert c[..|c|] == c;
    AllCandidates(orders, c, Sell);
    return Ok(supply);
  }

  /** Suffix sums of the buy table give demand at every candidate. */
  method DemandSweep(orders: seq<Order>, c: seq<u64>, buys: seq<u64>) returns (r: Result<seq<u64>>)
    requires Lists(orders, c) && BucketsHold(orders, c, Buy, buys)
    ensures r.Ok? <==> Total(orders, Buy) <= MAX64
    ensures r.Ok? ==> |r.value| == |c| && forall k :: 0 <= k < |c| ==> r.value[k] == Demand(orders, c[k])
  {
    var n := |c|;
    var demand: seq<u64> := seq(n, _ => 0);
    var running: u64 := 0;
    assert c[n..] == [];
    ZeroQty(orders, Buy);
    for i := 0 to n
      invariant |demand| == n
      invariant running == Sum(orders, QtyIn(Buy, c[n-i..]))
      invariant forall j :: n - i <= j < n ==> demand[j] == Demand(orders, c[j])
    {
      var k := n - 1 - i;
      AddPrice(orders, Buy, c[k+1..], c[k], c[k..]);
      QtyInBounded(orders, Buy, c[k..]);
      var res := AddQty(running, buys[k]);
      if res.Err? { return Err; }
      running := res.value;
      SweepMeaning(orders, c, k);
      demand := demand[k := running];
    }
    assert c[0..] == c;
    AllCandidates(orders, c, Buy);
    return Ok(demand);
  }

  method EvaluateCandidates(orders: seq<Order>, c: seq<u64>, demand: seq<u64>, supply: seq<u64>)
    returns (evaluations: seq<Evaluation>, maxVolume: u64)
    requires |demand| == |supply| == |c|
    requires forall k :: 0 <= k < |c| ==> demand[k] == Demand(orders, c[k]) && supply[k] == Supply(orders, c[k])
    ensures evaluations == Evaluations(orders, c) && maxVolume == MaxVolume(orders, c)
  {
    evaluations := [];
    maxVolume := 0;
    for k := 0 to |c|
      invariant |evaluations| == k
      invariant forall j :: 0 <= j < k ==> evaluations[j] == Evaluations(orders, c)[j]
      invariant maxVolume == MaxVolume(orders, c[..k])
    {
      var d, s := demand[k], supply[k];
      var volume := if d < s then d else s;
      assert c[..k+1][..k] == c[..k];
      if volume > maxVolume { maxVolume := volume; }
      evaluations := evaluations + [Evaluation(c[k], d, s, volume)];
    }
    assert c[..|c|] == c;
  }

  method SelectMaximizers(orders: seq<Order>, c: seq<u64>, evaluations: seq<Evaluation>, v: nat) returns (best: seq<u64>)
    requires evaluations == Evaluations(orders, c)
    ensures best == Maximizing(orders, c, v)
  {
    best := [];
    for k := 0 to |evaluations|
      invariant best == Maximizing(orders, c[..k], v)
    {
      assert c[..k+1][..k] == c[..k];
      if evaluations[k].volume == v { best := best + [evaluations[k].price]; }
    }
    assert c[..|c|] == c;
  }

  /** The sweep returns exactly the naive tables, and errs exactly when one
      side's total quantity exceeds 64 bits. */
  method ComputeMaximizers(orders: seq<Order>) returns (r: Result<VolumeMaximizers>)
    ensures r == MaximizersOf(orders)
  {
    var c := CandidatePrices(orders);
    CandidatesList(orders);
    if |c| == 0 {
      AllCandidates(orders, c, Buy);
      AllCandidates(orders, c, Sell);
      ZeroQty(orders, Buy);
      ZeroQty(orders, Sell);
      assert c == [] && Evaluations(orders, c) == [];
      return Ok(VolumeMaximizers(0, [], []));
    }
    var tables := FillBuckets(orders, c);
    if tables.Err? { return Err; }
    var supply := SupplySweep(orders, c, tables.value.1);
    if supply.Err? { return Err; }
    var demand := DemandSweep(orders, c, tables.value.0);
    if demand.Err? { return Err; }
    var evaluations, maxVolume := EvaluateCandidates(orders, c, demand.value, supply.value);
    var best := SelectMaximizers(orders, c, evaluations, maxVolume);
    return Ok(VolumeMaximizers(maxVolume, evaluations, best));
  }

  /** The floor midpoint of the extreme maximisers, without adding them. */
  function ResolveTie(m: VolumeMaximizers): Option<u64>
    requires Increasing(m.prices)
  {
    if m.maxVolume == 0 || m.prices == [] then None
    else
      EndsBoundMembers(m.prices, m.prices[0]);
      var lo: int, hi: int := m.prices[0], m.prices[|m.prices|-1];
      var mid := lo + (hi - lo) / 2;
      if mid == 0 then None else Some(mid)
  }

  ghost function Clear(orders: seq<Order>): Result<ClearingOutcome>
  {
    var m :- MaximizersOf(orders);
    Ok(ClearingOutcome(ResolveTie(m), m.maxVolume))
  }

  method DetermineClearingOutcome(orders: seq<Order>) returns (r: Result<ClearingOutcome>)
    ensures r == Clear(orders)
  {
    var m := ComputeMaximizers(orders);
    if m.Err? { return Err; }
    return Ok(ClearingOutcome(ResolveTie(m.value), m.value.maxVolume));
  }

  // ---- Global optimality ----

  lemma {:induction false} DemandAntitone(orders: seq<Order>, p: u64, q: u64)
    requires p <= q
    ensures Demand(orders, q) <= Demand(orders, p)
  {
    SumLe(orders, BuysFrom(q), BuysFrom(p));
  }

  lemma {:induction false} SupplyMonotone(orders: seq<Order>, p: u64, q: u64)
    requires p <= q
    ensures Supply(orders, p) <= Supply(orders, q)
  {
    SumLe(orders, SellsUpTo(p), SellsUpTo(q));
  }

  /** Any price with volume is matched by an order price at or above it. */
  lemma {:induction false} CandidateAbove(orders: seq<Order>, p: u64) returns (c: u64)
    requires Volume(orders, p) > 0
    ensures c in PriceSet(orders) && p <= c && Volume(orders, p) <= Volume(orders, c)
  {
    var above := set x | x in PriceSet(orders) && x >= p;
    assert forall o :: o in orders && o.price >= p ==> o.price in above;
    if above == {} {
      SumScale(orders, QtyOn(Buy), 0, BuysFrom(p));
      assert false;
    }
    c := Least(above);
    SumSame(orders, BuysFrom(p), BuysFrom(c));
    SupplyMonotone(orders, p, c);
  }

  /** ... and by one at or below it. */
  lemma {:induction false} CandidateBelow(orders: seq<Order>, p: u64) returns (c: u64)
    requires Volume(orders, p) > 0
    ensures c in PriceSet(orders) && c <= p && Volume(orders, p) <= Volume(orders, c)
  {
    var below := set x | x in PriceSet(orders) && x <= p;
    assert forall o :: o in orders && o.price <= p ==> o.price in below;
    if below == {} {
      SumScale(orders, QtyOn(Sell), 0, SellsUpTo(p));
      assert false;
    }
    c := Greatest(below);
    SumSame(orders, SellsUpTo(p), SellsUpTo(c));
    DemandAntitone(orders, c, p);
  }

  /** The published volume is the maximum over every 64-bit price. */
  lemma {:induction false} ClearingIsOptimal(orders: seq<Order>, p: u64)
    requires Clear(orders).Ok?
    ensures Volume(orders, p) <= Clear(orders).value.volume
  {
    if Volume(orders, p) > 0 {
      var c := CandidateAbove(orders, p);
      AscendingKeys(PriceSet(orders));
      assert c in Candidates(orders);
      MaxVolumeIsMaximum(orders, Candidates(orders));
    }
  }

  /** `lo` to `hi` are exactly the prices at which volume `v` executes. */
  ghost predicate MaximizingInterval(orders: seq<Order>, v: nat, lo: u64, hi: u64)
  {
    forall p: u64 :: Volume(orders, p) == v <==> lo <= p <= hi
  }

  /** The set of all maximising prices is exactly the interval spanned by the
      extreme maximising order prices. */
  lemma {:induction false} MaximizersFormInterval(orders: seq<Order>, v: nat, lo: u64, hi: u64)
    requires v > 0
    requires forall x :: x in PriceSet(orders) ==> Volume(orders, x) <= v
    requires forall x :: x in PriceSet(orders) && Volume(orders, x) == v ==> lo <= x <= hi
    requires Volume(orders, lo) == Volume(orders, hi) == v
    ensures MaximizingInterval(orders, v, lo, hi)
  {
    forall p: u64 ensures Volume(orders, p) == v <==> lo <= p <= hi {
      if Volume(orders, p) > 0 {
        var above := CandidateAbove(orders, p);
        var below := CandidateBelow(orders, p);
      }
      if lo <= p <= hi {
        SupplyMonotone(orders, lo, p);
        DemandAntitone(orders, p, hi);
      }
    }
  }

  lemma {:induction false} EndsBoundMembers(s: seq<u64>, x: u64)
    requires Increasing(s) && x in s
    ensures s[0] <= x <= s[|s|-1]
  {
  }

  lemma {:induction false} ExtremesDelimit(orders: seq<Order>, v: nat, best: seq<u64>)
    requires v > 0 && Increasing(best) && best != []
    requires forall x :: x in best <==> x in PriceSet(orders) && Volume(orders, x) == v
    requires forall x :: x in PriceSet(orders) ==> Volume(orders, x) <= v
    ensures best[0] in PriceSet(orders) && best[0] <= best[|best|-1]
    ensures MaximizingInterval(orders, v, best[0], best[|best|-1])
  {
    var lo, hi := best[0], best[|best|-1];
    assert lo in best && hi in best;
    forall x | x in best ensures lo <= x <= hi { EndsBoundMembers(best, x); }
    MaximizersFormInterval(orders, v, lo, hi);
  }

  /** The extreme maximisers of a successful clearing delimit that interval. */
  lemma {:induction false} ExtremeMaximizers(orders: seq<Order>, v: nat, best: seq<u64>)
    requires v > 0 && v == MaxVolume(orders, Candidates(orders))
    requires best == Maximizing(orders, Candidates(orders), v)
    ensures best != [] && best[0] in PriceSet(orders) && best[0] <= best[|best|-1]
    ensures MaximizingInterval(orders, v, best[0], best[|best|-1])
  {
    var c := Candidates(orders);
    AscendingKeys(PriceSet(orders));
    MaximizingIncreases(orders, c, v);
    MaximizingMembers(orders, c, v);
    MaxVolumeIsMaximum(orders, c);
    var q :| q in c && Volume(orders, q) == v;
    assert q in best;
    ExtremesDelimit(orders, v, best);
  }

  lemma {:induction false} Midpoint(lo: nat, hi: nat)
    requires lo <= hi
    ensures lo <= lo + (hi - lo) / 2 == (lo + hi) / 2 <= hi
  {
  }

  lemma {:induction false} TieResolution(m: VolumeMaximizers)
    requires Increasing(m.prices) && m.maxVolume > 0 && m.prices != [] && m.prices[0] > 0
    ensures var lo, hi := m.prices[0], m.prices[|m.prices|-1];
            ResolveTie(m).Some? && lo <= ResolveTie(m).value == (lo + hi) / 2 <= hi
  {
    EndsBoundMembers(m.prices, m.prices[0]);
    Midpoint(m.prices[0], m.prices[|m.prices|-1]);
  }

  ghost predicate MidpointOfMaximizers(orders: seq<Order>, v: nat, price: u64)
  {
    exists lo: u64, hi: u64 :: MaximizingInterval(orders, v, lo, hi) && lo <= price == (lo + hi) / 2 <= hi
  }

  /** A clearing price is published exactly when volume clears; it is the floor
      midpoint of the interval of all maximising prices, and so attains the
      maximum itself even when no order rests there. */
  lemma {:induction false} ClearingPriceAttainsMaximum(orders: seq<Order>, out: ClearingOutcome)
    requires Clear(orders) == Ok(out)
    requires forall o :: o in orders ==> o.price != 0
    ensures out.price.Some? <==> out.volume > 0
    ensures out.price.Some? ==> out.price.value > 0
    ensures out.price.Some? ==> MidpointOfMaximizers(orders, out.volume, out.price.value)
    ensures out.price.Some? ==> Volume(orders, out.price.value) == out.volume
  {
    var m := MaximizersOf(orders).value;
    if m.maxVolume > 0 {
      ExtremeMaximizers(orders, m.maxVolume, m.prices);
      TieResolution(m);
      IntervalMidpoint(orders, m.maxVolume, m.prices[0], m.prices[|m.prices|-1], out.price.value);
    }
  }

  lemma {:induction false} IntervalMidpoint(orders: seq<Order>, v: nat, lo: u64, hi: u64, price: u64)
    requires MaximizingInterval(orders, v, lo, hi) && lo <= price == (lo + hi) / 2 <= hi
    ensures MidpointOfMaximizers(orders, v, price) && Volume(orders, price) == v
  {
  }
}
