/** Hare-Niemeyer apportionment of a target among orders at one price: each
    order gets the floor of its proportional share, and the lots lost to
    rounding go, one each, to the largest remainders. */
module LargestRemainder {
  import opened Primitives
  import opened Sums
  import opened Sorting
  import opened Orders

  ghost function QtyOf(): Order -> int { (o: Order) => o.qty }

  ghost function Qty(s: seq<Order>): nat
  {
    SumNonNegative(s, QtyOf());
    Sum(s, QtyOf())
  }

  ghost function Amount(): u64 -> int { (x: u64) => x }

  datatype Quota = Quota(order: Order, baseFill: u64, remainder: u64)

  predicate QuotaLess(a: Quota, b: Quota)
  {
    if a.remainder != b.remainder then a.remainder > b.remainder
    else if a.order.seqNo != b.order.seqNo then a.order.seqNo < b.order.seqNo
    else a.order.id < b.order.id
  }

  lemma {:induction false} QuotaLessIsOrder()
    ensures StrictWeakOrder(QuotaLess)
  {
  }

  lemma {:induction false} StrictlyBelow(q: nat, v: nat, total: nat)
    requires q > 0 && v < total
    ensures q * v < q * total
  {
  }

  lemma {:induction false} Divided(p: nat, total: nat)
    requires total > 0
    ensures p == (p / total) * total + p % total
    ensures 0 <= p / total && 0 <= p % total < total
  {
  }

  /** The share of one order needs 128 bits; its floor and remainder need 64, and
      the floor never reaches a positive order quantity. */
  lemma {:induction false} QuotaArithmetic(q: u64, v: u64, total: u64)
    requires v < total
    ensures 0 <= q * v <= MAX128
    ensures q * v == (q * v / total) * total + q * v % total
    ensures 0 <= q * v / total <= q
    ensures 0 <= q * v % total < total
    ensures q > 0 ==> q * v / total < q
  {
    MulLe(q, v, MAX64, MAX64);
    assert q * v >= 0;
    Divided(q * v, total);
    if q > 0 { StrictlyBelow(q, v, total); }
    var b := q * v / total;
    if b >= q { MulLe(q, total, b, total); }
  }

  /** Proportional share of one order, in floor and remainder. */
  function QuotaOf(o: Order, v: u64, total: u64): Quota
    requires v < total
  {
    QuotaArithmetic(o.qty, v, total);
    var num: u128 := o.qty * v;
    Quota(o, num / total, num % total)
  }

  ghost function Quotas(atm: seq<Order>, v: u64, total: u64): seq<Quota>
    requires v < total
  {
    seq(|atm|, i requires 0 <= i < |atm| => QuotaOf(atm[i], v, total))
  }

  ghost function BaseOf(): Quota -> int { (q: Quota) => q.baseFill }
  ghost function RemainderOf(): Quota -> int { (q: Quota) => q.remainder }
  ghost function QuotaQty(): Quota -> int { (q: Quota) => q.order.qty }

  ghost function OrdersOf(s: seq<Quota>): seq<Order>
  {
    seq(|s|, i requires 0 <= i < |s| => s[i].order)
  }

  /** Extra lots go to the front of the remainder ranking. */
  function AwardAt(q: Quota, rank: nat, surplus: nat): u64
  {
    Min(q.baseFill + (if rank < surplus then 1 else 0), q.order.qty)
  }

  ghost function Awards(s: seq<Quota>, surplus: nat): seq<u64>
  {
    seq(|s|, i requires 0 <= i < |s| => AwardAt(s[i], i, surplus))
  }

  ghost function Ranked(atm: seq<Order>, v: u64, total: u64): seq<Quota>
    requires v < total
  {
    SortBy(QuotaLess, Quotas(atm, v, total))
  }

  ghost function Surplus(atm: seq<Order>, v: u64, total: u64): int
    requires v < total
  {
    v - Sum(Quotas(atm, v, total), BaseOf())
  }

  ghost predicate AreQuotas(s: seq<Quota>, v: u64, total: u64)
    requires v < total
  {
    forall q :: q in s ==> q == QuotaOf(q.order, v, total)
  }

  // ---- The remainders make up the surplus ----

  lemma {:induction false} QuotaQtyTotal(atm: seq<Order>, v: u64, total: u64)
    requires v < total
    ensures Sum(Quotas(atm, v, total), QuotaQty()) == Qty(atm)
  {
    if atm != [] {
      var n := |atm| - 1;
      QuotaQtyTotal(atm[..n], v, total);
      assert Quotas(atm, v, total)[..n] == Quotas(atm[..n], v, total);
    }
  }

  ghost function Scaled(f: Quota -> int, k: int): Quota -> int { (q: Quota) => k * f(q) }

  lemma {:induction false} QuotaSplits(q: Quota, v: u64, total: u64)
    requires v < total && q == QuotaOf(q.order, v, total)
    ensures v * q.order.qty == total * q.baseFill + q.remainder
  {
    QuotaArithmetic(q.order.qty, v, total);
  }

  lemma {:induction false} RemaindersMakeSurplus(s: seq<Quota>, v: u64, total: u64)
    requires v < total && AreQuotas(s, v, total) && Sum(s, QuotaQty()) == total
    ensures Sum(s, RemainderOf()) == (v - Sum(s, BaseOf())) * total
  {
    var nums, bases := Scaled(QuotaQty(), v), Scaled(BaseOf(), total);
    forall q | q in s ensures nums(q) == bases(q) + RemainderOf()(q) {
      QuotaSplits(q, v, total);
    }
    SumScale(s, QuotaQty(), v, nums);
    SumScale(s, BaseOf(), total, bases);
    SumAdd(s, bases, RemainderOf(), nums);
    Collect(v, Sum(s, BaseOf()), total, Sum(s, RemainderOf()));
  }

  lemma {:induction false} Collect(v: int, b: int, total: int, r: int)
    requires v * total == total * b + r
    ensures r == (v - b) * total
  {
  }

  lemma {:induction false} RemaindersBelow(s: seq<Quota>, i: nat, total: u64)
    requires i <= |s| && forall q :: q in s ==> q.remainder < total
    ensures Sum(s[..i], RemainderOf()) <= i * (total - 1)
  {
    if i > 0 {
      RemaindersBelow(s, i - 1, total);
      SumStep(s, i - 1, RemainderOf());
    }
  }

  lemma {:induction false} ZeroTail(s: seq<Quota>, i: nat)
    requires i < |s| && SortedBy(QuotaLess, s) && s[i].remainder == 0
    ensures Sum(s, RemainderOf()) == Sum(s[..i], RemainderOf())
  {
    forall q | q in s[i..] ensures q.remainder == 0 {
      var j :| i <= j < |s| && s[j] == q;
      assert i < j ==> !QuotaLess(s[j], s[i]);
    }
    SumScale(s[i..], RemainderOf(), 0, RemainderOf());
    SumConcat(s[..i], s[i..], RemainderOf());
    assert s[..i] + s[i..] == s;
  }

  lemma {:induction false} SurplusBound(x: int, k: nat, surplus: int, total: int)
    requires total > 0 && 0 <= x <= k * (total - 1) && x == surplus * total
    ensures 0 <= surplus <= k
    ensures surplus > 0 ==> surplus < k
  {
    if surplus >= k { MulLe(k, total - 1, surplus, total - 1); }
  }

  /** A surplus of k lots needs k orders with a non-zero remainder. */
  lemma {:induction false} SurplusNeedsRemainders(s: seq<Quota>, surplus: int, total: u64)
    requires SortedBy(QuotaLess, s) && total > 0
    requires forall q :: q in s ==> q.remainder < total
    requires Sum(s, RemainderOf()) == surplus * total
    ensures 0 <= surplus <= |s|
    ensures forall i :: 0 <= i < surplus ==> s[i].remainder > 0
  {
    SumNonNegative(s, RemainderOf());
    RemaindersBelow(s, |s|, total);
    SumAll(s, RemainderOf());
    SurplusBound(Sum(s, RemainderOf()), |s|, surplus, total);
    forall i | 0 <= i < surplus ensures s[i].remainder > 0 {
      if s[i].remainder == 0 {
        ZeroTail(s, i);
        RemaindersBelow(s, i, total);
        SurplusBound(Sum(s, RemainderOf()), i, surplus, total);
      }
    }
  }

  // ---- Exactness ----

  lemma {:induction false} AwardUnclipped(q: Quota, rank: nat, surplus: nat, v: u64, total: u64)
    requires v < total && q == QuotaOf(q.order, v, total)
    requires rank < surplus ==> q.remainder > 0
    ensures AwardAt(q, rank, surplus) == q.baseFill + (if rank < surplus then 1 else 0)
  {
    QuotaArithmetic(q.order.qty, v, total);
  }

  lemma {:induction false} AwardsTotal(s: seq<Quota>, surplus: nat, k: nat)
    requires k <= |s|
    requires forall i :: 0 <= i < |s| ==> AwardAt(s[i], i, surplus) == s[i].baseFill + (if i < surplus then 1 else 0)
    ensures Sum(Awards(s, surplus)[..k], Amount()) == Sum(s[..k], BaseOf()) + Min(k, surplus)
  {
    if k > 0 {
      AwardsTotal(s, surplus, k - 1);
      SumStep(s, k - 1, BaseOf());
      SumStep(Awards(s, surplus), k - 1, Amount());
    }
  }

  ghost function Counting(o: Order): Quota -> int { (q: Quota) => if q.order == o then 1 else 0 }

  lemma {:induction false} MultiplicityIsSum(s: seq<Quota>, o: Order)
    ensures multiset(OrdersOf(s))[o] == Sum(s, Counting(o))
  {
    if s != [] {
      var n := |s| - 1;
      MultiplicityIsSum(s[..n], o);
      assert OrdersOf(s) == OrdersOf(s[..n]) + [s[n].order];
    }
  }

  lemma {:induction false} OrdersPermute(a: seq<Quota>, b: seq<Quota>)
    requires multiset(a) == multiset(b)
    ensures multiset(OrdersOf(a)) == multiset(OrdersOf(b))
  {
    forall o ensures multiset(OrdersOf(a))[o] == multiset(OrdersOf(b))[o] {
      MultiplicityIsSum(a, o);
      MultiplicityIsSum(b, o);
      SumPermutation(a, b, Counting(o));
    }
  }

  lemma {:induction false} RankedQuotas(atm: seq<Order>, v: u64, total: u64)
    requires v < total
    ensures AreQuotas(Ranked(atm, v, total), v, total)
    ensures multiset(OrdersOf(Ranked(atm, v, total))) == multiset(atm)
    ensures SortedBy(QuotaLess, Ranked(atm, v, total))
  {
    var s, qs := Ranked(atm, v, total), Quotas(atm, v, total);
    forall q | q in s ensures q == QuotaOf(q.order, v, total) { InMultiset(s, qs, q); }
    OrdersPermute(s, qs);
    assert OrdersOf(qs) == atm;
    QuotaLessIsOrder();
    SortBySorted(QuotaLess, qs);
  }

  /** Largest remainder is exact: the awards sum to the target, each is the
      floor or the ceiling of its share, extra lots go only to non-zero
      remainders, and the cap at the order quantity never binds. */
  lemma {:induction false} LargestRemainderExact(atm: seq<Order>, v: u64)
    requires v < Qty(atm) <= MAX64
    ensures 0 <= Surplus(atm, v, Qty(atm)) <= |atm|
    ensures Sum(Awards(Ranked(atm, v, Qty(atm)), Surplus(atm, v, Qty(atm))), Amount()) == v
    ensures var s := Ranked(atm, v, Qty(atm));
            var surplus := Surplus(atm, v, Qty(atm));
            forall i :: 0 <= i < |s| ==>
              && AwardAt(s[i], i, surplus) == s[i].baseFill + (if i < surplus then 1 else 0) <= s[i].order.qty
              && (i < surplus ==> s[i].remainder > 0)
  {
    var total: u64 := Qty(atm);
    var s, qs := Ranked(atm, v, total), Quotas(atm, v, total);
    var surplus := Surplus(atm, v, total);
    RankedQuotas(atm, v, total);
    QuotaQtyTotal(atm, v, total);
    SumPermutation(s, qs, QuotaQty());
    SumPermutation(s, qs, BaseOf());
    RemaindersMakeSurplus(s, v, total);
    forall q | q in s ensures q.remainder < total { QuotaArithmetic(q.order.qty, v, total); }
    SurplusNeedsRemainders(s, surplus, total);
    forall i | 0 <= i < |s|
      ensures AwardAt(s[i], i, surplus) == s[i].baseFill + (if i < surplus then 1 else 0)
    {
      assert s[i] in s;
      AwardUnclipped(s[i], i, surplus, v, total);
    }
    AwardsTotal(s, surplus, |s|);
    SumAll(s, BaseOf());
    SumAll(Awards(s, surplus), Amount());
  }

  lemma {:induction false} ShareMonotone(p: u64, q: u64, v: u64, total: u64)
    requires 0 < v < total && q < p
    ensures q * v / total <= p * v / total
    ensures q * v / total == p * v / total ==> q * v % total < p * v % total
  {
    QuotaArithmetic(p, v, total);
    QuotaArithmetic(q, v, total);
    MulLe(q + 1, v, p, v);
    if p * v / total < q * v / total {
      MulLe(p * v / total + 1, total, q * v / total, total);
    }
  }

  /** Among orders at one price a larger order never gets less than a smaller
      one, and equal orders differ by at most one lot. */
  lemma {:induction false} LargerNeverGetsLess(s: seq<Quota>, surplus: nat, v: u64, total: u64, i: nat, j: nat)
    requires 0 < v < total && AreQuotas(s, v, total) && SortedBy(QuotaLess, s)
    requires i < |s| && j < |s| && s[i].order.qty >= s[j].order.qty
    requires forall k :: 0 <= k < |s| ==> AwardAt(s[k], k, surplus) == s[k].baseFill + (if k < surplus then 1 else 0)
    ensures AwardAt(s[j], j, surplus) <= AwardAt(s[i], i, surplus) + (if s[i].order.qty == s[j].order.qty then 1 else 0)
  {
    assert s[i] in s && s[j] in s;
    if s[i].order.qty > s[j].order.qty {
      ShareMonotone(s[i].order.qty, s[j].order.qty, v, total);
      if s[i].baseFill == s[j].baseFill {
        assert QuotaLess(s[i], s[j]);
        assert i <= j;
      }
    }
  }
}
