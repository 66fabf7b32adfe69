/** When the choice of sorting algorithm can be seen in an allocation: exactly
    when the target ends strictly inside a group of in-the-money orders that tie
    on price and sequence number. */
module AllocationSorting {
  import opened Primitives
  import opened Sums
  import opened Sorting
  import opened Orders
  import opened Auction
  import opened LargestRemainder
  import opened Allocation
  import opened AllocationProperties
  import opened AllocationFairness

  /** A result that some correct sort may produce. */
  ghost predicate CorrectSort(s: seq<Order>, itm: seq<Order>, side: Side)
  {
    multiset(s) == multiset(itm) && SortedBy(Priority(side), s)
  }

  /** The in-the-money fills when the orders are served as in `s`. */
  ghost function ItmMapServing(itm: seq<Order>, s: seq<Order>, v: u64): map<u64, u64>
  {
    if v <= Qty(itm) then FillMap(s, GreedyFills(s, v)) else FillMap(itm, Quantities(itm))
  }

  lemma {:induction false} CanonicalSortIsCorrect(itm: seq<Order>, v: u64, side: Side)
    ensures CorrectSort(SortBy(Priority(side), itm), itm, side)
    ensures ItmMap(itm, v, side) == ItmMapServing(itm, SortBy(Priority(side), itm), v)
  {
    PriorityIsOrder(side);
    SortBySorted(Priority(side), itm);
  }

  // ---- The condition ----

  ghost predicate Tied(side: Side, a: Order, b: Order)
  {
    !Priority(side)(a, b) && !Priority(side)(b, a)
  }

  ghost function AheadOf(side: Side, o: Order): Order -> int
  {
    (p: Order) => if Priority(side)(p, o) then p.qty else 0
  }

  ghost function TiedWith(side: Side, o: Order): Order -> int
  {
    (p: Order) => if Tied(side, p, o) then p.qty else 0
  }

  /** Quantity that every correct sort serves before an order. */
  ghost function Ahead(itm: seq<Order>, side: Side, o: Order): int
  {
    Sum(itm, AheadOf(side, o))
  }

  /** Quantity that ties with an order, its own included. */
  ghost function Level(itm: seq<Order>, side: Side, o: Order): int
  {
    Sum(itm, TiedWith(side, o))
  }

  /** The target runs out strictly inside the tie that the order shares. */
  ghost predicate Straddled(itm: seq<Order>, side: Side, v: u64, o: Order)
  {
    && 0 < o.qty < Level(itm, side, o)
    && Ahead(itm, side, o) < v < Ahead(itm, side, o) + Level(itm, side, o)
  }

  ghost predicate SomeStraddled(itm: seq<Order>, side: Side, v: u64)
  {
    exists o :: o in itm && Straddled(itm, side, v, o)
  }

  /** For positive quantities, sharing a level means having a tied companion. */
  lemma {:induction false} SharedLevel(itm: seq<Order>, side: Side, o: Order)
    requires UniqueIds(itm) && o in itm && forall p :: p in itm ==> p.qty > 0
    ensures o.qty < Level(itm, side, o) <==> exists p :: p in itm && p != o && Tied(side, p, o)
  {
    hide Priority;
    IdsSeparate(itm);
    var i :| 0 <= i < |itm| && itm[i] == o;
    var rest := itm[..i] + itm[i+1..];
    SumRemoveAt(itm, i, TiedWith(side, o));
    TiedWithItself(side, o);
    forall p ensures p in rest <==> p in itm && p != o { RestOf(itm, i, p); }
    if p :| p in itm && p != o && Tied(side, p, o) {
      SumMember(rest, p, TiedWith(side, o));
    } else {
      SumScale(rest, TiedWith(side, o), 0, TiedWith(side, o));
    }
  }

  lemma {:induction false} TiedWithItself(side: Side, o: Order)
    ensures Tied(side, o, o) && TiedWith(side, o)(o) == o.qty && AheadOf(side, o)(o) == 0
  {
  }

  lemma {:induction false} RestOf(s: seq<Order>, i: nat, p: Order)
    requires i < |s| && Distinct(s)
    ensures p in s[..i] + s[i+1..] <==> p in s && p != s[i]
  {
    if p in s && p != s[i] {
      var k :| 0 <= k < |s| && s[k] == p;
      if k < i { assert s[..i][k] == p; } else { assert s[i+1..][k-i-1] == p; }
    }
  }

  // ---- How far a correct sort can move an order ----

  lemma {:induction false} QtySplits(s: seq<Order>, side: Side, o: Order)
    requires forall p :: p in s ==> !Priority(side)(o, p)
    ensures Qty(s) == Sum(s, AheadOf(side, o)) + Sum(s, TiedWith(side, o))
  {
    forall p | p in s ensures QtyOf()(p) == AheadOf(side, o)(p) + TiedWith(side, o)(p) {}
    SumAdd(s, AheadOf(side, o), TiedWith(side, o), QtyOf());
  }

  /** Everything with higher priority, and nothing with lower, is served before
      position `i` of a correct sort. */
  lemma {:induction false} ServedBefore(s: seq<Order>, itm: seq<Order>, side: Side, i: nat)
    requires CorrectSort(s, itm, side) && i < |s|
    ensures Qty(s[..i]) == Ahead(itm, side, s[i]) + Sum(s[..i], TiedWith(side, s[i]))
    ensures Level(itm, side, s[i]) == Sum(s[..i], TiedWith(side, s[i])) + s[i].qty + Sum(s[i+1..], TiedWith(side, s[i]))
  {
    hide Priority, Qty, Sum;
    var o := s[i];
    var f, g := AheadOf(side, o), TiedWith(side, o);
    TiedWithItself(side, o);
    forall p | p in s[..i] ensures !Priority(side)(o, p) {
      var k :| 0 <= k < i && s[k] == p;
    }
    QtySplits(s[..i], side, o);
    forall p | p in s[i+1..] ensures f(p) == 0 {
      var k :| 0 <= k < |s| - i - 1 && s[i+1..][k] == p;
      assert s[i+1+k] == p;
    }
    SumScale(s[i+1..], f, 0, f);
    SplitSum(s, i, f);
    SplitSum(s, i, g);
    SumPermutation(s, itm, f);
    SumPermutation(s, itm, g);
  }

  lemma {:induction false} SplitSum(s: seq<Order>, i: nat, f: Order -> int)
    requires i < |s|
    ensures Sum(s, f) == Sum(s[..i], f) + f(s[i]) + Sum(s[i+1..], f)
  {
    assert s[..i+1] + s[i+1..] == s;
    SumConcat(s[..i+1], s[i+1..], f);
    SumStep(s, i, f);
  }

  /** What an order gets when nothing ties with it. */
  ghost function Due(itm: seq<Order>, side: Side, v: u64, o: Order): int
  {
    Min(o.qty, if v <= Ahead(itm, side, o) then 0 else v - Ahead(itm, side, o))
  }

  /** An order whose tie is not straddled gets its due under every correct sort. */
  lemma {:induction false} UnstraddledGetsItsDue(s: seq<Order>, itm: seq<Order>, side: Side, v: u64, i: nat)
    requires CorrectSort(s, itm, side) && i < |s| && !Straddled(itm, side, v, s[i])
    ensures GreedyFills(s, v)[i] == Due(itm, side, v, s[i])
  {
    hide Sum, Priority, CorrectSort;
    ServedBefore(s, itm, side, i);
    SumNonNegative(s[..i], TiedWith(side, s[i]));
    SumNonNegative(s[i+1..], TiedWith(side, s[i]));
    SumNonNegative(itm, AheadOf(side, s[i]));
  }

  // ---- Fill maps as maps ----

  lemma {:induction false} FillMapHas(s: seq<Order>, fills: seq<u64>, id: u64)
    requires |s| == |fills|
    ensures id in FillMap(s, fills) <==> exists o :: o in s && o.id == id
  {
    if s != [] {
      var n := |s| - 1;
      FillMapHas(s[..n], fills[..n], id);
      assert s == s[..n] + [s[n]];
    }
  }

  /** Two served lists of the same orders record the same fills exactly when
      every order gets the same. */
  lemma {:induction false} SameFillMaps(s: seq<Order>, f: seq<u64>, t: seq<Order>, g: seq<u64>)
    requires |s| == |f| && |t| == |g| && UniqueIds(s) && UniqueIds(t) && multiset(s) == multiset(t)
    requires forall i, j :: 0 <= i < |s| && 0 <= j < |t| && s[i] == t[j] ==> f[i] == g[j]
    ensures FillMap(s, f) == FillMap(t, g)
  {
    hide FillMap;
    var m, n := FillMap(s, f), FillMap(t, g);
    forall o ensures o in s <==> o in t { InMultiset(s, t, o); }
    forall id: u64 ensures id in m <==> id in n {
      FillMapHas(s, f, id);
      FillMapHas(t, g, id);
    }
    forall id | id in m ensures m[id] == n[id] {
      FillMapHas(s, f, id);
      var o :| o in s && o.id == id;
      var i, j := IndexIn(s, s, o), IndexIn(s, t, o);
      FillMapAt(s, f, i);
      FillMapAt(t, g, j);
    }
  }

  lemma {:induction false} UnstraddledSortsAgree(s: seq<Order>, t: seq<Order>, itm: seq<Order>, side: Side, v: u64)
    requires UniqueIds(itm) && CorrectSort(s, itm, side) && CorrectSort(t, itm, side)
    requires !SomeStraddled(itm, side, v)
    ensures ItmMapServing(itm, s, v) == ItmMapServing(itm, t, v)
  {
    hide Straddled, FillMap, Due, Priority, SortedBy, Qty;
    UniqueIdsPermute(itm, s);
    UniqueIdsPermute(itm, t);
    var f, g := GreedyFills(s, v), GreedyFills(t, v);
    forall i, j | 0 <= i < |s| && 0 <= j < |t| && s[i] == t[j] ensures f[i] == g[j] {
      InMultiset(s, itm, s[i]);
      UnstraddledGetsItsDue(s, itm, side, v, i);
      UnstraddledGetsItsDue(t, itm, side, v, j);
    }
    SameFillMaps(s, f, t, g);
  }

  // ---- Serving a tied order first, or last ----

  /** Priority, with ties broken for one order. */
  ghost function Favouring(side: Side, o: Order): (Order, Order) -> bool
  {
    (a: Order, b: Order) => Priority(side)(a, b) || (!Priority(side)(b, a) && a == o && b != o)
  }

  /** Priority, with ties broken against one order. */
  ghost function Deferring(side: Side, o: Order): (Order, Order) -> bool
  {
    (a: Order, b: Order) => Priority(side)(a, b) || (!Priority(side)(b, a) && a != o && b == o)
  }

  lemma {:induction false} FavouringIsOrder(side: Side, o: Order)
    ensures StrictWeakOrder(Favouring(side, o))
  {
    var less, prior := Favouring(side, o), Priority(side);
    PriorityIsOrder(side);
    forall a, b | less(a, b) ensures !less(b, a) { assert prior(a, b) ==> !prior(b, a); }
    forall a, b, c | !less(b, a) && !less(c, b) ensures !less(c, a) { TiesChain(side, a, b, c); }
  }

  lemma {:induction false} DeferringIsOrder(side: Side, o: Order)
    ensures StrictWeakOrder(Deferring(side, o))
  {
    var less, prior := Deferring(side, o), Priority(side);
    PriorityIsOrder(side);
    forall a, b | less(a, b) ensures !less(b, a) { assert prior(a, b) ==> !prior(b, a); }
    forall a, b, c | !less(b, a) && !less(c, b) ensures !less(c, a) { TiesChain(side, a, b, c); }
  }

  lemma {:induction false} TiesChain(side: Side, a: Order, b: Order, c: Order)
    requires !Priority(side)(b, a) && !Priority(side)(c, b)
    ensures !Priority(side)(c, a)
    ensures !Priority(side)(a, c) ==> Tied(side, a, b) && Tied(side, b, c)
  {
  }

  /** A sort that breaks ties is still a correct sort. */
  lemma {:induction false} TieBreakingSortsAreCorrect(itm: seq<Order>, side: Side, o: Order)
    ensures CorrectSort(SortBy(Favouring(side, o), itm), itm, side)
    ensures CorrectSort(SortBy(Deferring(side, o), itm), itm, side)
    ensures SortedBy(Favouring(side, o), SortBy(Favouring(side, o), itm))
    ensures SortedBy(Deferring(side, o), SortBy(Deferring(side, o), itm))
  {
    hide SortBy, StrictWeakOrder, Priority;
    FavouringIsOrder(side, o);
    DeferringIsOrder(side, o);
    SortBySorted(Favouring(side, o), itm);
    SortBySorted(Deferring(side, o), itm);
  }

  lemma {:induction false} FavouredComesFirst(s: seq<Order>, itm: seq<Order>, side: Side, i: nat)
    requires UniqueIds(itm) && CorrectSort(s, itm, side) && i < |s| && SortedBy(Favouring(side, s[i]), s)
    ensures Qty(s[..i]) == Ahead(itm, side, s[i])
  {
    hide Priority, Qty, Sum;
    ServedBefore(s, itm, side, i);
    UniqueIdsPermute(itm, s);
    var g := TiedWith(side, s[i]);
    forall p | p in s[..i] ensures g(p) == 0 {
      var k :| 0 <= k < i && s[k] == p;
      assert !Favouring(side, s[i])(s[i], s[k]);
    }
    SumScale(s[..i], g, 0, g);
  }

  lemma {:induction false} DeferredComesLast(s: seq<Order>, itm: seq<Order>, side: Side, i: nat)
    requires UniqueIds(itm) && CorrectSort(s, itm, side) && i < |s| && SortedBy(Deferring(side, s[i]), s)
    ensures Qty(s[..i]) == Ahead(itm, side, s[i]) + Level(itm, side, s[i]) - s[i].qty
  {
    hide Priority, Qty, Sum;
    ServedBefore(s, itm, side, i);
    UniqueIdsPermute(itm, s);
    var g := TiedWith(side, s[i]);
    forall p | p in s[i+1..] ensures g(p) == 0 {
      var k :| 0 <= k < |s| - i - 1 && s[i+1..][k] == p;
      assert s[i+1+k] == p;
      assert !Deferring(side, s[i])(s[i+1+k], s[i]);
    }
    SumScale(s[i+1..], g, 0, g);
  }

  lemma {:induction false} AheadAndLevelFit(itm: seq<Order>, side: Side, o: Order)
    ensures 0 <= Ahead(itm, side, o) && Ahead(itm, side, o) + Level(itm, side, o) <= Qty(itm)
  {
    var both := (p: Order) => AheadOf(side, o)(p) + TiedWith(side, o)(p);
    SumAdd(itm, AheadOf(side, o), TiedWith(side, o), both);
    SumLe(itm, both, QtyOf());
    SumNonNegative(itm, AheadOf(side, o));
  }

  /** A straddled order gets more when served first of its tie than last. */
  lemma {:induction false} StraddledSortsDiffer(itm: seq<Order>, side: Side, v: u64, o: Order) returns (s: seq<Order>, t: seq<Order>)
    requires UniqueIds(itm) && o in itm && Straddled(itm, side, v, o)
    ensures CorrectSort(s, itm, side) && CorrectSort(t, itm, side)
    ensures Lookup(ItmMapServing(itm, t, v), o.id) < Lookup(ItmMapServing(itm, s, v), o.id)
  {
    hide FillMap, Priority, SortBy, SortedBy, Lookup, Sum, Ahead, Level, Qty, UniqueIds;
    s, t := SortBy(Favouring(side, o), itm), SortBy(Deferring(side, o), itm);
    TieBreakingSortsAreCorrect(itm, side, o);
    UniqueIdsPermute(itm, s);
    UniqueIdsPermute(itm, t);
    var i, j := IndexIn(itm, s, o), IndexIn(itm, t, o);
    FavouredComesFirst(s, itm, side, i);
    DeferredComesLast(t, itm, side, j);
    AheadAndLevelFit(itm, side, o);
    FillMapAt(s, GreedyFills(s, v), i);
    FillMapAt(t, GreedyFills(t, v), j);
  }

  // ---- Exactly when the sort shows ----

  ghost predicate SortShows(itm: seq<Order>, side: Side, v: u64)
  {
    exists s: seq<Order>, t: seq<Order> ::
      CorrectSort(s, itm, side) && CorrectSort(t, itm, side) && ItmMapServing(itm, s, v) != ItmMapServing(itm, t, v)
  }

  /** For every target, two correct sorts of the in-the-money orders give
      different fills if and only if the target ends strictly inside the tie of
      some order. */
  lemma {:induction false} ItmSortShowsExactly(itm: seq<Order>, side: Side, v: u64)
    requires UniqueIds(itm)
    ensures SortShows(itm, side, v) <==> SomeStraddled(itm, side, v)
  {
    hide ItmMapServing, CorrectSort, Straddled;
    if SomeStraddled(itm, side, v) {
      var o :| o in itm && Straddled(itm, side, v, o);
      var s, t := StraddledSortsDiffer(itm, side, v, o);
    } else if SortShows(itm, side, v) {
      var s, t :| CorrectSort(s, itm, side) && CorrectSort(t, itm, side) && ItmMapServing(itm, s, v) != ItmMapServing(itm, t, v);
      UnstraddledSortsAgree(s, t, itm, side, v);
    }
  }

  /** In particular distinct sequence numbers hide the sort, whatever the target. */
  lemma {:induction false} DistinctTimesHideTheSort(itm: seq<Order>, side: Side, v: u64)
    requires UniqueIds(itm) && DistinctTimes(itm)
    ensures !SortShows(itm, side, v)
  {
    hide ItmMapServing;
    if SortShows(itm, side, v) {
      var s, t :| CorrectSort(s, itm, side) && CorrectSort(t, itm, side) && ItmMapServing(itm, s, v) != ItmMapServing(itm, t, v);
      ItmSortUnobservable(itm, side, s);
      ItmSortUnobservable(itm, side, t);
    }
  }

  // ---- The published allocation ----

  /** One side's fills when its in-the-money orders are served as in `s`. */
  ghost function FillsServing(orders: seq<Order>, cp: u64, v: u64, side: Side, s: seq<Order>): SideFills
    requires Qty(Select(orders, side, InTheMoney, cp)) <= MAX64 && Qty(Select(orders, side, AtTheMoney, cp)) <= MAX64
  {
    var itm, atm := Select(orders, side, InTheMoney, cp), Select(orders, side, AtTheMoney, cp);
    SideFills(ItmMapServing(itm, s, v), AtmMap(atm, SaturatingSubQty(v, Qty(itm))))
  }

  /** Orders in which the two in-the-money classes are served. */
  datatype Served = Served(buys: seq<Order>, sells: seq<Order>)

  ghost predicate CorrectlyServed(orders: seq<Order>, cp: u64, a: Served)
  {
    && CorrectSort(a.buys, Select(orders, Buy, InTheMoney, cp), Buy)
    && CorrectSort(a.sells, Select(orders, Sell, InTheMoney, cp), Sell)
  }

  ghost predicate ClassesFit(orders: seq<Order>, cp: u64)
  {
    forall side: Side ::
      Qty(Select(orders, side, InTheMoney, cp)) <= MAX64 && Qty(Select(orders, side, AtTheMoney, cp)) <= MAX64
  }

  ghost function EntriesServing(orders: seq<Order>, cp: u64, v: u64, a: Served): seq<OrderAllocation>
    requires ClassesFit(orders, cp)
  {
    Positional(orders, cp, FillsServing(orders, cp, v, Buy, a.buys), FillsServing(orders, cp, v, Sell, a.sells))
  }

  ghost predicate AllocationShowsSort(orders: seq<Order>, cp: u64, v: u64)
    requires ClassesFit(orders, cp)
  {
    exists a: Served, b: Served ::
      CorrectlyServed(orders, cp, a) && CorrectlyServed(orders, cp, b) && EntriesServing(orders, cp, v, a) != EntriesServing(orders, cp, v, b)
  }

  ghost predicate SideStraddled(orders: seq<Order>, cp: u64, side: Side, v: u64)
  {
    SomeStraddled(Select(orders, side, InTheMoney, cp), side, v)
  }

  lemma {:induction false} ClearedClassesFit(orders: seq<Order>, cp: u64)
    requires Demand(orders, cp) <= MAX64 && Supply(orders, cp) <= MAX64
    ensures ClassesFit(orders, cp)
  {
    hide Select, Qty;
    forall side: Side
      ensures Qty(Select(orders, side, InTheMoney, cp)) <= MAX64 && Qty(Select(orders, side, AtTheMoney, cp)) <= MAX64
    {
      EligibleSplits(orders, side, cp);
    }
  }

  /** The allocation is the one served by the sort in use. */
  lemma {:induction false} AllocationServesTheSort(orders: seq<Order>, cp: u64, v: u64)
    requires UniqueIds(orders) && v > 0
    requires v <= Demand(orders, cp) <= MAX64 && v <= Supply(orders, cp) <= MAX64
    ensures ClassesFit(orders, cp) && Allocate(orders, Some(cp), v).Ok?
    ensures exists a: Served :: CorrectlyServed(orders, cp, a)
              && Allocate(orders, Some(cp), v).value.allocations == EntriesServing(orders, cp, v, a)
  {
    hide Allocate, Select, SortBy, CorrectSort, ItmMap, ItmMapServing, AtmMap, Demand, Supply, SideExact, Qty, Positional;
    ClearedClassesFit(orders, cp);
    SideIsExact(orders, cp, v, Buy);
    SideIsExact(orders, cp, v, Sell);
    var buys, sells := Select(orders, Buy, InTheMoney, cp), Select(orders, Sell, InTheMoney, cp);
    CanonicalSortIsCorrect(buys, v, Buy);
    CanonicalSortIsCorrect(sells, v, Sell);
    var fb, fs := FillsFor(orders, cp, v, Buy).value, FillsFor(orders, cp, v, Sell).value;
    AllocateIsPositional(orders, cp, v, fb, fs);
    var a := Served(SortBy(Priority(Buy), buys), SortBy(Priority(Sell), sells));
    assert CorrectlyServed(orders, cp, a);
  }

  lemma {:induction false} UnstraddledEntriesAgree(orders: seq<Order>, cp: u64, v: u64, a: Served, b: Served)
    requires UniqueIds(orders) && ClassesFit(orders, cp) && CorrectlyServed(orders, cp, a) && CorrectlyServed(orders, cp, b)
    requires !SideStraddled(orders, cp, Buy, v) && !SideStraddled(orders, cp, Sell, v)
    ensures EntriesServing(orders, cp, v, a) == EntriesServing(orders, cp, v, b)
  {
    hide Select, CorrectSort, ItmMapServing, AtmMap, SomeStraddled, Positional, UniqueIds;
    SelectUnique(orders, Buy, InTheMoney, cp);
    SelectUnique(orders, Sell, InTheMoney, cp);
    UnstraddledSortsAgree(a.buys, b.buys, Select(orders, Buy, InTheMoney, cp), Buy, v);
    UnstraddledSortsAgree(a.sells, b.sells, Select(orders, Sell, InTheMoney, cp), Sell, v);
  }

  lemma {:induction false} StraddledEntriesDiffer(orders: seq<Order>, cp: u64, v: u64, side: Side)
    requires UniqueIds(orders) && ClassesFit(orders, cp) && SideStraddled(orders, cp, side, v)
    ensures AllocationShowsSort(orders, cp, v)
  {
    hide Select, CorrectSort, ItmMapServing, AtmMap, Straddled, UniqueIds, SortBy, Lookup;
    var itm, other := Select(orders, side, InTheMoney, cp), if side.Buy? then Sell else Buy;
    SelectUnique(orders, side, InTheMoney, cp);
    SelectMembers(orders, side, InTheMoney, cp);
    var o :| o in itm && Straddled(itm, side, v, o);
    var s, t := StraddledSortsDiffer(itm, side, v, o);
    CanonicalSortIsCorrect(Select(orders, other, InTheMoney, cp), v, other);
    var rest := SortBy(Priority(other), Select(orders, other, InTheMoney, cp));
    var a, b := if side.Buy? then Served(s, rest) else Served(rest, s), if side.Buy? then Served(t, rest) else Served(rest, t);
    var i :| 0 <= i < |orders| && orders[i] == o;
    assert EntriesServing(orders, cp, v, a)[i].allocatedQty != EntriesServing(orders, cp, v, b)[i].allocatedQty;
  }

  /** The published allocation of a cleared volume depends on which correct sort
      served the in-the-money orders if and only if, on some side, the volume
      ends strictly inside a tie. */
  lemma {:induction false} AllocationShowsSortExactly(orders: seq<Order>, cp: u64, v: u64)
    requires UniqueIds(orders) && Demand(orders, cp) <= MAX64 && Supply(orders, cp) <= MAX64
    ensures ClassesFit(orders, cp)
    ensures AllocationShowsSort(orders, cp, v) <==> SideStraddled(orders, cp, Buy, v) || SideStraddled(orders, cp, Sell, v)
  {
    ClearedClassesFit(orders, cp);
    hide EntriesServing, CorrectlyServed, SideStraddled;
    if SideStraddled(orders, cp, Buy, v) {
      StraddledEntriesDiffer(orders, cp, v, Buy);
    } else if SideStraddled(orders, cp, Sell, v) {
      StraddledEntriesDiffer(orders, cp, v, Sell);
    } else if AllocationShowsSort(orders, cp, v) {
      var a, b :| CorrectlyServed(orders, cp, a) && CorrectlyServed(orders, cp, b) && EntriesServing(orders, cp, v, a) != EntriesServing(orders, cp, v, b);
      UnstraddledEntriesAgree(orders, cp, v, a, b);
    }
  }

  // ---- A batch whose allocation shows the sort ----

  /** Two buyers tied on price and sequence number, half of them served. */
  function TiedBatch(): Batch
  {
    Batch(1, 1, [Order(1, 1, 1, Buy, 10, 5, 0), Order(2, 2, 1, Buy, 10, 5, 0), Order(3, 3, 1, Sell, 1, 5, 1)])
  }

  lemma {:induction false} TiedBatchCurves(x: u64)
    ensures Demand(TiedBatch().orders, x) == (if x <= 10 then 10 else 0)
    ensures Supply(TiedBatch().orders, x) == (if 1 <= x then 5 else 0)
    ensures Total(TiedBatch().orders, Buy) == 10 && Total(TiedBatch().orders, Sell) == 5
  {
    hide Sum;
    var orders := TiedBatch().orders;
    SumOfThree(orders, BuysFrom(x));
    SumOfThree(orders, SellsUpTo(x));
    SumOfThree(orders, QtyOn(Buy));
    SumOfThree(orders, QtyOn(Sell));
  }

  lemma {:induction false} TiedBatchIsValid()
    ensures Valid(TiedBatch())
  {
  }

  lemma {:induction false} TiedBatchVolume(x: u64)
    ensures Volume(TiedBatch().orders, x) == if 1 <= x <= 10 then 5 else 0
  {
    hide Demand, Supply, TiedBatch;
    TiedBatchCurves(x);
  }

  lemma {:induction false} IntervalAt(orders: seq<Order>, v: nat, lo: u64, hi: u64, p: u64)
    requires MaximizingInterval(orders, v, lo, hi)
    ensures Volume(orders, p) == v <==> lo <= p <= hi
  {
  }

  lemma {:induction false} TiedBatchInterval(lo: u64, hi: u64)
    requires MaximizingInterval(TiedBatch().orders, 5, lo, hi)
    ensures lo == 1 && hi == 10
  {
    hide Volume, TiedBatch, MaximizingInterval;
    var orders := TiedBatch().orders;
    TiedBatchVolume(0);
    TiedBatchVolume(1);
    TiedBatchVolume(10);
    TiedBatchVolume(11);
    IntervalAt(orders, 5, lo, hi, 0);
    IntervalAt(orders, 5, lo, hi, 1);
    IntervalAt(orders, 5, lo, hi, 10);
    IntervalAt(orders, 5, lo, hi, 11);
  }

  lemma {:induction false} TiedBatchFits()
    ensures Clear(TiedBatch().orders).Ok?
  {
    TiedBatchCurves(0);
    hide TiedBatch, Total, PriceSet;
  }

  lemma {:induction false} PositivePrices(b: Batch)
    requires Valid(b)
    ensures forall o :: o in b.orders ==> o.price != 0
  {
    hide SortedBy, UniqueIds;
    forall o | o in b.orders ensures o.price != 0 { assert Acceptable(b.instrument, o); }
  }

  lemma {:induction false} TiedBatchClears()
    ensures Clear(TiedBatch().orders) == Ok(ClearingOutcome(Some(5), 5))
  {
    hide Clear, Volume, TiedBatch, Valid, MaximizingInterval;
    var orders := TiedBatch().orders;
    TiedBatchFits();
    TiedBatchIsValid();
    PositivePrices(TiedBatch());
    var out := Clear(orders).value;
    TiedBatchVolume(5);
    ClearingIsOptimal(orders, 5);
    ClearingPriceAttainsMaximum(orders, out);
    TiedBatchVolume(out.price.value);
    var lo: u64, hi: u64 :| MaximizingInterval(orders, out.volume, lo, hi) && lo <= out.price.value == (lo + hi) / 2 <= hi;
    TiedBatchInterval(lo, hi);
  }

  lemma {:induction false} TiedBatchIsStraddled()
    ensures SideStraddled(TiedBatch().orders, 5, Buy, 5)
  {
    var orders := TiedBatch().orders;
    var itm := Select(orders, Buy, InTheMoney, 5);
    SelectStep(orders, 0, Buy, InTheMoney, 5);
    SelectStep(orders, 1, Buy, InTheMoney, 5);
    SelectStep(orders, 2, Buy, InTheMoney, 5);
    assert orders[..3] == orders && Select(orders[..0], Buy, InTheMoney, 5) == [];
    assert itm == [orders[0], orders[1]];
    hide Sum;
    SumOfTwo(itm, AheadOf(Buy, itm[0]));
    SumOfTwo(itm, TiedWith(Buy, itm[0]));
    assert Straddled(itm, Buy, 5, itm[0]);
  }

  /** A validated batch that clears, and whose published allocation depends on
      which correct sort is used. */
  lemma {:induction false} ItmSortTieIsObservable()
    ensures Valid(TiedBatch()) && Clear(TiedBatch().orders) == Ok(ClearingOutcome(Some(5), 5))
    ensures ClassesFit(TiedBatch().orders, 5) && AllocationShowsSort(TiedBatch().orders, 5, 5)
  {
    hide Clear, Demand, Supply, ClassesFit, AllocationShowsSort, SideStraddled, TiedBatch;
    TiedBatchIsValid();
    TiedBatchClears();
    TiedBatchCurves(5);
    TiedBatchIsStraddled();
    AllocationShowsSortExactly(TiedBatch().orders, 5, 5);
  }
}
