/** The level-3 order book: resting orders by reference, and the aggregate
    quantity at every price of each side. */
module Book {
  import opened Primitives
  import opened Sums
  import opened Sorting
  import opened Orders

  datatype Resting = Resting(ref: u64, side: Side, price: u64, shares: u64)

  type Book = map<u64, Resting>
  type PriceLevels = map<u64, u64>

  // ---- Depth: what the price levels should say ----

  ghost function WeightAt(b: Book, side: Side, price: u64): u64 -> int
  {
    (ref: u64) => if ref in b && b[ref].side == side && b[ref].price == price then b[ref].shares else 0
  }

  /** Shares resting at one side and price. */
  ghost function Depth(b: Book, side: Side, price: u64): nat
  {
    SumNonNegative(Ascending(b.Keys), WeightAt(b, side, price));
    Sum(Ascending(b.Keys), WeightAt(b, side, price))
  }

  lemma {:induction false} SameElementsPermute(a: seq<u64>, b: seq<u64>)
    requires Distinct(a) && Distinct(b) && forall x :: x in a <==> x in b
    ensures multiset(a) == multiset(b)
  {
    forall x ensures multiset(a)[x] == multiset(b)[x] {
      MultiplicityOne(a, x);
      MultiplicityOne(b, x);
      assert x in a <==> x in multiset(a);
      assert x in b <==> x in multiset(b);
    }
  }

  lemma {:induction false} AscendingDistinct(s: set<u64>)
    ensures Distinct(Ascending(s))
  {
    AscendingKeys(s);
  }

  lemma {:induction false} KeysGrow(s: set<u64>, x: u64)
    requires x !in s
    ensures multiset(Ascending(s + {x})) == multiset(Ascending(s) + [x])
  {
    hide Ascending;
    AscendingKeys(s);
    AscendingKeys(s + {x});
    AscendingDistinct(s);
    AscendingDistinct(s + {x});
    SameElementsPermute(Ascending(s + {x}), Ascending(s) + [x]);
  }

  lemma {:induction false} WeightsKept(b: Book, o: Resting, side: Side, price: u64)
    requires o.ref !in b
    ensures b[o.ref := o].Keys == b.Keys + {o.ref}
    ensures forall x :: x in Ascending(b.Keys) ==> WeightAt(b[o.ref := o], side, price)(x) == WeightAt(b, side, price)(x)
    ensures WeightAt(b[o.ref := o], side, price)(o.ref) == if o.side == side && o.price == price then o.shares else 0
  {
    hide Ascending;
    AscendingKeys(b.Keys);
  }

  lemma {:induction false} DepthIsSum(b: Book, side: Side, price: u64)
    ensures Depth(b, side, price) == Sum(Ascending(b.Keys), WeightAt(b, side, price))
  {
    hide Ascending, Sum;
  }

  /** A new order deepens its own level only. */
  lemma {:induction false} DepthAdded(b: Book, o: Resting, side: Side, price: u64)
    requires o.ref !in b
    ensures Depth(b[o.ref := o], side, price) == Depth(b, side, price) + (if o.side == side && o.price == price then o.shares else 0)
  {
    hide *;
    var c := b[o.ref := o];
    var keys := Ascending(b.Keys);
    WeightsKept(b, o, side, price);
    KeysGrow(b.Keys, o.ref);
    SumPermutation(Ascending(c.Keys), keys + [o.ref], WeightAt(c, side, price));
    SumAppend(keys, o.ref, WeightAt(c, side, price));
    SumSame(keys, WeightAt(c, side, price), WeightAt(b, side, price));
    DepthIsSum(b, side, price);
    DepthIsSum(c, side, price);
  }

  /** Taking an order out lightens its own level only. */
  lemma {:induction false} DepthRemoved(b: Book, ref: u64, side: Side, price: u64)
    requires ref in b && b[ref].ref == ref
    ensures Depth(b, side, price)
         == Depth(b - {ref}, side, price) + (if b[ref].side == side && b[ref].price == price then b[ref].shares else 0)
  {
    var c := b - {ref};
    assert c[ref := b[ref]] == b;
    DepthAdded(c, b[ref], side, price);
  }

  lemma {:induction false} DepthReduced(b: Book, ref: u64, shares: u64, side: Side, price: u64)
    requires ref in b && b[ref].ref == ref && shares <= b[ref].shares
    ensures Depth(b[ref := b[ref].(shares := b[ref].shares - shares)], side, price)
         == Depth(b, side, price) - (if b[ref].side == side && b[ref].price == price then shares else 0)
  {
    var o := b[ref].(shares := b[ref].shares - shares);
    assert b[ref := o] == (b - {ref})[ref := o];
    DepthRemoved(b, ref, side, price);
    DepthAdded(b - {ref}, o, side, price);
  }

  ghost predicate WellFormed(b: Book)
  {
    forall ref :: ref in b ==> b[ref].ref == ref && b[ref].price > 0 && b[ref].shares > 0
  }

  ghost predicate RestsAt(b: Book, side: Side, price: u64)
  {
    exists ref :: ref in b && b[ref].side == side && b[ref].price == price
  }

  lemma {:induction false} DepthPositive(b: Book, side: Side, price: u64)
    requires WellFormed(b)
    ensures Depth(b, side, price) > 0 <==> RestsAt(b, side, price)
  {
    var keys := Ascending(b.Keys);
    AscendingKeys(b.Keys);
    if RestsAt(b, side, price) {
      var ref :| ref in b && b[ref].side == side && b[ref].price == price;
      assert ref in keys;
      SumMember(keys, ref, WeightAt(b, side, price));
    } else {
      forall x | x in keys ensures WeightAt(b, side, price)(x) == 0 {}
      SumScale(keys, WeightAt(b, side, price), 0, WeightAt(b, side, price));
    }
  }

  /** The levels of one side are exactly the non-zero depths. */
  ghost predicate LevelsAgree(b: Book, side: Side, levels: PriceLevels)
  {
    forall price: u64 :: LevelAgrees(b, side, levels, price)
  }

  ghost predicate LevelAgrees(b: Book, side: Side, levels: PriceLevels, price: u64)
  {
    if price in levels then levels[price] == Depth(b, side, price) > 0 else Depth(b, side, price) == 0
  }

  // ---- Operations on the resting orders ----

  ghost function Added(b: Book, ref: u64, side: Side, price: u64, shares: u64): Result<Book>
  {
    if price == 0 || shares == 0 || ref in b || Depth(b, side, price) + shares > MAX64 then Err
    else Ok(b[ref := Resting(ref, side, price, shares)])
  }

  function Executed(b: Book, ref: u64, shares: u64): Result<Book>
  {
    if ref !in b || shares == 0 || shares > b[ref].shares then Err
    else if shares == b[ref].shares then Ok(b - {ref})
    else Ok(b[ref := b[ref].(shares := b[ref].shares - shares)])
  }

  function Deleted(b: Book, ref: u64): Result<Book>
  {
    if ref in b then Ok(b - {ref}) else Err
  }

  /** The replacement keeps the side and gives up the old resting shares. */
  ghost function Replaced(b: Book, original: u64, ref: u64, shares: u64, price: u64): Result<Book>
  {
    if original !in b || (ref != original && ref in b) || price == 0 || shares == 0 then Err
    else Added(b - {original}, ref, b[original].side, price, shares)
  }

  /** Parsed messages, in the ITCH 5.0 widths. */
  datatype Message =
    | SystemEvent(at: u64)
    | StockDirectory(at: u64)
    | AddOrder(at: u64, ref: u64, side: Side, shares: u32, price: u32)
    | OrderExecuted(at: u64, ref: u64, shares: u32)
    | OrderExecutedWithPrice(at: u64, ref: u64, shares: u32)
    | OrderCancel(at: u64, ref: u64, shares: u32)
    | OrderDelete(at: u64, ref: u64)
    | OrderReplace(at: u64, original: u64, ref: u64, shares: u32, price: u32)

  ghost function Applied(b: Book, m: Message): Result<Book>
  {
    match m
    case SystemEvent(_) => Ok(b)
    case StockDirectory(_) => Ok(b)
    case AddOrder(_, ref, side, shares, price) => Added(b, ref, side, price, shares)
    case OrderExecuted(_, ref, shares) => Executed(b, ref, shares)
    case OrderExecutedWithPrice(_, ref, shares) => Executed(b, ref, shares)
    case OrderCancel(_, ref, shares) => Executed(b, ref, shares)
    case OrderDelete(_, ref) => Deleted(b, ref)
    case OrderReplace(_, original, ref, shares, price) => Replaced(b, original, ref, shares, price)
  }

  // ---- What each message means ----

  /** What the book demands of a message before it changes anything. */
  ghost predicate Applies(b: Book, m: Message)
  {
    match m
    case SystemEvent(_) => true
    case StockDirectory(_) => true
    case AddOrder(_, _, _, _, _) =>
      m.price > 0 && m.shares > 0 && m.ref !in b && Depth(b, m.side, m.price) + m.shares <= MAX64
    case OrderExecuted(_, _, _) => m.ref in b && 0 < m.shares <= b[m.ref].shares
    case OrderExecutedWithPrice(_, _, _) => m.ref in b && 0 < m.shares <= b[m.ref].shares
    case OrderCancel(_, _, _) => m.ref in b && 0 < m.shares <= b[m.ref].shares
    case OrderDelete(_, _) => m.ref in b
    case OrderReplace(_, _, _, _, _) =>
      && m.original in b && (m.ref == m.original || m.ref !in b) && m.price > 0 && m.shares > 0
      && var o := b[m.original];
         Depth(b, o.side, m.price) - (if o.price == m.price then o.shares else 0) + m.shares <= MAX64
  }

  ghost predicate OthersKept(b: Book, c: Book, touched: set<u64>)
  {
    forall ref: u64 :: ref !in touched ==> (ref in c <==> ref in b) && (ref in b ==> c[ref] == b[ref])
  }

  /** The order rests with these terms. */
  ghost predicate Rests(c: Book, ref: u64, side: Side, price: u64, shares: nat)
  {
    ref in c && c[ref].ref == ref && c[ref].side == side && c[ref].price == price && c[ref].shares == shares
  }

  /** Shares that one level gains. */
  function Gain(side: Side, price: u64, shares: nat, atSide: Side, atPrice: u64): nat
  {
    if side == atSide && price == atPrice then shares else 0
  }

  ghost predicate Lessened(b: Book, c: Book, ref: u64, shares: nat)
    requires ref in b && shares <= b[ref].shares
  {
    var o := b[ref];
    && OthersKept(b, c, {ref})
    && (if shares == o.shares then ref !in c else Rests(c, ref, o.side, o.price, o.shares - shares))
    && forall side: Side, price: u64 :: Depth(c, side, price) == Depth(b, side, price) - Gain(o.side, o.price, shares, side, price)
  }

  /** What rests afterwards, and what every level holds. */
  ghost predicate Effect(b: Book, c: Book, m: Message)
    requires Applies(b, m)
  {
    match m
    case SystemEvent(_) => c == b
    case StockDirectory(_) => c == b
    case AddOrder(_, _, _, _, _) =>
      && OthersKept(b, c, {m.ref}) && Rests(c, m.ref, m.side, m.price, m.shares)
      && forall side: Side, price: u64 :: Depth(c, side, price) == Depth(b, side, price) + Gain(m.side, m.price, m.shares, side, price)
    case OrderExecuted(_, _, _) => Lessened(b, c, m.ref, m.shares)
    case OrderExecutedWithPrice(_, _, _) => Lessened(b, c, m.ref, m.shares)
    case OrderCancel(_, _, _) => Lessened(b, c, m.ref, m.shares)
    case OrderDelete(_, _) => Lessened(b, c, m.ref, b[m.ref].shares)
    case OrderReplace(_, _, _, _, _) =>
      var o := b[m.original];
      && OthersKept(b, c, {m.original, m.ref}) && Rests(c, m.ref, o.side, m.price, m.shares)
      && (m.original != m.ref ==> m.original !in c)
      && forall side: Side, price: u64 ::
           Depth(c, side, price)
           == Depth(b, side, price) - Gain(o.side, o.price, o.shares, side, price) + Gain(o.side, m.price, m.shares, side, price)
  }

  lemma {:induction false} ExecutedLessens(b: Book, ref: u64, shares: u64)
    requires WellFormed(b)
    ensures Executed(b, ref, shares).Ok? <==> ref in b && 0 < shares <= b[ref].shares
    ensures Executed(b, ref, shares).Ok? ==> Lessened(b, Executed(b, ref, shares).value, ref, shares)
  {
    hide Depth;
    if ref in b && 0 < shares <= b[ref].shares {
      var c := Executed(b, ref, shares).value;
      forall side: Side, price: u64
        ensures Depth(c, side, price) == Depth(b, side, price) - Gain(b[ref].side, b[ref].price, shares, side, price)
      {
        DepthRemoved(b, ref, side, price);
        DepthReduced(b, ref, shares, side, price);
      }
    }
  }

  lemma {:induction false} AddedDeepens(b: Book, m: Message)
    requires m.AddOrder? && Applies(b, m)
    ensures Added(b, m.ref, m.side, m.price, m.shares).Ok?
    ensures Effect(b, Added(b, m.ref, m.side, m.price, m.shares).value, m)
  {
    hide Depth;
    var o := Resting(m.ref, m.side, m.price, m.shares);
    forall side: Side, price: u64
      ensures Depth(b[m.ref := o], side, price) == Depth(b, side, price) + Gain(m.side, m.price, m.shares, side, price)
    {
      DepthAdded(b, o, side, price);
    }
  }

  lemma {:induction false} ReplacedMoves(b: Book, m: Message)
    requires WellFormed(b) && m.OrderReplace?
    ensures Replaced(b, m.original, m.ref, m.shares, m.price).Ok? <==> Applies(b, m)
    ensures Applies(b, m) ==> Effect(b, Replaced(b, m.original, m.ref, m.shares, m.price).value, m)
  {
    hide Depth;
    if m.original in b {
      var o := b[m.original];
      DepthRemoved(b, m.original, o.side, m.price);
      if Applies(b, m) {
        var n := Resting(m.ref, o.side, m.price, m.shares);
        var rest := b - {m.original};
        forall side: Side, price: u64
          ensures Depth(rest[m.ref := n], side, price)
               == Depth(b, side, price) - Gain(o.side, o.price, o.shares, side, price) + Gain(o.side, m.price, m.shares, side, price)
        {
          DepthRemoved(b, m.original, side, price);
          DepthAdded(rest, n, side, price);
        }
      }
    }
  }

  /** Every message of the feed: when it applies, and what rests under every
      reference and at every level once it has. */
  lemma {:induction false} MessageMeans(b: Book, m: Message)
    requires WellFormed(b)
    ensures Applied(b, m).Ok? <==> Applies(b, m)
    ensures Applied(b, m).Ok? ==> Effect(b, Applied(b, m).value, m)
  {
    hide Depth, Executed, Replaced, Lessened, WellFormed;
    match m {
      case SystemEvent(_) =>
      case StockDirectory(_) =>
      case AddOrder(_, _, _, _, _) => if Applies(b, m) { AddedDeepens(b, m); }
      case OrderExecuted(_, ref, shares) => ExecutedLessens(b, ref, shares);
      case OrderExecutedWithPrice(_, ref, shares) => ExecutedLessens(b, ref, shares);
      case OrderCancel(_, ref, shares) => ExecutedLessens(b, ref, shares);
      case OrderDelete(_, ref) => if ref in b { DeletedLessens(b, ref); }
      case OrderReplace(_, _, _, _, _) => ReplacedMoves(b, m);
    }
  }

  lemma {:induction false} DeletedLessens(b: Book, ref: u64)
    requires WellFormed(b) && ref in b
    ensures Deleted(b, ref).Ok? && Lessened(b, Deleted(b, ref).value, ref, b[ref].shares)
  {
    hide Depth;
    ExecutedLessens(b, ref, b[ref].shares);
  }

  function LevelOf(levels: PriceLevels, price: u64): u64
  {
    if price in levels then levels[price] else 0
  }

  /** Takes shares off a level, erasing it when nothing is left. */
  function Lightened(levels: PriceLevels, price: u64, shares: u64): PriceLevels
  {
    var left := SaturatingSubQty(LevelOf(levels, price), shares);
    if left == 0 then levels - {price} else levels[price := left]
  }

  // ---- How the levels follow ----

  lemma {:induction false} AddFollows(b: Book, side: Side, levels: PriceLevels, o: Resting)
    requires LevelsAgree(b, side, levels) && o.ref !in b && o.shares > 0
    requires o.side == side ==> LevelOf(levels, o.price) + o.shares <= MAX64
    ensures LevelsAgree(b[o.ref := o], side,
              if o.side == side then levels[o.price := LevelOf(levels, o.price) + o.shares] else levels)
  {
    hide Depth;
    var c := b[o.ref := o];
    var now := if o.side == side then levels[o.price := LevelOf(levels, o.price) + o.shares] else levels;
    forall price: u64 ensures LevelAgrees(c, side, now, price) {
      assert LevelAgrees(b, side, levels, price);
      DepthAdded(b, o, side, price);
    }
  }

  lemma {:induction false} RemoveFollows(b: Book, side: Side, levels: PriceLevels, ref: u64)
    requires LevelsAgree(b, side, levels) && ref in b && b[ref].ref == ref
    ensures b[ref].side == side ==> b[ref].shares <= LevelOf(levels, b[ref].price)
    ensures LevelsAgree(b - {ref}, side,
              if b[ref].side == side then Lightened(levels, b[ref].price, b[ref].shares) else levels)
  {
    hide Depth;
    var o := b[ref];
    var now := if o.side == side then Lightened(levels, o.price, o.shares) else levels;
    assert LevelAgrees(b, side, levels, o.price);
    DepthRemoved(b, ref, side, o.price);
    forall price: u64 ensures LevelAgrees(b - {ref}, side, now, price) {
      assert LevelAgrees(b, side, levels, price);
      DepthRemoved(b, ref, side, price);
    }
  }

  lemma {:induction false} ReduceFollows(b: Book, side: Side, levels: PriceLevels, ref: u64, shares: u64)
    requires LevelsAgree(b, side, levels) && ref in b && b[ref].ref == ref && shares < b[ref].shares
    ensures b[ref].side == side ==> shares < LevelOf(levels, b[ref].price)
    ensures LevelsAgree(b[ref := b[ref].(shares := b[ref].shares - shares)], side,
              if b[ref].side == side then levels[b[ref].price := SaturatingSubQty(LevelOf(levels, b[ref].price), shares)] else levels)
  {
    hide Depth;
    var o := b[ref];
    var c := b[ref := o.(shares := o.shares - shares)];
    var now := if o.side == side then levels[o.price := SaturatingSubQty(LevelOf(levels, o.price), shares)] else levels;
    assert LevelAgrees(b, side, levels, o.price);
    DepthRemoved(b, ref, side, o.price);
    forall price: u64 ensures LevelAgrees(c, side, now, price) {
      assert LevelAgrees(b, side, levels, price);
      DepthReduced(b, ref, shares, side, price);
    }
  }

  lemma {:induction false} LevelCovers(b: Book, side: Side, levels: PriceLevels, ref: u64)
    requires LevelsAgree(b, side, levels) && ref in b && b[ref].ref == ref && b[ref].side == side && b[ref].shares > 0
    ensures b[ref].price in levels && b[ref].shares <= levels[b[ref].price]
  {
    hide Depth;
    assert LevelAgrees(b, side, levels, b[ref].price);
    DepthRemoved(b, ref, side, b[ref].price);
  }

  /** The level a replacement adds to, once the old shares are off. */
  function BaseOf(levels: PriceLevels, o: Resting, price: u64): u64
    requires o.price in levels && o.shares <= levels[o.price]
  {
    if price == o.price then levels[o.price] - o.shares else LevelOf(levels, price)
  }

  lemma {:induction false} ReplacementBase(b: Book, side: Side, levels: PriceLevels, ref: u64, price: u64)
    requires LevelsAgree(b, side, levels) && ref in b && b[ref].ref == ref && b[ref].side == side
    requires b[ref].price in levels && b[ref].shares <= levels[b[ref].price]
    ensures BaseOf(levels, b[ref], price) == Depth(b - {ref}, side, price)
  {
    hide Depth;
    assert LevelAgrees(b, side, levels, price);
    DepthRemoved(b, ref, side, price);
  }

  /** Both sides' levels after one order gives way to another of its side. */
  function Relevelled(levels: PriceLevels, o: Resting, price: u64, shares: u64): PriceLevels
    requires o.price in levels && o.shares <= levels[o.price] && BaseOf(levels, o, price) + shares <= MAX64
  {
    var left := levels[o.price] - o.shares;
    var cleared := if price == o.price then levels else if left == 0 then levels - {o.price} else levels[o.price := left];
    cleared[price := BaseOf(levels, o, price) + shares]
  }

  lemma {:induction false} ReplaceFollows(b: Book, side: Side, levels: PriceLevels, original: u64, n: Resting)
    requires LevelsAgree(b, side, levels) && original in b && b[original].ref == original && b[original].side == n.side
    requires n.ref !in b || n.ref == original
    requires n.shares > 0
    requires n.side == side ==> b[original].price in levels && b[original].shares <= levels[b[original].price]
    requires n.side == side ==> BaseOf(levels, b[original], n.price) + n.shares <= MAX64
    ensures LevelsAgree((b - {original})[n.ref := n], side,
              if n.side == side then Relevelled(levels, b[original], n.price, n.shares) else levels)
  {
    hide Depth, LevelsAgree;
    var rest, o := b - {original}, b[original];
    var lighter := if n.side == side then Lightened(levels, o.price, o.shares) else levels;
    RemoveFollows(b, side, levels, original);
    AddFollows(rest, side, lighter, n);
    if n.side == side {
      assert lighter[n.price := LevelOf(lighter, n.price) + n.shares] == Relevelled(levels, o, n.price, n.shares);
    }
  }

  class OrderBook {
    var lastTimestamp: u64
    var orders: Book
    var bids: PriceLevels
    var asks: PriceLevels

    ghost predicate Valid()
      reads this
    {
      WellFormed(orders) && LevelsAgree(orders, Buy, bids) && LevelsAgree(orders, Sell, asks)
    }

    constructor ()
      ensures Valid() && orders == map[] && lastTimestamp == 0
    {
      lastTimestamp, orders, bids, asks := 0, map[], map[], map[];
      new;
      assert Ascending(orders.Keys) == [];
    }

    function Levels(side: Side): PriceLevels
      reads this
    {
      if side.Buy? then bids else asks
    }

    method SetLevels(side: Side, levels: PriceLevels)
      modifies this`bids, this`asks
      ensures bids == (if side.Buy? then levels else old(bids)) && asks == (if side.Sell? then levels else old(asks))
    {
      if side.Buy? { bids := levels; } else { asks := levels; }
    }

    method Add(ref: u64, side: Side, price: u64, shares: u64) returns (ok: bool)
      requires Valid()
      modifies this`orders, this`bids, this`asks
      ensures Valid()
      ensures ok == Added(old(orders), ref, side, price, shares).Ok?
      ensures ok ==> Added(old(orders), ref, side, price, shares) == Ok(orders)
      ensures !ok ==> unchanged(this)
    {
      hide Depth, WellFormed;
      if price == 0 || shares == 0 || ref in orders { return false; }
      assert LevelAgrees(orders, side, Levels(side), price);
      var total := AddQty(LevelOf(Levels(side), price), shares);
      if total.Err? { return false; }
      var o := Resting(ref, side, price, shares);
      AddFollows(orders, Buy, bids, o);
      AddFollows(orders, Sell, asks, o);
      WellFormedAdd(orders, o);
      orders := orders[ref := o];
      SetLevels(side, Levels(side)[price := total.value]);
      ok := true;
    }

    /** Fills part or all of a resting order; neither subtraction saturates. */
    method Execute(ref: u64, shares: u64) returns (ok: bool)
      requires Valid()
      modifies this`orders, this`bids, this`asks
      ensures Valid()
      ensures ok == Executed(old(orders), ref, shares).Ok?
      ensures ok ==> Executed(old(orders), ref, shares) == Ok(orders)
      ensures !ok ==> unchanged(this)
    {
      hide Depth, LevelsAgree;
      if ref !in orders { return false; }
      var o := orders[ref];
      if shares == 0 || shares > o.shares { return false; }
      var level := LevelOf(Levels(o.side), o.price);
      if shares == o.shares {
        RemoveFollows(orders, Buy, bids, ref);
        RemoveFollows(orders, Sell, asks, ref);
        assert o.shares <= level;
        SetLevels(o.side, Lightened(Levels(o.side), o.price, o.shares));
        orders := orders - {ref};
      } else {
        ReduceFollows(orders, Buy, bids, ref, shares);
        ReduceFollows(orders, Sell, asks, ref, shares);
        assert shares < level;
        SetLevels(o.side, Levels(o.side)[o.price := SaturatingSubQty(level, shares)]);
        orders := orders[ref := o.(shares := SaturatingSubQty(o.shares, shares))];
      }
      ok := true;
    }

    method Cancel(ref: u64, shares: u64) returns (ok: bool)
      requires Valid()
      modifies this`orders, this`bids, this`asks
      ensures Valid()
      ensures ok == Executed(old(orders), ref, shares).Ok?
      ensures ok ==> Executed(old(orders), ref, shares) == Ok(orders)
      ensures !ok ==> unchanged(this)
    {
      ok := Execute(ref, shares);
    }

    method Delete(ref: u64) returns (ok: bool)
      requires Valid()
      modifies this`orders, this`bids, this`asks
      ensures Valid()
      ensures ok == Deleted(old(orders), ref).Ok?
      ensures ok ==> Deleted(old(orders), ref) == Ok(orders)
      ensures !ok ==> unchanged(this)
    {
      hide LevelsAgree;
      if ref !in orders { return false; }
      ok := Execute(ref, orders[ref].shares);
    }

    /** One logical update: everything is validated before anything changes. */
    method Replace(original: u64, ref: u64, shares: u64, price: u64) returns (ok: bool)
      requires Valid()
      modifies this`orders, this`bids, this`asks
      ensures Valid()
      ensures ok == Replaced(old(orders), original, ref, shares, price).Ok?
      ensures ok ==> Replaced(old(orders), original, ref, shares, price) == Ok(orders)
      ensures !ok ==> unchanged(this)
    {
      hide Depth, LevelsAgree, WellFormed, Lightened;
      if original !in orders { return false; }
      if ref != original && ref in orders { return false; }
      if price == 0 || shares == 0 { return false; }
      var o := orders[original];
      var levels := Levels(o.side);
      WellFormedAt(orders, original);
      LevelCovers(orders, o.side, levels, original);
      // An indexed order's level is present and covers it.
      assert o.price in levels && o.shares <= levels[o.price];
      var left := levels[o.price] - o.shares;
      var base := if price == o.price then left else LevelOf(levels, price);
      ReplacementBase(orders, o.side, levels, original, price);
      var total := AddQty(base, shares);
      if total.Err? { return false; }
      var n := Resting(ref, o.side, price, shares);
      ReplaceFollows(orders, Buy, bids, original, n);
      ReplaceFollows(orders, Sell, asks, original, n);
      WellFormedRemove(orders, original);
      WellFormedAdd(orders - {original}, n);
      orders := orders - {original};
      if price != o.price { levels := if left == 0 then levels - {o.price} else levels[o.price := left]; }
      SetLevels(o.side, levels[price := total.value]);
      orders := orders[ref := n];
      ok := true;
    }

    /** Every message advances the clock, applied or not. */
    method ApplyMessage(m: Message) returns (ok: bool)
      requires Valid()
      modifies this
      ensures Valid() && lastTimestamp == m.at
      ensures ok == Applied(old(orders), m).Ok?
      ensures orders == if ok then Applied(old(orders), m).value else old(orders)
      ensures ok == Applies(old(orders), m)
      ensures ok ==> Effect(old(orders), orders, m)
      ensures !ok ==> bids == old(bids) && asks == old(asks)
    {
      hide LevelsAgree, WellFormed, Depth, Applies, Effect;
      MessageMeans(orders, m);
      lastTimestamp := m.at;
      match m {
        case SystemEvent(_) => ok := true;
        case StockDirectory(_) => ok := true;
        case AddOrder(_, ref, side, shares, price) => ok := Add(ref, side, price, shares);
        case OrderExecuted(_, ref, shares) => ok := Cancel(ref, shares);
        case OrderExecutedWithPrice(_, ref, shares) => ok := Cancel(ref, shares);
        case OrderCancel(_, ref, shares) => ok := Cancel(ref, shares);
        case OrderDelete(_, ref) => ok := Delete(ref);
        case OrderReplace(_, original, ref, shares, price) => ok := Replace(original, ref, shares, price);
      }
    }

    // ---- Quotes ----

    method BestBid() returns (q: Option<u64>)
      requires Valid()
      ensures IsBest(orders, Buy, q)
    {
      hide Depth, LevelsAgree, WellFormed, Ascending, RestsAt;
      LevelKeys(orders, Buy, bids);
      if bids == map[] { return None; }
      var keys := InOrder(bids.Keys);
      AscendingKeys(bids.Keys);
      var last := keys[|keys|-1];
      assert last in keys;
      forall p | p in bids ensures p <= last { assert p in keys; }
      return Some(last);
    }

    method BestAsk() returns (q: Option<u64>)
      requires Valid()
      ensures IsBest(orders, Sell, q)
    {
      hide Depth, LevelsAgree, WellFormed, Ascending, RestsAt;
      LevelKeys(orders, Sell, asks);
      if asks == map[] { return None; }
      var keys := InOrder(asks.Keys);
      AscendingKeys(asks.Keys);
      assert keys[0] in keys;
      forall p | p in asks ensures keys[0] <= p { assert p in keys; }
      return Some(keys[0]);
    }

    /** The rounded-down midpoint of the best quotes, when both sides rest. */
    method MidPrice() returns (q: Option<u64>)
      requires Valid()
      ensures IsMidpoint(orders, q)
    {
      hide Depth, LevelsAgree, WellFormed, IsBest;
      var bid := BestBid();
      var ask := BestAsk();
      if bid.None? || ask.None? { return None; }
      var low := if bid.value < ask.value then bid.value else ask.value;
      var high := if bid.value < ask.value then ask.value else bid.value;
      var mid := low + (high - low) / 2;
      BestIsPositive(orders, Buy, bid.value);
      BestIsPositive(orders, Sell, ask.value);
      return if mid == 0 then None else Some(mid);
    }
  }

  lemma {:induction false} WellFormedAdd(b: Book, o: Resting)
    requires WellFormed(b) && o.price > 0 && o.shares > 0
    ensures WellFormed(b[o.ref := o])
  {
  }

  lemma {:induction false} WellFormedRemove(b: Book, ref: u64)
    requires WellFormed(b)
    ensures WellFormed(b - {ref})
  {
  }

  lemma {:induction false} WellFormedAt(b: Book, ref: u64)
    requires WellFormed(b) && ref in b
    ensures b[ref].ref == ref && b[ref].price > 0 && b[ref].shares > 0
  {
  }

  lemma {:induction false} BestIsPositive(b: Book, side: Side, price: u64)
    requires WellFormed(b) && IsBest(b, side, Some(price))
    ensures price > 0
  {
  }

  /** A price is a level exactly when some order of that side rests there. */
  lemma {:induction false} LevelKeys(b: Book, side: Side, levels: PriceLevels)
    requires WellFormed(b) && LevelsAgree(b, side, levels)
    ensures forall price: u64 :: price in levels <==> RestsAt(b, side, price)
  {
    hide Depth;
    forall price: u64 ensures price in levels <==> RestsAt(b, side, price) {
      assert LevelAgrees(b, side, levels, price);
      DepthPositive(b, side, price);
    }
  }

  predicate Better(side: Side, p: u64, q: u64) { if side.Buy? then p >= q else p <= q }

  /** No order of the side rests, or the quote is its best resting price. */
  ghost predicate IsBest(b: Book, side: Side, q: Option<u64>)
  {
    if q.None? then forall price: u64 :: !RestsAt(b, side, price)
    else RestsAt(b, side, q.value) && forall price: u64 :: RestsAt(b, side, price) ==> Better(side, q.value, price)
  }

  /** A bid quote is the highest resting buy price, an ask quote the lowest
      resting sell price, and a missing quote means that no order rests. */
  lemma {:induction false} QuoteBounds(b: Book, bid: Option<u64>, ask: Option<u64>, ref: u64)
    requires IsBest(b, Buy, bid) && IsBest(b, Sell, ask) && ref in b
    ensures b[ref].side.Buy? ==> bid.Some? && b[ref].price <= bid.value
    ensures b[ref].side.Sell? ==> ask.Some? && ask.value <= b[ref].price
    ensures bid.Some? ==> exists x :: x in b && b[x].side.Buy? && b[x].price == bid.value
    ensures ask.Some? ==> exists x :: x in b && b[x].side.Sell? && b[x].price == ask.value
  {
    assert RestsAt(b, b[ref].side, b[ref].price);
  }

  ghost predicate IsMidpoint(b: Book, q: Option<u64>)
  {
    exists bid: Option<u64>, ask: Option<u64> ::
      && IsBest(b, Buy, bid) && IsBest(b, Sell, ask)
      && q == if bid.Some? && ask.Some? then Some((bid.value + ask.value) / 2) else None
  }

  lemma {:induction false} BestUnique(b: Book, side: Side, q: Option<u64>, r: Option<u64>)
    requires IsBest(b, side, q) && IsBest(b, side, r)
    ensures q == r
  {
    if q.Some? { assert RestsAt(b, side, q.value); }
    if r.Some? { assert RestsAt(b, side, r.value); }
  }

  lemma {:induction false} Halves(n: nat)
    ensures 2 * (n / 2) <= n <= 2 * (n / 2) + 1
  {
  }

  /** The midpoint exists exactly when both sides rest, and is half their sum,
      rounded down. */
  lemma {:induction false} MidpointRoundsDown(b: Book, bid: Option<u64>, ask: Option<u64>, mid: Option<u64>)
    requires IsBest(b, Buy, bid) && IsBest(b, Sell, ask) && IsMidpoint(b, mid)
    ensures mid.Some? <==> bid.Some? && ask.Some?
    ensures mid.Some? ==> 2 * mid.value <= bid.value + ask.value <= 2 * mid.value + 1
  {
    hide IsBest, RestsAt;
    var x: Option<u64>, y: Option<u64> :| IsBest(b, Buy, x) && IsBest(b, Sell, y)
      && mid == if x.Some? && y.Some? then Some((x.value + y.value) / 2) else None;
    BestUnique(b, Buy, x, bid);
    BestUnique(b, Sell, y, ask);
    if mid.Some? { Halves(bid.value + ask.value); }
  }

  // ---- Replaying a message stream ----

  /** The book after a stream, if every message applies. */
  ghost function Run(b: Book, ms: seq<Message>): Result<Book>
  {
    if ms == [] then Ok(b)
    else
      var c :- Run(b, ms[..|ms|-1]);
      Applied(c, ms[|ms|-1])
  }

  datatype Quote = Quote(bid: Option<u64>, ask: Option<u64>, mid: Option<u64>, at: u64)

  /** The quote is the true top of this book at this time. */
  ghost predicate QuoteOf(q: Quote, b: Book, at: u64)
  {
    q.at == at && IsBest(b, Buy, q.bid) && IsBest(b, Sell, q.ask) && IsMidpoint(b, q.mid)
  }

  lemma {:induction false} RunStep(b: Book, ms: seq<Message>, i: nat)
    requires i < |ms|
    ensures Run(b, ms[..i+1]) == match Run(b, ms[..i]) case Ok(c) => Applied(c, ms[i]) case Err => Err
  {
    assert ms[..i+1][..i] == ms[..i];
  }

  lemma {:induction false} RunStopsAt(b: Book, ms: seq<Message>, i: nat)
    requires i <= |ms| && Run(b, ms[..i]).Err?
    ensures Run(b, ms).Err?
    decreases |ms| - i
  {
    hide Applied;
    if i < |ms| {
      RunStep(b, ms, i);
      RunStopsAt(b, ms, i + 1);
    } else {
      assert ms[..i] == ms;
    }
  }

  lemma {:induction false} RunStart(b: Book, ms: seq<Message>)
    ensures Run(b, ms[..0]) == Ok(b)
  {
  }

  class ReplayEngine {
    const book: OrderBook
    var history: seq<Quote>

    constructor ()
      ensures fresh(book) && book.Valid() && book.orders == map[] && history == []
    {
      book := new OrderBook();
      history := [];
    }

    method Step(m: Message) returns (r: Result<Quote>)
      requires book.Valid()
      modifies this, book
      ensures book.Valid() && r.Ok? == Applied(old(book.orders), m).Ok?
      ensures book.orders == if r.Ok? then Applied(old(book.orders), m).value else old(book.orders)
      ensures r.Ok? ==> QuoteOf(r.value, book.orders, m.at)
      ensures history == old(history) + if r.Ok? then [r.value] else []
    {
      hide Applied, IsBest, IsMidpoint;
      var ok := book.ApplyMessage(m);
      if !ok { return Err; }
      var bid := book.BestBid();
      var ask := book.BestAsk();
      var mid := book.MidPrice();
      var q := Quote(bid, ask, mid, book.lastTimestamp);
      history := history + [q];
      return Ok(q);
    }

    /** Applies messages until one fails, and records after each the true top
        of the book it left behind. */
    method ReplayMessages(ms: seq<Message>) returns (ok: bool, ghost quotes: seq<Quote>)
      requires book.Valid()
      modifies this, book
      ensures book.Valid() && ok == Run(old(book.orders), ms).Ok?
      ensures history == old(history) + quotes && QuotesFollow(old(book.orders), ms, quotes)
      ensures |quotes| <= |ms| && Run(old(book.orders), ms[..|quotes|]) == Ok(book.orders)
      ensures ok ==> |quotes| == |ms|
      ensures !ok ==> |quotes| < |ms| && Run(old(book.orders), ms[..|quotes|+1]).Err?
    {
      hide Run, Applied, QuoteOf;
      ghost var start := book.orders;
      quotes := [];
      RunStart(start, ms);
      for i := 0 to |ms|
        invariant book.Valid() && |quotes| == i && history == old(history) + quotes
        invariant Run(start, ms[..i]) == Ok(book.orders)
        invariant QuotesFollow(start, ms, quotes)
      {
        RunStep(start, ms, i);
        var q := Step(ms[i]);
        if q.Err? {
          assert history == old(history) + quotes;
          RunStopsAt(start, ms, i + 1);
          return false, quotes;
        }
        assert QuoteFollows(start, ms, q.value, i);
        quotes := quotes + [q.value];
      }
      assert ms[..|ms|] == ms;
      ok := true;
    }
  }

  ghost predicate QuoteFollows(b: Book, ms: seq<Message>, q: Quote, k: nat)
    requires k < |ms|
  {
    Run(b, ms[..k+1]).Ok? && QuoteOf(q, Run(b, ms[..k+1]).value, ms[k].at)
  }

  /** Quote `k` is the true top of the book after `k + 1` messages. */
  ghost predicate QuotesFollow(b: Book, ms: seq<Message>, quotes: seq<Quote>)
  {
    |quotes| <= |ms| && forall k :: 0 <= k < |quotes| ==> QuoteFollows(b, ms, quotes[k], k)
  }

  // ---- How operations compose ----

  /** Adding then deleting restores the book. */
  lemma {:induction false} AddThenDeleteRestores(b: Book, ref: u64, side: Side, price: u64, shares: u64)
    requires Added(b, ref, side, price, shares).Ok?
    ensures Deleted(Added(b, ref, side, price, shares).value, ref) == Ok(b)
  {
    assert b[ref := Resting(ref, side, price, shares)] - {ref} == b;
  }

  /** Two positive executions are one execution of their sum. */
  lemma {:induction false} ExecutionsAdd(b: Book, ref: u64, x: u64, y: u64)
    requires x > 0 && y > 0 && x + y <= MAX64
    ensures (match Executed(b, ref, x) case Ok(c) => Executed(c, ref, y) case Err => Err) == Executed(b, ref, x + y)
  {
    if ref in b && x < b[ref].shares {
      var c := b[ref := b[ref].(shares := b[ref].shares - x)];
      assert c - {ref} == b - {ref};
      assert y < c[ref].shares ==> c[ref := c[ref].(shares := c[ref].shares - y)] == b[ref := b[ref].(shares := b[ref].shares - (x + y))];
    }
  }

  /** Deleting is executing everything that rests. */
  lemma {:induction false} DeleteIsFullExecution(b: Book, ref: u64)
    requires WellFormed(b) && ref in b
    ensures Deleted(b, ref) == Executed(b, ref, b[ref].shares)
  {
  }

  // ---- Every run ----

  ghost predicate FitsLevels(b: Book)
  {
    forall side: Side, price: u64 :: Depth(b, side, price) <= MAX64
  }

  lemma {:induction false} AddedFits(b: Book, ref: u64, side: Side, price: u64, shares: u64)
    requires WellFormed(b) && FitsLevels(b) && Added(b, ref, side, price, shares).Ok?
    ensures WellFormed(Added(b, ref, side, price, shares).value) && FitsLevels(Added(b, ref, side, price, shares).value)
  {
    hide Depth;
    var o := Resting(ref, side, price, shares);
    var c := b[ref := o];
    forall s: Side, p: u64 ensures Depth(c, s, p) <= MAX64 { DepthAdded(b, o, s, p); }
  }

  lemma {:induction false} ExecutedFits(b: Book, ref: u64, shares: u64)
    requires WellFormed(b) && FitsLevels(b) && Executed(b, ref, shares).Ok?
    ensures WellFormed(Executed(b, ref, shares).value) && FitsLevels(Executed(b, ref, shares).value)
  {
    hide Depth;
    var c := Executed(b, ref, shares).value;
    forall s: Side, p: u64 ensures Depth(c, s, p) <= MAX64 {
      DepthRemoved(b, ref, s, p);
      DepthReduced(b, ref, shares, s, p);
    }
  }

  lemma {:induction false} AppliedFits(b: Book, m: Message)
    requires WellFormed(b) && FitsLevels(b) && Applied(b, m).Ok?
    ensures WellFormed(Applied(b, m).value) && FitsLevels(Applied(b, m).value)
  {
    hide WellFormed, FitsLevels, Added, Executed;
    match m {
      case SystemEvent(_) =>
      case StockDirectory(_) =>
      case AddOrder(_, ref, side, shares, price) => AddedFits(b, ref, side, price, shares);
      case OrderExecuted(_, ref, shares) => ExecutedFits(b, ref, shares);
      case OrderExecutedWithPrice(_, ref, shares) => ExecutedFits(b, ref, shares);
      case OrderCancel(_, ref, shares) => ExecutedFits(b, ref, shares);
      case OrderDelete(_, ref) =>
        DeleteIsFullExecution(b, ref);
        ExecutedFits(b, ref, b[ref].shares);
      case OrderReplace(_, original, ref, shares, price) =>
        DeleteIsFullExecution(b, original);
        ExecutedFits(b, original, b[original].shares);
        AddedFits(b - {original}, ref, b[original].side, price, shares);
    }
  }

  /** On every run from the empty book, no resting order is empty and no level
      outgrows its 64-bit total. */
  lemma {:induction false} RunsFit(ms: seq<Message>)
    requires Run(map[], ms).Ok?
    ensures WellFormed(Run(map[], ms).value) && FitsLevels(Run(map[], ms).value)
  {
    hide Applied, WellFormed, FitsLevels;
    if ms == [] {
      EmptyFits();
    } else {
      RunsFit(ms[..|ms|-1]);
      AppliedFits(Run(map[], ms[..|ms|-1]).value, ms[|ms|-1]);
    }
  }

  lemma {:induction false} EmptyFits()
    ensures WellFormed(map[]) && FitsLevels(map[])
  {
    var none: Book := map[];
    forall side: Side, price: u64 ensures Depth(none, side, price) == 0 {
      assert Ascending(none.Keys) == [];
    }
  }
}
