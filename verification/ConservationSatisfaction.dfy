/** When a settled batch satisfies the conservation subrelation: exactly when no
    account's cash moves across a multiple of 2^64. */
module ConservationSatisfaction {
  import opened Primitives
  import opened Sums
  import opened Sorting
  import opened Ledgers
  import opened Settlement
  import opened SettlementProperties
  import opened SettlementSuccess
  import opened CheckerProperties
  import opened R1cs
  import opened ConstraintParts
  import opened FillConstraints
  import opened ConservationConstraints

  // ---- What settlement did to each account ----

  /** Every account's balances are its old ones moved by its own fills. */
  ghost predicate Follows(pre: Accounts, post: Accounts, fills: seq<Fill>, instrument: u64)
  {
    && post.Keys == pre.Keys
    && forall id :: id in pre ==> FollowsAt(pre[id], post[id], Own(fills, id), instrument)
  }

  lemma {:induction false} SettlementFollows(pre: Accounts, fills: seq<Fill>, post: Accounts, instrument: u64)
    requires SettleAll(pre, fills).Ok? && forall f :: f in fills ==> Positive(f)
    requires Agree(post, SettleAll(pre, fills).value, instrument)
    requires SettleAll(pre, fills).value.Keys == pre.Keys
    ensures Follows(pre, post, fills, instrument)
  {
    hide SettleAll, Own;
    forall id | id in pre ensures FollowsAt(pre[id], post[id], Own(fills, id), instrument) {
      OwnFillsSettle(pre, fills, instrument, id);
    }
  }

  lemma {:induction false} OwnWithin(fills: seq<Fill>, id: u64)
    ensures |Own(fills, id)| <= |fills|
    ensures forall f :: f in Own(fills, id) ==> f in fills
  {
    if fills != [] { OwnWithin(fills[..|fills|-1], id); }
  }

  // ---- Rows as assigned ----

  ghost predicate Scalable(own: seq<Fill>, instrument: u64)
  {
    forall f :: f in own ==> f.instrument == instrument && f.consideration <= MAX64
  }

  ghost predicate RowFollows(row: Row, own: seq<Fill>, instrument: u64)
  {
    && row.postCash == row.preCash - Sum(own, CashOut())
    && row.postInv == row.preInv + Sum(own, InventoryIn(instrument))
  }

  lemma {:induction false} LastPair(wit: seq<u64>, at: nat, own: seq<Fill>)
    requires own != [] && Window(wit, at, FillPairs(own))
    ensures at + 2 * |own| <= |wit| && Window(wit, at, FillPairs(own[..|own|-1]))
    ensures wit[at + 2 * |own| - 2] == Narrow(own[|own|-1].consideration)
    ensures wit[at + 2 * |own| - 1] == own[|own|-1].qty
  {
    var n := |own| - 1;
    var pair := [Narrow(own[n].consideration), own[n].qty];
    assert FillPairs(own) == FillPairs(own[..n]) + pair;
    hide *;
    WindowSplit(wit, at, FillPairs(own[..n]), pair);
    WindowAt(wit, at + 2 * n, pair, 0);
    WindowAt(wit, at + 2 * n, pair, 1);
    WindowLength(wit, at + 2 * n, pair);
  }

  lemma {:induction false} AssignedEffects(wit: seq<u64>, at: nat, own: seq<Fill>, instrument: u64)
    requires Window(wit, at + 4, FillPairs(own)) && Scalable(own, instrument)
    ensures CashEffect(wit, at, own) == -Sum(own, CashOut())
    ensures QtyEffect(wit, at, own) == Sum(own, InventoryIn(instrument))
  {
    hide Narrow, Window, FillPairs;
    WindowLength(wit, at + 4, FillPairs(own));
    if own != [] {
      var n := |own| - 1;
      assert own[n] in own && forall g :: g in own[..n] ==> g in own;
      LastPair(wit, at + 4, own);
      NarrowIsExact(own[n].consideration);
      AssignedEffects(wit, at, own[..n], instrument);
    }
  }

  lemma {:induction false} WindowLength(wit: seq<u64>, base: nat, scalars: seq<u64>)
    requires Window(wit, base, scalars)
    ensures base + |scalars| <= |wit|
  {
  }

  lemma {:induction false} AccountHonest(wit: seq<u64>, at: nat, row: Row, own: seq<Fill>, instrument: u64)
    requires Window(wit, at, AccountScalars(row, own)) && Scalable(own, instrument)
    ensures at + 4 + 2 * |own| <= |wit|
    ensures wit[at] == row.preCash && wit[at + 1] == row.postCash && wit[at + 2] == row.preInv && wit[at + 3] == row.postInv
    ensures AccountBalances(wit, at, own) <==> RowFollows(row, own, instrument)
  {
    hide Window, CashEffect, QtyEffect, FillPairs, CashOut, InventoryIn;
    var head := [row.preCash, row.postCash, row.preInv, row.postInv];
    WindowLength(wit, at, AccountScalars(row, own));
    WindowSplit(wit, at, head, FillPairs(own));
    WindowAt(wit, at, head, 0);
    WindowAt(wit, at, head, 1);
    WindowAt(wit, at, head, 2);
    WindowAt(wit, at, head, 3);
    AssignedEffects(wit, at, own, instrument);
  }

  ghost predicate RowsFollow(rows: seq<Row>, owns: seq<seq<Fill>>, instrument: u64)
    requires |rows| == |owns|
  {
    forall i :: 0 <= i < |rows| ==> RowFollows(rows[i], owns[i], instrument)
  }

  lemma {:induction false} RowsFollowStep(rows: seq<Row>, owns: seq<seq<Fill>>, instrument: u64)
    requires |rows| == |owns| && rows != []
    ensures RowsFollow(rows, owns, instrument) <==>
              RowsFollow(rows[..|rows|-1], owns[..|rows|-1], instrument) && RowFollows(rows[|rows|-1], owns[|rows|-1], instrument)
  {
    hide RowFollows;
  }

  function PreCash(): Row -> int { (r: Row) => r.preCash }
  function PostCash(): Row -> int { (r: Row) => r.postCash }
  function PreInv(): Row -> int { (r: Row) => r.preInv }
  function PostInv(): Row -> int { (r: Row) => r.postInv }

  ghost function RowTotals(rows: seq<Row>): Totals
  {
    Totals(Sum(rows, PreCash()), Sum(rows, PostCash()), Sum(rows, PreInv()), Sum(rows, PostInv()))
  }

  lemma {:induction false} LastAccount(wit: seq<u64>, base: nat, rows: seq<Row>, owns: seq<seq<Fill>>)
    requires |rows| == |owns| && rows != [] && base + |AccountsPart(base, rows, owns).part.scalars| <= |wit|
    ensures AccountsPart(base, rows, owns).part.scalars
         == AccountsPart(base, rows[..|rows|-1], owns[..|rows|-1]).part.scalars + AccountScalars(rows[|rows|-1], owns[|rows|-1])
    ensures LastAccountOf(wit, base, rows, owns, base + |AccountsPart(base, rows[..|rows|-1], owns[..|rows|-1]).part.scalars|)
  {
    hide AccountScalars, AccountBalances, AddColumns, AccountConstraints;
  }

  ghost predicate LastAccountOf(wit: seq<u64>, base: nat, rows: seq<Row>, owns: seq<seq<Fill>>, at: nat)
    requires |rows| == |owns| && rows != [] && base + |AccountsPart(base, rows, owns).part.scalars| <= |wit|
  {
    var n := |rows| - 1;
    && at + 4 + 2 * |owns[n]| <= |wit|
    && base + |AccountsPart(base, rows[..n], owns[..n]).part.scalars| <= |wit|
    && (EveryAccountBalances(wit, base, rows, owns)
        <==> EveryAccountBalances(wit, base, rows[..n], owns[..n]) && AccountBalances(wit, at, owns[n]))
    && var t := ColumnTotals(wit, base, rows[..n], owns[..n]);
       ColumnTotals(wit, base, rows, owns)
       == Totals(t.preCash + wit[at], t.postCash + wit[at + 1], t.preInv + wit[at + 2], t.postInv + wit[at + 3])
  }

  lemma {:induction false} NoRows(wit: seq<u64>, base: nat)
    requires base <= |wit|
    ensures AccountsPart(base, [], []).part.scalars == []
    ensures EveryAccountBalances(wit, base, [], []) && ColumnTotals(wit, base, [], []) == RowTotals([])
  {
  }

  lemma {:induction false} RowTotalsStep(rows: seq<Row>)
    requires rows != []
    ensures var t, r := RowTotals(rows[..|rows|-1]), rows[|rows|-1];
            RowTotals(rows) == Totals(t.preCash + r.preCash, t.postCash + r.postCash, t.preInv + r.preInv, t.postInv + r.postInv)
  {
  }

  lemma {:induction false} AccountsHonest(wit: seq<u64>, base: nat, rows: seq<Row>, owns: seq<seq<Fill>>, instrument: u64)
    requires |rows| == |owns| && Window(wit, base, AccountsPart(base, rows, owns).part.scalars)
    requires forall i :: 0 <= i < |owns| ==> Scalable(owns[i], instrument)
    ensures base + |AccountsPart(base, rows, owns).part.scalars| <= |wit|
    ensures EveryAccountBalances(wit, base, rows, owns) <==> RowsFollow(rows, owns, instrument)
    ensures ColumnTotals(wit, base, rows, owns) == RowTotals(rows)
  {
    hide AccountsPart, EveryAccountBalances, ColumnTotals, AccountScalars, AccountBalances, RowsFollow,
      RowFollows, Window, RowTotals, Scalable;
    WindowLength(wit, base, AccountsPart(base, rows, owns).part.scalars);
    if rows == [] {
      assert rows == [] && owns == [];
      NoRows(wit, base);
      EmptyFollows(instrument);
    } else {
      var n := |rows| - 1;
      var front := AccountsPart(base, rows[..n], owns[..n]);
      var at := base + |front.part.scalars|;
      LastAccount(wit, base, rows, owns);
      WindowSplit(wit, base, front.part.scalars, AccountScalars(rows[n], owns[n]));
      AccountsHonest(wit, base, rows[..n], owns[..n], instrument);
      AccountHonest(wit, at, rows[n], owns[n], instrument);
      RowsFollowStep(rows, owns, instrument);
      RowTotalsStep(rows);
    }
  }

  lemma {:induction false} EmptyFollows(instrument: u64)
    ensures RowsFollow([], [], instrument)
  {
  }

  // ---- Narrowed cash ----

  const WORD: int := 0x1_0000_0000_0000_0000

  /** The part of an amount that narrowing drops. */
  function High(x: u128): int { x / WORD }

  /** Narrowed amounts differ by the true difference exactly when the dropped
      parts are equal. */
  lemma {:induction false} NarrowDifference(x: u128, y: u128, spent: int)
    requires y == x - spent
    ensures Narrow(y) == Narrow(x) - spent <==> High(x) == High(y)
  {
    assert Narrow(x) == x - WORD * High(x) && Narrow(y) == y - WORD * High(y);
  }

  /** No account's cash crosses a multiple of 2^64. */
  ghost predicate SameHighWords(pre: Accounts, post: Accounts)
  {
    forall id :: id in pre && id in post ==> High(pre[id].cash) == High(post[id].cash)
  }

  lemma {:induction false} LedgerRow(pre: Accounts, post: Accounts, fills: seq<Fill>, instrument: u64, id: u64)
    requires Follows(pre, post, fills, instrument) && id in pre
    ensures id in post
    ensures RowFollows(RowOf(pre[id], PostOf(post, id), instrument), Own(fills, id), instrument)
       <==> High(pre[id].cash) == High(post[id].cash)
  {
    hide Own, Narrow, High, CashOut, InventoryIn;
    assert FollowsAt(pre[id], post[id], Own(fills, id), instrument);
    NarrowDifference(pre[id].cash, post[id].cash, Sum(Own(fills, id), CashOut()));
  }

  lemma {:induction false} LedgerRows(pre: Accounts, post: Accounts, fills: seq<Fill>, instrument: u64)
    requires Follows(pre, post, fills, instrument)
    ensures forall id :: id in Ascending(pre.Keys) ==> id in pre
    ensures RowsFollow(RowsOf(pre, post, Ascending(pre.Keys), instrument), OwnsOf(fills, Ascending(pre.Keys)), instrument)
       <==> SameHighWords(pre, post)
  {
    hide RowFollows, Own, RowOf, High, FollowsAt, Ascending;
    var keys := Ascending(pre.Keys);
    AscendingKeys(pre.Keys);
    var rows, owns := RowsOf(pre, post, keys, instrument), OwnsOf(fills, keys);
    forall i | 0 <= i < |keys|
      ensures keys[i] in pre && keys[i] in post
      ensures RowFollows(rows[i], owns[i], instrument) <==> High(pre[keys[i]].cash) == High(post[keys[i]].cash)
    {
      assert keys[i] in keys;
      LedgerRow(pre, post, fills, instrument, keys[i]);
    }
    if RowsFollow(rows, owns, instrument) {
      forall id | id in pre ensures High(pre[id].cash) == High(post[id].cash) {
        assert id in keys;
        var i :| 0 <= i < |keys| && keys[i] == id;
        assert RowFollows(rows[i], owns[i], instrument);
      }
    }
  }

  lemma {:induction false} SumAlong<S, T>(s: seq<S>, f: S -> int, t: seq<T>, g: T -> int)
    requires |s| == |t| && forall i :: 0 <= i < |s| ==> f(s[i]) == g(t[i])
    ensures Sum(s, f) == Sum(t, g)
  {
    if s != [] {
      SumAlong(s[..|s|-1], f, t[..|t|-1], g);
    }
  }

  ghost function CashMoved(): Row -> int { (r: Row) => r.preCash - r.postCash }
  ghost function CashMovedBetween(pre: Accounts, post: Accounts): u64 -> int
  {
    (id: u64) => Measure(pre, Cash())(id) - Measure(post, Cash())(id)
  }

  lemma {:induction false} RowMoves(pre: Accounts, post: Accounts, fills: seq<Fill>, instrument: u64, id: u64)
    requires Follows(pre, post, fills, instrument) && SameHighWords(pre, post) && id in pre
    ensures CashMoved()(RowOf(pre[id], PostOf(post, id), instrument)) == CashMovedBetween(pre, post)(id)
  {
    hide Own, Narrow, High, CashOut, InventoryIn;
    assert FollowsAt(pre[id], post[id], Own(fills, id), instrument);
    NarrowDifference(pre[id].cash, post[id].cash, Sum(Own(fills, id), CashOut()));
    assert High(pre[id].cash) == High(post[id].cash);
    assert id in post;
    assert Measure(pre, Cash())(id) == Cash()(pre[id]) && Measure(post, Cash())(id) == Cash()(post[id]);
    assert CashMovedBetween(pre, post)(id) == Measure(pre, Cash())(id) - Measure(post, Cash())(id);
  }

  /** With the dropped parts unchanged, the narrowed columns total alike. */
  lemma {:induction false} CashColumnsBalance(pre: Accounts, post: Accounts, fills: seq<Fill>, instrument: u64)
    requires Follows(pre, post, fills, instrument) && SameHighWords(pre, post)
    requires TotalCash(pre) == TotalCash(post)
    ensures forall id :: id in Ascending(pre.Keys) ==> id in pre
    ensures var rows := RowsOf(pre, post, Ascending(pre.Keys), instrument);
            Sum(rows, PreCash()) == Sum(rows, PostCash())
  {
    hide Ascending, RowOf, Follows, SameHighWords, CashMoved, CashMovedBetween, PreCash, PostCash, Sum, Measure;
    FollowsKeys(pre, post, fills, instrument);
    var keys := Ascending(pre.Keys);
    AscendingKeys(pre.Keys);
    var rows := RowsOf(pre, post, keys, instrument);
    forall i | 0 <= i < |keys| ensures CashMoved()(rows[i]) == CashMovedBetween(pre, post)(keys[i]) {
      assert keys[i] in keys;
      RowMoves(pre, post, fills, instrument, keys[i]);
    }
    SumAlong(rows, CashMoved(), keys, CashMovedBetween(pre, post));
    MovedIsDifference(pre, post, rows, keys);
  }

  lemma {:induction false} MovedIsDifference(pre: Accounts, post: Accounts, rows: seq<Row>, keys: seq<u64>)
    ensures Sum(rows, PreCash()) == Sum(rows, PostCash()) + Sum(rows, CashMoved())
    ensures Sum(keys, Measure(pre, Cash())) == Sum(keys, Measure(post, Cash())) + Sum(keys, CashMovedBetween(pre, post))
  {
    SumAdd(rows, PostCash(), CashMoved(), PreCash());
    SumAdd(keys, Measure(post, Cash()), CashMovedBetween(pre, post), Measure(pre, Cash()));
  }

  lemma {:induction false} InventoryColumnsBalance(pre: Accounts, post: Accounts, instrument: u64)
    requires post.Keys == pre.Keys && TotalInventory(pre, instrument) == TotalInventory(post, instrument)
    ensures forall id :: id in Ascending(pre.Keys) ==> id in pre
    ensures var rows := RowsOf(pre, post, Ascending(pre.Keys), instrument);
            Sum(rows, PreInv()) == Sum(rows, PostInv())
  {
    hide Ascending, Narrow;
    var keys := Ascending(pre.Keys);
    AscendingKeys(pre.Keys);
    var rows := RowsOf(pre, post, keys, instrument);
    forall i | 0 <= i < |keys|
      ensures PreInv()(rows[i]) == Measure(pre, Holding(instrument))(keys[i])
      ensures PostInv()(rows[i]) == Measure(post, Holding(instrument))(keys[i])
    {
      assert keys[i] in keys;
    }
    SumAlong(rows, PreInv(), keys, Measure(pre, Holding(instrument)));
    SumAlong(rows, PostInv(), keys, Measure(post, Holding(instrument)));
  }

  lemma {:induction false} TotalsHold(c: Columns, t: Totals, pub: seq<u64>, wit: seq<u64>)
    requires ColumnsAre(c, t, pub, wit) && t.preCash == t.postCash && t.preInv == t.postInv
    ensures AllHold(TotalConstraints(c), pub, wit)
  {
    hide Holds, Equality, Value;
    EqualityMeans(c.preCash, c.postCash, pub, wit);
    EqualityMeans(c.preInv, c.postInv, pub, wit);
    AllHoldPair(Equality(c.preCash, c.postCash), Equality(c.preInv, c.postInv), pub, wit);
  }

  lemma {:induction false} LedgersPartShape(base: nat, pre: Accounts, post: Accounts, fills: seq<Fill>, instrument: u64)
    ensures forall id :: id in Ascending(pre.Keys) ==> id in pre
    ensures |RowsOf(pre, post, Ascending(pre.Keys), instrument)| == |OwnsOf(fills, Ascending(pre.Keys))|
    ensures var b := AccountsPart(base, RowsOf(pre, post, Ascending(pre.Keys), instrument), OwnsOf(fills, Ascending(pre.Keys)));
            LedgersPart(base, pre, post, fills, instrument) == Part(b.part.constraints + TotalConstraints(b.totals), b.part.scalars)
  {
    hide AccountsPart, Ascending, Own, RowOf, TotalConstraints;
    AscendingKeys(pre.Keys);
    var b := AccountsPart(base, RowsOf(pre, post, Ascending(pre.Keys), instrument), OwnsOf(fills, Ascending(pre.Keys)));
    assert b.part.scalars + [] == b.part.scalars;
  }

  lemma {:induction false} OwnsScalable(fills: seq<Fill>, keys: seq<u64>, instrument: u64)
    requires Scalable(fills, instrument) && |fills| < CROWD
    ensures forall i :: 0 <= i < |OwnsOf(fills, keys)| ==> Scalable(OwnsOf(fills, keys)[i], instrument) && |OwnsOf(fills, keys)[i]| < CROWD
  {
    hide Own;
    forall i | 0 <= i < |keys| ensures Scalable(Own(fills, keys[i]), instrument) && |Own(fills, keys[i])| < CROWD { OwnWithin(fills, keys[i]); }
  }

  /** For a conserved settlement whose considerations fit 64 bits, the
      subrelation is satisfied exactly when no account's cash crosses a
      multiple of 2^64. */
  lemma {:induction false} LedgersPartHonest(
      base: nat, pre: Accounts, post: Accounts, fills: seq<Fill>, instrument: u64, pub: seq<u64>, wit: seq<u64>)
    requires Follows(pre, post, fills, instrument) && Scalable(fills, instrument) && |fills| < CROWD
    requires TotalCash(pre) == TotalCash(post) && TotalInventory(pre, instrument) == TotalInventory(post, instrument)
    requires Window(wit, base, LedgersPart(base, pre, post, fills, instrument).scalars)
    ensures AllHold(LedgersPart(base, pre, post, fills, instrument).constraints, pub, wit) <==> SameHighWords(pre, post)
  {
    hide *;
    LedgersPartShape(base, pre, post, fills, instrument);
    var keys := Ascending(pre.Keys);
    var rows, owns := RowsOf(pre, post, keys, instrument), OwnsOf(fills, keys);
    var b := AccountsPart(base, rows, owns);
    OwnsScalable(fills, keys, instrument);
    AccountsHonest(wit, base, rows, owns, instrument);
    AccountsPartMeans(wit, base, rows, owns, pub);
    LedgerRows(pre, post, fills, instrument);
    AllHoldJoin(b.part.constraints, TotalConstraints(b.totals), pub, wit);
    if SameHighWords(pre, post) {
      CashColumnsBalance(pre, post, fills, instrument);
      FollowsKeys(pre, post, fills, instrument);
      InventoryColumnsBalance(pre, post, instrument);
      RowTotalsAre(rows);
      TotalsHold(b.totals, RowTotals(rows), pub, wit);
    }
  }

  lemma {:induction false} FollowsKeys(pre: Accounts, post: Accounts, fills: seq<Fill>, instrument: u64)
    requires Follows(pre, post, fills, instrument)
    ensures post.Keys == pre.Keys
  {
  }

  lemma {:induction false} RowTotalsAre(rows: seq<Row>)
    ensures RowTotals(rows) == Totals(Sum(rows, PreCash()), Sum(rows, PostCash()), Sum(rows, PreInv()), Sum(rows, PostInv()))
  {
  }
}
