/** Conservation constraints: each account's post-balance follows from its own
    fills, and the totals of cash and inventory are unchanged. */
module ConservationConstraints {
  import opened Primitives
  import opened Sorting
  import opened Orders
  import opened Ledgers
  import opened Settlement
  import opened SettlementSuccess
  import opened R1cs
  import opened ConstraintParts
  import opened FillConstraints

  /** The four balances of an account that enter the witness. */
  datatype Row = Row(preCash: u64, postCash: u64, preInv: u64, postInv: u64)

  function RowOf(pre: Account, post: Option<Account>, instrument: u64): Row
  {
    Row(Narrow(pre.cash), if post.Some? then Narrow(post.value.cash) else 0,
        InventoryOf(pre, instrument), if post.Some? then InventoryOf(post.value, instrument) else 0)
  }

  // Witness layout of one account: pre-cash, post-cash, pre-inventory,
  // post-inventory, then consideration and quantity of each own fill.

  function CashSign(side: Side): scalar { if side.Buy? then -1 else 1 }
  function QtySign(side: Side): scalar { if side.Buy? then 1 else -1 }

  function ExpectedCash(at: nat, own: seq<Fill>): Linear
  {
    if own == [] then FromVar(Witness(at))
    else
      var n := |own| - 1;
      AddTerm(ExpectedCash(at, own[..n]), Witness(at + 4 + 2 * n), CashSign(own[n].side))
  }

  function ExpectedInv(at: nat, own: seq<Fill>): Linear
  {
    if own == [] then FromVar(Witness(at + 2))
    else
      var n := |own| - 1;
      AddTerm(ExpectedInv(at, own[..n]), Witness(at + 5 + 2 * n), QtySign(own[n].side))
  }

  function FillPairs(own: seq<Fill>): (r: seq<u64>)
    ensures |r| == 2 * |own|
  {
    if own == [] then []
    else FillPairs(own[..|own|-1]) + [Narrow(own[|own|-1].consideration), own[|own|-1].qty]
  }

  function AccountConstraints(at: nat, own: seq<Fill>): seq<Constraint>
  {
    [Equality(FromVar(Witness(at + 1)), ExpectedCash(at, own)),
     Equality(FromVar(Witness(at + 3)), ExpectedInv(at, own))]
  }

  function AccountScalars(row: Row, own: seq<Fill>): (r: seq<u64>)
    ensures |r| == 4 + 2 * |own|
  {
    [row.preCash, row.postCash, row.preInv, row.postInv] + FillPairs(own)
  }

  datatype Columns = Columns(preCash: Linear, postCash: Linear, preInv: Linear, postInv: Linear)

  datatype Blocks = Blocks(part: Part, totals: Columns)

  const NO_BLOCKS := Blocks(NOTHING, Columns([], [], [], []))

  function AddColumns(c: Columns, at: nat): Columns
  {
    Columns(AddTerm(c.preCash, Witness(at), 1), AddTerm(c.postCash, Witness(at + 1), 1),
            AddTerm(c.preInv, Witness(at + 2), 1), AddTerm(c.postInv, Witness(at + 3), 1))
  }

  /** One block per account, in account order. */
  ghost function AccountsPart(base: nat, rows: seq<Row>, owns: seq<seq<Fill>>): Blocks
    requires |rows| == |owns|
  {
    if rows == [] then NO_BLOCKS
    else
      var n := |rows| - 1;
      var front := AccountsPart(base, rows[..n], owns[..n]);
      var at := base + |front.part.scalars|;
      Blocks(Extend(front.part, AccountConstraints(at, owns[n]), AccountScalars(rows[n], owns[n])),
           AddColumns(front.totals, at))
  }

  function TotalConstraints(c: Columns): seq<Constraint>
  {
    [Equality(c.preCash, c.postCash), Equality(c.preInv, c.postInv)]
  }

  ghost function ConservationPart(base: nat, rows: seq<Row>, owns: seq<seq<Fill>>): Part
    requires |rows| == |owns|
  {
    var b := AccountsPart(base, rows, owns);
    Extend(b.part, TotalConstraints(b.totals), [])
  }

  // ---- The synthesizer's inputs ----

  function PostOf(post: Accounts, id: u64): Option<Account>
  {
    if id in post then Some(post[id]) else None
  }

  ghost function RowsOf(pre: Accounts, post: Accounts, keys: seq<u64>, instrument: u64): seq<Row>
    requires forall id :: id in keys ==> id in pre
  {
    seq(|keys|, i requires 0 <= i < |keys| => RowOf(pre[keys[i]], PostOf(post, keys[i]), instrument))
  }

  ghost function OwnsOf(fills: seq<Fill>, keys: seq<u64>): seq<seq<Fill>>
  {
    seq(|keys|, i requires 0 <= i < |keys| => Own(fills, keys[i]))
  }

  ghost function LedgersPart(base: nat, pre: Accounts, post: Accounts, fills: seq<Fill>, instrument: u64): Part
  {
    AscendingKeys(pre.Keys);
    ConservationPart(base, RowsOf(pre, post, Ascending(pre.Keys), instrument), OwnsOf(fills, Ascending(pre.Keys)))
  }

  lemma {:induction false} OwnStep(fills: seq<Fill>, id: u64, i: nat)
    requires i < |fills|
    ensures Own(fills[..i+1], id) == if fills[i].account == id then Own(fills[..i], id) + [fills[i]] else Own(fills[..i], id)
  {
    assert fills[..i+1][..i] == fills[..i];
  }

  lemma {:induction false} OwnGrows(at: nat, own: seq<Fill>, f: Fill)
    ensures ExpectedCash(at, own + [f]) == AddTerm(ExpectedCash(at, own), Witness(at + 4 + 2 * |own|), CashSign(f.side))
    ensures ExpectedInv(at, own + [f]) == AddTerm(ExpectedInv(at, own), Witness(at + 5 + 2 * |own|), QtySign(f.side))
    ensures FillPairs(own + [f]) == FillPairs(own) + [Narrow(f.consideration), f.qty]
  {
    assert (own + [f])[..|own|] == own;
  }

  method SynthesizeAccount(cs: ConstraintSystem, row: Row, fills: seq<Fill>, id: u64) returns (scalars: seq<u64>)
    modifies cs
    ensures cs.constraints == old(cs.constraints) + AccountConstraints(old(cs.numWitness), Own(fills, id))
    ensures scalars == AccountScalars(row, Own(fills, id))
    ensures cs.numWitness == old(cs.numWitness) + |scalars| && cs.numPublic == old(cs.numPublic)
  {
    hide Equality, Narrow, ExpectedCash, ExpectedInv, AddTerm, FromVar, Own, FillPairs;
    ghost var at, before := cs.numWitness, cs.constraints;
    var preCashVar := cs.AllocWitness();
    var postCashVar := cs.AllocWitness();
    var preInvVar := cs.AllocWitness();
    var postInvVar := cs.AllocWitness();
    var cash, inv := FromVar(preCashVar), FromVar(preInvVar);
    var pairs: seq<u64> := [];
    NoOwn(at, fills, id);
    for i := 0 to |fills|
      invariant cs.constraints == before && cs.numPublic == old(cs.numPublic)
      invariant cs.numWitness == at + 4 + 2 * |Own(fills[..i], id)|
      invariant cash == ExpectedCash(at, Own(fills[..i], id))
      invariant inv == ExpectedInv(at, Own(fills[..i], id))
      invariant pairs == FillPairs(Own(fills[..i], id))
    {
      OwnStep(fills, id, i);
      if fills[i].account == id {
        OwnGrows(at, Own(fills[..i], id), fills[i]);
        var considerationVar := cs.AllocWitness();
        var qtyVar := cs.AllocWitness();
        pairs := pairs + [Narrow(fills[i].consideration), fills[i].qty];
        if fills[i].side.Buy? {
          cash, inv := AddTerm(cash, considerationVar, -1), AddTerm(inv, qtyVar, 1);
        } else {
          cash, inv := AddTerm(cash, considerationVar, 1), AddTerm(inv, qtyVar, -1);
        }
      }
    }
    assert fills[..|fills|] == fills;
    Appended2(before, Equality(FromVar(postCashVar), cash), Equality(FromVar(postInvVar), inv));
    cs.EnforceEqual(FromVar(postCashVar), cash);
    cs.EnforceEqual(FromVar(postInvVar), inv);
    scalars := [row.preCash, row.postCash, row.preInv, row.postInv] + pairs;
  }

  lemma {:induction false} NoOwn(at: nat, fills: seq<Fill>, id: u64)
    ensures Own(fills[..0], id) == []
    ensures ExpectedCash(at, []) == FromVar(Witness(at)) && ExpectedInv(at, []) == FromVar(Witness(at + 2))
    ensures FillPairs([]) == []
  {
  }

  lemma {:induction false} NoAccounts(base: nat, rows: seq<Row>, owns: seq<seq<Fill>>)
    requires |rows| == |owns|
    ensures AccountsPart(base, rows[..0], owns[..0]) == NO_BLOCKS
  {
  }

  lemma {:induction false} AccountsPartStep(base: nat, rows: seq<Row>, owns: seq<seq<Fill>>, i: nat)
    requires |rows| == |owns| && i < |rows|
    ensures AccountsPart(base, rows[..i+1], owns[..i+1]) == Blocks(
      Extend(AccountsPart(base, rows[..i], owns[..i]).part,
             AccountConstraints(base + |AccountsPart(base, rows[..i], owns[..i]).part.scalars|, owns[i]),
             AccountScalars(rows[i], owns[i])),
      AddColumns(AccountsPart(base, rows[..i], owns[..i]).totals, base + |AccountsPart(base, rows[..i], owns[..i]).part.scalars|))
  {
    hide AccountConstraints, AccountScalars, AddColumns;
    assert rows[..i+1][..i] == rows[..i] && owns[..i+1][..i] == owns[..i];
  }

  method SynthesizeAccounts(cs: ConstraintSystem, pre: Accounts, post: Accounts, fills: seq<Fill>, instrument: u64, keys: seq<u64>)
    returns (scalars: seq<u64>, totals: Columns)
    requires forall id :: id in keys ==> id in pre
    modifies cs
    ensures var b := AccountsPart(old(cs.numWitness), RowsOf(pre, post, keys, instrument), OwnsOf(fills, keys));
            cs.constraints == old(cs.constraints) + b.part.constraints && scalars == b.part.scalars && totals == b.totals
    ensures cs.numWitness == old(cs.numWitness) + |scalars| && cs.numPublic == old(cs.numPublic)
  {
    hide AccountsPart, AccountConstraints, AccountScalars, Own, RowOf, AddTerm;
    ghost var before, base := cs.constraints, cs.numWitness;
    ghost var rows, owns := RowsOf(pre, post, keys, instrument), OwnsOf(fills, keys);
    ghost var b := NO_BLOCKS;
    NoAccounts(base, rows, owns);
    scalars := [];
    totals := Columns([], [], [], []);
    for i := 0 to |keys|
      invariant b == AccountsPart(base, rows[..i], owns[..i])
      invariant cs.constraints == before + b.part.constraints && scalars == b.part.scalars && totals == b.totals
      invariant cs.numWitness == base + |scalars| && cs.numPublic == old(cs.numPublic)
    {
      AccountsPartStep(base, rows, owns, i);
      assert keys[i] in keys;
      var at := cs.numWitness;
      Associate(before, b.part.constraints, AccountConstraints(at, owns[i]));
      var more := SynthesizeAccount(cs, RowOf(pre[keys[i]], PostOf(post, keys[i]), instrument), fills, keys[i]);
      scalars := scalars + more;
      totals := AddColumns(totals, at);
      b := AccountsPart(base, rows[..i+1], owns[..i+1]);
    }
    assert rows[..|keys|] == rows && owns[..|keys|] == owns;
  }

  method SynthesizeConservation(cs: ConstraintSystem, pre: Accounts, post: Accounts, fills: seq<Fill>, instrument: u64)
    returns (scalars: seq<u64>)
    modifies cs
    ensures var p := LedgersPart(old(cs.numWitness), pre, post, fills, instrument);
            cs.constraints == old(cs.constraints) + p.constraints && scalars == p.scalars
    ensures cs.numWitness == old(cs.numWitness) + |scalars| && cs.numPublic == old(cs.numPublic)
  {
    hide AccountsPart, Ascending, Equality, RowOf, Own;
    var keys := InOrder(pre.Keys);
    AscendingKeys(pre.Keys);
    var totals;
    scalars, totals := SynthesizeAccounts(cs, pre, post, fills, instrument, keys);
    ghost var k0, k1 := Equality(totals.preCash, totals.postCash), Equality(totals.preInv, totals.postInv);
    Appended2(cs.constraints, k0, k1);
    ghost var b := AccountsPart(old(cs.numWitness), RowsOf(pre, post, keys, instrument), OwnsOf(fills, keys));
    Associate(old(cs.constraints), b.part.constraints, [k0, k1]);
    assert b.part.scalars + [] == b.part.scalars;
    cs.EnforceEqual(totals.preCash, totals.postCash);
    cs.EnforceEqual(totals.preInv, totals.postInv);
  }

  // ---- Meaning over the integers, for every assignment ----

  /** Net cash and inventory effect of an account's own fills, as assigned. */
  ghost function CashEffect(wit: seq<u64>, at: nat, own: seq<Fill>): int
    requires at + 4 + 2 * |own| <= |wit|
  {
    if own == [] then 0
    else
      var n := |own| - 1;
      CashEffect(wit, at, own[..n]) + CashSign(own[n].side) * wit[at + 4 + 2 * n]
  }

  ghost function QtyEffect(wit: seq<u64>, at: nat, own: seq<Fill>): int
    requires at + 4 + 2 * |own| <= |wit|
  {
    if own == [] then 0
    else
      var n := |own| - 1;
      QtyEffect(wit, at, own[..n]) + QtySign(own[n].side) * wit[at + 5 + 2 * n]
  }

  /** The balances of one account follow from its fills. */
  ghost predicate AccountBalances(wit: seq<u64>, at: nat, own: seq<Fill>)
    requires at + 4 + 2 * |own| <= |wit|
  {
    && wit[at + 1] == wit[at] + CashEffect(wit, at, own)
    && wit[at + 3] == wit[at + 2] + QtyEffect(wit, at, own)
  }

  lemma {:induction false} ExpectedValues(wit: seq<u64>, at: nat, own: seq<Fill>, pub: seq<u64>)
    requires at + 4 + 2 * |own| <= |wit|
    ensures Value(ExpectedCash(at, own), pub, wit) == wit[at] + CashEffect(wit, at, own)
    ensures Value(ExpectedInv(at, own), pub, wit) == wit[at + 2] + QtyEffect(wit, at, own)
  {
    hide Value, AddTerm;
    if own == [] {
      ValueOfTerm(Witness(at), 1, pub, wit);
      ValueOfTerm(Witness(at + 2), 1, pub, wit);
    } else {
      var n := |own| - 1;
      ExpectedValues(wit, at, own[..n], pub);
      ValueAddTerm(ExpectedCash(at, own[..n]), Witness(at + 4 + 2 * n), CashSign(own[n].side), pub, wit);
      ValueAddTerm(ExpectedInv(at, own[..n]), Witness(at + 5 + 2 * n), QtySign(own[n].side), pub, wit);
    }
  }

  lemma {:induction false} ExpectedCoefficients(at: nat, own: seq<Fill>)
    ensures SmallCoefficients(ExpectedCash(at, own)) && SmallCoefficients(ExpectedInv(at, own))
  {
    if own != [] { ExpectedCoefficients(at, own[..|own|-1]); }
  }

  lemma {:induction false} EffectsBounded(wit: seq<u64>, at: nat, own: seq<Fill>)
    requires at + 4 + 2 * |own| <= |wit|
    ensures -|own| * MAX64 <= CashEffect(wit, at, own) <= |own| * MAX64
    ensures -|own| * MAX64 <= QtyEffect(wit, at, own) <= |own| * MAX64
  {
    if own != [] {
      EffectsBounded(wit, at, own[..|own|-1]);
    }
  }

  const CROWD: nat := 0x2000_0000_0000_0000

  lemma {:induction false} AccountConstraintsMean(wit: seq<u64>, at: nat, own: seq<Fill>, pub: seq<u64>)
    requires at + 4 + 2 * |own| <= |wit| && |own| < CROWD
    ensures AllHold(AccountConstraints(at, own), pub, wit) <==> AccountBalances(wit, at, own)
  {
    hide Holds, Equality, Value, ExpectedCash, ExpectedInv, CashEffect, QtyEffect;
    ExpectedValues(wit, at, own, pub);
    ExpectedCoefficients(at, own);
    EffectsBounded(wit, at, own);
    ValueOfTerm(Witness(at + 1), 1, pub, wit);
    ValueOfTerm(Witness(at + 3), 1, pub, wit);
    EqualityMeans(FromVar(Witness(at + 1)), ExpectedCash(at, own), pub, wit);
    EqualityMeans(FromVar(Witness(at + 3)), ExpectedInv(at, own), pub, wit);
    var ks := AccountConstraints(at, own);
    AllHoldPair(ks[0], ks[1], pub, wit);
  }

  /** Column totals of the assigned balances. */
  datatype Totals = Totals(preCash: int, postCash: int, preInv: int, postInv: int)

  ghost function ColumnTotals(wit: seq<u64>, base: nat, rows: seq<Row>, owns: seq<seq<Fill>>): Totals
    requires |rows| == |owns| && base + |AccountsPart(base, rows, owns).part.scalars| <= |wit|
  {
    if rows == [] then Totals(0, 0, 0, 0)
    else
      var n := |rows| - 1;
      var at := base + |AccountsPart(base, rows[..n], owns[..n]).part.scalars|;
      var t := ColumnTotals(wit, base, rows[..n], owns[..n]);
      Totals(t.preCash + wit[at], t.postCash + wit[at + 1], t.preInv + wit[at + 2], t.postInv + wit[at + 3])
  }

  ghost predicate EveryAccountBalances(wit: seq<u64>, base: nat, rows: seq<Row>, owns: seq<seq<Fill>>)
    requires |rows| == |owns| && base + |AccountsPart(base, rows, owns).part.scalars| <= |wit|
  {
    rows == [] ||
    var n := |rows| - 1;
    && EveryAccountBalances(wit, base, rows[..n], owns[..n])
    && AccountBalances(wit, base + |AccountsPart(base, rows[..n], owns[..n]).part.scalars|, owns[n])
  }

  ghost predicate SmallCoefficients(lc: Linear)
  {
    forall t :: t in lc ==> t.coeff > -HALF
  }

  ghost predicate ColumnsAre(c: Columns, t: Totals, pub: seq<u64>, wit: seq<u64>)
  {
    && Value(c.preCash, pub, wit) == t.preCash && Value(c.postCash, pub, wit) == t.postCash
    && Value(c.preInv, pub, wit) == t.preInv && Value(c.postInv, pub, wit) == t.postInv
    && SmallCoefficients(c.postCash) && SmallCoefficients(c.postInv)
  }

  ghost predicate TotalsWithin(t: Totals, bound: int)
  {
    0 <= t.preCash <= bound && 0 <= t.postCash <= bound && 0 <= t.preInv <= bound && 0 <= t.postInv <= bound
  }

  lemma {:induction false} ColumnsGrow(c: Columns, t: Totals, at: nat, pub: seq<u64>, wit: seq<u64>)
    requires ColumnsAre(c, t, pub, wit) && at + 4 <= |wit|
    ensures ColumnsAre(AddColumns(c, at), Totals(t.preCash + wit[at], t.postCash + wit[at + 1], t.preInv + wit[at + 2], t.postInv + wit[at + 3]), pub, wit)
  {
    hide Value;
    ValueAddTerm(c.preCash, Witness(at), 1, pub, wit);
    ValueAddTerm(c.postCash, Witness(at + 1), 1, pub, wit);
    ValueAddTerm(c.preInv, Witness(at + 2), 1, pub, wit);
    ValueAddTerm(c.postInv, Witness(at + 3), 1, pub, wit);
  }

  lemma {:induction false} NoBlocksMean(wit: seq<u64>, base: nat, pub: seq<u64>)
    ensures AllHold([], pub, wit)
    ensures ColumnsAre(NO_BLOCKS.totals, Totals(0, 0, 0, 0), pub, wit)
  {
    assert Value([], pub, wit) == 0;
  }

  /** The account blocks hold exactly when every account balances, and the
      running totals evaluate to the column sums. */
  lemma {:induction false} AccountsPartMeans(wit: seq<u64>, base: nat, rows: seq<Row>, owns: seq<seq<Fill>>, pub: seq<u64>)
    requires |rows| == |owns| && base + |AccountsPart(base, rows, owns).part.scalars| <= |wit|
    requires forall i :: 0 <= i < |owns| ==> |owns[i]| < CROWD
    ensures AllHold(AccountsPart(base, rows, owns).part.constraints, pub, wit) <==> EveryAccountBalances(wit, base, rows, owns)
    ensures ColumnsAre(AccountsPart(base, rows, owns).totals, ColumnTotals(wit, base, rows, owns), pub, wit)
    ensures TotalsWithin(ColumnTotals(wit, base, rows, owns), |rows| * MAX64)
  {
    hide Holds, AccountConstraints, AccountBalances, AddColumns, AllHold, AccountScalars, ColumnsAre, Value;
    if rows == [] {
      NoBlocksMean(wit, base, pub);
    } else {
      var n := |rows| - 1;
      var front := AccountsPart(base, rows[..n], owns[..n]);
      var at := base + |front.part.scalars|;
      AccountsPartMeans(wit, base, rows[..n], owns[..n], pub);
      AccountConstraintsMean(wit, at, owns[n], pub);
      AllHoldJoin(front.part.constraints, AccountConstraints(at, owns[n]), pub, wit);
      ColumnsGrow(front.totals, ColumnTotals(wit, base, rows[..n], owns[..n]), at, pub, wit);
    }
  }

  /** For every assignment of 64-bit scalars, with fewer than 2^61 accounts and
      fills, satisfaction of the wrapped 128-bit system is exactly the balance
      of every account and of both totals over the unbounded integers. */
  lemma {:induction false} WrappedConservationIsExact(wit: seq<u64>, base: nat, rows: seq<Row>, owns: seq<seq<Fill>>, pub: seq<u64>)
    requires |rows| == |owns| < CROWD && base + |ConservationPart(base, rows, owns).scalars| <= |wit|
    requires forall i :: 0 <= i < |owns| ==> |owns[i]| < CROWD
    ensures base + |AccountsPart(base, rows, owns).part.scalars| <= |wit|
    ensures AllHold(ConservationPart(base, rows, owns).constraints, pub, wit) <==>
              && EveryAccountBalances(wit, base, rows, owns)
              && ColumnTotals(wit, base, rows, owns).preCash == ColumnTotals(wit, base, rows, owns).postCash
              && ColumnTotals(wit, base, rows, owns).preInv == ColumnTotals(wit, base, rows, owns).postInv
  {
    hide Holds, Equality, Value, EveryAccountBalances, AccountsPart, ColumnTotals;
    var b := AccountsPart(base, rows, owns);
    AccountsPartMeans(wit, base, rows, owns, pub);
    EqualityMeans(b.totals.preCash, b.totals.postCash, pub, wit);
    EqualityMeans(b.totals.preInv, b.totals.postInv, pub, wit);
    var ks := TotalConstraints(b.totals);
    AllHoldPair(ks[0], ks[1], pub, wit);
    AllHoldJoin(b.part.constraints, ks, pub, wit);
  }
}
