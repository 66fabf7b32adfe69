/** Clearing-optimality constraints: no candidate price executes more than the
    published volume, and the published outcome is bound to witness copies. */
module ClearingConstraints {
  import opened Primitives
  import opened Orders
  import opened Auction
  import opened R1cs
  import opened ConstraintParts
  import Sorting

  function Slack(vol: u64, v: u64): u64 { SaturatingSubQty(vol, v) }

  /** Witness layout of one candidate: demand, supply, volume, slack. */
  function CandidateConstraints(base: nat, volVar: Variable, d: u64, s: u64): seq<Constraint>
  {
    [Equality(AddTerm(FromVar(volVar), Witness(base + 2), -1), FromVar(Witness(base + 3))),
     Constraint(FromVar(Witness(base)), FromVar(Witness(base + 1)), FromConstant(Wrap(d * s)))]
  }

  function CandidateScalars(d: u64, s: u64, vol: u64): seq<u64>
  {
    [d, s, Min(d, s), Slack(vol, Min(d, s))]
  }

  /** Demand and supply at each candidate, as the naive scans compute them. */
  ghost function CandidatesPart(base: nat, volVar: Variable, orders: seq<Order>, prices: seq<u64>, vol: u64): Part
    requires TotalsFit(orders)
  {
    if prices == [] then NOTHING
    else
      var n := |prices| - 1;
      var front := CandidatesPart(base, volVar, orders, prices[..n], vol);
      DemandSupplyBounded(orders, prices[n]);
      Extend(front, CandidateConstraints(base + |front.scalars|, volVar, Demand(orders, prices[n]), Supply(orders, prices[n])),
             CandidateScalars(Demand(orders, prices[n]), Supply(orders, prices[n]), vol))
  }

  function OutcomeConstraints(base: nat, cpVar: Variable, volVar: Variable): seq<Constraint>
  {
    [Equality(FromVar(Witness(base)), FromVar(cpVar)), Equality(FromVar(Witness(base + 1)), FromVar(volVar))]
  }

  ghost function ClearingPart(base: nat, pubBase: nat, orders: seq<Order>, cp: u64, vol: u64): Part
    requires TotalsFit(orders)
  {
    var p := CandidatesPart(base, Public(pubBase + 1), orders, Candidates(orders), vol);
    Extend(p, OutcomeConstraints(base + |p.scalars|, Public(pubBase), Public(pubBase + 1)), [cp, vol])
  }

  lemma {:induction false} NoCandidates(base: nat, volVar: Variable, orders: seq<Order>, prices: seq<u64>, vol: u64)
    requires TotalsFit(orders)
    ensures CandidatesPart(base, volVar, orders, prices[..0], vol) == NOTHING
  {
  }

  lemma {:induction false} CandidatesPartStep(base: nat, volVar: Variable, orders: seq<Order>, prices: seq<u64>, vol: u64, i: nat)
    requires TotalsFit(orders) && i < |prices|
    ensures Demand(orders, prices[i]) <= MAX64 && Supply(orders, prices[i]) <= MAX64
    ensures CandidatesPart(base, volVar, orders, prices[..i+1], vol)
         == Extend(CandidatesPart(base, volVar, orders, prices[..i], vol),
                   CandidateConstraints(base + |CandidatesPart(base, volVar, orders, prices[..i], vol).scalars|, volVar,
                                        Demand(orders, prices[i]), Supply(orders, prices[i])),
                   CandidateScalars(Demand(orders, prices[i]), Supply(orders, prices[i]), vol))
  {
    assert prices[..i+1][..i] == prices[..i];
    DemandSupplyBounded(orders, prices[i]);
  }

  method SynthesizeCandidate(cs: ConstraintSystem, volVar: Variable, d: u64, s: u64, vol: u64) returns (scalars: seq<u64>)
    modifies cs
    ensures cs.constraints == old(cs.constraints) + CandidateConstraints(old(cs.numWitness), volVar, d, s)
    ensures scalars == CandidateScalars(d, s, vol) && cs.numWitness == old(cs.numWitness) + 4
    ensures cs.numPublic == old(cs.numPublic)
  {
    hide Equality, AddTerm, FromVar, FromConstant, Wrap;
    ghost var before, ks := cs.constraints, CandidateConstraints(cs.numWitness, volVar, d, s);
    Appended2(before, ks[0], ks[1]);
    var v: u64 := Min(d, s);
    var dVar := cs.AllocWitness();
    var sVar := cs.AllocWitness();
    var vVar := cs.AllocWitness();
    var slackVar := cs.AllocWitness();
    scalars := [d, s, v, if vol > v then vol - v else 0];
    cs.EnforceEqual(AddTerm(FromVar(volVar), vVar, -1), FromVar(slackVar));
    cs.Enforce(FromVar(dVar), FromVar(sVar), FromConstant(Wrap(d * s)));
  }

  method SynthesizeCandidates(cs: ConstraintSystem, orders: seq<Order>, prices: seq<u64>, volVar: Variable, vol: u64)
    returns (scalars: seq<u64>)
    requires TotalsFit(orders)
    modifies cs
    ensures var p := CandidatesPart(old(cs.numWitness), volVar, orders, prices, vol);
            cs.constraints == old(cs.constraints) + p.constraints && scalars == p.scalars
    ensures cs.numWitness == old(cs.numWitness) + |scalars| && cs.numPublic == old(cs.numPublic)
  {
    hide CandidateConstraints, CandidatesPart, TotalsFit, Demand, Supply;
    ghost var before, base := cs.constraints, cs.numWitness;
    ghost var p := NOTHING;
    NoCandidates(base, volVar, orders, prices, vol);
    scalars := [];
    for i := 0 to |prices|
      invariant p == CandidatesPart(base, volVar, orders, prices[..i], vol)
      invariant cs.constraints == before + p.constraints && scalars == p.scalars
      invariant cs.numWitness == base + |scalars| && cs.numPublic == old(cs.numPublic)
    {
      CandidatesPartStep(base, volVar, orders, prices, vol, i);
      var d := DemandFromOrders(orders, prices[i]);
      var s := SupplyFromOrders(orders, prices[i]);
      ghost var ks := CandidateConstraints(base + |scalars|, volVar, d.value, s.value);
      Associate(before, p.constraints, ks);
      var more := SynthesizeCandidate(cs, volVar, d.value, s.value, vol);
      p := Extend(p, ks, more);
      scalars := scalars + more;
    }
    assert prices[..|prices|] == prices;
  }

  /** Synthesis first re-derives the outcome and refuses any other claim; once
      the book clears, the naive scans cannot overflow. */
  method SynthesizeClearing(cs: ConstraintSystem, orders: seq<Order>, claimed: ClearingOutcome) returns (r: Result<seq<u64>>)
    modifies cs
    ensures r.Ok? <==> Clear(orders) == Ok(claimed)
    ensures r.Ok? ==> TotalsFit(orders)
    ensures r.Ok? ==>
              var p := ClearingPart(old(cs.numWitness), old(cs.numPublic), orders, PriceOrZero(claimed), claimed.volume);
              cs.constraints == old(cs.constraints) + p.constraints && r.value == p.scalars
    ensures r.Ok? ==> cs.numWitness == old(cs.numWitness) + |r.value| && cs.numPublic == old(cs.numPublic) + 2
  {
    hide CandidatesPart, Candidates, MaximizersOf, TotalsFit, Equality, OutcomeConstraints;
    var honest := DetermineClearingOutcome(orders);
    if honest.Err? || honest.value != claimed { return Err; }
    ClearFits(orders);
    var cpVar := cs.AllocPublic();
    var volVar := cs.AllocPublic();
    var prices := CandidatePrices(orders);
    var scalars := SynthesizeCandidates(cs, orders, prices, volVar, claimed.volume);
    ghost var mid, at := cs.constraints, cs.numWitness;
    ghost var p := CandidatesPart(old(cs.numWitness), volVar, orders, prices, claimed.volume);
    Associate(old(cs.constraints), p.constraints, OutcomeConstraints(at, cpVar, volVar));
    OutcomePair(mid, at, cpVar, volVar);
    var cpWitness := cs.AllocWitness();
    var volWitness := cs.AllocWitness();
    cs.EnforceEqual(FromVar(cpWitness), FromVar(cpVar));
    cs.EnforceEqual(FromVar(volWitness), FromVar(volVar));
    return Ok(scalars + [PriceOrZero(claimed), claimed.volume]);
  }

  function PriceOrZero(out: ClearingOutcome): u64
  {
    match out.price case Some(p) => p case None => 0
  }

  lemma {:induction false} OutcomePair(s: seq<Constraint>, at: nat, cpVar: Variable, volVar: Variable)
    ensures s + [Equality(FromVar(Witness(at)), FromVar(cpVar))] + [Equality(FromVar(Witness(at + 1)), FromVar(volVar))]
         == s + OutcomeConstraints(at, cpVar, volVar)
  {
    Appended2(s, Equality(FromVar(Witness(at)), FromVar(cpVar)), Equality(FromVar(Witness(at + 1)), FromVar(volVar)));
  }

  lemma {:induction false} ClearFits(orders: seq<Order>)
    requires Clear(orders).Ok?
    ensures TotalsFit(orders)
  {
  }

  // ---- Meaning ----

  lemma {:induction false} HonestCandidate(at: nat, volVar: Variable, d: u64, s: u64, vol: u64, pub: seq<u64>, wit: seq<u64>)
    requires Window(wit, at, CandidateScalars(d, s, vol)) && Assigned(volVar, pub, wit) == vol
    ensures AllHold(CandidateConstraints(at, volVar, d, s), pub, wit) <==> Min(d, s) <= vol
  {
    hide Holds, Equality, Wrap;
    var sc := CandidateScalars(d, s, vol);
    WindowAt(wit, at, sc, 0);
    WindowAt(wit, at, sc, 1);
    WindowAt(wit, at, sc, 2);
    WindowAt(wit, at, sc, 3);
    DifferenceIs(volVar, Witness(at + 2), Witness(at + 3), pub, wit);
    ProductIsConstant(Witness(at), Witness(at + 1), d, s, pub, wit);
    var ks := CandidateConstraints(at, volVar, d, s);
    AllHoldPair(ks[0], ks[1], pub, wit);
  }

  lemma {:induction false} BoundStep(orders: seq<Order>, front: seq<u64>, last: u64, vol: u64)
    ensures (forall p :: p in front + [last] ==> Volume(orders, p) <= vol)
       <==> (forall p :: p in front ==> Volume(orders, p) <= vol) && Min(Demand(orders, last), Supply(orders, last)) <= vol
  {
    hide Demand, Supply;
    assert last in front + [last];
    assert forall p :: p in front + [last] <==> p == last || p in front;
  }

  /** The candidate constraints hold exactly when the published volume is an
      upper bound at every candidate price. */
  lemma {:induction false} CandidatesPartHonest(
      base: nat, volVar: Variable, orders: seq<Order>, prices: seq<u64>, vol: u64, pub: seq<u64>, wit: seq<u64>)
    requires TotalsFit(orders) && Assigned(volVar, pub, wit) == vol
    requires Window(wit, base, CandidatesPart(base, volVar, orders, prices, vol).scalars)
    ensures AllHold(CandidatesPart(base, volVar, orders, prices, vol).constraints, pub, wit)
       <==> forall p :: p in prices ==> Volume(orders, p) <= vol
  {
    hide Holds, Demand, Supply, Volume, Assigned, CandidateConstraints, CandidateScalars, CandidatesPart, TotalsFit, Window;
    if prices == [] {
      NoCandidates(base, volVar, orders, prices, vol);
      assert prices[..0] == prices;
    } else {
      var n := |prices| - 1;
      var front := CandidatesPart(base, volVar, orders, prices[..n], vol);
      CandidatesPartStep(base, volVar, orders, prices, vol, n);
      assert prices[..n+1] == prices;
      var d, s := Demand(orders, prices[n]), Supply(orders, prices[n]);
      var at := base + |front.scalars|;
      WindowSplit(wit, base, front.scalars, CandidateScalars(d, s, vol));
      CandidatesPartHonest(base, volVar, orders, prices[..n], vol, pub, wit);
      HonestCandidate(at, volVar, d, s, vol, pub, wit);
      AllHoldJoin(front.constraints, CandidateConstraints(at, volVar, d, s), pub, wit);
      assert prices == prices[..n] + [prices[n]];
      BoundStep(orders, prices[..n], prices[n], vol);
    }
  }

  /** With the published price and volume public, the subrelation holds exactly
      when no candidate executes more than the published volume. */
  lemma {:induction false} ClearingPartHonest(base: nat, pubBase: nat, orders: seq<Order>, cp: u64, vol: u64, pub: seq<u64>, wit: seq<u64>)
    requires TotalsFit(orders) && pubBase + 1 < |pub| && pub[pubBase] == cp && pub[pubBase + 1] == vol
    requires Window(wit, base, ClearingPart(base, pubBase, orders, cp, vol).scalars)
    ensures AllHold(ClearingPart(base, pubBase, orders, cp, vol).constraints, pub, wit)
       <==> forall p :: p in PriceSet(orders) ==> Volume(orders, p) <= vol
  {
    hide Holds, CandidatesPart, Volume, TotalsFit, Equality, PriceSet, Candidates;
    var p := CandidatesPart(base, Public(pubBase + 1), orders, Candidates(orders), vol);
    var at := base + |p.scalars|;
    WindowSplit(wit, base, p.scalars, [cp, vol]);
    WindowAt(wit, at, [cp, vol], 0);
    WindowAt(wit, at, [cp, vol], 1);
    CandidatesPartHonest(base, Public(pubBase + 1), orders, Candidates(orders), vol, pub, wit);
    CandidateMembers(orders);
    VarsEqual(Witness(at), Public(pubBase), pub, wit);
    VarsEqual(Witness(at + 1), Public(pubBase + 1), pub, wit);
    var ks := OutcomeConstraints(at, Public(pubBase), Public(pubBase + 1));
    AllHoldPair(ks[0], ks[1], pub, wit);
    AllHoldJoin(p.constraints, ks, pub, wit);
  }

  lemma {:induction false} CandidateMembers(orders: seq<Order>)
    ensures forall p :: p in Candidates(orders) <==> p in PriceSet(orders)
  {
    Sorting.AscendingKeys(PriceSet(orders));
  }

  // ---- Meaning for every assignment ----

  /** The slack and the product of one candidate. */
  predicate CandidateEquations(wit: seq<u64>, at: nat, d: u64, s: u64, vol: u64)
  {
    && vol - Cell(wit, at + 2) == Cell(wit, at + 3)
    && Cell(wit, at) * Cell(wit, at + 1) == d * s
  }

  lemma {:induction false} CandidateConstraintsMean(at: nat, volVar: Variable, d: u64, s: u64, pub: seq<u64>, wit: seq<u64>)
    ensures AllHold(CandidateConstraints(at, volVar, d, s), pub, wit)
       <==> CandidateEquations(wit, at, d, s, Assigned(volVar, pub, wit))
  {
    hide Holds, Equality, Wrap, Cell, Assigned;
    CellIsAssigned(wit, at, pub);
    CellIsAssigned(wit, at + 1, pub);
    CellIsAssigned(wit, at + 2, pub);
    CellIsAssigned(wit, at + 3, pub);
    DifferenceIs(volVar, Witness(at + 2), Witness(at + 3), pub, wit);
    ProductIsConstant(Witness(at), Witness(at + 1), d, s, pub, wit);
    var ks := CandidateConstraints(at, volVar, d, s);
    AllHoldPair(ks[0], ks[1], pub, wit);
  }

  ghost predicate CandidateEquationsAt(wit: seq<u64>, base: nat, orders: seq<Order>, prices: seq<u64>, vol: u64, k: nat)
    requires TotalsFit(orders) && k < |prices|
  {
    DemandSupplyBounded(orders, prices[k]);
    CandidateEquations(wit, base + 4 * k, Demand(orders, prices[k]), Supply(orders, prices[k]), vol)
  }

  ghost predicate EveryCandidate(wit: seq<u64>, base: nat, orders: seq<Order>, prices: seq<u64>, vol: u64)
    requires TotalsFit(orders)
  {
    forall k :: 0 <= k < |prices| ==> CandidateEquationsAt(wit, base, orders, prices, vol, k)
  }

  lemma {:induction false} EveryCandidateStep(wit: seq<u64>, base: nat, orders: seq<Order>, prices: seq<u64>, vol: u64)
    requires TotalsFit(orders) && prices != []
    ensures EveryCandidate(wit, base, orders, prices, vol)
       <==> EveryCandidate(wit, base, orders, prices[..|prices|-1], vol) && CandidateEquationsAt(wit, base, orders, prices, vol, |prices| - 1)
  {
    hide TotalsFit, CandidateEquations, Demand, Supply;
    var front := prices[..|prices|-1];
    forall k | 0 <= k < |front|
      ensures CandidateEquationsAt(wit, base, orders, front, vol, k) == CandidateEquationsAt(wit, base, orders, prices, vol, k) {}
  }

  /** For every assignment, the candidate constraints say that each volume cell
      and its slack make up the published volume, and that each pair of demand
      and supply cells has the true product. */
  lemma {:induction false} CandidatesPartMeans(
      base: nat, volVar: Variable, orders: seq<Order>, prices: seq<u64>, vol: u64, pub: seq<u64>, wit: seq<u64>)
    requires TotalsFit(orders)
    ensures |CandidatesPart(base, volVar, orders, prices, vol).scalars| == 4 * |prices|
    ensures AllHold(CandidatesPart(base, volVar, orders, prices, vol).constraints, pub, wit)
       <==> EveryCandidate(wit, base, orders, prices, Assigned(volVar, pub, wit))
  {
    hide Holds, Demand, Supply, Assigned, CandidateConstraints, TotalsFit, CandidateEquations, EveryCandidate, CandidatesPart;
    if prices == [] {
      NoCandidates(base, volVar, orders, prices, vol);
      assert prices[..0] == prices;
      NoCandidateEquations(wit, base, orders, Assigned(volVar, pub, wit));
    } else {
      var n := |prices| - 1;
      var front := CandidatesPart(base, volVar, orders, prices[..n], vol);
      CandidatesPartStep(base, volVar, orders, prices, vol, n);
      assert prices[..n+1] == prices;
      CandidatesPartMeans(base, volVar, orders, prices[..n], vol, pub, wit);
      var d, s := Demand(orders, prices[n]), Supply(orders, prices[n]);
      CandidateConstraintsMean(base + 4 * n, volVar, d, s, pub, wit);
      AllHoldJoin(front.constraints, CandidateConstraints(base + 4 * n, volVar, d, s), pub, wit);
      EveryCandidateStep(wit, base, orders, prices, Assigned(volVar, pub, wit));
    }
  }

  lemma {:induction false} NoCandidateEquations(wit: seq<u64>, base: nat, orders: seq<Order>, vol: u64)
    requires TotalsFit(orders)
    ensures EveryCandidate(wit, base, orders, [], vol)
  {
  }

  /** The whole subrelation, for every assignment. */
  lemma {:induction false} ClearingPartMeans(base: nat, pubBase: nat, orders: seq<Order>, cp: u64, vol: u64, pub: seq<u64>, wit: seq<u64>)
    requires TotalsFit(orders) && pubBase + 1 < |pub|
    ensures AllHold(ClearingPart(base, pubBase, orders, cp, vol).constraints, pub, wit) <==>
              && EveryCandidate(wit, base, orders, Candidates(orders), pub[pubBase + 1])
              && Cell(wit, base + 4 * |Candidates(orders)|) == pub[pubBase]
              && Cell(wit, base + 4 * |Candidates(orders)| + 1) == pub[pubBase + 1]
  {
    hide Holds, CandidatesPart, TotalsFit, Equality, Candidates, EveryCandidate;
    var p := CandidatesPart(base, Public(pubBase + 1), orders, Candidates(orders), vol);
    CandidatesPartMeans(base, Public(pubBase + 1), orders, Candidates(orders), vol, pub, wit);
    var at := base + |p.scalars|;
    VarsEqual(Witness(at), Public(pubBase), pub, wit);
    VarsEqual(Witness(at + 1), Public(pubBase + 1), pub, wit);
    var ks := OutcomeConstraints(at, Public(pubBase), Public(pubBase + 1));
    AllHoldPair(ks[0], ks[1], pub, wit);
    AllHoldJoin(p.constraints, ks, pub, wit);
  }

  /** The assignment that gives a candidate its own demand and supply, and the
      published volume as its volume. */
  ghost function IndifferentCell(base: nat, orders: seq<Order>, cp: u64, vol: u64, i: nat): u64
    requires TotalsFit(orders)
  {
    var prices, k := Candidates(orders), i - base;
    if k < 0 then 0
    else if k < 4 * |prices| then
      DemandSupplyBounded(orders, prices[k / 4]);
      if k % 4 == 0 then Demand(orders, prices[k / 4])
      else if k % 4 == 1 then Supply(orders, prices[k / 4])
      else if k % 4 == 2 then vol
      else 0
    else if k == 4 * |prices| then cp
    else vol
  }

  /** The subrelation alone does not fix the outcome: some assignment satisfies
      it for every published price and volume.  What fixes the outcome is the
      comparison with the engine's own clearing that synthesis makes first. */
  lemma {:induction false} AnyOutcomeIsSatisfiable(base: nat, pubBase: nat, orders: seq<Order>, cp: u64, vol: u64, pub: seq<u64>)
      returns (wit: seq<u64>)
    requires TotalsFit(orders) && pubBase + 1 < |pub| && pub[pubBase] == cp && pub[pubBase + 1] == vol
    ensures AllHold(ClearingPart(base, pubBase, orders, cp, vol).constraints, pub, wit)
  {
    hide Demand, Supply, TotalsFit, Candidates, Holds, CandidatesPart, OutcomeConstraints;
    var prices := Candidates(orders);
    var size := base + 4 * |prices| + 2;
    wit := seq(size, i requires 0 <= i < size => IndifferentCell(base, orders, cp, vol, i));
    forall k | 0 <= k < |prices| ensures CandidateEquationsAt(wit, base, orders, prices, vol, k) {
      IndifferentBlock(base, orders, cp, vol, k);
    }
    ClearingPartMeans(base, pubBase, orders, cp, vol, pub, wit);
  }

  lemma {:induction false} IndifferentBlock(base: nat, orders: seq<Order>, cp: u64, vol: u64, k: nat)
    requires TotalsFit(orders) && k < |Candidates(orders)|
    ensures IndifferentCell(base, orders, cp, vol, base + 4 * k) == Demand(orders, Candidates(orders)[k])
    ensures IndifferentCell(base, orders, cp, vol, base + 4 * k + 1) == Supply(orders, Candidates(orders)[k])
    ensures IndifferentCell(base, orders, cp, vol, base + 4 * k + 2) == vol
    ensures IndifferentCell(base, orders, cp, vol, base + 4 * k + 3) == 0
  {
    hide Demand, Supply, Candidates;
  }
}
