/** Which states one iteration leaves unchanged. */
module Stationary {
  import opened Vectors
  import opened Algebra
  import opened Threshold
  import opened Topologies
  import opened Objective
  import opened Certificate
  import opened Prices
  import opened BestResponse
  import opened BestResponseGuarantees
  import opened Synchronous

  /** Some broker is exactly at its margin while the responses would raise its load. */
  ghost predicate Stalled(a: Matrix, br: Matrix, t: Topology, p: Params)
    requires t.Fits(a) && t.Fits(br)
  {
    exists j :: 0 <= j < t.M()
      && Loads(a, t.M())[j] == t.brokers[j] - p.deltaS
      && Loads(DiffRows(br, a), t.M())[j] > 0.0
  }

  /** No source's solver fails at these prices. */
  ghost predicate AllRespond(sqrt: real -> real, t: Topology, prices: Vec)
    requires IsSqrt(sqrt) && Shape(t.links, t.N(), t.M()) && |prices| == t.M()
  {
    forall i :: 0 <= i < t.N() ==> BestRow(sqrt, t, prices, i).Ok?
  }

  lemma BoundZero(growth: real, headroom: real, eta: real, variant: Variant)
    requires 0.0 < eta && headroom >= 0.0
    ensures StepBound(growth, headroom, eta, variant) >= 0.0
    ensures StepBound(growth, headroom, eta, variant) == 0.0 <==> growth > 0.0 && headroom == 0.0
  {
    if growth > 0.0 {
      MulPos(eta, growth);
      var width := if variant == Paper then eta * growth else growth;
      DivGe(headroom, width, 0.0);
      DivLe(headroom, width, 0.0);
    }
  }

  lemma StepZero(plan: Plan, br: Matrix, t: Topology, p: Params)
    requires plan.Fits(t) && t.Fits(br) && t.M() > 0 && p.Valid()
    requires Guarded(plan.routing, t, p.deltaS)
    ensures SafeStep(plan.routing, br, t, p) == 0.0 <==> Stalled(plan.routing, br, t, p)
  {
    hide Loads, StepBound;
    var bounds := SafeStepBounds(plan.routing, br, t, p);
    forall j | 0 <= j < t.M()
      ensures bounds[j] >= 0.0
      ensures bounds[j] == 0.0 <==> Loads(DiffRows(br, plan.routing), t.M())[j] > 0.0
                                    && Loads(plan.routing, t.M())[j] == t.brokers[j] - p.deltaS
    {
      BoundZero(Loads(DiffRows(br, plan.routing), t.M())[j],
                t.brokers[j] - p.deltaS - Loads(plan.routing, t.M())[j], p.eta, p.variant);
    }
    assert forall j :: 0 <= j < t.M() ==> bounds[j] in bounds;
  }

  lemma RoutingFixed(a: Matrix, br: Matrix, t: Topology, w: real)
    requires t.Fits(a) && t.Fits(br)
    ensures MixRows(w, a, br) == a <==> w == 0.0 || br == a
  {
    hide Blend;
    if w == 0.0 || br == a {
      forall i, j | 0 <= i < t.N() && 0 <= j < t.M()
        ensures Blend(w, a[i][j], br[i][j]) == a[i][j]
      {
        BlendStill(w, a[i][j], br[i][j]);
      }
      assert forall i :: 0 <= i < t.N() ==> Mix(w, a[i], br[i]) == a[i];
    } else {
      var i :| 0 <= i < t.N() && br[i] != a[i];
      var j :| 0 <= j < t.M() && br[i][j] != a[i][j];
      BlendFixed(w, a[i][j], br[i][j]);
      assert MixRows(w, a, br)[i][j] != a[i][j];
    }
  }

  lemma BlendStill(w: real, x: real, y: real)
    requires w == 0.0 || x == y
    ensures Blend(w, x, y) == x
  {
  }

  /**
   A step leaves the plan unchanged exactly when the prices are the marginal costs of the loads
   and either every row already is its best response or the common step is stalled at a margin.
   */
  lemma StationaryIff(sqrt: real -> real, plan: Plan, t: Topology, p: Params, held: set<nat>)
    requires IsSqrt(sqrt) && t.Valid() && p.Valid() && p.gamma != 0.0
    requires plan.Fits(t) && InDomain(plan.routing, t)
    requires Guarded(plan.routing, t, p.deltaS) && p.eps <= p.deltaS
    ensures var br := Responses(sqrt, plan, t, plan.prices, held);
      IterationStep(sqrt, plan, t, p, held).plan == plan
        <==>
      (plan.prices == TruePrices(plan.routing, t)
       && (br == plan.routing || Stalled(plan.routing, br, t, p)))
  {
    hide Loads, Responses, TruePrices, SafeStep, Stalled;
    var q := NewPrices(plan, t, p);
    assert Guarded(plan.routing, t, p.eps);
    PricesFixed(plan.routing, t, plan.prices, p.gamma, p.eps);
    if q == plan.prices {
      var br := Responses(sqrt, plan, t, q, held);
      var s := SafeStep(plan.routing, br, t, p);
      StepZero(plan, br, t, p);
      RoutingFixed(plan.routing, br, t, Prod(p.eta, s));
      StepVanishes(p.eta, s);
    }
  }

  lemma StepVanishes(eta: real, s: real)
    requires eta > 0.0
    ensures Prod(eta, s) == 0.0 <==> s == 0.0
  {
    if s != 0.0 {
      MulNonZero(eta, s);
    }
  }

  /** The topology that asks each source for exactly the flow it sends now. */
  function OwnRates(a: Matrix, t: Topology): Topology {
    t.(rates := RowSums(a))
  }

  lemma OwnRatesValid(a: Matrix, t: Topology)
    requires t.Valid() && InDomain(a, t)
    ensures OwnRates(a, t).Valid() && InDomain(a, OwnRates(a, t))
    ensures Conserves(a, OwnRates(a, t), 0.0)
  {
    hide Loads, Sum;
    forall i | 0 <= i < t.N()
      ensures Sum(a[i]) >= 0.0
      ensures Sum(a[i]) > 0.0 ==> HasLink(t.links[i])
    {
      SumNonNeg(a[i]);
      if !HasLink(t.links[i]) {
        SumConst(a[i], 0.0);
        assert Prod(|a[i]| as real, 0.0) == 0.0;
      }
    }
  }

  /** A source that has links has a cheapest one. */
  lemma RowMinsExist(a: Matrix, t: Topology) returns (m: Vec)
    requires InDomain(a, t)
    ensures RowMins(a, t, m)
  {
    m := [];
    while |m| < t.N()
      invariant |m| <= t.N()
      invariant forall i :: 0 <= i < |m| ==> IsRowMin(a, t, i, m[i])
    {
      var x := RowMinExists(a, t, |m|);
      m := m + [x];
    }
  }

  lemma RowMinExists(a: Matrix, t: Topology, i: nat) returns (x: real)
    requires InDomain(a, t) && i < t.N()
    ensures IsRowMin(a, t, i, x)
  {
    hide Loads, Marginal;
    var best := 0;
    var found := false;
    x := 0.0;
    for j := 0 to t.M()
      invariant found ==> 0 <= best < t.M() && t.links[i][best] > 0.0 && x == LinkMarginal(a, t, i, best)
      invariant found ==> forall k :: 0 <= k < j && t.links[i][k] > 0.0 ==> x <= LinkMarginal(a, t, i, k)
      invariant !found ==> x == 0.0 && forall k :: 0 <= k < j ==> t.links[i][k] <= 0.0
    {
      if t.links[i][j] > 0.0 {
        if !found || LinkMarginal(a, t, i, j) < x {
          best, found, x := j, true, LinkMarginal(a, t, i, j);
        }
      }
    }
  }

  /** When every row is its best response to the true prices, complementarity holds exactly. */
  lemma BestRowsComplementary(sqrt: real -> real, plan: Plan, t: Topology, m: Vec)
    requires IsSqrt(sqrt) && t.Valid() && plan.Fits(t) && InDomain(plan.routing, t)
    requires plan.prices == TruePrices(plan.routing, t)
    requires AllRespond(sqrt, t, plan.prices)
    requires Responses(sqrt, plan, t, plan.prices, {}) == plan.routing
    requires RowMins(plan.routing, t, m)
    ensures Complementary(plan.routing, t, m, 0.0)
  {
    hide Loads, LinkMarginal, Prod, Responses, BestRow;
    forall i, j | 0 <= i < t.N() && 0 <= j < t.M() && t.links[i][j] > 0.0
      ensures WastesAtMost(plan.routing, t, i, j, m[i], 0.0)
    {
      assert IsRowMin(plan.routing, t, i, m[i]);
      BestRowFirstOrder(sqrt, plan, t, i, j);
      ProdNonPos(plan.routing[i][j], LinkMarginal(plan.routing, t, i, j) - m[i]);
    }
  }

  /** A used route of a best response costs no more than any other route of the same source. */
  lemma BestRowFirstOrder(sqrt: real -> real, plan: Plan, t: Topology, i: nat, j: nat)
    requires IsSqrt(sqrt) && t.Valid() && plan.Fits(t) && InDomain(plan.routing, t)
    requires plan.prices == TruePrices(plan.routing, t)
    requires AllRespond(sqrt, t, plan.prices)
    requires Responses(sqrt, plan, t, plan.prices, {}) == plan.routing
    requires i < t.N() && j < t.M() && t.links[i][j] > 0.0
    ensures plan.routing[i][j] >= 0.0
    ensures plan.routing[i][j] > 0.0 ==>
      forall m: real :: IsRowMin(plan.routing, t, i, m) ==> LinkMarginal(plan.routing, t, i, j) <= m
  {
    hide Loads, Marginal, SolveAvailable, Allocation, Tolerance;
    var a, b := plan.routing, SourceProblem(sqrt, t, plan.prices, i);
    var alpha := BestRow(sqrt, t, plan.prices, i).value.alpha;
    AvailableReturns(b, FLOW_TOL, MAX_ITER);
    AllocationFirstOrder(b, alpha);
    assert a[i] == b.At(alpha);
    if a[i][j] > 0.0 {
      assert LinkMarginal(a, t, i, j) == alpha;
      assert forall k :: 0 <= k < t.M() && t.links[i][k] > 0.0 ==> LinkMarginal(a, t, i, k) >= alpha;
    }
  }

  lemma ProdNonPos(x: real, y: real)
    requires x >= 0.0 && (x > 0.0 ==> y <= 0.0)
    ensures Prod(x, y) <= 0.0
  {
    if x > 0.0 {
      MulNonNeg(x, -y);
      assert x * -y == -(x * y);
    }
  }

  /** A stationary plan that is not stalled is the only minimiser of F among routings with its row sums. */
  lemma StationaryOptimal(sqrt: real -> real, plan: Plan, t: Topology, p: Params, y: Matrix)
    requires IsSqrt(sqrt) && t.Valid() && p.Valid() && p.gamma != 0.0
    requires plan.Fits(t) && InDomain(plan.routing, t)
    requires Guarded(plan.routing, t, p.deltaS) && p.eps <= p.deltaS
    requires InDomain(y, t) && RowSums(y) == RowSums(plan.routing)
    ensures
      && AllRespond(sqrt, t, plan.prices)
      && IterationStep(sqrt, plan, t, p, {}).plan == plan
      && !Stalled(plan.routing, Responses(sqrt, plan, t, plan.prices, {}), t, p) ==>
      F(plan.routing, t) <= F(y, t) && (y != plan.routing ==> F(plan.routing, t) < F(y, t))
  {
    hide Loads, F, IterationStep, Complementary, Guarded, AllRespond, IsRowMin;
    var a, own := plan.routing, OwnRates(plan.routing, t);
    if && AllRespond(sqrt, t, plan.prices)
       && IterationStep(sqrt, plan, t, p, {}).plan == plan
       && !Stalled(a, Responses(sqrt, plan, t, plan.prices, {}), t, p) {
      StationaryIff(sqrt, plan, t, p, {});
      OwnRatesValid(a, t);
      var m := RowMinsExist(a, t);
      BestRowsComplementary(sqrt, plan, t, m);
      SameUnderOwnRates(a, y, t, m);
      ZeroResidualsUniqueOptimum(a, y, own, m);
    }
  }

  lemma SameUnderOwnRates(a: Matrix, y: Matrix, t: Topology, m: Vec)
    requires InDomain(a, t) && InDomain(y, t) && RowMins(a, t, m)
    requires Complementary(a, t, m, 0.0)
    ensures var own := OwnRates(a, t);
      && InDomain(a, own) && InDomain(y, own) && RowMins(a, own, m) && Complementary(a, own, m, 0.0)
      && F(a, own) == F(a, t) && F(y, own) == F(y, t)
  {
    hide Loads, Marginal, Prod, Sum;
    var own := OwnRates(a, t);
    assert TruePrices(a, own) == TruePrices(a, t);
    assert forall i, j :: 0 <= i < t.N() && 0 <= j < t.M() && t.links[i][j] > 0.0 ==>
      LinkMarginal(a, own, i, j) == LinkMarginal(a, t, i, j);
    forall i, j | 0 <= i < t.N() && 0 <= j < t.M() && t.links[i][j] > 0.0
      ensures WastesAtMost(a, own, i, j, m[i], 0.0)
    {
      assert WastesAtMost(a, t, i, j, m[i], 0.0);
    }
    assert RowTerms(a, own) == RowTerms(a, t);
    assert RowTerms(y, own) == RowTerms(y, t);
  }
}
