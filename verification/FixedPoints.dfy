/** The other half of Proposition 1: an optimal routing is what its sources answer to its own prices. */
module FixedPoints {
  import opened Vectors
  import opened Algebra
  import opened Threshold
  import opened Topologies
  import opened Objective
  import opened Certificate
  import opened BestResponse
  import opened BestResponseGuarantees
  import opened Synchronous
  import opened Symmetric

  /**
   What a source can count on at the solver's defaults: a row that is returned is off the rate by at most
   1e-12 of it, or of 1, and one is returned if the width that surely carries the demand is at most
   2^1023 and 320 halvings of the bracket bring the total within that tolerance.
   */
  lemma RowAtDefaults(sqrt: real -> real, t: Topology, prices: Vec, i: nat)
    requires IsSqrt(sqrt) && t.Valid() && |prices| == t.M() && i < t.N()
    ensures var r, c := BestRow(sqrt, t, prices, i), Existing(SourceProblem(sqrt, t, prices, i));
      var off := 0.000000000001 * Max(1.0, t.rates[i]);
      && (r.Ok? ==> Abs(Sum(r.value.flow) - t.rates[i]) <= off)
      && (c.Acceptable() && Enough(c) <= Pow2(1023) && Span(c) * Steepness(c.mu) <= Pow2(320) * off ==> r.Ok?)
  {
    hide SolveAvailable, Sum, Enough, Span, Steepness, Pow2;
    var b := SourceProblem(sqrt, t, prices, i);
    assert Tolerance(FLOW_TOL, t.rates[i]) == 0.000000000001 * Max(1.0, t.rates[i]);
    if BestRow(sqrt, t, prices, i).Ok? {
      AvailableReturns(b, FLOW_TOL, MAX_ITER);
    }
    if Existing(b).Acceptable() {
      AvailableNeverFails(b, FLOW_TOL, MAX_ITER);
    }
  }

  /** The first-order conditions at a multiplier fix the flow on a link. */
  lemma FlowUnique(sqrt: real -> real, mu: real, p: real, alpha: real, x: real)
    requires IsSqrt(sqrt) && mu > 0.0 && 0.0 <= x < mu
    requires Marginal(x, mu) + p >= alpha && (x > 0.0 ==> Marginal(x, mu) + p == alpha)
    ensures x == Flow(sqrt, mu, p, alpha)
  {
    hide Marginal, Flow;
    FlowMarginal(sqrt, mu, p, alpha);
    var f := Flow(sqrt, mu, p, alpha);
    if f < x {
      MarginalIncreasing(f, x, mu);
    } else if x < f {
      MarginalIncreasing(x, f, mu);
    }
  }

  /** With no complementarity residual, each row is the threshold allocation at its cheapest marginal cost. */
  lemma RowIsAllocation(sqrt: real -> real, a: Matrix, t: Topology, m: Vec, i: nat)
    requires IsSqrt(sqrt) && t.Valid() && InDomain(a, t) && RowMins(a, t, m) && Complementary(a, t, m, 0.0)
    requires i < t.N()
    ensures a[i] == Allocation(sqrt, t.links[i], TruePrices(a, t), m[i])
  {
    hide Marginal, Flow, TruePrices, Loads;
    var x := Allocation(sqrt, t.links[i], TruePrices(a, t), m[i]);
    assert IsRowMin(a, t, i, m[i]);
    forall j | 0 <= j < t.M()
      ensures a[i][j] == x[j]
    {
      if t.links[i][j] > 0.0 {
        UsedRouteIsCheapest(a, t, m, i, j);
        FlowUnique(sqrt, t.links[i][j], TruePrices(a, t)[j], m[i], a[i][j]);
      }
    }
  }

  lemma UsedRouteIsCheapest(a: Matrix, t: Topology, m: Vec, i: nat, j: nat)
    requires InDomain(a, t) && RowMins(a, t, m) && Complementary(a, t, m, 0.0)
    requires i < t.N() && j < t.M() && t.links[i][j] > 0.0
    ensures 0.0 <= a[i][j] < t.links[i][j]
    ensures LinkMarginal(a, t, i, j) >= m[i] && (a[i][j] > 0.0 ==> LinkMarginal(a, t, i, j) == m[i])
  {
    hide LinkMarginal;
    assert IsRowMin(a, t, i, m[i]) && WastesAtMost(a, t, i, j, m[i], 0.0);
    if a[i][j] > 0.0 && LinkMarginal(a, t, i, j) > m[i] {
      MulPos(a[i][j], LinkMarginal(a, t, i, j) - m[i]);
    }
  }

  lemma {:induction false} GatheredCapacity(mu: Vec)
    requires NonNeg(mu)
    ensures Sum(Gather(mu, mu)) == Sum(mu)
  {
    if |mu| > 0 {
      GatheredCapacity(mu[1..]);
    }
  }

  /** The solver calls its input bad exactly when the links cannot carry the rate, and runs out of tries only when they can. */
  lemma RejectedIff(sqrt: real -> real, t: Topology, prices: Vec, i: nat)
    requires IsSqrt(sqrt) && t.Valid() && |prices| == t.M() && i < t.N()
    ensures BestRow(sqrt, t, prices, i).BadInput? <==> t.rates[i] >= Sum(t.links[i])
    ensures BestRow(sqrt, t, prices, i).NoConvergence? ==> t.rates[i] < Sum(t.links[i])
  {
    hide Sum, Gather, Bisect, Scan, Double, Unique, Thresholds, Scatter;
    var mu := t.links[i];
    GatheredCapacity(mu);
    GatherPositive(mu);
    if forall j :: 0 <= j < |mu| ==> mu[j] > 0.0 {
      NeverBadAfterwards(SourceProblem(sqrt, t, prices, i));
    } else {
      NeverBadAfterwards(Existing(SourceProblem(sqrt, t, prices, i)));
    }
  }

  lemma NeverBadAfterwards(b: Problem)
    requires b.Sound()
    ensures Solve(b, FLOW_TOL, MAX_ITER).BadInput? <==> !b.Acceptable()
  {
    hide Sum, Scan, Double, Unique, Thresholds;
    if b.Acceptable() {
      SumPositive(b);
      forall pivot, width, tolerance
        ensures !Bisect(b, pivot, 0.0, width, tolerance, None, MAX_ITER).BadInput?
      {
        BisectNotBad(b, pivot, 0.0, width, tolerance, None, MAX_ITER);
      }
    }
  }

  lemma {:induction false} BisectNotBad(b: Problem, pivot: real, lo: real, hi: real, tolerance: real,
                                        best: Option<Response>, tries: nat)
    requires b.Sound()
    ensures !Bisect(b, pivot, lo, hi, tolerance, best, tries).BadInput?
    decreases tries
  {
    hide Sum;
    if tries > 0 {
      var mid := 0.5 * (lo + hi);
      var x := Response(b.At(pivot + mid), pivot + mid);
      var better := if best.None? || Error(b, x) < Error(b, best.value) then Some(x) else best;
      BisectNotBad(b, pivot, lo, mid, tolerance, better, tries - 1);
      BisectNotBad(b, pivot, mid, hi, tolerance, better, tries - 1);
    }
  }

  /** A source with a link can place its rate, since the routing already does. */
  lemma ProblemAccepted(sqrt: real -> real, a: Matrix, t: Topology, p: Vec, i: nat)
    requires IsSqrt(sqrt) && t.Valid() && InDomain(a, t) && Conserves(a, t, 0.0) && |p| == t.M()
    requires i < t.N() && HasLink(t.links[i])
    ensures Existing(SourceProblem(sqrt, t, p, i)).Acceptable()
  {
    hide Sum, Loads, Gather;
    var mu := t.links[i];
    var k :| 0 <= k < |mu| && mu[k] > 0.0;
    SumStrict(a[i], mu, k);
    GatheredCapacity(mu);
    GatherPositive(mu);
  }

  /**
   A routing that conserves its rates with no complementarity residual, priced at its own marginal
   costs, is a fixed point of every source's best response: whatever row a source's solver returns
   there differs from the row it has by at most the solver's tolerance in total, and a source with a
   link gets a row whenever its inputs are within the range of the search.
   */
  lemma OptimumIsFixedPoint(sqrt: real -> real, a: Matrix, t: Topology, m: Vec, i: nat)
    requires IsSqrt(sqrt) && t.Valid() && InDomain(a, t) && RowMins(a, t, m) && Complementary(a, t, m, 0.0)
    requires Conserves(a, t, 0.0) && i < t.N()
    ensures var r := BestRow(sqrt, t, TruePrices(a, t), i);
      r.Ok? ==> |r.value.flow| == |a[i]| && Distance(r.value.flow, a[i]) <= Tolerance(FLOW_TOL, t.rates[i])
    ensures HasLink(t.links[i]) ==> Answers(sqrt, t, TruePrices(a, t), i)
  {
    hide Allocation, TruePrices, Tolerance, Sum, SolveAvailable, Distance, Answers;
    var p := TruePrices(a, t);
    var r := BestRow(sqrt, t, p, i);
    if r.Ok? {
      var b := SourceProblem(sqrt, t, p, i);
      AvailableReturns(b, FLOW_TOL, MAX_ITER);
      RowIsAllocation(sqrt, a, t, m, i);
      AllocationDistance(sqrt, t.links[i], p, r.value.alpha, m[i]);
    }
    if HasLink(t.links[i]) {
      SourceAnswers(sqrt, a, t, p, i);
    }
  }

  /** The source's problem is well posed, and within the range of the search its solver returns a row. */
  ghost predicate Answers(sqrt: real -> real, t: Topology, prices: Vec, i: nat)
    requires IsSqrt(sqrt) && Shape(t.links, t.N(), t.M()) && |prices| == t.M() && i < t.N()
  {
    var c := Existing(SourceProblem(sqrt, t, prices, i));
    c.Acceptable() && (WithinRange(c, FLOW_TOL, MAX_ITER) ==> BestRow(sqrt, t, prices, i).Ok?)
  }

  lemma SourceAnswers(sqrt: real -> real, a: Matrix, t: Topology, p: Vec, i: nat)
    requires IsSqrt(sqrt) && t.Valid() && InDomain(a, t) && Conserves(a, t, 0.0) && |p| == t.M()
    requires i < t.N() && HasLink(t.links[i])
    ensures Answers(sqrt, t, p, i)
  {
    hide WithinRange, SolveAvailable, InDomain, Conserves;
    ProblemAccepted(sqrt, a, t, p, i);
    AvailableNeverFails(SourceProblem(sqrt, t, p, i), FLOW_TOL, MAX_ITER);
  }

  /** The symmetric instance's equal split is such a fixed point at its closed-form price. */
  lemma EqualSplitIsFixedPoint(sqrt: real -> real, n: nat, m: nat, lam: real, muAccess: real, muServer: real, i: nat)
    requires IsSqrt(sqrt) && i < n && m > 0 && lam >= 0.0 && muAccess > 0.0 && muServer > 0.0
    requires SymmetricSolution(n, m, lam, muAccess, muServer).Some?
    ensures var t := SymmetricTopology(n, m, lam, muAccess, muServer);
      var s := SymmetricSolution(n, m, lam, muAccess, muServer).value;
      var r := BestRow(sqrt, t, Fill(m, s.price), i);
      && (r.Ok? ==> |r.value.flow| == m && Distance(r.value.flow, s.routing[i]) <= Tolerance(FLOW_TOL, lam))
      && Answers(sqrt, t, Fill(m, s.price), i)
  {
    hide Marginal, Loads, Sum, BestRow, Distance, Tolerance, Complementary, RowMins, Answers;
    var t := SymmetricTopology(n, m, lam, muAccess, muServer);
    var s := SymmetricSolution(n, m, lam, muAccess, muServer).value;
    EqualSplitInDomain(n, m, lam, muAccess, muServer);
    EqualMarginals(n, m, lam, muAccess, muServer);
    forall k | 0 <= k < n
      ensures Abs(Sum(s.routing[k]) - t.rates[k]) <= 0.0
    {
      assert RowSums(s.routing)[k] == t.rates[k];
    }
    assert TruePrices(s.routing, t) == Fill(m, s.price);
    assert t.links[i][0] > 0.0;
    OptimumIsFixedPoint(sqrt, s.routing, t, Fill(n, s.alpha), i);
  }
}
