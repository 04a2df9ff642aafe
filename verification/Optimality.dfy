/**
 The converse of the certificate: a routing that F cannot improve on leaves no complementarity residual,
 since otherwise a little flow moved from a dearer used route to a cheaper one lowers F.
 */
module Optimality {
  import opened Vectors
  import opened Algebra
  import opened Threshold
  import opened Topologies
  import opened Objective
  import opened Certificate
  import opened Diagnostics
  import opened Guarded
  import opened DualGaps

  // ---------------------------------------------------------------- how far a queue can move

  /** The marginal cost is at most a level when the squared gap is at least q, and at least it when it is at most q. */
  lemma MarginalSide(x: real, mu: real, g: real, level: real, q: real)
    requires g > 0.0 && g == mu - x && level * q == mu && level > 0.0
    ensures g * g >= q ==> Marginal(x, mu) <= level
    ensures g * g <= q ==> Marginal(x, mu) >= level
  {
    hide Marginal;
    var v := 1.0 / g;
    DivMul(1.0, g);
    MarginalIs(x, mu, v);
    Times(g, g * v, 1.0);
    var c := q * v;
    Times(v * v, mu, level * q);
    assert mu * (v * v) == level * (c * v);
    if g * g >= q {
      MulLe(q, g * g, v);
      MulLe(c, g, v);
      MulLe(c * v, 1.0, level);
    }
    if g * g <= q {
      MulLe(g * g, q, v);
      MulLe(g, c, v);
      MulLe(1.0, c * v, level);
    }
  }

  lemma MarginalTimes(x: real, mu: real, g: real)
    requires g > 0.0 && g == mu - x
    ensures Marginal(x, mu) * (g * g) == mu
  {
    hide Marginal;
    var v := 1.0 / g;
    DivMul(1.0, g);
    MarginalIs(x, mu, v);
    Times(v * g, v * g, 1.0);
    assert (mu * (v * v)) * (g * g) == mu * ((v * g) * (v * g));
  }

  /** A queue can take a little more before its marginal cost grows by e. */
  lemma RoomAbove(x: real, mu: real, e: real) returns (d: real)
    requires x < mu && mu > 0.0 && e > 0.0
    ensures d > 0.0 && x + d < mu && Marginal(x + d, mu) <= Marginal(x, mu) + e
  {
    hide CostRate;
    var g, v := mu - x, Marginal(x, mu);
    var square := g * g;
    MulPos(g, g);
    MarginalTimes(x, mu, g);
    var q := mu / (v + e);
    assert v > 0.0;
    DivMul(mu, v + e);
    assert 0.0 < q < square by { Below(square, q, v, e, mu); }
    d := HalfStep(g, square - q);
    assert g - d == mu - (x + d);
    MarginalSide(x + d, mu, g - d, v + e, q);
  }

  lemma Below(s: real, q: real, v: real, e: real, mu: real)
    requires s > 0.0 && v > 0.0 && e > 0.0 && mu > 0.0 && v * s == mu && q * (v + e) == mu
    ensures 0.0 < q < s
  {
    MulPos(e, s);
    assert s * (v + e) == v * s + e * s;
    ScaleLe(q, 0.0, v + e);
    ScaleLe(s, q, v + e);
  }

  /** A step below half the gap takes at most r off its square. */
  lemma HalfStep(g: real, r: real) returns (d: real)
    requires g > 0.0 && 0.0 < r < g * g
    ensures 0.0 < d < g && (g - d) * (g - d) >= g * g - r
  {
    d := r / (2.0 * g);
    DivMul(r, 2.0 * g);
    assert d * (2.0 * g) == r;
    ScaleLe(d, 0.0, 2.0 * g);
    ScaleLe(g, d, 2.0 * g);
    MulNonNeg(d, d);
    assert (g - d) * (g - d) == g * g - d * (2.0 * g) + d * d;
  }

  /** A queue can lose a little before its marginal cost falls by e. */
  lemma RoomBelow(x: real, mu: real, e: real) returns (d: real)
    requires x < mu && mu > 0.0 && e > 0.0
    ensures d > 0.0 && Marginal(x - d, mu) >= Marginal(x, mu) - e
  {
    hide CostRate;
    var g, v := mu - x, Marginal(x, mu);
    if v <= e {
      d := 1.0;
    } else {
      var square := g * g;
      MulPos(g, g);
      MarginalTimes(x, mu, g);
      var q := mu / (v - e);
      DivMul(mu, v - e);
      assert q > square by { Above(square, q, v, e, mu); }
      d := ThirdStep(g, q - square);
      assert g + d == mu - (x - d);
      MarginalSide(x - d, mu, g + d, v - e, q);
    }
  }

  lemma Above(s: real, q: real, v: real, e: real, mu: real)
    requires s > 0.0 && e > 0.0 && v > e && mu > 0.0 && v * s == mu && q * (v - e) == mu
    ensures q > s
  {
    MulPos(e, s);
    assert s * (v - e) == v * s - e * s;
    ScaleLe(q, s, v - e);
  }

  /** A step that adds at most r to the square of the gap. */
  lemma ThirdStep(g: real, r: real) returns (d: real)
    requires g > 0.0 && r > 0.0
    ensures d > 0.0 && (g + d) * (g + d) <= g * g + r
  {
    var s := r / (3.0 * g);
    DivMul(r, 3.0 * g);
    assert s * (3.0 * g) == r;
    ScaleLe(s, 0.0, 3.0 * g);
    d := Min(s, g);
    MulLe(d, g, d);
    MulLe(d, s, 3.0 * g);
    assert (g + d) * (g + d) == g * g + 2.0 * (d * g) + d * d;
  }

  lemma LessAbove(x: real, mu: real, e: real, d: real, less: real)
    requires mu > 0.0 && 0.0 < less <= d && x + d < mu && Marginal(x + d, mu) <= Marginal(x, mu) + e
    ensures x + less < mu && Marginal(x + less, mu) <= Marginal(x, mu) + e
  {
    hide Marginal;
    if less < d {
      MarginalIncreasing(x + less, x + d, mu);
    }
  }

  lemma LessBelow(x: real, mu: real, e: real, d: real, less: real)
    requires mu > 0.0 && 0.0 < less <= d && x < mu && Marginal(x - d, mu) >= Marginal(x, mu) - e
    ensures Marginal(x - less, mu) >= Marginal(x, mu) - e
  {
    hide Marginal;
    if less < d {
      MarginalIncreasing(x - d, x - less, mu);
    }
  }

  // ---------------------------------------------------------------- moving flow

  lemma {:induction false} SumUpdate(v: Vec, j: nat, x: real)
    requires j < |v|
    ensures Sum(v[j := x]) == Sum(v) - v[j] + x
  {
    if j > 0 {
      SumUpdate(v[1..], j - 1, x);
      assert v[j := x][1..] == v[1..][j - 1 := x];
    } else {
      assert v[j := x][1..] == v[1..];
    }
  }

  /** Source i sends d more on route k and d less on route j. */
  function Moved(a: Matrix, i: nat, j: nat, k: nat, d: real): (y: Matrix)
    requires i < |a| && j < |a[i]| && k < |a[i]|
    ensures |y| == |a| && forall r :: 0 <= r < |a| ==> |y[r]| == |a[r]|
  {
    a[i := a[i][j := a[i][j] - d][k := a[i][k] + d]]
  }

  lemma MovedSums(a: Matrix, i: nat, j: nat, k: nat, d: real)
    requires i < |a| && j < |a[i]| && k < |a[i]| && j != k
    ensures RowSums(Moved(a, i, j, k, d)) == RowSums(a)
  {
    hide Sum;
    SumUpdate(a[i], j, a[i][j] - d);
    SumUpdate(a[i][j := a[i][j] - d], k, a[i][k] + d);
  }

  lemma {:induction false} MovedLoads(a: Matrix, m: nat, i: nat, j: nat, k: nat, d: real)
    requires i < |a| && j < m && k < m && j != k && forall r :: 0 <= r < |a| ==> |a[r]| == m
    ensures Loads(Moved(a, i, j, k, d), m) == Loads(a, m)[j := Loads(a, m)[j] - d][k := Loads(a, m)[k] + d]
  {
    var y := Moved(a, i, j, k, d);
    if i > 0 {
      MovedLoads(a[1..], m, i - 1, j, k, d);
      assert y[1..] == Moved(a[1..], i - 1, j, k, d);
    } else {
      assert y[1..] == a[1..];
    }
  }

  /** The move is possible, and route j stays dearer than s while route k does not become so. */
  ghost predicate Improves(a: Matrix, t: Topology, i: nat, j: nat, k: nat, d: real, s: real)
    requires t.Fits(a) && i < t.N() && j < t.M() && k < t.M()
  {
    var y := Moved(a, i, j, k, d);
    && d > 0.0 && j != k && InDomain(y, t) && t.links[i][j] > 0.0 && t.links[i][k] > 0.0
    && LinkMarginal(y, t, i, j) > s >= LinkMarginal(y, t, i, k)
  }

  lemma MovedCost(x: real, y: real, mu: real, p: real, s: real)
    requires mu > 0.0 && x < mu && y < mu
    requires (x > y && Marginal(y, mu) + p > s) || (x < y && Marginal(y, mu) + p <= s)
    ensures Shift(LinkCost(y, mu, p), s, x - y) <= LinkCost(x, mu, p)
    ensures x > y ==> Shift(LinkCost(y, mu, p), s, x - y) < LinkCost(x, mu, p)
  {
    hide Congestion, Marginal;
    Tangent(y, x, mu);
    var c := Marginal(y, mu) + p;
    assert c * (x - y) == Marginal(y, mu) * (x - y) + p * (x - y);
    if x > y {
      MulLt(s, c, x - y);
    } else {
      MulLe(c, s, y - x);
      assert c * (x - y) == -(c * (y - x)) && s * (x - y) == -(s * (y - x));
    }
  }

  lemma StayedCost(c: real, s: real)
    ensures Shift(c, s, 0.0) == c
  {
  }

  /** At the new prices the source pays less after the move. */
  lemma MovedSplit(x: Vec, mu: Vec, p: Vec, j: nat, k: nat, d: real, s: real)
    requires |x| == |mu| == |p| && j < |x| && k < |x| && j != k && d > 0.0 && mu[j] > 0.0 && mu[k] > 0.0
    requires var y := x[j := x[j] - d][k := x[k] + d];
      && IsSplit(x, mu) && IsSplit(y, mu)
      && Marginal(y[j], mu[j]) + p[j] > s >= Marginal(y[k], mu[k]) + p[k]
    ensures SplitCost(x[j := x[j] - d][k := x[k] + d], mu, p) < SplitCost(x, mu, p)
  {
    hide Marginal, LinkCost, Shift, Sum;
    var y := x[j := x[j] - d][k := x[k] + d];
    var cx, cy := LinkCosts(x, mu, p), LinkCosts(y, mu, p);
    MovedCost(x[j], y[j], mu[j], p[j], s);
    MovedCost(x[k], y[k], mu[k], p[k], s);
    forall l | 0 <= l < |x|
      ensures Shift(cy[l], s, x[l] - y[l]) <= cx[l]
    {
      if l != j && l != k {
        StayedCost(cy[l], s);
      }
    }
    SumSlope(cy, s, y, x, cx);
    SumUpdate(x, j, x[j] - d);
    SumUpdate(x[j := x[j] - d], k, x[k] + d);
    StayedCost(Sum(cy), s);
  }

  /** Such a move lowers F. */
  lemma MoveLowersF(a: Matrix, t: Topology, i: nat, j: nat, k: nat, d: real, s: real)
    requires t.Valid() && InDomain(a, t) && i < t.N() && j < t.M() && k < t.M() && Improves(a, t, i, j, k, d, s)
    ensures F(Moved(a, i, j, k, d), t) < F(a, t)
  {
    hide F, SplitCost, Marginal, Loads, Sum;
    var y := Moved(a, i, j, k, d);
    var p := TruePrices(y, t);
    PriceDecomposition(y, a, t);
    MovedSplit(a[i], t.links[i], p, j, k, d, s);
    SumStrict(SourceCosts(y, t, p), SourceCosts(a, t, p), i);
  }

  /** From a used route to one that is cheaper at the margin there is always such a move. */
  lemma SomeMove(a: Matrix, t: Topology, i: nat, j: nat, k: nat) returns (d: real, s: real)
    requires t.Valid() && InDomain(a, t) && i < t.N() && j < t.M() && k < t.M()
    requires t.links[i][j] > 0.0 && t.links[i][k] > 0.0 && a[i][j] > 0.0
    requires LinkMarginal(a, t, i, j) > LinkMarginal(a, t, i, k)
    ensures Improves(a, t, i, j, k, d, s)
  {
    hide Marginal, Loads;
    var load := Loads(a, t.M());
    var gain := LinkMarginal(a, t, i, j) - LinkMarginal(a, t, i, k);
    var e := gain / 8.0;
    s := LinkMarginal(a, t, i, k) + gain / 2.0;
    var d1 := RoomBelow(a[i][j], t.links[i][j], e);
    var d2 := RoomBelow(load[j], t.brokers[j], e);
    var d3 := RoomAbove(a[i][k], t.links[i][k], e);
    var d4 := RoomAbove(load[k], t.brokers[k], e);
    d := Min(Min(Min(d1, d2), Min(d3, d4)), a[i][j]);
    LessBelow(a[i][j], t.links[i][j], e, d1, d);
    LessBelow(load[j], t.brokers[j], e, d2, d);
    LessAbove(a[i][k], t.links[i][k], e, d3, d);
    LessAbove(load[k], t.brokers[k], e, d4, d);
    MovedLoads(a, t.M(), i, j, k, d);
  }

  // ---------------------------------------------------------------- the converse

  /** No routing of the rates does better. */
  ghost predicate Optimal(a: Matrix, t: Topology)
    requires InDomain(a, t)
  {
    forall y :: InDomain(y, t) && RowSums(y) == t.rates ==> F(a, t) <= F(y, t)
  }

  lemma OptimumHasNoWaste(a: Matrix, t: Topology, m: Vec, i: nat, j: nat)
    requires t.Valid() && InDomain(a, t) && RowSums(a) == t.rates && RowMins(a, t, m) && Optimal(a, t)
    requires i < t.N() && j < t.M() && t.links[i][j] > 0.0
    ensures WastesAtMost(a, t, i, j, m[i], 0.0)
  {
    hide F, LinkMarginal, Improves, Loads;
    assert IsRowMin(a, t, i, m[i]);
    if Prod(a[i][j], LinkMarginal(a, t, i, j) - m[i]) > 0.0 {
      assert LinkMarginal(a, t, i, j) != m[i];
      var k :| 0 <= k < t.M() && t.links[i][k] > 0.0 && m[i] == LinkMarginal(a, t, i, k);
      var d, s := SomeMove(a, t, i, j, k);
      MoveLowersF(a, t, i, j, k, d, s);
      MoveStays(a, t, i, j, k, d, s);
      assert false;
    }
  }

  lemma MoveStays(a: Matrix, t: Topology, i: nat, j: nat, k: nat, d: real, s: real)
    requires InDomain(a, t) && i < t.N() && j < t.M() && k < t.M() && Improves(a, t, i, j, k, d, s)
    ensures InDomain(Moved(a, i, j, k, d), t) && RowSums(Moved(a, i, j, k, d)) == RowSums(a)
  {
    MovedSums(a, i, j, k, d);
  }

  /** Proposition 1 in both directions: a routing of the rates minimises F iff it leaves no complementarity residual. */
  lemma OptimalIff(a: Matrix, t: Topology, m: Vec)
    requires t.Valid() && InDomain(a, t) && RowSums(a) == t.rates && RowMins(a, t, m)
    ensures Optimal(a, t) <==> Complementary(a, t, m, 0.0)
  {
    hide F, WastesAtMost, IsRowMin, Loads, Sum;
    if Optimal(a, t) {
      forall i, j | 0 <= i < t.N() && 0 <= j < t.M() && t.links[i][j] > 0.0
        ensures WastesAtMost(a, t, i, j, m[i], 0.0)
      {
        OptimumHasNoWaste(a, t, m, i, j);
      }
    } else if Complementary(a, t, m, 0.0) {
      assert forall i :: 0 <= i < t.N() ==> RowSums(a)[i] == t.rates[i];
      forall y | InDomain(y, t) && RowSums(y) == t.rates
        ensures F(a, t) <= F(y, t)
      {
        ZeroResidualsUniqueOptimum(a, y, t, m);
      }
    }
  }

  /** With no guard active and exact rates, reporting no residual, having no gap and being optimal are one. */
  lemma ReportsDecide(a: Matrix, t: Topology, eps: real)
    requires t.Valid() && InDomain(a, t) && eps > 0.0 && Unguarded(a, t, eps) && RowSums(a) == t.rates
    ensures Optimal(a, t) <==> Worst(KktTable(a, t, eps)) <= 0.0
    ensures Optimal(a, t) <==> DualGap(a, t, eps) == 0.0
  {
    hide F, Loads, Sum, KktTable, Worst, DualGap, CheapestRoutes, Unguarded, RowMins, Complementary;
    var m := CheapestRoutes(a, t, eps);
    CheapestAreRowMins(a, t, eps);
    OptimalIff(a, t, m);
    if Worst(KktTable(a, t, eps)) <= 0.0 {
      KktBound(a, t, eps, 0.0);
      NoResidualNoGap(a, t, eps);
    }
    if Optimal(a, t) {
      NoWasteNoResidual(a, t, eps);
    }
    if DualGap(a, t, eps) == 0.0 {
      NoGapIsOptimal(a, t, eps);
    }
  }

  lemma NoResidualNoGap(a: Matrix, t: Topology, eps: real)
    requires t.Valid() && InDomain(a, t) && eps > 0.0 && RowSums(a) == t.rates && Worst(KktTable(a, t, eps)) <= 0.0
    ensures DualGap(a, t, eps) == 0.0
  {
    hide DualGap, EasedF, F, Worst, KktTable, Sum, CheapestRoutes, Loads;
    assert forall i :: 0 <= i < t.N() ==> RowSums(a)[i] == t.rates[i];
    ResidualsBoundGap(a, t, eps, 0.0, 0.0);
    GapBound(a, a, t, eps);
  }

  lemma NoGapIsOptimal(a: Matrix, t: Topology, eps: real)
    requires t.Valid() && InDomain(a, t) && eps > 0.0 && Unguarded(a, t, eps) && DualGap(a, t, eps) == 0.0
    ensures Optimal(a, t)
  {
    hide DualGap, EasedF, F, Hidden, Unguarded, Loads;
    ObjectiveParts(a, t, eps);
    forall y | InDomain(y, t) && RowSums(y) == t.rates
      ensures F(a, t) <= F(y, t)
    {
      WithinGap(a, y, t, eps);
    }
  }

  lemma NoWasteNoResidual(a: Matrix, t: Topology, eps: real)
    requires t.Valid() && InDomain(a, t) && eps > 0.0 && Unguarded(a, t, eps)
    requires Complementary(a, t, CheapestRoutes(a, t, eps), 0.0)
    ensures Worst(KktTable(a, t, eps)) <= 0.0
  {
    hide KktTable, Worst, Loads;
    var table := KktTable(a, t, eps);
    forall i, j | 0 <= i < t.N() && 0 <= j < t.M()
      ensures table[i][j] == 0.0
    {
      ResidualZero(a, t, eps, i, j);
    }
  }

  lemma ResidualZero(a: Matrix, t: Topology, eps: real, i: nat, j: nat)
    requires t.Valid() && InDomain(a, t) && eps > 0.0 && Unguarded(a, t, eps) && i < t.N() && j < t.M()
    requires Complementary(a, t, CheapestRoutes(a, t, eps), 0.0)
    ensures KktTable(a, t, eps)[i][j] == 0.0
  {
    hide RowMinOf, Loads, LinkMarginal, Unguarded, Prod;
    var row := MarginalTable(a, t, eps)[i];
    TableIsTrue(a, t, eps, i, j);
    RowMinMeans(row);
    if t.links[i][j] > 0.0 {
      assert WastesAtMost(a, t, i, j, CheapestRoutes(a, t, eps)[i], 0.0);
      ProdNonNeg(a[i][j], row[j].value - RowMinOf(row));
    }
  }

  lemma ProdNonNeg(x: real, y: real)
    requires x >= 0.0 && y >= 0.0
    ensures Prod(x, y) >= 0.0
  {
    MulNonNeg(x, y);
  }
}
