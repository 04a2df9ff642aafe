/** Proposition 1 with tolerances: small residuals bound the distance to the optimum. */
module Certificate {
  import opened Vectors
  import opened Algebra
  import opened Threshold
  import opened Topologies
  import opened Objective

  /** C_ij + C_j on an existing link. */
  function LinkMarginal(a: Matrix, t: Topology, i: nat, j: nat): real
    requires InDomain(a, t) && i < t.N() && j < t.M() && t.links[i][j] > 0.0
  {
    Marginal(a[i][j], t.links[i][j]) + TruePrices(a, t)[j]
  }

  /** m is the cheapest marginal cost of source i's links; 0 for a source without links. */
  ghost predicate IsRowMin(a: Matrix, t: Topology, i: nat, m: real)
    requires InDomain(a, t) && i < t.N()
  {
    && (forall j :: 0 <= j < t.M() && t.links[i][j] > 0.0 ==> m <= LinkMarginal(a, t, i, j))
    && ((exists j :: 0 <= j < t.M() && t.links[i][j] > 0.0 && m == LinkMarginal(a, t, i, j))
        || (m == 0.0 && forall j :: 0 <= j < t.M() ==> t.links[i][j] <= 0.0))
  }

  ghost predicate RowMins(a: Matrix, t: Topology, m: Vec)
    requires InDomain(a, t)
  {
    |m| == t.N() && forall i :: 0 <= i < t.N() ==> IsRowMin(a, t, i, m[i])
  }

  /** Rows are off their rate by at most c. */
  ghost predicate Conserves(a: Matrix, t: Topology, c: real)
    requires t.Fits(a)
  {
    forall i :: 0 <= i < t.N() ==> Abs(Sum(a[i]) - t.rates[i]) <= c
  }

  /** lambda_ij (M_ij - m) is at most k: flow sits on a route only if that route is cheap. */
  ghost predicate WastesAtMost(a: Matrix, t: Topology, i: nat, j: nat, m: real, k: real)
    requires InDomain(a, t) && i < t.N() && j < t.M() && t.links[i][j] > 0.0
  {
    Prod(a[i][j], LinkMarginal(a, t, i, j) - m) <= k
  }

  ghost predicate Complementary(a: Matrix, t: Topology, m: Vec, k: real)
    requires InDomain(a, t) && |m| == t.N()
  {
    forall i, j :: 0 <= i < t.N() && 0 <= j < t.M() && t.links[i][j] > 0.0 ==>
      WastesAtMost(a, t, i, j, m[i], k)
  }

  lemma MarginalPositive(x: real, mu: real)
    requires 0.0 <= x < mu
    ensures Marginal(x, mu) > 0.0
  {
  }

  /** One link: leaving x for y saves at most k beyond what m pays per unit moved. */
  lemma LinkBound(x: real, y: real, mu: real, p: real, m: real, k: real)
    requires k >= 0.0
    requires if mu > 0.0 then 0.0 <= x < mu && 0.0 <= y < mu else x == y == 0.0
    requires mu > 0.0 ==> Marginal(x, mu) + p >= m && Prod(x, Marginal(x, mu) + p - m) <= k
    ensures Shift(LinkCost(x, mu, p) - k, m, y - x) <= LinkCost(y, mu, p)
    ensures x != y ==> Shift(LinkCost(x, mu, p) - k, m, y - x) < LinkCost(y, mu, p)
  {
    hide Congestion, Marginal;
    if mu > 0.0 {
      Tangent(x, y, mu);
      Excess(x, y, Marginal(x, mu), p, m, k);
    } else {
      assert Shift(LinkCost(x, mu, p) - k, m, 0.0) == LinkCost(x, mu, p) - k;
    }
  }

  lemma Excess(x: real, y: real, c: real, p: real, m: real, k: real)
    requires y >= 0.0 && c + p - m >= 0.0 && Prod(x, c + p - m) <= k
    ensures c * (y - x) + p * (y - x) >= m * (y - x) - k
  {
    var e := c + p - m;
    MulNonNeg(y, e);
    assert e * (y - x) == y * e - x * e;
    assert c * (y - x) + p * (y - x) == m * (y - x) + e * (y - x);
  }

  /** Every link of x costs at least m, and using it wastes at most k. */
  ghost predicate NearlyCheapest(x: Vec, mu: Vec, p: Vec, m: real, k: real)
    requires |x| == |mu| == |p| && IsSplit(x, mu)
  {
    forall j :: 0 <= j < |mu| && mu[j] > 0.0 ==>
      Marginal(x[j], mu[j]) + p[j] >= m && Prod(x[j], Marginal(x[j], mu[j]) + p[j] - m) <= k
  }

  lemma RowLinkBound(x: Vec, y: Vec, mu: Vec, p: Vec, m: real, k: real, j: nat)
    requires |x| == |y| == |mu| == |p| && IsSplit(x, mu) && IsSplit(y, mu) && k >= 0.0 && j < |mu|
    requires NearlyCheapest(x, mu, p, m, k)
    ensures Shift(LinkCosts(x, mu, p)[j] - k, m, y[j] - x[j]) <= LinkCosts(y, mu, p)[j]
    ensures x[j] != y[j] ==> Shift(LinkCosts(x, mu, p)[j] - k, m, y[j] - x[j]) < LinkCosts(y, mu, p)[j]
  {
    hide Marginal, LinkCost, Shift, Prod;
    LinkBound(x[j], y[j], mu[j], p[j], m, k);
  }

  lemma RowBound(x: Vec, y: Vec, mu: Vec, p: Vec, m: real, k: real)
    requires |x| == |y| == |mu| == |p| && IsSplit(x, mu) && IsSplit(y, mu) && k >= 0.0
    requires NearlyCheapest(x, mu, p, m, k)
    ensures Shift(SplitCost(x, mu, p) - Prod(|mu| as real, k), m, Sum(y) - Sum(x)) <= SplitCost(y, mu, p)
    ensures x != y ==>
      Shift(SplitCost(x, mu, p) - Prod(|mu| as real, k), m, Sum(y) - Sum(x)) < SplitCost(y, mu, p)
  {
    hide NearlyCheapest, LinkCost, Shift, Sum, Prod;
    var cx, cy := LinkCosts(x, mu, p), LinkCosts(y, mu, p);
    forall j | 0 <= j < |mu|
      ensures Shift(cx[j] - k, m, y[j] - x[j]) <= cy[j]
      ensures x[j] != y[j] ==> Shift(cx[j] - k, m, y[j] - x[j]) < cy[j]
    {
      RowLinkBound(x, y, mu, p, m, k, j);
    }
    SumSlopeSlack(cx, k, m, x, y, cy);
    if x != y {
      var j :| 0 <= j < |mu| && x[j] != y[j];
      assert Shift(cx[j] - k, m, y[j] - x[j]) < cy[j];
    }
  }

  /** One source: what it could still save by moving to a routing of its exact rate. */
  lemma SourceBound(a: Matrix, y: Matrix, t: Topology, m: Vec, c: real, k: real, i: nat)
    requires t.Valid() && InDomain(a, t) && InDomain(y, t) && i < t.N() && k >= 0.0
    requires RowMins(a, t, m) && Conserves(a, t, c) && Complementary(a, t, m, k)
    requires Sum(y[i]) == t.rates[i]
    ensures var p := TruePrices(a, t);
      && Shift(SourceCosts(a, t, p)[i], -c, m[i]) - Prod(t.M() as real, k) <= SourceCosts(y, t, p)[i]
      && (a[i] != y[i] ==>
            Shift(SourceCosts(a, t, p)[i], -c, m[i]) - Prod(t.M() as real, k) < SourceCosts(y, t, p)[i])
  {
    hide Congestion, Marginal, SplitCost, Sum, Prod, Shift;
    var p := TruePrices(a, t);
    forall j | 0 <= j < t.M() && t.links[i][j] > 0.0
      ensures Marginal(a[i][j], t.links[i][j]) + p[j] >= m[i]
        && Prod(a[i][j], Marginal(a[i][j], t.links[i][j]) + p[j] - m[i]) <= k
    {
      assert WastesAtMost(a, t, i, j, m[i], k);
      assert LinkMarginal(a, t, i, j) == Marginal(a[i][j], t.links[i][j]) + p[j];
    }
    RowBound(a[i], y[i], t.links[i], p, m[i], k);
    RowMinNonNeg(a, t, i, m[i]);
    ShiftLe(SplitCost(a[i], t.links[i], p), c, Sum(y[i]) - Sum(a[i]), m[i], Prod(t.M() as real, k));
  }

  lemma ShiftLe(x: real, c: real, d: real, m: real, slack: real)
    requires -c <= d && m >= 0.0
    ensures Shift(x, -c, m) - slack <= Shift(x - slack, m, d)
  {
    MulLe(-c, d, m);
  }

  lemma RowMinNonNeg(a: Matrix, t: Topology, i: nat, m: real)
    requires t.Valid() && InDomain(a, t) && i < t.N() && IsRowMin(a, t, i, m)
    ensures m >= 0.0
  {
    hide Marginal;
    if j :| 0 <= j < t.M() && t.links[i][j] > 0.0 && m == LinkMarginal(a, t, i, j) {
      MarginalPositive(a[i][j], t.links[i][j]);
      LoadsNonNegative(a, t);
      MarginalPositive(Loads(a, t.M())[j], t.brokers[j]);
    }
  }

  lemma LoadsNonNegative(a: Matrix, t: Topology)
    requires InDomain(a, t)
    ensures NonNeg(Loads(a, t.M()))
  {
    LoadsNonNeg(a, t.M());
  }

  /**
   Certificate soundness. If every source conserves its rate to within c and complementarity
   holds to within k, no routing of the exact rates is better than lambda by more than
   N M k + c sum_i min_j M_ij; and a different routing never attains that bound.
   */
  lemma CertificateBound(a: Matrix, y: Matrix, t: Topology, m: Vec, c: real, k: real)
    requires t.Valid() && InDomain(a, t) && InDomain(y, t) && k >= 0.0
    requires RowMins(a, t, m) && Conserves(a, t, c) && Complementary(a, t, m, k)
    requires RowSums(y) == t.rates
    ensures F(a, t) <= F(y, t) + Prod(t.N() as real, Prod(t.M() as real, k)) + Prod(c, Sum(m))
    ensures a != y ==> F(a, t) < F(y, t) + Prod(t.N() as real, Prod(t.M() as real, k)) + Prod(c, Sum(m))
  {
    hide SplitCost, Sum, Prod, F, IsRowMin, Shift, Conserves, Complementary;
    var p := TruePrices(a, t);
    var mk := Prod(t.M() as real, k);
    var ca, cy, slack := SourceCosts(a, t, p), SourceCosts(y, t, p), seq(t.N(), _ => mk);
    var low := Minus(Plus(ca, -c, m), slack);
    forall i | 0 <= i < t.N()
      ensures low[i] <= cy[i] && (a[i] != y[i] ==> low[i] < cy[i])
    {
      assert RowSums(y)[i] == t.rates[i];
      SourceBound(a, y, t, m, c, k, i);
    }
    SumMono(low, cy);
    if a != y {
      var i :| 0 <= i < t.N() && a[i] != y[i];
      SumStrict(low, cy, i);
    }
    SumMinus(Plus(ca, -c, m), slack);
    SumPlus(ca, -c, m);
    SumConst(slack, mk);
    NegShift(Sum(ca), c, Sum(m));
    PriceDecomposition(a, y, t);
  }

  lemma NegShift(x: real, c: real, y: real)
    ensures Shift(x, -c, y) == x - Prod(c, y)
  {
  }

  /** With zero residuals the routing is the only minimiser of F among routings of the rates. */
  lemma ZeroResidualsUniqueOptimum(a: Matrix, y: Matrix, t: Topology, m: Vec)
    requires t.Valid() && InDomain(a, t) && InDomain(y, t)
    requires RowMins(a, t, m) && Conserves(a, t, 0.0) && Complementary(a, t, m, 0.0)
    requires RowSums(y) == t.rates
    ensures F(a, t) <= F(y, t)
    ensures a != y ==> F(a, t) < F(y, t)
  {
    hide F, IsRowMin, Conserves, Complementary;
    CertificateBound(a, y, t, m, 0.0, 0.0);
    assert Prod(0.0, Sum(m)) == 0.0;
    assert Prod(t.M() as real, 0.0) == 0.0;
    assert Prod(t.N() as real, 0.0) == 0.0;
  }

  /** Two certified routings of one instance are the same, whichever solver produced them. */
  lemma CertifiedRoutingsCoincide(a: Matrix, b: Matrix, t: Topology, m: Vec, m': Vec)
    requires t.Valid() && InDomain(a, t) && InDomain(b, t)
    requires RowMins(a, t, m) && Conserves(a, t, 0.0) && Complementary(a, t, m, 0.0)
    requires RowMins(b, t, m') && Conserves(b, t, 0.0) && Complementary(b, t, m', 0.0)
    ensures a == b
  {
    hide F, IsRowMin, Complementary;
    assert RowSums(a) == t.rates && RowSums(b) == t.rates;
    ZeroResidualsUniqueOptimum(a, b, t, m);
    ZeroResidualsUniqueOptimum(b, a, t, m');
  }
}
