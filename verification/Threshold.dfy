/** The threshold allocation x(alpha) of eq. 16 on one link and on a row of links. */
module Threshold {
  import opened Vectors
  import opened Algebra

  /** What is taken for granted of the square root: the non-negative root of a non-negative number. */
  ghost predicate IsSqrt(sqrt: real -> real) {
    forall q: real {:trigger sqrt(q)} :: q >= 0.0 ==> sqrt(q) >= 0.0 && sqrt(q) * sqrt(q) == q
  }

  function CostRate(mu: real, gap: real): (r: real)
    requires gap > 0.0
    ensures mu > 0.0 ==> r > 0.0
  {
    MulPos(gap, gap);
    mu / (gap * gap)
  }

  /** Derivative of x / (mu - x). */
  function Marginal(x: real, mu: real): real
    requires x < mu
  {
    CostRate(mu, mu - x)
  }

  function Flow(sqrt: real -> real, mu: real, p: real, alpha: real): real
    requires IsSqrt(sqrt)
  {
    var q := mu * (alpha - p);
    if q > 1.0 then
      RootAboveOne(sqrt, q);
      mu * (1.0 - 1.0 / sqrt(q))
    else
      0.0
  }

  lemma RootAboveOne(sqrt: real -> real, q: real)
    requires IsSqrt(sqrt) && q >= 1.0
    ensures sqrt(q) >= 1.0
    ensures q > 1.0 ==> sqrt(q) > 1.0
  {
    var s := sqrt(q);
    if s < 1.0 {
      MulLe(s, 1.0, s);
    }
  }

  /** On a used link the marginal cost plus the price is exactly alpha, on an unused one at least alpha. */
  lemma FlowMarginal(sqrt: real -> real, mu: real, p: real, alpha: real)
    requires IsSqrt(sqrt) && mu > 0.0
    ensures var x := Flow(sqrt, mu, p, alpha);
      && 0.0 <= x < mu
      && Marginal(x, mu) + p >= alpha
      && (x > 0.0 <==> alpha > p + 1.0 / mu)
      && (x > 0.0 ==> Marginal(x, mu) + p == alpha)
  {
    hide Marginal;
    var q := mu * (alpha - p);
    DivGe(1.0, mu, alpha - p);
    DivLe(1.0, mu, alpha - p);
    if q > 1.0 {
      RootAboveOne(sqrt, q);
      Active(mu, sqrt(q), q, alpha - p, Flow(sqrt, mu, p, alpha));
    } else {
      Idle(mu);
    }
  }

  lemma Active(mu: real, s: real, q: real, a: real, x: real)
    requires mu > 0.0 && s > 1.0 && q == s * s == mu * a && x == mu * (1.0 - 1.0 / s)
    ensures 0.0 < x < mu && Marginal(x, mu) == a
  {
    var g := mu / s;
    assert g * s == mu;
    assert x == mu - g by {
      var u := 1.0 / s;
      assert u * s == 1.0;
      assert mu * u == g by {
        assert (mu * u) * s == mu * (u * s);
        DivIs(mu, s, mu * u);
      }
    }
    assert g > 0.0;
    MulLt(1.0, s, g);
    MulPos(g, g);
    assert a * (g * g) == mu by {
      assert mu * a * (g * g) == (s * g) * (s * g) == mu * mu;
      DivIs(mu * mu, mu, a * (g * g));
    }
    DivIs(mu, g * g, a);
  }

  lemma Idle(mu: real)
    requires mu > 0.0
    ensures Marginal(0.0, mu) == 1.0 / mu
  {
    MulPos(mu, mu);
    var u := 1.0 / mu;
    assert u * mu == 1.0;
    assert u * (mu * mu) == mu;
    DivIs(mu, mu * mu, u);
  }

  // ---------------------------------------------------------------- convexity

  /** The term x / (mu - x) of the objective. */
  function Congestion(x: real, mu: real): real
    requires x < mu
  {
    x / (mu - x)
  }

  /** x / (mu - x) lies above its tangent, and touches it only at x. */
  lemma Tangent(x: real, y: real, mu: real)
    requires mu > 0.0 && x < mu && y < mu
    ensures Congestion(y, mu) >= Congestion(x, mu) + Marginal(x, mu) * (y - x)
    ensures x != y ==> Congestion(y, mu) > Congestion(x, mu) + Marginal(x, mu) * (y - x)
  {
    hide Congestion, Marginal;
    var a, b := mu - x, mu - y;
    var v, u := 1.0 / a, 1.0 / b;
    DivMul(1.0, a);
    DivMul(1.0, b);
    CongestionIs(y, mu, u);
    CongestionIs(x, mu, v);
    MarginalIs(x, mu, v);
    TangentGap(mu, a, b, u, v);
    Times(y - x, Marginal(x, mu), mu * (v * v));
  }

  lemma CongestionIs(x: real, mu: real, v: real)
    requires x < mu && v * (mu - x) == 1.0
    ensures Congestion(x, mu) == mu * v - 1.0
  {
    var a := mu - x;
    Times(mu, v * a, 1.0);
    assert (mu * v - 1.0) * a == x;
    DivIs(x, a, mu * v - 1.0);
  }

  lemma MarginalIs(x: real, mu: real, v: real)
    requires x < mu && v * (mu - x) == 1.0
    ensures Marginal(x, mu) == mu * (v * v)
  {
    var a := mu - x;
    MulPos(a, a);
    Times(v * a, v * a, 1.0);
    Times(mu, (v * a) * (v * a), 1.0);
    assert (mu * (v * v)) * (a * a) == mu;
    DivIs(mu, a * a, mu * (v * v));
  }

  lemma TangentGap(mu: real, a: real, b: real, u: real, v: real)
    requires mu > 0.0 && a > 0.0 && b > 0.0 && u * b == 1.0 && v * a == 1.0
    ensures mu * u >= mu * v + (mu * (v * v)) * (a - b)
    ensures a != b ==> mu * u > mu * v + (mu * (v * v)) * (a - b)
  {
    var w := 1.0 - b * v;
    assert u > 0.0;
    MulPos(mu, u);
    var g := w * w;
    assert u * g == u - 2.0 * v + b * (v * v) by {
      Times(v, u * b, 1.0);
      Times(b * (v * v), u * b, 1.0);
      assert u * g == u - 2.0 * (v * (u * b)) + (b * (v * v)) * (u * b);
    }
    assert mu * (u * g) == mu * u - 2.0 * (mu * v) + (mu * (v * v)) * b by {
      Times(mu, u * g, u - 2.0 * v + b * (v * v));
    }
    assert (mu * (v * v)) * a == mu * v by {
      Times(mu * v, v * a, 1.0);
    }
    assert g >= 0.0;
    MulNonNeg(mu * u, g);
    assert mu * (u * g) == (mu * u) * g;
    if a != b {
      if w == 0.0 {
        Times(a, b * v, 1.0);
        Times(b, v * a, 1.0);
        assert false;
      }
      assert g > 0.0;
      MulPos(mu * u, g);
    }
  }

  lemma MarginalIncreasing(x: real, y: real, mu: real)
    requires x < y < mu && mu > 0.0
    ensures Marginal(x, mu) < Marginal(y, mu)
  {
    var wide, narrow := mu - x, mu - y;
    SquareLess(narrow, wide);
    RatioDecreasing(mu, wide * wide, narrow * narrow);
    assert Marginal(x, mu) == mu / (wide * wide) && Marginal(y, mu) == mu / (narrow * narrow);
  }

  lemma SquareLess(x: real, y: real)
    requires 0.0 < x < y
    ensures 0.0 < x * x < y * y
  {
    MulPos(x, x);
    MulPos(y - x, y + x);
    assert (y - x) * (y + x) == y * y - x * x;
  }

  lemma RatioDecreasing(mu: real, d: real, e: real)
    requires 0.0 < e < d && mu > 0.0
    ensures mu / d < mu / e
  {
    var q := mu / e;
    DivMul(mu, e);
    DivGe(mu, e, 0.0);
    assert q > 0.0;
    MulLt(e, d, q);
    DivGe(mu, d, q);
  }

  // ---------------------------------------------------------------- dependence on alpha

  /** A larger multiplier gives at least as much flow, by at most mu^2 / 2 per unit of alpha. */
  lemma FlowGrowth(sqrt: real -> real, mu: real, p: real, alpha: real, beta: real, square: real, rate: real)
    requires IsSqrt(sqrt) && mu > 0.0 && alpha <= beta
    requires square == mu * mu && rate == 0.5 * (beta - alpha)
    ensures Flow(sqrt, mu, p, alpha) <= Flow(sqrt, mu, p, beta)
      <= Shift(Flow(sqrt, mu, p, alpha), rate, square)
  {
    hide Flow, Shift;
    var s := FlowForm(sqrt, mu, p, alpha);
    var t := FlowForm(sqrt, mu, p, beta);
    MulLe(alpha - p, beta - p, mu);
    MulNonNeg(beta - alpha, mu);
    assert (beta - p) * mu == (alpha - p) * mu + (beta - alpha) * mu;
    GrowthBound(mu, s, t, beta - alpha, square, rate);
  }

  lemma FlowForm(sqrt: real -> real, mu: real, p: real, alpha: real) returns (s: real)
    requires IsSqrt(sqrt) && mu > 0.0
    ensures s >= 1.0
    ensures s * s == Max(1.0, (alpha - p) * mu)
    ensures Flow(sqrt, mu, p, alpha) == mu * (1.0 - 1.0 / s)
  {
    var q := mu * (alpha - p);
    s := 1.0;
    if q > 1.0 {
      RootAboveOne(sqrt, q);
      s := sqrt(q);
    }
  }

  lemma GrowthBound(mu: real, s: real, t: real, d: real, square: real, rate: real)
    requires mu > 0.0 && 1.0 <= s && 1.0 <= t && d >= 0.0
    requires 0.0 <= t * t - s * s <= d * mu
    requires square == mu * mu && rate == 0.5 * d
    ensures mu * (1.0 - 1.0 / s) <= mu * (1.0 - 1.0 / t) <= Shift(mu * (1.0 - 1.0 / s), rate, square)
  {
    var u, v := 1.0 / s, 1.0 / t;
    DivMul(1.0, s);
    DivMul(1.0, t);
    SquareOrder(s, t);
    RecipGap(s, t, u, v);
    Rescale(mu, u, v, d, square, rate);
  }

  lemma SquareOrder(s: real, t: real)
    requires 1.0 <= s && 1.0 <= t && t * t >= s * s
    ensures s <= t && 2.0 * (t - s) <= t * t - s * s
  {
    if t < s {
      MulLt(t, s, s);
      MulLe(t, s, t);
    }
    MulLe(2.0, t + s, t - s);
  }

  lemma Rescale(mu: real, u: real, v: real, d: real, square: real, rate: real)
    requires mu > 0.0 && 0.0 <= u - v <= 0.5 * (d * mu)
    requires square == mu * mu && rate == 0.5 * d
    ensures mu * (1.0 - u) <= mu * (1.0 - v) <= Shift(mu * (1.0 - u), rate, square)
  {
    MulLe(u, v + 0.5 * (d * mu), mu);
    MulLe(v, u, mu);
    Times(d, square, mu * mu);
  }

  lemma RecipGap(s: real, t: real, u: real, v: real)
    requires 1.0 <= s <= t && u * s == 1.0 && v * t == 1.0
    ensures 0.0 <= u - v <= t - s
  {
    RecipAtMostOne(s, u);
    RecipAtMostOne(t, v);
    RecipDifference(s, t, u, v);
    var w, d := u * v, t - s;
    MulLe(u, 1.0, v);
    MulPos(u, v);
    MulNonNeg(w, d);
    MulLe(w, 1.0, d);
  }

  lemma RecipAtMostOne(s: real, u: real)
    requires 1.0 <= s && u * s == 1.0
    ensures 0.0 < u <= 1.0
  {
    if u <= 0.0 {
      MulLe(u, 0.0, s);
    }
    MulLe(1.0, s, u);
  }

  lemma RecipDifference(s: real, t: real, u: real, v: real)
    requires u * s == 1.0 && v * t == 1.0
    ensures u - v == (u * v) * (t - s)
  {
    Times(u, v * t, 1.0);
    Times(v, u * s, 1.0);
  }

  // ---------------------------------------------------------------- rows

  /** x(alpha) over a row of links; a link with mu <= 0 does not exist and carries nothing. */
  function Allocation(sqrt: real -> real, mu: Vec, p: Vec, alpha: real): (x: Vec)
    requires IsSqrt(sqrt) && |p| == |mu|
    ensures |x| == |mu|
  {
    seq(|mu|, j requires 0 <= j < |mu| => if mu[j] > 0.0 then Flow(sqrt, mu[j], p[j], alpha) else 0.0)
  }

  function Total(sqrt: real -> real, mu: Vec, p: Vec, alpha: real): real
    requires IsSqrt(sqrt) && |p| == |mu|
  {
    Sum(Allocation(sqrt, mu, p, alpha))
  }

  /** A row of flows inside the capacities, using existing links only. */
  ghost predicate IsSplit(y: Vec, mu: Vec) {
    && |y| == |mu|
    && forall j :: 0 <= j < |mu| ==> if mu[j] > 0.0 then 0.0 <= y[j] < mu[j] else y[j] == 0.0
  }

  /** What a flow y costs on one link: its own congestion plus the broker's price. */
  function LinkCost(y: real, mu: real, p: real): real
    requires y < mu || mu <= 0.0
  {
    if mu > 0.0 then Congestion(y, mu) + p * y else 0.0
  }

  function LinkCosts(y: Vec, mu: Vec, p: Vec): (c: Vec)
    requires |y| == |mu| == |p|
    requires forall j :: 0 <= j < |mu| ==> y[j] < mu[j] || mu[j] <= 0.0
    ensures |c| == |mu|
    ensures forall j :: 0 <= j < |mu| ==> c[j] == LinkCost(y[j], mu[j], p[j])
  {
    seq(|mu|, j requires 0 <= j < |mu| => LinkCost(y[j], mu[j], p[j]))
  }

  /** What a source pays for a split. */
  function SplitCost(y: Vec, mu: Vec, p: Vec): real
    requires |y| == |mu| == |p|
    requires forall j :: 0 <= j < |mu| ==> y[j] < mu[j] || mu[j] <= 0.0
  {
    Sum(LinkCosts(y, mu, p))
  }

  lemma AllocationIsSplit(sqrt: real -> real, mu: Vec, p: Vec, alpha: real)
    requires IsSqrt(sqrt) && |p| == |mu|
    ensures IsSplit(Allocation(sqrt, mu, p, alpha), mu)
  {
    forall j | 0 <= j < |mu| && mu[j] > 0.0
      ensures 0.0 <= Allocation(sqrt, mu, p, alpha)[j] < mu[j]
    {
      FlowMarginal(sqrt, mu[j], p[j], alpha);
    }
  }

  /** Moving from x(alpha) to y costs at least alpha per unit moved, and more if it moves anything. */
  lemma LinkCostBound(sqrt: real -> real, mu: real, p: real, alpha: real, y: real, x: real)
    requires IsSqrt(sqrt)
    requires if mu > 0.0 then 0.0 <= y < mu && x == Flow(sqrt, mu, p, alpha) else y == x == 0.0
    ensures mu > 0.0 ==> x < mu
    ensures Shift(LinkCost(x, mu, p), alpha, y - x) <= LinkCost(y, mu, p)
    ensures x != y ==> Shift(LinkCost(x, mu, p), alpha, y - x) < LinkCost(y, mu, p)
  {
    hide Flow, Congestion, Marginal;
    if mu > 0.0 {
      FlowMarginal(sqrt, mu, p, alpha);
      Tangent(x, y, mu);
      Slope(Marginal(x, mu), p, alpha, x, y);
    }
  }

  lemma Slope(m: real, p: real, alpha: real, x: real, y: real)
    requires m + p >= alpha && x >= 0.0 && y >= 0.0 && (x > 0.0 ==> m + p == alpha)
    ensures m * (y - x) + p * (y - x) >= alpha * (y - x)
  {
    if x > 0.0 {
      Times(y - x, m + p, alpha);
    } else {
      MulLe(alpha, m + p, y - x);
    }
  }

  /** The allocation at alpha minimises cost - alpha * flow over all splits, and is the only minimiser. */
  lemma AllocationOptimal(sqrt: real -> real, mu: Vec, p: Vec, alpha: real, y: Vec)
    requires IsSqrt(sqrt) && |p| == |mu| && IsSplit(y, mu)
    ensures var x := Allocation(sqrt, mu, p, alpha);
      && IsSplit(x, mu)
      && SplitCost(y, mu, p) >= Shift(SplitCost(x, mu, p), alpha, Sum(y) - Sum(x))
      && (x != y ==> SplitCost(y, mu, p) > Shift(SplitCost(x, mu, p), alpha, Sum(y) - Sum(x)))
  {
    hide Flow, LinkCost, Shift, Sum;
    var x := Allocation(sqrt, mu, p, alpha);
    AllocationIsSplit(sqrt, mu, p, alpha);
    var cx, cy := LinkCosts(x, mu, p), LinkCosts(y, mu, p);
    forall j | 0 <= j < |mu|
      ensures Shift(cx[j], alpha, y[j] - x[j]) <= cy[j]
      ensures x[j] != y[j] ==> Shift(cx[j], alpha, y[j] - x[j]) < cy[j]
    {
      LinkCostBound(sqrt, mu[j], p[j], alpha, y[j], x[j]);
    }
    SumSlope(cx, alpha, x, y, cy);
    if x != y {
      var k :| 0 <= k < |mu| && x[k] != y[k];
      assert Shift(cx[k], alpha, y[k] - x[k]) < cy[k];
    }
  }

  function Squares(v: Vec): (w: Vec)
    ensures |w| == |v|
    ensures forall j :: 0 <= j < |v| ==> w[j] == v[j] * v[j]
  {
    seq(|v|, j requires 0 <= j < |v| => v[j] * v[j])
  }

  /** How fast the total flow can grow with alpha. */
  function Steepness(mu: Vec): real {
    0.5 * Sum(Squares(mu))
  }

  lemma TotalGrowth(sqrt: real -> real, mu: Vec, p: Vec, alpha: real, beta: real)
    requires IsSqrt(sqrt) && |p| == |mu| && alpha <= beta
    ensures forall j :: 0 <= j < |mu| ==>
      Allocation(sqrt, mu, p, alpha)[j] <= Allocation(sqrt, mu, p, beta)[j]
    ensures Total(sqrt, mu, p, alpha) <= Total(sqrt, mu, p, beta)
      <= Shift(Total(sqrt, mu, p, alpha), beta - alpha, Steepness(mu))
  {
    hide Flow, Shift, Sum, Squares;
    var x, z := Allocation(sqrt, mu, p, alpha), Allocation(sqrt, mu, p, beta);
    var rate := 0.5 * (beta - alpha);
    forall j | 0 <= j < |mu|
      ensures x[j] <= z[j] <= Shift(x[j], rate, Squares(mu)[j])
    {
      if mu[j] > 0.0 {
        FlowGrowth(sqrt, mu[j], p[j], alpha, beta, Squares(mu)[j], rate);
      } else {
        IdleGrowth(rate, mu[j], Squares(mu)[j]);
      }
    }
    SumMono(x, z);
    SumMono(z, Plus(x, rate, Squares(mu)));
    SumPlus(x, rate, Squares(mu));
    HalfShift(Sum(x), beta - alpha, Sum(Squares(mu)));
  }

  lemma HalfShift(x: real, d: real, y: real)
    ensures Shift(x, 0.5 * d, y) == Shift(x, d, 0.5 * y)
  {
  }

  lemma IdleGrowth(rate: real, m: real, square: real)
    requires rate >= 0.0 && square == m * m
    ensures 0.0 <= Shift(0.0, rate, square)
  {
    MulNonNeg(rate, square);
  }

  function Gaps(x: Vec, z: Vec): (g: Vec)
    requires |x| == |z|
    ensures |g| == |x|
  {
    seq(|x|, j requires 0 <= j < |x| => Abs(x[j] - z[j]))
  }

  function Distance(x: Vec, z: Vec): real
    requires |x| == |z|
  {
    Sum(Gaps(x, z))
  }

  /** Two allocations at the same prices are ordered, so they differ by exactly the difference of their totals. */
  lemma AllocationDistance(sqrt: real -> real, mu: Vec, p: Vec, alpha: real, beta: real)
    requires IsSqrt(sqrt) && |p| == |mu|
    ensures Distance(Allocation(sqrt, mu, p, alpha), Allocation(sqrt, mu, p, beta))
         == Abs(Total(sqrt, mu, p, alpha) - Total(sqrt, mu, p, beta))
  {
    hide Flow, Shift, Steepness, Sum;
    var x, z := Allocation(sqrt, mu, p, alpha), Allocation(sqrt, mu, p, beta);
    if alpha <= beta {
      TotalGrowth(sqrt, mu, p, alpha, beta);
      SumMinus(z, x);
      assert Gaps(x, z) == Minus(z, x);
    } else {
      TotalGrowth(sqrt, mu, p, beta, alpha);
      SumMinus(x, z);
      assert Gaps(x, z) == Minus(x, z);
    }
  }
}
