/** Optimality of the returned split, and when the search is sure to return one. */
module BestResponseGuarantees {
  import opened Vectors
  import opened Algebra
  import opened Threshold
  import opened BestResponse

  // ---------------------------------------------------------------- optimality

  /** The first-order conditions of one source's problem at its returned split. */
  ghost predicate FirstOrder(x: Vec, mu: Vec, p: Vec, alpha: real)
    requires |p| == |mu|
  {
    && IsSplit(x, mu)
    && forall j :: 0 <= j < |mu| && mu[j] > 0.0 ==>
         && Marginal(x[j], mu[j]) + p[j] >= alpha
         && (x[j] > 0.0 ==> Marginal(x[j], mu[j]) + p[j] == alpha)
  }

  lemma AllocationFirstOrder(b: Problem, alpha: real)
    requires b.Sound()
    ensures FirstOrder(b.At(alpha), b.mu, b.p, alpha)
  {
    hide Flow, Marginal;
    AllocationIsSplit(b.sqrt, b.mu, b.p, alpha);
    forall j | 0 <= j < |b.mu| && b.mu[j] > 0.0
      ensures Marginal(b.At(alpha)[j], b.mu[j]) + b.p[j] >= alpha
      ensures b.At(alpha)[j] > 0.0 ==> Marginal(b.At(alpha)[j], b.mu[j]) + b.p[j] == alpha
    {
      FlowMarginal(b.sqrt, b.mu[j], b.p[j], alpha);
    }
  }

  /**
   A split returned for b, against any other split y of the same row: it satisfies the
   first-order conditions, is the only cheapest split of its own total, and costs at most
   |alpha| * tolerance more than any split of the exact demand.
   */
  lemma BestResponseOptimal(b: Problem, flowTol: real, maxIter: nat, y: Vec)
    requires b.Sound() && IsSplit(y, b.mu)
    ensures SolveAvailable(b, flowTol, maxIter).Ok? ==>
      var r := SolveAvailable(b, flowTol, maxIter).value;
      var x, tolerance := r.flow, Tolerance(flowTol, b.demand);
      && |x| == |b.mu|
      && FirstOrder(x, b.mu, b.p, r.alpha)
      && Abs(Sum(x) - b.demand) <= tolerance
      && (Sum(y) == Sum(x) ==> SplitCost(x, b.mu, b.p) <= SplitCost(y, b.mu, b.p))
      && (Sum(y) == Sum(x) && SplitCost(y, b.mu, b.p) == SplitCost(x, b.mu, b.p) ==> y == x)
      && (Sum(y) == b.demand ==>
            SplitCost(x, b.mu, b.p) <= Shift(SplitCost(y, b.mu, b.p), Abs(r.alpha), tolerance))
  {
    hide Allocation, SplitCost, Sum, SolveAvailable, Tolerance, Shift, FirstOrder;
    if SolveAvailable(b, flowTol, maxIter).Ok? {
      AvailableReturns(b, flowTol, maxIter);
      var r := SolveAvailable(b, flowTol, maxIter).value;
      AllocationFirstOrder(b, r.alpha);
      AllocationOptimal(b.sqrt, b.mu, b.p, r.alpha, y);
      SlackBound(SplitCost(r.flow, b.mu, b.p), r.alpha, Sum(y) - Sum(r.flow),
                 Tolerance(flowTol, b.demand));
    }
  }

  lemma SlackBound(c: real, alpha: real, d: real, tolerance: real)
    ensures d == 0.0 ==> Shift(c, alpha, d) == c
    ensures forall e :: Shift(c, alpha, d) <= e && Abs(d) <= tolerance ==> c <= Shift(e, Abs(alpha), tolerance)
  {
    if Abs(d) <= tolerance {
      MulLe(Abs(d), tolerance, Abs(alpha));
      assert alpha * d >= -(Abs(alpha) * Abs(d)) by {
        if alpha >= 0.0 && d < 0.0 {
          assert alpha * d == -(alpha * -d);
        } else if alpha < 0.0 && d >= 0.0 {
          assert alpha * d == -(-alpha * d);
        } else if alpha >= 0.0 {
          MulNonNeg(alpha, d);
        } else {
          MulNonNeg(-alpha, -d);
          assert alpha * d == -alpha * -d;
        }
      }
    }
  }

  // ---------------------------------------------------------------- the bracket

  function Roots(sqrt: real -> real, mu: Vec): (v: Vec)
    ensures |v| == |mu|
    ensures forall j :: 0 <= j < |mu| ==> v[j] == sqrt(mu[j])
  {
    seq(|mu|, j requires 0 <= j < |mu| => sqrt(mu[j]))
  }

  /** The width above the largest threshold at which the demand is certainly covered. */
  function Enough(b: Problem): real
    requires b.Acceptable()
  {
    var ratio := Sum(Roots(b.sqrt, b.mu)) / (Sum(b.mu) - b.demand);
    ratio * ratio
  }

  /** One link far above its threshold: what it still lacks to its capacity shrinks like 1/sqrt(h). */
  lemma FlowFar(sqrt: real -> real, mu: real, p: real, alpha: real, h: real, w: real)
    requires IsSqrt(sqrt) && mu > 0.0 && h > 0.0 && w * sqrt(h) == 1.0
    requires alpha >= p + 1.0 / mu + h
    ensures Flow(sqrt, mu, p, alpha) >= Shift(mu, -w, sqrt(mu))
  {
    hide Flow, Shift;
    var m, g := sqrt(mu), sqrt(h);
    var s := FlowForm(sqrt, mu, p, alpha);
    DivMul(1.0, mu);
    MulLe(1.0 / mu + h, alpha - p, mu);
    assert s * s >= mu * h;
    assert mu * h == (m * g) * (m * g) by {
      Times(m * m, g * g, h);
      Times(h, m * m, mu);
    }
    LackBound(mu, m, g, s, w);
  }

  lemma LackBound(mu: real, m: real, g: real, s: real, w: real)
    requires m >= 0.0 && g >= 0.0 && s >= 1.0 && w * g == 1.0 && m * m == mu && mu > 0.0
    requires s * s >= (m * g) * (m * g)
    ensures mu * (1.0 - 1.0 / s) >= Shift(mu, -w, m)
  {
    MulNonNeg(m, g);
    RootOrder(s, m * g);
    WeightNonNeg(w, g);
    MulNonNeg(w, m);
    MulLe(m * g, s, w * m);
    assert (w * m) * (m * g) == mu by {
      Times(m * m, w * g, 1.0);
    }
    DivMul(1.0, s);
    RecipAtMostOne(s, 1.0 / s);
    DivLe(mu, s, w * m);
    QuotientIsProduct(mu, s);
  }

  lemma QuotientIsProduct(x: real, s: real)
    requires s > 0.0
    ensures x * (1.0 - 1.0 / s) == x - x / s
  {
    var u := 1.0 / s;
    DivMul(1.0, s);
    Times(x, u * s, 1.0);
    DivIs(x, s, x * u);
  }

  lemma RootOrder(s: real, k: real)
    requires s >= 0.0 && s * s >= k * k
    ensures k <= s
  {
    var d, e := k - s, k + s;
    assert d * e == k * k - s * s;
    if d > 0.0 {
      MulPos(d, e);
    }
  }

  lemma WeightNonNeg(w: real, g: real)
    requires g >= 0.0 && w * g == 1.0
    ensures w >= 0.0
  {
    if w < 0.0 {
      MulNonNeg(-w, g);
    }
  }

  /** Far enough above every threshold, the links together carry the demand. */
  lemma CoversDemand(b: Problem, top: real, h: real)
    requires b.Sound() && b.Acceptable() && h > 0.0 && h >= Enough(b)
    requires forall j :: 0 <= j < |b.mu| ==> Thresholds(b.mu, b.p)[j] <= top
    ensures b.TotalAt(top + h) >= b.demand
  {
    hide Flow, Shift, Sum, Enough;
    var g := b.sqrt(h);
    RootPositive(b.sqrt, h);
    var w := 1.0 / g;
    DivMul(1.0, g);
    var roots := Roots(b.sqrt, b.mu);
    var low := Plus(b.mu, -w, roots);
    forall j | 0 <= j < |b.mu|
      ensures low[j] <= b.At(top + h)[j]
    {
      assert Thresholds(b.mu, b.p)[j] <= top;
      FlowFar(b.sqrt, b.mu[j], b.p[j], top + h, h, w);
    }
    SumMono(low, b.At(top + h));
    SumPlus(b.mu, -w, roots);
    RootSumNonNeg(b);
    EnoughMeans(Sum(roots), Sum(b.mu), b.demand, g, w) by {
      EnoughRoot(b, h);
    }
  }

  lemma RootPositive(sqrt: real -> real, q: real)
    requires IsSqrt(sqrt) && q > 0.0
    ensures sqrt(q) > 0.0
  {
    var s := sqrt(q);
    assert s * s == q;
  }

  lemma RootSumNonNeg(b: Problem)
    requires b.Sound() && b.Acceptable()
    ensures Sum(Roots(b.sqrt, b.mu)) >= 0.0
  {
    SumNonNeg(Roots(b.sqrt, b.mu));
  }

  lemma EnoughRoot(b: Problem, h: real)
    requires b.Sound() && b.Acceptable() && h >= Enough(b) && h > 0.0
    ensures Sum(Roots(b.sqrt, b.mu)) <= b.sqrt(h) * (Sum(b.mu) - b.demand)
  {
    hide Sum;
    var s, d := Sum(Roots(b.sqrt, b.mu)), Sum(b.mu) - b.demand;
    var ratio, g := s / d, b.sqrt(h);
    RootPositive(b.sqrt, h);
    if ratio > g {
      MulLt(g, ratio, g);
      MulLt(g, ratio, ratio);
    }
    DivLe(s, d, g);
  }

  lemma EnoughMeans(s: real, total: real, demand: real, g: real, w: real)
    requires s <= g * (total - demand) && w * g == 1.0 && g > 0.0
    ensures Shift(total, -w, s) >= demand
  {
    RecipPositive(g, w);
    MulLe(s, g * (total - demand), w);
    Times(total - demand, w * g, 1.0);
  }

  lemma RecipPositive(g: real, w: real)
    requires g > 0.0 && w * g == 1.0
    ensures w > 0.0
  {
    if w <= 0.0 {
      MulNonNeg(-w, g);
    }
  }

  // ---------------------------------------------------------------- termination without spurious failure

  lemma TotalMono(b: Problem, alpha: real, beta: real)
    requires b.Sound() && alpha <= beta
    ensures b.TotalAt(alpha) <= b.TotalAt(beta)
    ensures b.TotalAt(beta) <= Shift(b.TotalAt(alpha), beta - alpha, Steepness(b.mu))
  {
    hide Total;
    TotalGrowth(b.sqrt, b.mu, b.p, alpha, beta);
  }

  /** The scan leaves a pivot that is too low and, if it brackets, a width that is wide enough. */
  lemma {:induction false} ScanBrackets(b: Problem, levels: Vec, k: nat)
    requires b.Sound() && 1 <= k <= |levels| && Increasing(levels)
    requires b.TotalAt(levels[k - 1]) < b.demand
    ensures var r := Scan(b, levels, k);
      && b.TotalAt(r.pivot) < b.demand
      && (r.width.None? ==> r.pivot == levels[|levels| - 1])
      && (r.width.Some? ==> 0.0 < r.width.value <= levels[|levels| - 1] - levels[0]
                            && b.TotalAt(r.pivot + r.width.value) >= b.demand)
    decreases |levels| - k
  {
    hide Total;
    if k < |levels| {
      if b.TotalAt(levels[k]) >= b.demand {
        assert levels[k - 1] + (levels[k] - levels[k - 1]) == levels[k];
      } else {
        ScanBrackets(b, levels, k + 1);
      }
    }
  }

  ghost predicate Covers(b: Problem, pivot: real, h: real)
    requires b.Sound()
  {
    b.TotalAt(pivot + h) >= b.demand
  }

  lemma {:induction false} DoubleBrackets(b: Problem, pivot: real, width: real, tries: nat, need: real)
    requires b.Sound() && width > 0.0 && tries > 0
    requires need <= Prod(width, Pow2(tries - 1))
    requires forall h :: h >= need && h > 0.0 ==> Covers(b, pivot, h)
    ensures var r := Double(b, pivot, width, tries);
      r.Some? && width <= r.value <= Max(width, 2.0 * need) && Covers(b, pivot, r.value)
    decreases tries
  {
    hide Total;
    if !Covers(b, pivot, width) {
      assert width < need;
      if tries == 1 {
        assert false;
      } else {
        assert Prod(width, Pow2(tries - 1)) == Prod(2.0 * width, Pow2(tries - 2));
        DoubleBrackets(b, pivot, 2.0 * width, tries - 1, need);
      }
    }
  }

  /** Halving the bracket halves the flow error, so enough halvings meet any tolerance. */
  lemma {:induction false} BisectConverges(b: Problem, pivot: real, lo: real, hi: real, tolerance: real,
                                           best: Option<Response>, tries: nat)
    requires b.Sound() && lo <= hi && tries > 0
    requires best.Some? ==> |best.value.flow| == |b.mu|
    requires b.TotalAt(pivot + lo) < b.demand <= b.TotalAt(pivot + hi)
    requires (hi - lo) * Steepness(b.mu) <= Pow2(tries) * tolerance
    ensures Bisect(b, pivot, lo, hi, tolerance, best, tries).Ok?
    decreases tries
  {
    hide Allocation, Steepness, Shift, Sum;
    var mid := 0.5 * (lo + hi);
    var x := Response(b.At(pivot + mid), pivot + mid);
    var better := if best.None? || Error(b, x) < Error(b, best.value) then Some(x) else best;
    var steep := Steepness(b.mu);
    TotalMono(b, pivot + lo, pivot + mid);
    TotalMono(b, pivot + mid, pivot + hi);
    MidError(b.TotalAt(pivot + lo), b.TotalAt(pivot + mid), b.TotalAt(pivot + hi), b.demand, lo, mid, hi,
             mid - lo, hi - mid, steep);
    assert Pow2(tries) == 2.0 * Pow2(tries - 1);
    HalfBudget(hi - lo, steep, Pow2(tries - 1), tolerance);
    if tries == 1 {
      assert Pow2(0) == 1.0;
    } else if Error(b, x) > tolerance {
      if Sum(x.flow) - b.demand >= 0.0 {
        Times(steep, mid - lo, 0.5 * (hi - lo));
        BisectConverges(b, pivot, lo, mid, tolerance, better, tries - 1);
      } else {
        Times(steep, hi - mid, 0.5 * (hi - lo));
        BisectConverges(b, pivot, mid, hi, tolerance, better, tries - 1);
      }
    }
  }

  lemma HalfBudget(width: real, steep: real, power: real, tolerance: real)
    requires width * steep <= (2.0 * power) * tolerance
    ensures (0.5 * width) * steep <= power * tolerance
  {
  }

  lemma MidError(low: real, value: real, high: real, demand: real, lo: real, mid: real, hi: real,
                 left: real, right: real, steep: real)
    requires low < demand <= high && low <= value <= high
    requires mid == 0.5 * (lo + hi) && left == mid - lo && right == hi - mid
    requires value <= Shift(low, left, steep) && high <= Shift(value, right, steep)
    ensures Abs(value - demand) <= (0.5 * (hi - lo)) * steep
  {
    Times(steep, left, 0.5 * (hi - lo));
    Times(steep, right, 0.5 * (hi - lo));
  }

  /** The widest bracket the search can start from. */
  function Span(b: Problem): real
    requires b.Acceptable()
  {
    var levels := Levels(b);
    Max(Max(1.0, 2.0 * Enough(b)), levels[|levels| - 1] - levels[0])
  }

  function Levels(b: Problem): (v: Vec)
    requires b.Acceptable()
    ensures |v| > 0
  {
    SumPositive(b);
    assert Thresholds(b.mu, b.p)[0] in Unique(Thresholds(b.mu, b.p));
    Unique(Thresholds(b.mu, b.p))
  }

  /** The width bisection starts from. */
  function Width(b: Problem): Option<real>
    requires b.Sound() && b.Acceptable()
  {
    var scan := Scan(b, Levels(b), 1);
    if scan.width.Some? then scan.width else Double(b, scan.pivot, 1.0, DOUBLINGS)
  }

  lemma BracketFound(b: Problem)
    requires b.Sound() && b.Acceptable() && b.demand > 0.0
    requires Enough(b) <= Pow2(1023)
    ensures Width(b).Some? && 0.0 < Width(b).value <= Span(b)
    ensures var pivot := Scan(b, Levels(b), 1).pivot;
      b.TotalAt(pivot) < b.demand && Covers(b, pivot, Width(b).value)
  {
    hide Total, Allocation, Pow2, Enough, Scan, Double, Covers;
    LowestThreshold(b);
    var levels := Levels(b);
    ZeroTotal(b, levels[0]);
    ScanBrackets(b, levels, 1);
    if Scan(b, levels, 1).width.None? {
      TopCovers(b, levels[|levels| - 1]);
      assert Prod(1.0, Pow2(DOUBLINGS - 1)) == Pow2(1023);
      DoubleBrackets(b, levels[|levels| - 1], 1.0, DOUBLINGS, Enough(b));
    } else {
      CoversIs(b, Scan(b, levels, 1).pivot, Width(b).value);
    }
  }

  lemma CoversIs(b: Problem, pivot: real, h: real)
    requires b.Sound()
    ensures Covers(b, pivot, h) <==> b.TotalAt(pivot + h) >= b.demand
  {
  }

  lemma TopCovers(b: Problem, top: real)
    requires b.Sound() && b.Acceptable() && top == Levels(b)[|Levels(b)| - 1]
    ensures forall h :: h >= Enough(b) && h > 0.0 ==> Covers(b, top, h)
  {
    hide Total, Enough;
    var t, levels := Thresholds(b.mu, b.p), Levels(b);
    forall j | 0 <= j < |b.mu|
      ensures t[j] <= top
    {
      assert t[j] in levels;
    }
    forall h | h >= Enough(b) && h > 0.0
      ensures Covers(b, top, h)
    {
      CoversDemand(b, top, h);
    }
  }

  /** The demand is met within 2^1023 of the last threshold, and maxIter halvings of the bracket reach the tolerance. */
  predicate WithinRange(b: Problem, flowTol: real, maxIter: nat)
    requires b.Acceptable()
  {
    && Enough(b) <= Pow2(1023)
    && Span(b) * Steepness(b.mu) <= Pow2(maxIter) * Tolerance(flowTol, b.demand)
  }

  /**
   The search fails only when its inputs are out of the range of its 1024 doublings or its
   halvings: a demand the links can carry is otherwise always met.
   */
  lemma NoSpuriousFailure(b: Problem, flowTol: real, maxIter: nat)
    requires b.Sound() && b.Acceptable() && flowTol > 0.0 && maxIter > 0
    ensures WithinRange(b, flowTol, maxIter) ==> Solve(b, flowTol, maxIter).Ok?
  {
    hide Total, Allocation, Steepness, Pow2, Enough, Scan, Double, Bisect, Span, Tolerance, Unique;
    if b.demand > 0.0 && WithinRange(b, flowTol, maxIter) {
      BracketFound(b);
      var pivot, width := Scan(b, Levels(b), 1).pivot, Width(b).value;
      SteepNonNeg(b.mu);
      MulLe(width, Span(b), Steepness(b.mu));
      assert pivot + 0.0 == pivot;
      BisectConverges(b, pivot, 0.0, width, Tolerance(flowTol, b.demand), None, maxIter);
    }
  }

  /** When every link exists there is nothing to gather. */
  lemma {:induction false} GatherAll(mu: Vec, v: Vec)
    requires |v| == |mu| && forall j :: 0 <= j < |mu| ==> mu[j] > 0.0
    ensures Gather(mu, v) == v
  {
    if |mu| > 0 {
      GatherAll(mu[1..], v[1..]);
      assert v == [v[0]] + v[1..];
    }
  }

  /** The same for a source with missing links, which is what Algorithm 1 and the workers call: only existing links matter. */
  lemma AvailableNeverFails(b: Problem, flowTol: real, maxIter: nat)
    requires b.Sound() && Existing(b).Acceptable() && flowTol > 0.0 && maxIter > 0
    ensures WithinRange(Existing(b), flowTol, maxIter) ==> SolveAvailable(b, flowTol, maxIter).Ok?
  {
    hide Solve, WithinRange;
    NoSpuriousFailure(Existing(b), flowTol, maxIter);
    if forall j :: 0 <= j < |b.mu| ==> b.mu[j] > 0.0 {
      GatherAll(b.mu, b.mu);
      GatherAll(b.mu, b.p);
    }
  }

  lemma ZeroTotal(b: Problem, alpha: real)
    requires b.Sound() && b.At(alpha) == Zeros(|b.mu|)
    ensures b.TotalAt(alpha) == 0.0
  {
    SumConst(Zeros(|b.mu|), 0.0);
  }

  lemma SteepNonNeg(mu: Vec)
    ensures Steepness(mu) >= 0.0
  {
    forall j | 0 <= j < |mu|
      ensures Squares(mu)[j] >= 0.0
    {
      assert mu[j] * mu[j] >= 0.0;
    }
    SumNonNeg(Squares(mu));
  }
}
