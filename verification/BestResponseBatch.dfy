/** The vectorised best response: every source's row at once, with one stopping test for all rows. */
module BestResponseBatch {
  import opened Vectors
  import opened Algebra
  import opened Threshold
  import opened BestResponse
  import opened BestResponseGuarantees

  ghost predicate Sorted(v: Vec) {
    forall i, j :: 0 <= i <= j < |v| ==> v[i] <= v[j]
  }

  function InsertLevel(x: real, v: Vec): (w: Vec)
    requires Sorted(v)
    ensures Sorted(w) && |w| == |v| + 1
    ensures forall y :: y in w <==> y == x || y in v
  {
    if |v| == 0 || x <= v[0] then
      assert forall y :: y in [x] + v <==> y == x || y in v;
      [x] + v
    else
      assert v == [v[0]] + v[1..];
      var t := InsertLevel(x, v[1..]);
      PrependLevel(v[0], t);
      [v[0]] + t
  }

  lemma PrependLevel(x: real, v: Vec)
    requires Sorted(v)
    requires forall y :: y in v ==> x <= y
    ensures Sorted([x] + v)
  {
    var w := [x] + v;
    forall i, j | 0 <= i <= j < |w|
      ensures w[i] <= w[j]
    {
      assert j > 0 ==> w[j] == v[j - 1] && v[j - 1] in v;
    }
  }

  function SortLevels(v: Vec): (w: Vec)
    ensures Sorted(w) && |w| == |v|
    ensures forall y :: y in w <==> y in v
  {
    if |v| == 0 then []
    else
      assert v == [v[0]] + v[1..];
      InsertLevel(v[0], SortLevels(v[1..]))
  }

  /** The finite part of a row's sorted thresholds; numpy keeps an infinity for every missing link behind it. */
  function RowLevels(b: Problem): (v: Vec)
    requires b.Sound()
    ensures Sorted(v) && |v| == |Existing(b).mu|
  {
    GatherPositive(b.mu);
    SortLevels(Thresholds(Existing(b).mu, Existing(b).p))
  }

  /** Rows whose demand the links can carry and the doubling can bracket. */
  ghost predicate Solvable(b: Problem) {
    && b.Sound()
    && b.demand > 0.0
    && Existing(b).Acceptable()
    && Enough(Existing(b)) <= Pow2(1023)
  }

  ghost predicate Below(b: Problem, lo: real)
    requires b.Sound()
  {
    b.TotalAt(lo) < b.demand
  }

  /** lo is too low, hi is high enough, and they are no further apart than the search allows. */
  ghost predicate Bracketed(b: Problem, lo: real, hi: real, width: real)
    requires b.Sound()
  {
    Below(b, lo) && b.demand <= b.TotalAt(hi) && hi - lo <= width
  }

  lemma SameTotal(b: Problem, alpha: real)
    requires b.Sound()
    ensures Existing(b).Sound()
    ensures Existing(b).TotalAt(alpha) == b.TotalAt(alpha)
  {
    hide Allocation;
    GatherSize(b.mu, b.p);
    ScatterAllocation(b.sqrt, b.mu, b.p, alpha);
    ScatterSum(b.mu, Existing(b).At(alpha));
  }

  lemma LowestLevel(b: Problem)
    requires Solvable(b)
    ensures |RowLevels(b)| > 0
    ensures Below(b, RowLevels(b)[0])
  {
    hide Enough, Total, Allocation;
    var c := Existing(b);
    var t, v := Thresholds(c.mu, c.p), RowLevels(b);
    SumPositive(c);
    forall j | 0 <= j < |t|
      ensures v[0] <= t[j]
    {
      assert t[j] in v;
    }
    GatherSize(b.mu, b.p);
    NothingBelow(c, v[0]);
    ZeroTotal(c, v[0]);
    SameTotal(b, v[0]);
  }

  lemma LevelsSpan(b: Problem, i: nat, k: nat)
    requires Solvable(b) && i < |RowLevels(b)| && k < |RowLevels(b)|
    ensures RowLevels(b)[k] - RowLevels(b)[i] <= Span(Existing(b))
  {
    hide Enough, Total, Allocation;
    var c := Existing(b);
    var t, v, u := Thresholds(c.mu, c.p), RowLevels(b), Levels(c);
    assert v[i] in t && v[k] in t;
    assert v[i] in u && v[k] in u;
  }

  /** Doubling from the top threshold: a covering width found at step n is at most the search span. */
  lemma DoublingStep(b: Problem, lo: real, n: nat)
    requires Solvable(b)
    requires forall j :: 0 <= j < |RowLevels(b)| ==> RowLevels(b)[j] <= lo
    requires n > 0 ==> Below(b, lo + Pow2(n - 1))
    ensures Pow2(n) <= Span(Existing(b))
    ensures n < DOUBLINGS
  {
    hide Total, Allocation, Enough;
    if n > 0 {
      var c := Existing(b);
      GatherSize(b.mu, b.p);
      SameTotal(b, lo + Pow2(n - 1));
      var t := Thresholds(c.mu, c.p);
      forall j | 0 <= j < |t|
        ensures t[j] <= lo
      {
        assert t[j] in RowLevels(b);
      }
      if Enough(c) <= Pow2(n - 1) {
        CoversDemand(c, lo, Pow2(n - 1));
      }
      if n >= DOUBLINGS {
        Pow2Mono(1023, n - 1);
      }
    }
  }

  lemma {:induction false} Pow2Mono(m: nat, n: nat)
    requires m <= n
    ensures Pow2(m) <= Pow2(n)
  {
    if m < n {
      Pow2Mono(m, n - 1);
    }
  }

  // ---------------------------------------------------------------- the loops over whole arrays

  /** Row i of the batch as one source's problem; prices common to all sources are a matrix of equal rows. */
  function RowProblem(sqrt: real -> real, mu: Matrix, p: Matrix, lam: Vec, i: nat): (b: Problem)
    requires i < |mu| == |p| == |lam|
  {
    Problem(sqrt, mu[i], p[i], lam[i])
  }

  ghost predicate Instance(sqrt: real -> real, mu: Matrix, p: Matrix, lam: Vec, m: nat) {
    IsSqrt(sqrt) && Shape(mu, |lam|, m) && Shape(p, |lam|, m)
  }

  /** After scanning k columns: either bracketed, or the last level seen is still too low. */
  ghost predicate Scanned(b: Problem, lo: real, hi: Option<real>, k: nat)
    requires b.Sound() && k > 0
  {
    Solvable(b) ==>
      && |RowLevels(b)| > 0
      && Below(b, lo)
      && (hi.Some? ==> Bracketed(b, lo, hi.value, Span(Existing(b))))
      && (hi.None? ==> lo == RowLevels(b)[if k < |RowLevels(b)| then k - 1 else |RowLevels(b)| - 1])
  }

  method ScanColumns(sqrt: real -> real, mu: Matrix, p: Matrix, lam: Vec, m: nat,
                     lo: array<real>, hi: array<Option<real>>)
    requires Instance(sqrt, mu, p, lam, m) && m > 0
    requires lo.Length == hi.Length == |lam|
    modifies lo, hi
    ensures forall i :: 0 <= i < |lam| ==> Scanned(RowProblem(sqrt, mu, p, lam, i), lo[i], hi[i], m)
  {
    hide Enough, Total, Allocation, Span, RowLevels, Existing;
    var n := |lam|;
    forall i | 0 <= i < n {
      hi[i] := None;
    }
    forall i | 0 <= i < n {
      lo[i] := if |RowLevels(RowProblem(sqrt, mu, p, lam, i))| > 0
               then RowLevels(RowProblem(sqrt, mu, p, lam, i))[0] else 0.0;
    }
    forall i | 0 <= i < n && Solvable(RowProblem(sqrt, mu, p, lam, i))
      ensures Scanned(RowProblem(sqrt, mu, p, lam, i), lo[i], hi[i], 1)
    {
      LowestLevel(RowProblem(sqrt, mu, p, lam, i));
    }
    for k := 1 to m
      invariant forall i :: 0 <= i < n ==> Scanned(RowProblem(sqrt, mu, p, lam, i), lo[i], hi[i], k)
    {
      ghost var lo0, hi0 := lo[..], hi[..];
      forall i | 0 <= i < n && hi[i].None? && Reaches(RowProblem(sqrt, mu, p, lam, i), k) {
        hi[i] := Some(RowLevels(RowProblem(sqrt, mu, p, lam, i))[k]);
      }
      forall i | 0 <= i < n && hi[i].None? && k < |RowLevels(RowProblem(sqrt, mu, p, lam, i))| {
        lo[i] := RowLevels(RowProblem(sqrt, mu, p, lam, i))[k];
      }
      forall i | 0 <= i < n
        ensures Scanned(RowProblem(sqrt, mu, p, lam, i), lo[i], hi[i], k + 1)
      {
        ScanStep(RowProblem(sqrt, mu, p, lam, i), lo0[i], hi0[i], lo[i], hi[i], k);
      }
    }
  }

  predicate Reaches(b: Problem, k: nat)
    requires b.Sound()
  {
    k < |RowLevels(b)| && b.TotalAt(RowLevels(b)[k]) >= b.demand
  }

  lemma ScanStep(b: Problem, lo: real, hi: Option<real>, lo': real, hi': Option<real>, k: nat)
    requires b.Sound() && k > 0 && Scanned(b, lo, hi, k)
    requires hi' == if hi.None? && Reaches(b, k) then Some(RowLevels(b)[k]) else hi
    requires lo' == if hi'.None? && k < |RowLevels(b)| then RowLevels(b)[k] else lo
    ensures Scanned(b, lo', hi', k + 1)
  {
    hide Enough, Total, Allocation, Span, RowLevels, Existing;
    if Solvable(b) && hi.None? && Reaches(b, k) {
      LevelsSpan(b, k - 1, k);
    }
  }

  /** After n doublings: bracketed, or even the previous candidate was too low. */
  ghost predicate Doubled(b: Problem, lo: real, hi: Option<real>, step: real, n: nat)
    requires b.Sound()
  {
    Solvable(b) ==>
      && (hi.Some? ==> Bracketed(b, lo, hi.value, Span(Existing(b))))
      && (hi.None? ==>
            && Below(b, lo)
            && (forall j :: 0 <= j < |RowLevels(b)| ==> RowLevels(b)[j] <= lo)
            && step == Pow2(n)
            && (n > 0 ==> Below(b, lo + Pow2(n - 1))))
  }

  method DoubleRows(sqrt: real -> real, mu: Matrix, p: Matrix, lam: Vec, m: nat,
                    lo: array<real>, hi: array<Option<real>>)
    requires Instance(sqrt, mu, p, lam, m) && m > 0
    requires lo.Length == hi.Length == |lam|
    requires forall i :: 0 <= i < |lam| ==> Scanned(RowProblem(sqrt, mu, p, lam, i), lo[i], hi[i], m)
    modifies hi
    ensures forall i :: 0 <= i < |lam| && Solvable(RowProblem(sqrt, mu, p, lam, i)) ==>
      hi[i].Some? && Bracketed(RowProblem(sqrt, mu, p, lam, i), lo[i], hi[i].value,
                               Span(Existing(RowProblem(sqrt, mu, p, lam, i))))
  {
    hide Enough, Total, Allocation, Span, RowLevels, Existing, Pow2;
    var n := |lam|;
    var step := new real[n](_ => 1.0);
    forall i | 0 <= i < n
      ensures Doubled(RowProblem(sqrt, mu, p, lam, i), lo[i], hi[i], 1.0, 0)
    {
      DoubleStart(RowProblem(sqrt, mu, p, lam, i), lo[i], hi[i], m);
    }
    for k := 0 to DOUBLINGS
      invariant forall i :: 0 <= i < n ==> Doubled(RowProblem(sqrt, mu, p, lam, i), lo[i], hi[i], step[i], k)
    {
      ghost var hi0, step0 := hi[..], step[..];
      forall i | 0 <= i < n && hi[i].None? && Carries(RowProblem(sqrt, mu, p, lam, i), lo[i] + step[i]) {
        hi[i] := Some(lo[i] + step[i]);
      }
      forall i | 0 <= i < n && hi[i].None? {
        step[i] := 2.0 * step[i];
      }
      forall i | 0 <= i < n
        ensures Doubled(RowProblem(sqrt, mu, p, lam, i), lo[i], hi[i], step[i], k + 1)
      {
        DoubleStep(RowProblem(sqrt, mu, p, lam, i), lo[i], hi0[i], hi[i], step0[i], step[i], k);
      }
    }
    forall i | 0 <= i < n && Solvable(RowProblem(sqrt, mu, p, lam, i))
      ensures hi[i].Some?
    {
      if hi[i].None? {
        DoublingStep(RowProblem(sqrt, mu, p, lam, i), lo[i], DOUBLINGS);
      }
    }
  }

  predicate Carries(b: Problem, alpha: real)
    requires b.Sound()
  {
    b.TotalAt(alpha) >= b.demand
  }

  lemma DoubleStart(b: Problem, lo: real, hi: Option<real>, m: nat)
    requires b.Sound() && |b.mu| == m > 0 && Scanned(b, lo, hi, m)
    ensures Doubled(b, lo, hi, 1.0, 0)
  {
    hide Enough, Total, Allocation, Span;
    assert Pow2(0) == 1.0;
    GatherSize(b.mu, b.p);
  }

  lemma DoubleStep(b: Problem, lo: real, hi: Option<real>, hi': Option<real>, step: real, step': real, n: nat)
    requires b.Sound() && Doubled(b, lo, hi, step, n)
    requires hi' == if hi.None? && Carries(b, lo + step) then Some(lo + step) else hi
    requires step' == if hi'.None? then 2.0 * step else step
    ensures Doubled(b, lo, hi', step', n + 1)
  {
    hide Enough, Total, Allocation, Span, RowLevels, Existing;
    if Solvable(b) && hi.None? && Carries(b, lo + step) {
      DoublingStep(b, lo, n);
    }
  }

  /** The bracket after k halvings. */
  ghost predicate Halved(b: Problem, lo: real, hi: real, k: nat)
    requires b.Sound()
  {
    Solvable(b) ==>
      && Below(b, lo)
      && Carries(b, hi)
      && (hi - lo) * Pow2(k) <= Span(Existing(b))
  }

  /** The halvings left to a row suffice for its tolerance. */
  ghost predicate Affordable(b: Problem, flowTol: real, maxIter: nat) {
    && Solvable(b)
    && Span(Existing(b)) * Steepness(b.mu) <= (2.0 * Pow2(maxIter)) * Tolerance(flowTol, b.demand)
  }

  ghost predicate Met(b: Problem, alpha: real, flowTol: real)
    requires b.Sound()
  {
    Abs(b.TotalAt(alpha) - b.demand) <= Tolerance(flowTol, b.demand)
  }

  method BisectRows(sqrt: real -> real, mu: Matrix, p: Matrix, lam: Vec, m: nat, flowTol: real, maxIter: nat,
                    lo: array<real>, hi: array<real>)
    requires Instance(sqrt, mu, p, lam, m)
    requires lo != hi && lo.Length == hi.Length == |lam|
    requires forall i :: 0 <= i < |lam| ==> Halved(RowProblem(sqrt, mu, p, lam, i), lo[i], hi[i], 0)
    modifies lo, hi
    ensures forall i :: 0 <= i < |lam| && Affordable(RowProblem(sqrt, mu, p, lam, i), flowTol, maxIter) ==>
      Met(RowProblem(sqrt, mu, p, lam, i), 0.5 * (lo[i] + hi[i]), flowTol)
  {
    hide Enough, Total, Allocation, Span, Existing, Pow2, Tolerance, Steepness;
    var n := |lam|;
    var mid := new real[n];
    for k := 0 to maxIter
      invariant forall i :: 0 <= i < n ==> Halved(RowProblem(sqrt, mu, p, lam, i), lo[i], hi[i], k)
    {
      forall i | 0 <= i < n {
        mid[i] := 0.5 * (lo[i] + hi[i]);
      }
      if forall i :: 0 <= i < n ==>
          Abs(RowProblem(sqrt, mu, p, lam, i).TotalAt(mid[i]) - lam[i]) <= Tolerance(flowTol, lam[i]) {
        return;
      }
      ghost var lo0, hi0 := lo[..], hi[..];
      forall i | 0 <= i < n && Carries(RowProblem(sqrt, mu, p, lam, i), mid[i]) {
        hi[i] := mid[i];
      }
      forall i | 0 <= i < n && !Carries(RowProblem(sqrt, mu, p, lam, i), mid[i]) {
        lo[i] := mid[i];
      }
      forall i | 0 <= i < n
        ensures Halved(RowProblem(sqrt, mu, p, lam, i), lo[i], hi[i], k + 1)
      {
        HalveStep(RowProblem(sqrt, mu, p, lam, i), lo0[i], hi0[i], mid[i], lo[i], hi[i], k);
      }
    }
    forall i | 0 <= i < n && Affordable(RowProblem(sqrt, mu, p, lam, i), flowTol, maxIter)
      ensures Met(RowProblem(sqrt, mu, p, lam, i), 0.5 * (lo[i] + hi[i]), flowTol)
    {
      HalvedMeets(RowProblem(sqrt, mu, p, lam, i), lo[i], hi[i], flowTol, maxIter);
    }
  }

  lemma HalveStep(b: Problem, lo: real, hi: real, mid: real, lo': real, hi': real, k: nat)
    requires b.Sound() && Halved(b, lo, hi, k) && mid == 0.5 * (lo + hi)
    requires hi' == if Carries(b, mid) then mid else hi
    requires lo' == if Carries(b, mid) then lo else mid
    ensures Halved(b, lo', hi', k + 1)
  {
    hide Enough, Total, Allocation, Span, Existing;
    Times(Pow2(k + 1), hi' - lo', 0.5 * (hi - lo));
    assert Pow2(k + 1) * (0.5 * (hi - lo)) == (hi - lo) * Pow2(k);
  }

  lemma HalvedMeets(b: Problem, lo: real, hi: real, flowTol: real, k: nat)
    requires b.Sound() && Halved(b, lo, hi, k) && Affordable(b, flowTol, k)
    ensures Met(b, 0.5 * (lo + hi), flowTol)
  {
    hide Enough, Total, Allocation, Span, Existing, Pow2, Tolerance, Steepness, Shift;
    var mid, steep := 0.5 * (lo + hi), Steepness(b.mu);
    if hi < lo {
      TotalMono(b, hi, lo);
    }
    TotalMono(b, lo, mid);
    TotalMono(b, mid, hi);
    MidError(b.TotalAt(lo), b.TotalAt(mid), b.TotalAt(hi), b.demand, lo, mid, hi, mid - lo, hi - mid, steep);
    SteepNonNeg(b.mu);
    HalvedBudget(hi - lo, Pow2(k), steep, Span(Existing(b)), Tolerance(flowTol, b.demand));
  }

  lemma HalvedBudget(width: real, power: real, steep: real, span: real, tolerance: real)
    requires width * power <= span && span * steep <= (2.0 * power) * tolerance
    requires power >= 1.0 && steep >= 0.0
    ensures (0.5 * width) * steep <= tolerance
  {
    MulLe(width * power, span, steep);
    var e := (0.5 * width) * steep;
    assert e * (2.0 * power) == (width * power) * steep;
    if e > tolerance {
      MulLt(tolerance, e, 2.0 * power);
    }
  }

  /**
   Every row with positive demand is the threshold allocation at one multiplier, the others are
   zero; and a row whose inputs fit the search meets its demand within tolerance.
   */
  method BestResponseBatch(sqrt: real -> real, mu: Matrix, p: Matrix, lam: Vec, m: nat, flowTol: real, maxIter: nat)
    returns (x: Matrix, ghost alphas: Vec)
    requires Instance(sqrt, mu, p, lam, m) && m > 0
    ensures Shape(x, |lam|, m) && |alphas| == |lam|
    ensures forall i :: 0 <= i < |lam| ==>
      x[i] == BatchRow(RowProblem(sqrt, mu, p, lam, i), alphas[i])
    ensures forall i :: 0 <= i < |lam| && Affordable(RowProblem(sqrt, mu, p, lam, i), flowTol, maxIter) ==>
      Abs(Sum(x[i]) - lam[i]) <= Tolerance(flowTol, lam[i])
  {
    hide Enough, Allocation, Span, Existing, Tolerance, Steepness, Bracketed, Halved, Met, Affordable, Scanned, BatchRow;
    var n := |lam|;
    var lo := new real[n];
    var bracket := new Option<real>[n];
    ScanColumns(sqrt, mu, p, lam, m, lo, bracket);
    DoubleRows(sqrt, mu, p, lam, m, lo, bracket);
    var hi := new real[n];
    forall i | 0 <= i < n {
      hi[i] := if bracket[i].Some? then bracket[i].value else lo[i];
    }
    forall i | 0 <= i < n
      ensures Halved(RowProblem(sqrt, mu, p, lam, i), lo[i], hi[i], 0)
    {
      HalvedStart(RowProblem(sqrt, mu, p, lam, i), lo[i], hi[i]);
    }
    BisectRows(sqrt, mu, p, lam, m, flowTol, maxIter, lo, hi);
    var cut := new real[n];
    forall i | 0 <= i < n {
      cut[i] := 0.5 * (lo[i] + hi[i]);
    }
    alphas := cut[..];
    var cuts := cut[..];
    x := seq(n, i requires 0 <= i < n => BatchRow(RowProblem(sqrt, mu, p, lam, i), cuts[i]));
    forall i | 0 <= i < n && Affordable(RowProblem(sqrt, mu, p, lam, i), flowTol, maxIter)
      ensures Abs(Sum(x[i]) - lam[i]) <= Tolerance(flowTol, lam[i])
    {
      MetRow(RowProblem(sqrt, mu, p, lam, i), alphas[i], flowTol, maxIter);
    }
  }

  lemma HalvedStart(b: Problem, lo: real, hi: real)
    requires b.Sound()
    requires Solvable(b) ==> Bracketed(b, lo, hi, Span(Existing(b)))
    ensures Halved(b, lo, hi, 0)
  {
    hide Total, Span, Existing;
    assert Pow2(0) == 1.0;
  }

  lemma MetRow(b: Problem, alpha: real, flowTol: real, maxIter: nat)
    requires b.Sound() && Affordable(b, flowTol, maxIter) && Met(b, alpha, flowTol)
    ensures Abs(Sum(BatchRow(b, alpha)) - b.demand) <= Tolerance(flowTol, b.demand)
  {
    hide Allocation, Tolerance, Span, Existing, Steepness, Pow2;
  }

  function BatchRow(b: Problem, alpha: real): (x: Vec)
    requires b.Sound()
    ensures |x| == |b.mu|
  {
    if b.demand <= 0.0 then Zeros(|b.mu|) else b.At(alpha)
  }

  // ---------------------------------------------------------------- agreement

  /** The scalar and the batched row of one source, when the batched one met the tolerance too. */
  lemma ScalarAndBatchAgree(b: Problem, flowTol: real, maxIter: nat, alpha: real)
    requires b.Sound()
    ensures
      && SolveAvailable(b, flowTol, maxIter).Ok?
      && Abs(Sum(BatchRow(b, alpha)) - b.demand) <= Tolerance(flowTol, b.demand) ==>
      var x, z := SolveAvailable(b, flowTol, maxIter).value.flow, BatchRow(b, alpha);
      && |x| == |z| == |b.mu|
      && Distance(x, z) <= 2.0 * Tolerance(flowTol, b.demand)
      && (forall j :: 0 <= j < |b.mu| && b.mu[j] <= 0.0 ==> x[j] == z[j] == 0.0)
  {
    hide Allocation, Tolerance, Distance;
    if SolveAvailable(b, flowTol, maxIter).Ok? {
      AvailableReturns(b, flowTol, maxIter);
      var r := SolveAvailable(b, flowTol, maxIter).value;
      AllocationIsSplit(b.sqrt, b.mu, b.p, r.alpha);
      if b.demand > 0.0 {
        AllocationIsSplit(b.sqrt, b.mu, b.p, alpha);
        AllocationDistance(b.sqrt, b.mu, b.p, r.alpha, alpha);
      } else {
        DistanceFromZero(r.flow);
        SumConst(Zeros(|b.mu|), 0.0);
      }
    }
  }

  lemma {:induction false} DistanceFromZero(x: Vec)
    requires NonNeg(x)
    ensures Distance(x, Zeros(|x|)) == Sum(x)
  {
    assert Gaps(x, Zeros(|x|)) == x;
  }
}
