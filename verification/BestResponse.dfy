/**
 A source's best response: threshold scan, doubling and bisection on the multiplier
 (src/controller/best_response.py). The functions fix what the loops compute; the
 methods below run the loops.
 */
module BestResponse {
  import opened Vectors
  import opened Threshold

  /** ValueError and RuntimeError of the source. */
  datatype Result<+T> = Ok(value: T) | BadInput | NoConvergence

  /** A row of flows and the multiplier it was cut at. */
  datatype Response = Response(flow: Vec, alpha: real)

  /** One source's links, prices and demand. */
  datatype Problem = Problem(sqrt: real -> real, mu: Vec, p: Vec, demand: real) {

    ghost predicate Sound() {
      IsSqrt(sqrt) && |p| == |mu|
    }

    /** The inputs the solver accepts; with a demand of zero it does not search. */
    predicate Acceptable() {
      && |p| == |mu|
      && (forall j :: 0 <= j < |mu| ==> mu[j] > 0.0)
      && 0.0 <= demand < Sum(mu)
    }

    function At(alpha: real): (x: Vec)
      requires Sound()
      ensures |x| == |mu|
    {
      Allocation(sqrt, mu, p, alpha)
    }

    function TotalAt(alpha: real): real
      requires Sound()
    {
      Total(sqrt, mu, p, alpha)
    }
  }

  function Thresholds(mu: Vec, p: Vec): (t: Vec)
    requires |p| == |mu|
    requires forall j :: 0 <= j < |mu| ==> mu[j] > 0.0
    ensures |t| == |mu|
    ensures forall j :: 0 <= j < |mu| ==> t[j] == p[j] + 1.0 / mu[j]
  {
    seq(|mu|, j requires 0 <= j < |mu| => p[j] + 1.0 / mu[j])
  }

  // ---------------------------------------------------------------- sorted distinct thresholds

  ghost predicate Increasing(v: Vec) {
    forall i, j :: 0 <= i < j < |v| ==> v[i] < v[j]
  }

  function Insert(x: real, v: Vec): (w: Vec)
    requires Increasing(v)
    ensures Increasing(w)
    ensures forall y :: y in w <==> y == x || y in v
  {
    if |v| == 0 then [x]
    else if x < v[0] then
      AboveHead(v);
      Prepend(x, v);
      [x] + v
    else
      AboveHead(v);
      if x == v[0] then v
      else
        Prepend(v[0], Insert(x, v[1..]));
        [v[0]] + Insert(x, v[1..])
  }

  lemma AboveHead(v: Vec)
    requires Increasing(v) && |v| > 0
    ensures Increasing(v[1..])
    ensures forall y :: y in v <==> y == v[0] || y in v[1..]
    ensures forall y :: y in v[1..] ==> v[0] < y
  {
    assert v == [v[0]] + v[1..];
  }

  lemma Prepend(x: real, v: Vec)
    requires Increasing(v)
    requires forall y :: y in v ==> x < y
    ensures Increasing([x] + v)
  {
    var w := [x] + v;
    forall i, j | 0 <= i < j < |w|
      ensures w[i] < w[j]
    {
      assert w[j] == v[j - 1] && v[j - 1] in v;
    }
  }

  /** numpy's unique: the distinct values in increasing order. */
  function Unique(v: Vec): (w: Vec)
    ensures Increasing(w)
    ensures forall y :: y in w <==> y in v
  {
    if |v| == 0 then []
    else
      assert v == [v[0]] + v[1..];
      Insert(v[0], Unique(v[1..]))
  }

  // ---------------------------------------------------------------- the search

  /** Where the scan over thresholds stops: the last pivot, and the width that brackets the demand if one did. */
  datatype Bracket = Bracket(pivot: real, width: Option<real>)

  function Scan(b: Problem, levels: Vec, k: nat): (r: Bracket)
    requires b.Sound() && 1 <= k <= |levels|
    decreases |levels| - k
  {
    if k == |levels| then Bracket(levels[k - 1], None)
    else if b.TotalAt(levels[k]) >= b.demand then Bracket(levels[k - 1], Some(levels[k] - levels[k - 1]))
    else Scan(b, levels, k + 1)
  }

  function Double(b: Problem, pivot: real, width: real, tries: nat): (r: Option<real>)
    requires b.Sound()
    decreases tries
  {
    if tries == 0 then None
    else if b.TotalAt(pivot + width) >= b.demand then Some(width)
    else Double(b, pivot, 2.0 * width, tries - 1)
  }

  /** Bisection on [pivot + lo, pivot + hi], remembering the best allocation seen. */
  function Bisect(b: Problem, pivot: real, lo: real, hi: real, tolerance: real,
                  best: Option<Response>, tries: nat): (r: Result<Response>)
    requires b.Sound()
    decreases tries
  {
    if tries == 0 then
      if best.None? || Error(b, best.value) > tolerance then NoConvergence else Ok(best.value)
    else
      var mid := 0.5 * (lo + hi);
      var x := Response(b.At(pivot + mid), pivot + mid);
      var better := if best.None? || Error(b, x) < Error(b, best.value) then Some(x) else best;
      if Error(b, x) <= tolerance then Ok(x)
      else if Sum(x.flow) - b.demand >= 0.0 then Bisect(b, pivot, lo, mid, tolerance, better, tries - 1)
      else Bisect(b, pivot, mid, hi, tolerance, better, tries - 1)
  }

  function Error(b: Problem, x: Response): real {
    Abs(Sum(x.flow) - b.demand)
  }

  function Tolerance(flowTol: real, demand: real): real {
    flowTol * Max(1.0, Abs(demand))
  }

  const DOUBLINGS: nat := 1024

  function Solve(b: Problem, flowTol: real, maxIter: nat): (r: Result<Response>)
    requires IsSqrt(b.sqrt)
  {
    if !b.Acceptable() || flowTol <= 0.0 then BadInput
    else
      SumPositive(b);
      var levels := Unique(Thresholds(b.mu, b.p));
      assert Thresholds(b.mu, b.p)[0] in levels;
      if b.demand == 0.0 then Ok(Response(Zeros(|b.mu|), levels[0]))
      else
        var scan := Scan(b, levels, 1);
        var width := if scan.width.Some? then scan.width else Double(b, scan.pivot, 1.0, DOUBLINGS);
        if width.None? then NoConvergence
        else Bisect(b, scan.pivot, 0.0, width.value, Tolerance(flowTol, b.demand), None, maxIter)
  }

  lemma SumPositive(b: Problem)
    requires b.Acceptable()
    ensures |b.mu| > 0
  {
  }

  // ---------------------------------------------------------------- the loops

  method ScanThresholds(b: Problem, levels: Vec) returns (r: Bracket)
    requires b.Sound() && |levels| > 0
    ensures r == Scan(b, levels, 1)
  {
    hide Total;
    var pivot := levels[0];
    for k := 1 to |levels|
      invariant pivot == levels[k - 1] && Scan(b, levels, k) == Scan(b, levels, 1)
    {
      var candidate := levels[k] - pivot;
      assert pivot + candidate == levels[k];
      if b.TotalAt(pivot + candidate) >= b.demand {
        return Bracket(pivot, Some(candidate));
      }
      pivot := levels[k];
    }
    return Bracket(pivot, None);
  }

  method DoubleWidth(b: Problem, pivot: real) returns (r: Option<real>)
    requires b.Sound()
    ensures r == Double(b, pivot, 1.0, DOUBLINGS)
  {
    hide Total;
    var hi := 1.0;
    for k := 0 to DOUBLINGS
      invariant Double(b, pivot, hi, DOUBLINGS - k) == Double(b, pivot, 1.0, DOUBLINGS)
    {
      if b.TotalAt(pivot + hi) >= b.demand {
        return Some(hi);
      }
      hi := 2.0 * hi;
    }
    return None;
  }

  method BisectWidth(b: Problem, pivot: real, width: real, tolerance: real, maxIter: nat)
    returns (r: Result<Response>)
    requires b.Sound()
    ensures r == Bisect(b, pivot, 0.0, width, tolerance, None, maxIter)
  {
    hide Allocation;
    var lo, hi := 0.0, width;
    var best: Option<Response> := None;
    for k := 0 to maxIter
      invariant Bisect(b, pivot, lo, hi, tolerance, best, maxIter - k)
        == Bisect(b, pivot, 0.0, width, tolerance, None, maxIter)
    {
      var mid := 0.5 * (lo + hi);
      var x := Response(b.At(pivot + mid), pivot + mid);
      var residual := Sum(x.flow) - b.demand;
      var error := Abs(residual);
      if best.None? || error < Error(b, best.value) {
        best := Some(x);
      }
      if error <= tolerance {
        return Ok(x);
      }
      if residual >= 0.0 {
        hi := mid;
      } else {
        lo := mid;
      }
    }
    if best.None? || Error(b, best.value) > tolerance {
      return NoConvergence;
    }
    return Ok(best.value);
  }

  method BestResponseMm1(b: Problem, flowTol: real, maxIter: nat) returns (r: Result<Response>)
    requires IsSqrt(b.sqrt)
    ensures r == Solve(b, flowTol, maxIter)
  {
    if !b.Acceptable() || flowTol <= 0.0 {
      return BadInput;
    }
    SumPositive(b);
    var levels := Unique(Thresholds(b.mu, b.p));
    assert Thresholds(b.mu, b.p)[0] in levels;
    if b.demand == 0.0 {
      return Ok(Response(Zeros(|b.mu|), levels[0]));
    }
    var bracket := ScanThresholds(b, levels);
    var width := bracket.width;
    if width.None? {
      width := DoubleWidth(b, bracket.pivot);
      if width.None? {
        return NoConvergence;
      }
    }
    r := BisectWidth(b, bracket.pivot, width.value, Tolerance(flowTol, b.demand), maxIter);
  }

  // ---------------------------------------------------------------- routes that exist

  function Gather(mu: Vec, v: Vec): (w: Vec)
    requires |v| == |mu|
    ensures |w| <= |mu|
  {
    if |mu| == 0 then []
    else if mu[0] > 0.0 then [v[0]] + Gather(mu[1..], v[1..])
    else Gather(mu[1..], v[1..])
  }

  function Scatter(mu: Vec, x: Vec): (w: Vec)
    requires |x| == |Gather(mu, mu)|
    ensures |w| == |mu|
  {
    if |mu| == 0 then []
    else if mu[0] > 0.0 then [x[0]] + Scatter(mu[1..], x[1..])
    else [0.0] + Scatter(mu[1..], x)
  }

  lemma {:induction false} GatherSize(mu: Vec, v: Vec)
    requires |v| == |mu|
    ensures |Gather(mu, v)| == |Gather(mu, mu)|
  {
    if |mu| > 0 {
      GatherSize(mu[1..], v[1..]);
    }
  }

  /** The problem over the existing links. */
  function Existing(b: Problem): (c: Problem)
    requires |b.p| == |b.mu|
    ensures |c.p| == |c.mu|
  {
    GatherSize(b.mu, b.p);
    Problem(b.sqrt, Gather(b.mu, b.mu), Gather(b.mu, b.p), b.demand)
  }

  function SolveAvailable(b: Problem, flowTol: real, maxIter: nat): (r: Result<Response>)
    requires b.Sound()
  {
    if forall j :: 0 <= j < |b.mu| ==> b.mu[j] > 0.0 then Solve(b, flowTol, maxIter)
    else
      match Solve(Existing(b), flowTol, maxIter)
      case Ok(x) =>
        SolveSize(Existing(b), flowTol, maxIter);
        Ok(Response(Scatter(b.mu, x.flow), x.alpha))
      case BadInput => BadInput
      case NoConvergence => NoConvergence
  }

  method BestResponseAvailable(b: Problem, flowTol: real, maxIter: nat) returns (r: Result<Response>)
    requires b.Sound()
    ensures r == SolveAvailable(b, flowTol, maxIter)
  {
    if forall j :: 0 <= j < |b.mu| ==> b.mu[j] > 0.0 {
      r := BestResponseMm1(b, flowTol, maxIter);
    } else {
      r := BestResponseMm1(Existing(b), flowTol, maxIter);
      if r.Ok? {
        SolveSize(Existing(b), flowTol, maxIter);
        r := Ok(Response(Scatter(b.mu, r.value.flow), r.value.alpha));
      }
    }
  }

  // ---------------------------------------------------------------- what is returned

  lemma {:induction false} BisectReturns(b: Problem, pivot: real, lo: real, hi: real, tolerance: real,
                                         best: Option<Response>, tries: nat)
    requires b.Sound()
    requires best.Some? ==> best.value.flow == b.At(best.value.alpha)
    ensures var r := Bisect(b, pivot, lo, hi, tolerance, best, tries);
      r.Ok? ==> r.value.flow == b.At(r.value.alpha) && Error(b, r.value) <= tolerance
    decreases tries
  {
    hide Allocation;
    if tries > 0 {
      var mid := 0.5 * (lo + hi);
      var x := Response(b.At(pivot + mid), pivot + mid);
      var better := if best.None? || Error(b, x) < Error(b, best.value) then Some(x) else best;
      if Error(b, x) > tolerance {
        if Sum(x.flow) - b.demand >= 0.0 {
          BisectReturns(b, pivot, lo, mid, tolerance, better, tries - 1);
        } else {
          BisectReturns(b, pivot, mid, hi, tolerance, better, tries - 1);
        }
      }
    }
  }

  /** Below every threshold no link is used. */
  lemma NothingBelow(b: Problem, alpha: real)
    requires b.Sound()
    requires forall j :: 0 <= j < |b.mu| ==> b.mu[j] > 0.0
    requires forall j :: 0 <= j < |b.mu| ==> alpha <= Thresholds(b.mu, b.p)[j]
    ensures b.At(alpha) == Zeros(|b.mu|)
  {
    hide Flow, Marginal;
    forall j | 0 <= j < |b.mu|
      ensures Flow(b.sqrt, b.mu[j], b.p[j], alpha) == 0.0
    {
      assert alpha <= Thresholds(b.mu, b.p)[j];
      FlowMarginal(b.sqrt, b.mu[j], b.p[j], alpha);
    }
  }

  lemma LowestThreshold(b: Problem)
    requires b.Sound() && b.Acceptable()
    ensures |Unique(Thresholds(b.mu, b.p))| > 0
    ensures b.At(Unique(Thresholds(b.mu, b.p))[0]) == Zeros(|b.mu|)
  {
    var t := Thresholds(b.mu, b.p);
    var levels := Unique(t);
    SumPositive(b);
    assert t[0] in levels;
    forall j | 0 <= j < |b.mu|
      ensures levels[0] <= t[j]
    {
      assert t[j] in levels;
    }
    NothingBelow(b, levels[0]);
  }

  lemma SolveReturns(b: Problem, flowTol: real, maxIter: nat)
    requires b.Sound() && Solve(b, flowTol, maxIter).Ok?
    ensures var x := Solve(b, flowTol, maxIter).value;
      x.flow == b.At(x.alpha) && Error(b, x) <= Tolerance(flowTol, b.demand)
  {
    hide Allocation;
    LowestThreshold(b);
    if b.demand == 0.0 {
      SumConst(Zeros(|b.mu|), 0.0);
    } else {
      var scan := Scan(b, Unique(Thresholds(b.mu, b.p)), 1);
      var width := if scan.width.Some? then scan.width else Double(b, scan.pivot, 1.0, DOUBLINGS);
      BisectReturns(b, scan.pivot, 0.0, width.value, Tolerance(flowTol, b.demand), None, maxIter);
    }
  }

  lemma SolveSize(b: Problem, flowTol: real, maxIter: nat)
    requires b.Sound()
    ensures var r := Solve(b, flowTol, maxIter); r.Ok? ==> |r.value.flow| == |b.mu|
  {
    if Solve(b, flowTol, maxIter).Ok? {
      SolveReturns(b, flowTol, maxIter);
    }
  }

  /** Cutting the gathered links at alpha and scattering the result is cutting the whole row. */
  lemma {:induction false} ScatterAllocation(sqrt: real -> real, mu: Vec, p: Vec, alpha: real)
    requires IsSqrt(sqrt) && |p| == |mu|
    requires |Gather(mu, p)| == |Gather(mu, mu)|
    ensures Scatter(mu, Allocation(sqrt, Gather(mu, mu), Gather(mu, p), alpha)) == Allocation(sqrt, mu, p, alpha)
  {
    hide Flow;
    if |mu| > 0 {
      GatherSize(mu[1..], p[1..]);
      ScatterAllocation(sqrt, mu[1..], p[1..], alpha);
      var whole := Allocation(sqrt, mu, p, alpha);
      var part := Allocation(sqrt, Gather(mu, mu), Gather(mu, p), alpha);
      var tail := Allocation(sqrt, Gather(mu[1..], mu[1..]), Gather(mu[1..], p[1..]), alpha);
      GatherPositive(mu);
      assert whole[1..] == Allocation(sqrt, mu[1..], p[1..], alpha);
      if mu[0] > 0.0 {
        assert part[1..] == tail;
      } else {
        assert part == tail;
      }
      assert whole == [whole[0]] + whole[1..];
    }
  }

  lemma {:induction false} GatherPositive(mu: Vec)
    ensures forall j :: 0 <= j < |Gather(mu, mu)| ==> Gather(mu, mu)[j] > 0.0
  {
    if |mu| > 0 {
      GatherPositive(mu[1..]);
    }
  }

  lemma {:induction false} ScatterSum(mu: Vec, x: Vec)
    requires |x| == |Gather(mu, mu)|
    ensures Sum(Scatter(mu, x)) == Sum(x)
  {
    if |mu| > 0 {
      if mu[0] > 0.0 {
        ScatterSum(mu[1..], x[1..]);
      } else {
        ScatterSum(mu[1..], x);
      }
      var w := Scatter(mu, x);
      assert w[1..] == Scatter(mu[1..], if mu[0] > 0.0 then x[1..] else x);
    }
  }

  /** A returned row is the threshold allocation at its multiplier and meets the demand within tolerance. */
  lemma AvailableReturns(b: Problem, flowTol: real, maxIter: nat)
    requires b.Sound() && SolveAvailable(b, flowTol, maxIter).Ok?
    ensures var x := SolveAvailable(b, flowTol, maxIter).value;
      x.flow == b.At(x.alpha) && Error(b, x) <= Tolerance(flowTol, b.demand)
  {
    hide Allocation;
    if forall j :: 0 <= j < |b.mu| ==> b.mu[j] > 0.0 {
      SolveReturns(b, flowTol, maxIter);
    } else {
      var c := Existing(b);
      SolveReturns(c, flowTol, maxIter);
      GatherSize(b.mu, b.p);
      ScatterAllocation(b.sqrt, b.mu, b.p, Solve(c, flowTol, maxIter).value.alpha);
      ScatterSum(b.mu, Solve(c, flowTol, maxIter).value.flow);
    }
  }
}
