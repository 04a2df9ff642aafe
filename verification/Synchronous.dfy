/** Algorithm 1 (src/controller/synchronous.py): prices, best responses, one common safe step. */
module Synchronous {
  import opened Vectors
  import opened Algebra
  import opened Threshold
  import opened Topologies
  import opened Prices
  import opened BestResponse

  datatype Variant = Paper | Notebook

  datatype Params = Params(eta: real, gamma: real, eps: real, deltaS: real, variant: Variant) {

    ghost predicate Valid() {
      0.0 < eta <= 1.0 && eps > 0.0
    }
  }

  /** The part of the controller's state that the algorithm reads. */
  datatype Plan = Plan(routing: Matrix, prices: Vec) {

    predicate Fits(t: Topology) {
      Shape(routing, t.N(), t.M()) && |prices| == t.M()
    }
  }

  /** What one step leaves behind. */
  datatype Step = Step(plan: Plan, bounds: Vec, size: real)

  const FLOW_TOL: real := 0.000000000001
  const MAX_ITER: nat := 320

  // ---------------------------------------------------------------- the safe step

  function DiffRows(a: Matrix, b: Matrix): (c: Matrix)
    requires |a| == |b| && forall i :: 0 <= i < |a| ==> |a[i]| == |b[i]|
    ensures |c| == |a|
    ensures forall i :: 0 <= i < |a| ==> c[i] == Minus(a[i], b[i])
  {
    seq(|a|, i requires 0 <= i < |a| => Minus(a[i], b[i]))
  }

  /** Largest step broker j allows: growth is the load it would gain, headroom what it has left. */
  function StepBound(growth: real, headroom: real, eta: real, variant: Variant): real
    requires eta > 0.0
  {
    if growth > 0.0 then
      MulPos(eta, growth);
      var width := if variant == Paper then eta * growth else growth;
      Min(1.0, headroom / width)
    else
      1.0
  }

  function SafeStepBounds(a: Matrix, br: Matrix, t: Topology, p: Params): (s: Vec)
    requires t.Fits(a) && t.Fits(br) && p.Valid()
    ensures |s| == t.M()
    ensures forall j :: 0 <= j < t.M() ==>
      s[j] == StepBound(Loads(DiffRows(br, a), t.M())[j],
                        t.brokers[j] - p.deltaS - Loads(a, t.M())[j], p.eta, p.variant)
  {
    seq(t.M(), j requires 0 <= j < t.M() =>
      StepBound(Loads(DiffRows(br, a), t.M())[j],
                t.brokers[j] - p.deltaS - Loads(a, t.M())[j], p.eta, p.variant))
  }

  function SafeStep(a: Matrix, br: Matrix, t: Topology, p: Params): (s: real)
    requires t.Fits(a) && t.Fits(br) && p.Valid() && t.M() > 0
  {
    Max(0.0, MinOf(SafeStepBounds(a, br, t, p)))
  }

  /** Steps 3 and 4: the new routing and the new prices. */
  function CommonStep(plan: Plan, br: Matrix, newPrices: Vec, t: Topology, p: Params): (r: Step)
    requires plan.Fits(t) && t.Fits(br) && |newPrices| == t.M() > 0 && p.Valid()
    ensures r.plan.Fits(t)
  {
    var s := SafeStep(plan.routing, br, t, p);
    Step(Plan(MixRows(Prod(p.eta, s), plan.routing, br), newPrices), SafeStepBounds(plan.routing, br, t, p), s)
  }

  // ---------------------------------------------------------------- one iteration

  function NewPrices(plan: Plan, t: Topology, p: Params): (q: Vec)
    requires plan.Fits(t) && p.Valid()
    ensures |q| == t.M()
  {
    UpdatePrices(plan.prices, Loads(plan.routing, t.M()), t.brokers, p.gamma, p.eps)
  }

  function SourceProblem(sqrt: real -> real, t: Topology, prices: Vec, i: nat): (b: Problem)
    requires i < t.N() && |t.links| == t.N()
  {
    Problem(sqrt, t.links[i], prices, t.rates[i])
  }

  /** Step 2 for one source. */
  function BestRow(sqrt: real -> real, t: Topology, prices: Vec, i: nat): (r: Result<Response>)
    requires IsSqrt(sqrt) && Shape(t.links, t.N(), t.M()) && |prices| == t.M() && i < t.N()
    ensures r.Ok? ==> |r.value.flow| == t.M()
  {
    var b := SourceProblem(sqrt, t, prices, i);
    if SolveAvailable(b, FLOW_TOL, MAX_ITER).Ok? then AvailableReturns(b, FLOW_TOL, MAX_ITER); SolveAvailable(b, FLOW_TOL, MAX_ITER)
    else SolveAvailable(b, FLOW_TOL, MAX_ITER)
  }

  /** The rows stepped toward: a held source, or one whose solver failed, keeps its own row. */
  function Responses(sqrt: real -> real, plan: Plan, t: Topology, prices: Vec, held: set<nat>): (br: Matrix)
    requires IsSqrt(sqrt) && plan.Fits(t) && Shape(t.links, t.N(), t.M()) && |prices| == t.M()
    ensures t.Fits(br)
    ensures forall i :: 0 <= i < t.N() ==>
      br[i] == if i in held || !BestRow(sqrt, t, prices, i).Ok? then plan.routing[i]
               else BestRow(sqrt, t, prices, i).value.flow
  {
    seq(t.N(), i requires 0 <= i < t.N() =>
      if i in held || !BestRow(sqrt, t, prices, i).Ok? then plan.routing[i]
      else BestRow(sqrt, t, prices, i).value.flow)
  }

  /** One iteration with the sources in `held` keeping their split. */
  function IterationStep(sqrt: real -> real, plan: Plan, t: Topology, p: Params, held: set<nat>): (r: Step)
    requires IsSqrt(sqrt) && plan.Fits(t) && t.Valid() && p.Valid()
    ensures r.plan.Fits(t)
  {
    var q := NewPrices(plan, t, p);
    CommonStep(plan, Responses(sqrt, plan, t, q, held), q, t, p)
  }

  /** The plan after one iteration per entry of `held`, each holding the sources it names. */
  function Iterate(sqrt: real -> real, plan: Plan, t: Topology, p: Params, held: seq<set<nat>>): (r: Plan)
    requires IsSqrt(sqrt) && plan.Fits(t) && t.Valid() && p.Valid()
    ensures r.Fits(t)
  {
    if |held| == 0 then plan
    else IterationStep(sqrt, Iterate(sqrt, plan, t, p, held[..|held| - 1]), t, p, held[|held| - 1]).plan
  }
}
