/** What one common step and whole runs of Algorithm 1 keep, for any responses whatsoever. */
module CapacitySafety {
  import opened Vectors
  import opened Algebra
  import opened Threshold
  import opened Topologies
  import opened Prices
  import opened BestResponse
  import opened Synchronous

  lemma {:induction false} LoadsDiff(a: Matrix, b: Matrix, m: nat)
    requires Shape(a, |a|, m) && Shape(b, |a|, m)
    ensures Loads(DiffRows(a, b), m) == Minus(Loads(a, m), Loads(b, m))
  {
    if |a| > 0 {
      LoadsDiff(a[1..], b[1..], m);
      assert DiffRows(a, b)[1..] == DiffRows(a[1..], b[1..]);
    }
  }

  // ---------------------------------------------------------------- one broker

  /** The load after a step of size s along growth. */
  function Moved(load: real, growth: real, eta: real, s: real): real {
    load + Prod(eta, s) * growth
  }

  lemma MovedIsBlend(load: real, target: real, eta: real, s: real)
    ensures Blend(Prod(eta, s), load, target) == Moved(load, target - load, eta, s)
  {
    var w := Prod(eta, s);
    assert Blend(w, load, target) == load + w * (target - load);
  }

  /** In exact arithmetic the paper's bound is the largest step in [0, 1] that stays at or below cap. */
  lemma PaperBoundExact(load: real, growth: real, cap: real, eta: real, s: real)
    requires 0.0 < eta && load <= cap && 0.0 <= s <= 1.0
    ensures var b := StepBound(growth, cap - load, eta, Paper);
      && 0.0 <= b <= 1.0
      && (Moved(load, growth, eta, s) <= cap <==> s <= b)
      && (b < 1.0 ==> growth > 0.0 && Moved(load, growth, eta, b) == cap)
  {
    if growth > 0.0 {
      var scale := eta * growth;
      MulPos(eta, growth);
      assert scale > 0.0;
      var q := (cap - load) / scale;
      StepRatio(load, growth, cap, eta, s, scale, q);
      StepRatio(load, growth, cap, eta, q, scale, q);
    } else {
      MulNonNeg(eta, s);
      MulNonNeg(eta * s, -growth);
      assert (eta * s) * growth == -((eta * s) * -growth);
    }
  }

  lemma StepRatio(load: real, growth: real, cap: real, eta: real, s: real, scale: real, q: real)
    requires scale > 0.0 && scale == eta * growth && q == (cap - load) / scale
    ensures Moved(load, growth, eta, s) <= cap <==> s <= q
    ensures s == q ==> Moved(load, growth, eta, s) == cap
    ensures cap >= load ==> q >= 0.0
  {
    DivGe(cap - load, scale, s);
    DivGe(cap - load, scale, 0.0);
    DivMul(cap - load, scale);
    assert (eta * s) * growth == s * scale by {
      Times(s, scale, eta * growth);
    }
  }

  /** The notebook's bound never exceeds the paper's while there is headroom. */
  lemma NotebookBoundShorter(growth: real, headroom: real, eta: real)
    requires 0.0 < eta <= 1.0 && headroom >= 0.0
    ensures 0.0 <= StepBound(growth, headroom, eta, Notebook) <= StepBound(growth, headroom, eta, Paper)
  {
    if growth > 0.0 {
      var scale := eta * growth;
      MulPos(eta, growth);
      MulLe(eta, 1.0, growth);
      assert 0.0 < scale <= growth;
      ShorterRatio(headroom, growth, scale);
    }
  }

  lemma ShorterRatio(h: real, x: real, y: real)
    requires h >= 0.0 && 0.0 < y <= x
    ensures 0.0 <= h / x <= h / y
  {
    var q := h / y;
    DivGe(h, x, 0.0);
    DivGe(h, y, 0.0);
    DivMul(h, y);
    MulLe(y, x, q);
    DivLe(h, x, q);
  }

  /** Whatever the overload, no step allowed by the bound pushes a broker above its old load or its cap. */
  lemma BrokerSafe(load: real, growth: real, cap: real, eta: real, variant: Variant, s: real)
    requires 0.0 < eta <= 1.0
    requires 0.0 <= s && (s <= StepBound(growth, cap - load, eta, variant) || s == 0.0)
    ensures Moved(load, growth, eta, s) <= Max(load, cap)
  {
    if s == 0.0 || growth <= 0.0 {
      NoGrowth(load, growth, eta, s);
    } else {
      MulPos(eta, growth);
      MulLe(eta, 1.0, growth);
      var width := if variant == Paper then eta * growth else growth;
      if load > cap {
        NegativeRatio(cap - load, width);
        assert false;
      } else {
        GrowingSafe(load, growth, cap, eta, s, eta * growth, width);
      }
    }
  }

  lemma NoGrowth(load: real, growth: real, eta: real, s: real)
    requires 0.0 < eta && 0.0 <= s && (s == 0.0 || growth <= 0.0)
    ensures Moved(load, growth, eta, s) <= load
  {
    if s == 0.0 {
      assert Prod(eta, s) == 0.0;
    } else {
      var w := Prod(eta, s);
      MulNonNeg(eta, s);
      MulNonNeg(w, -growth);
      assert w * growth == -(w * -growth);
    }
  }

  lemma GrowingSafe(load: real, growth: real, cap: real, eta: real, s: real, scale: real, width: real)
    requires growth > 0.0 && load <= cap && 0.0 < scale <= width && scale == eta * growth
    requires s <= (cap - load) / width
    ensures Moved(load, growth, eta, s) <= cap
  {
    ShorterRatio(cap - load, width, scale);
    StepRatio(load, growth, cap, eta, s, scale, (cap - load) / scale);
  }

  lemma NegativeRatio(x: real, y: real)
    requires x < 0.0 && y > 0.0
    ensures x / y < 0.0
  {
    DivLe(x, y, 0.0);
    DivMul(x, y);
  }

  // ---------------------------------------------------------------- all brokers at once

  /** A step of size s along the responses changes broker j's load by eta s Delta_j. */
  lemma StepLoads(a: Matrix, br: Matrix, t: Topology, eta: real, s: real)
    requires t.Fits(a) && t.Fits(br)
    ensures forall j :: 0 <= j < t.M() ==>
      Loads(MixRows(Prod(eta, s), a, br), t.M())[j]
        == Moved(Loads(a, t.M())[j], Loads(DiffRows(br, a), t.M())[j], eta, s)
  {
    hide Loads, Blend, Moved;
    LoadsMix(Prod(eta, s), a, br, t.M());
    LoadsDiff(br, a, t.M());
    forall j | 0 <= j < t.M()
      ensures Blend(Prod(eta, s), Loads(a, t.M())[j], Loads(br, t.M())[j])
        == Moved(Loads(a, t.M())[j], Loads(DiffRows(br, a), t.M())[j], eta, s)
    {
      MovedIsBlend(Loads(a, t.M())[j], Loads(br, t.M())[j], eta, s);
    }
  }

  /** One step from any routing toward any responses: no broker ends above its old load or its margin. */
  lemma StepCapacity(plan: Plan, br: Matrix, q: Vec, t: Topology, p: Params, j: nat)
    requires plan.Fits(t) && t.Fits(br) && |q| == t.M() && j < t.M() && p.Valid()
    ensures var r := CommonStep(plan, br, q, t, p);
      && 0.0 <= r.size <= 1.0
      && Loads(r.plan.routing, t.M())[j] <= Max(Loads(plan.routing, t.M())[j], t.brokers[j] - p.deltaS)
  {
    hide Loads, Moved, StepBound;
    var bounds := SafeStepBounds(plan.routing, br, t, p);
    var s := SafeStep(plan.routing, br, t, p);
    StepLoads(plan.routing, br, t, p.eta, s);
    StepAtMostOne(plan, br, t, p);
    assert bounds[j] in bounds;
    BrokerSafe(Loads(plan.routing, t.M())[j], Loads(DiffRows(br, plan.routing), t.M())[j],
               t.brokers[j] - p.deltaS, p.eta, p.variant, s);
  }

  lemma StepAtMostOne(plan: Plan, br: Matrix, t: Topology, p: Params)
    requires plan.Fits(t) && t.Fits(br) && t.M() > 0 && p.Valid()
    ensures 0.0 <= SafeStep(plan.routing, br, t, p) <= 1.0
  {
    var bounds := SafeStepBounds(plan.routing, br, t, p);
    assert bounds[0] in bounds;
  }

  ghost predicate WithinMargin(a: Matrix, t: Topology, p: Params, s: real, br: Matrix)
    requires t.Fits(a) && t.Fits(br)
  {
    forall j :: 0 <= j < t.M() ==> Loads(MixRows(Prod(p.eta, s), a, br), t.M())[j] <= t.brokers[j] - p.deltaS
  }

  /** Broker j gains load and a step of size s puts it exactly on its margin. */
  ghost predicate Binding(a: Matrix, br: Matrix, t: Topology, p: Params, s: real, j: int)
    requires t.Fits(a) && t.Fits(br)
  {
    && 0 <= j < t.M()
    && Loads(DiffRows(br, a), t.M())[j] > 0.0
    && Loads(MixRows(Prod(p.eta, s), a, br), t.M())[j] == t.brokers[j] - p.deltaS
  }

  /**
   From a routing within the margins, the paper's common step is the largest s in [0, 1] whose
   move keeps every broker within its margin, and if it is below 1 some broker with growing
   load lands exactly on its margin.
   */
  lemma LargestSafeStep(plan: Plan, br: Matrix, t: Topology, p: Params, s: real)
    requires plan.Fits(t) && t.Fits(br) && t.M() > 0 && p.Valid() && p.variant == Paper
    requires Guarded(plan.routing, t, p.deltaS) && 0.0 <= s <= 1.0
    ensures var best := SafeStep(plan.routing, br, t, p);
      && 0.0 <= best <= 1.0
      && (WithinMargin(plan.routing, t, p, s, br) <==> s <= best)
      && (best < 1.0 ==> exists j :: Binding(plan.routing, br, t, p, best, j))
  {
    hide Loads, Moved, StepBound;
    var a := plan.routing;
    var bounds := SafeStepBounds(a, br, t, p);
    var best := SafeStep(a, br, t, p);
    forall j | 0 <= j < t.M()
      ensures 0.0 <= bounds[j] <= 1.0
      ensures Moved(Loads(a, t.M())[j], Loads(DiffRows(br, a), t.M())[j], p.eta, s) <= t.brokers[j] - p.deltaS
        <==> s <= bounds[j]
      ensures bounds[j] < 1.0 ==>
        && Loads(DiffRows(br, a), t.M())[j] > 0.0
        && Moved(Loads(a, t.M())[j], Loads(DiffRows(br, a), t.M())[j], p.eta, bounds[j])
             == t.brokers[j] - p.deltaS
    {
      PaperBoundExact(Loads(a, t.M())[j], Loads(DiffRows(br, a), t.M())[j], t.brokers[j] - p.deltaS, p.eta, s);
    }
    var k :| 0 <= k < t.M() && bounds[k] == MinOf(bounds);
    assert best == bounds[k];
    StepLoads(a, br, t, p.eta, s);
    StepLoads(a, br, t, p.eta, best);
    assert forall j :: 0 <= j < t.M() ==> bounds[j] in bounds;
    if best < 1.0 {
      assert Binding(a, br, t, p, best, k);
    }
  }

  lemma NotebookStepsShorter(plan: Plan, br: Matrix, t: Topology, p: Params)
    requires plan.Fits(t) && t.Fits(br) && t.M() > 0 && p.Valid()
    requires Guarded(plan.routing, t, p.deltaS)
    ensures SafeStep(plan.routing, br, t, p.(variant := Notebook))
         <= SafeStep(plan.routing, br, t, p.(variant := Paper))
  {
    hide Loads, StepBound;
    var paper := SafeStepBounds(plan.routing, br, t, p.(variant := Paper));
    var notebook := SafeStepBounds(plan.routing, br, t, p.(variant := Notebook));
    var k :| 0 <= k < t.M() && paper[k] == MinOf(paper);
    NotebookBoundShorter(Loads(DiffRows(br, plan.routing), t.M())[k],
                         t.brokers[k] - p.deltaS - Loads(plan.routing, t.M())[k], p.eta);
    assert notebook[k] in notebook;
  }

  // ---------------------------------------------------------------- rows

  /** One source's row: nothing on missing links, within each link's capacity, off its rate by at most e. */
  ghost predicate RowOk(x: Vec, mu: Vec, rate: real, e: real) {
    IsSplit(x, mu) && Abs(Sum(x) - rate) <= e
  }

  lemma BlendAbove(w: real, x: real, y: real, lo: real)
    requires 0.0 <= w <= 1.0 && lo <= x && lo <= y
    ensures lo <= Blend(w, x, y)
    ensures lo < x && lo < y ==> lo < Blend(w, x, y)
  {
    var u, d, e := 1.0 - w, x - lo, y - lo;
    assert Blend(w, x, y) - lo == u * d + w * e;
    MulNonNeg(u, d);
    MulNonNeg(w, e);
    if d > 0.0 && e > 0.0 {
      if w > 0.0 {
        MulPos(w, e);
      }
    }
  }

  lemma BlendBelow(w: real, x: real, y: real, hi: real)
    requires 0.0 <= w <= 1.0 && x <= hi && y <= hi
    ensures Blend(w, x, y) <= hi
    ensures x < hi && y < hi ==> Blend(w, x, y) < hi
  {
    BlendAbove(w, -x, -y, -hi);
    assert Blend(w, -x, -y) == -Blend(w, x, y);
  }

  lemma BlendBetween(w: real, x: real, y: real, lo: real, hi: real)
    requires 0.0 <= w <= 1.0 && lo <= x <= hi && lo <= y <= hi
    ensures lo <= Blend(w, x, y) <= hi
    ensures x < hi && y < hi ==> Blend(w, x, y) < hi
  {
    BlendAbove(w, x, y, lo);
    BlendBelow(w, x, y, hi);
  }

  lemma MixKeepsRow(w: real, x: Vec, y: Vec, mu: Vec, rate: real, e: real)
    requires 0.0 <= w <= 1.0 && RowOk(x, mu, rate, e) && RowOk(y, mu, rate, e)
    ensures RowOk(Mix(w, x, y), mu, rate, e)
  {
    hide Blend, Sum;
    forall j | 0 <= j < |mu|
      ensures if mu[j] > 0.0 then 0.0 <= Blend(w, x[j], y[j]) < mu[j] else Blend(w, x[j], y[j]) == 0.0
    {
      if mu[j] > 0.0 {
        BlendBetween(w, x[j], y[j], 0.0, mu[j]);
      } else {
        BlendBetween(w, x[j], y[j], 0.0, 0.0);
      }
    }
    SumMix(w, x, y);
    BlendBetween(w, Sum(x), Sum(y), rate - e, rate + e);
  }

  /** A feasible plan: every row in order and every broker within its margin. */
  ghost predicate Feasible(plan: Plan, t: Topology, p: Params, slack: Vec) {
    && plan.Fits(t) && t.Valid() && |slack| == t.N()
    && (forall i :: 0 <= i < t.N() ==> RowOk(plan.routing[i], t.links[i], t.rates[i], slack[i]))
    && Guarded(plan.routing, t, p.deltaS)
  }

  /** Row-sum slack that covers both where the run starts and what the solver may leave. */
  ghost predicate CoversTolerance(t: Topology, slack: Vec) {
    |slack| == t.N() && forall i :: 0 <= i < t.N() ==> Tolerance(FLOW_TOL, t.rates[i]) <= slack[i]
  }

  lemma ResponsesOk(sqrt: real -> real, plan: Plan, t: Topology, p: Params, slack: Vec, q: Vec, held: set<nat>)
    requires IsSqrt(sqrt) && Feasible(plan, t, p, slack) && CoversTolerance(t, slack) && |q| == t.M()
    ensures var br := Responses(sqrt, plan, t, q, held);
      forall i :: 0 <= i < t.N() ==> RowOk(br[i], t.links[i], t.rates[i], slack[i])
  {
    hide SolveAvailable, Allocation, Tolerance;
    forall i | 0 <= i < t.N() && BestRow(sqrt, t, q, i).Ok?
      ensures RowOk(BestRow(sqrt, t, q, i).value.flow, t.links[i], t.rates[i], slack[i])
    {
      var b := SourceProblem(sqrt, t, q, i);
      AvailableReturns(b, FLOW_TOL, MAX_ITER);
      AllocationIsSplit(sqrt, b.mu, b.p, BestRow(sqrt, t, q, i).value.alpha);
    }
  }

  /** One iteration keeps a feasible plan feasible, whichever sources are held. */
  lemma IterationKeepsFeasible(sqrt: real -> real, plan: Plan, t: Topology, p: Params, slack: Vec, held: set<nat>)
    requires IsSqrt(sqrt) && p.Valid() && Feasible(plan, t, p, slack) && CoversTolerance(t, slack)
    ensures Feasible(IterationStep(sqrt, plan, t, p, held).plan, t, p, slack)
  {
    hide Loads, RowOk, SafeStep, NewPrices;
    var q := NewPrices(plan, t, p);
    var br := Responses(sqrt, plan, t, q, held);
    var r := CommonStep(plan, br, q, t, p);
    ResponsesOk(sqrt, plan, t, p, slack, q, held);
    StepAtMostOne(plan, br, t, p);
    var w := Prod(p.eta, r.size);
    UnitProduct(p.eta, r.size);
    forall i | 0 <= i < t.N()
      ensures RowOk(r.plan.routing[i], t.links[i], t.rates[i], slack[i])
    {
      MixKeepsRow(w, plan.routing[i], br[i], t.links[i], t.rates[i], slack[i]);
    }
    forall j | 0 <= j < t.M()
      ensures Loads(r.plan.routing, t.M())[j] <= t.brokers[j] - p.deltaS
    {
      StepCapacity(plan, br, q, t, p, j);
    }
  }

  lemma UnitProduct(x: real, y: real)
    requires 0.0 <= x <= 1.0 && 0.0 <= y <= 1.0
    ensures 0.0 <= Prod(x, y) <= 1.0
  {
    var q := x * y;
    MulNonNeg(x, y);
    MulLe(x, 1.0, y);
    assert q <= y;
  }

  // ---------------------------------------------------------------- whole runs

  /** One step's surroundings when capacities, parameters, prices and responses may all change. */
  datatype Setting = Setting(t: Topology, br: Matrix, prices: Vec, p: Params)

  ghost predicate Suits(g: Setting, n: nat, m: nat) {
    && g.t.N() == n && g.t.M() == m > 0
    && g.t.Fits(g.br) && |g.prices| == m && g.p.Valid()
  }

  /** The plan after stepping through all the settings in order. */
  function RunThrough(plan: Plan, settings: seq<Setting>, n: nat, m: nat): (r: Plan)
    requires Shape(plan.routing, n, m) && |plan.prices| == m
    requires forall k :: 0 <= k < |settings| ==> Suits(settings[k], n, m)
    ensures Shape(r.routing, n, m) && |r.prices| == m
  {
    if |settings| == 0 then plan
    else
      var last := settings[|settings| - 1];
      var before := RunThrough(plan, settings[..|settings| - 1], n, m);
      assert Suits(last, n, m);
      assert before.Fits(last.t);
      CommonStep(before, last.br, last.prices, last.t, last.p).plan
  }

  /** Over a whole run no broker's load exceeds both its first load and every margin it was given. */
  lemma {:induction false} CapacityOverRun(plan: Plan, settings: seq<Setting>, n: nat, m: nat, j: nat, bound: real)
    requires Shape(plan.routing, n, m) && |plan.prices| == m && j < m
    requires forall k :: 0 <= k < |settings| ==>
      Suits(settings[k], n, m) && settings[k].t.brokers[j] - settings[k].p.deltaS <= bound
    requires Loads(plan.routing, m)[j] <= bound
    ensures Loads(RunThrough(plan, settings, n, m).routing, m)[j] <= bound
  {
    hide Loads, CommonStep;
    if |settings| > 0 {
      var last := settings[|settings| - 1];
      CapacityOverRun(plan, settings[..|settings| - 1], n, m, j, bound);
      var before := RunThrough(plan, settings[..|settings| - 1], n, m);
      StepCapacity(before, last.br, last.prices, last.t, last.p, j);
    }
  }

  ghost predicate SameSize(ts: seq<Topology>, n: nat, m: nat) {
    forall k :: 0 <= k < |ts| ==> ts[k].Valid() && ts[k].N() == n && ts[k].M() == m
  }

  /** The simulation's controller: at each tick one iteration on the capacities of that moment, holding failing sources. */
  function AfterTicks(sqrt: real -> real, plan: Plan, ts: seq<Topology>, p: Params, n: nat, m: nat): (r: Plan)
    requires IsSqrt(sqrt) && p.Valid() && SameSize(ts, n, m)
    requires Shape(plan.routing, n, m) && |plan.prices| == m
    ensures Shape(r.routing, n, m) && |r.prices| == m
  {
    if |ts| == 0 then plan
    else
      var before := AfterTicks(sqrt, plan, ts[..|ts| - 1], p, n, m);
      assert before.Fits(ts[|ts| - 1]);
      IterationStep(sqrt, before, ts[|ts| - 1], p, {}).plan
  }

  /** However the capacities vary, no broker's planned load exceeds both its first load and every margin it was given. */
  lemma {:induction false} CapacityOverTicks(sqrt: real -> real, plan: Plan, ts: seq<Topology>, p: Params,
                                             n: nat, m: nat, j: nat, bound: real)
    requires IsSqrt(sqrt) && p.Valid() && SameSize(ts, n, m)
    requires Shape(plan.routing, n, m) && |plan.prices| == m && j < m
    requires forall k :: 0 <= k < |ts| ==> ts[k].brokers[j] - p.deltaS <= bound
    requires Loads(plan.routing, m)[j] <= bound
    ensures Loads(AfterTicks(sqrt, plan, ts, p, n, m).routing, m)[j] <= bound
  {
    hide Loads, CommonStep, NewPrices, BestRow;
    if |ts| > 0 {
      var t := ts[|ts| - 1];
      CapacityOverTicks(sqrt, plan, ts[..|ts| - 1], p, n, m, j, bound);
      var before := AfterTicks(sqrt, plan, ts[..|ts| - 1], p, n, m);
      var q := NewPrices(before, t, p);
      StepCapacity(before, Responses(sqrt, before, t, q, {}), q, t, p, j);
    }
  }

  /** Static capacities: every iterate of every run is feasible, whatever sources are held and when. */
  lemma {:induction false} RunStaysFeasible(sqrt: real -> real, plan: Plan, t: Topology, p: Params, slack: Vec,
                                            held: seq<set<nat>>)
    requires IsSqrt(sqrt) && p.Valid() && Feasible(plan, t, p, slack) && CoversTolerance(t, slack)
    ensures Feasible(Iterate(sqrt, plan, t, p, held), t, p, slack)
  {
    hide IterationStep, CoversTolerance;
    if |held| > 0 {
      RunStaysFeasible(sqrt, plan, t, p, slack, held[..|held| - 1]);
      IterationKeepsFeasible(sqrt, Iterate(sqrt, plan, t, p, held[..|held| - 1]), t, p, slack, held[|held| - 1]);
    }
  }
}
