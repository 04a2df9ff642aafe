/** How far one iteration moves: every route and every price, and how large the common step is. */
module StepLaws {
  import opened Vectors
  import opened Algebra
  import opened Threshold
  import opened Topologies
  import opened Prices
  import opened BestResponse
  import opened Synchronous
  import opened CapacitySafety

  // ---------------------------------------------------------------- the size of the step

  /** The paper divides the headroom by the damped growth, the notebook by the whole of it. */
  function Scale(eta: real, variant: Variant): real {
    match variant
    case Paper => eta
    case Notebook => 1.0
  }

  /** Of two brokers' loads, from and toward: s of the way, scaled, stays at or below cap, or the load does not grow. */
  predicate Allows(from: real, toward: real, cap: real, scale: real, s: real) {
    toward > from ==> from + Prod(scale, s) * (toward - from) <= cap
  }

  /** A broker's bound is the largest number up to 1 that it allows, overloaded or not. */
  lemma BoundExact(from: real, toward: real, cap: real, eta: real, variant: Variant, s: real)
    requires eta > 0.0
    ensures s <= StepBound(toward - from, cap - from, eta, variant)
      <==> s <= 1.0 && Allows(from, toward, cap, Scale(eta, variant), s)
    ensures StepBound(toward - from, cap - from, eta, variant) < 1.0 ==> toward > from
    ensures var b := StepBound(toward - from, cap - from, eta, variant);
      b < 1.0 ==> from + Prod(Scale(eta, variant), b) * (toward - from) == cap
  {
    var growth, scale := toward - from, Scale(eta, variant);
    if growth > 0.0 {
      WidthExact(growth, cap - from, scale, scale * growth, s);
      MulPos(scale, growth);
      var b := StepBound(growth, cap - from, eta, variant);
      WidthExact(growth, cap - from, scale, scale * growth, b);
    }
  }

  lemma WidthExact(growth: real, headroom: real, scale: real, width: real, s: real)
    requires growth > 0.0 && scale > 0.0 && width == scale * growth
    ensures width > 0.0
    ensures s <= headroom / width <==> Prod(scale, s) * growth <= headroom
    ensures s == headroom / width ==> Prod(scale, s) * growth == headroom
  {
    MulPos(scale, growth);
    DivGe(headroom, width, s);
    DivMul(headroom, width);
    Times(s, width, scale * growth);
    assert Prod(scale, s) * growth == s * width;
  }

  /** The responses' own broker loads, which the steps head for. */
  lemma GrowthIs(a: Matrix, br: Matrix, t: Topology, p: Params)
    requires t.Fits(a) && t.Fits(br) && p.Valid()
    ensures forall j :: 0 <= j < t.M() ==>
      SafeStepBounds(a, br, t, p)[j]
        == StepBound(Loads(br, t.M())[j] - Loads(a, t.M())[j], t.brokers[j] - p.deltaS - Loads(a, t.M())[j],
                     p.eta, p.variant)
  {
    hide Loads, StepBound;
    LoadsDiff(br, a, t.M());
  }

  /** Broker j's load, s of the way to the responses and scaled, is within its margin or does not grow. */
  ghost predicate BrokerAllows(plan: Plan, br: Matrix, t: Topology, p: Params, s: real, j: nat)
    requires plan.Fits(t) && t.Fits(br) && j < t.M()
  {
    Allows(Loads(plan.routing, t.M())[j], Loads(br, t.M())[j], t.brokers[j] - p.deltaS, Scale(p.eta, p.variant), s)
  }

  /**
   The size of a step, from any routing toward any responses and for both variants: it is the largest
   number in [0, 1] that all brokers allow, and zero if none above zero is allowed.
   */
  lemma SizeExact(plan: Plan, br: Matrix, q: Vec, t: Topology, p: Params, s: real)
    requires plan.Fits(t) && t.Fits(br) && |q| == t.M() > 0 && p.Valid() && s > 0.0
    ensures var r := CommonStep(plan, br, q, t, p);
      && 0.0 <= r.size <= 1.0
      && (s <= r.size <==> s <= 1.0 && forall j :: 0 <= j < t.M() ==> BrokerAllows(plan, br, t, p, s, j))
      && |r.bounds| == t.M()
      && forall j :: 0 <= j < t.M() ==> (s <= r.bounds[j] <==> s <= 1.0 && BrokerAllows(plan, br, t, p, s, j))
  {
    hide Loads, StepBound, Allows, Scale, SafeStepBounds;
    var r := CommonStep(plan, br, q, t, p);
    StepAtMostOne(plan, br, t, p);
    forall j | 0 <= j < t.M()
      ensures s <= r.bounds[j] <==> s <= 1.0 && BrokerAllows(plan, br, t, p, s, j)
    {
      BrokerBound(plan, br, t, p, s, j);
    }
    AtMostMin(r.bounds, s);
  }

  lemma AtMostMin(v: Vec, s: real)
    requires |v| > 0
    ensures s <= MinOf(v) <==> forall j :: 0 <= j < |v| ==> s <= v[j]
  {
    assert forall j :: 0 <= j < |v| ==> v[j] in v;
  }

  lemma BrokerBound(plan: Plan, br: Matrix, t: Topology, p: Params, s: real, j: nat)
    requires plan.Fits(t) && t.Fits(br) && p.Valid() && j < t.M()
    ensures s <= SafeStepBounds(plan.routing, br, t, p)[j] <==> s <= 1.0 && BrokerAllows(plan, br, t, p, s, j)
  {
    hide Loads, StepBound, Allows, Scale;
    GrowthIs(plan.routing, br, t, p);
    BoundExact(Loads(plan.routing, t.M())[j], Loads(br, t.M())[j], t.brokers[j] - p.deltaS, p.eta, p.variant, s);
  }

  /**
   A step shorter than 1 is held back by a broker whose load grows: one at or above its margin if the
   step is zero, and otherwise one that the step puts exactly on its margin. In the paper's variant
   that is its load in the routing returned.
   */
  ghost predicate HoldsBack(plan: Plan, br: Matrix, t: Topology, p: Params, r: Step, j: nat)
    requires plan.Fits(t) && t.Fits(br) && r.plan.Fits(t) && j < t.M()
  {
    var from, toward, cap := Loads(plan.routing, t.M())[j], Loads(br, t.M())[j], t.brokers[j] - p.deltaS;
    && toward > from
    && (r.size == 0.0 ==> from >= cap)
    && (r.size > 0.0 ==> from + Prod(Scale(p.eta, p.variant), r.size) * (toward - from) == cap)
    && (r.size > 0.0 && p.variant == Paper ==> Loads(r.plan.routing, t.M())[j] == cap)
  }

  lemma SizeBinds(plan: Plan, br: Matrix, q: Vec, t: Topology, p: Params) returns (j: nat)
    requires plan.Fits(t) && t.Fits(br) && |q| == t.M() > 0 && p.Valid()
    ensures j < t.M()
    ensures var r := CommonStep(plan, br, q, t, p); r.size < 1.0 ==> HoldsBack(plan, br, t, p, r, j)
  {
    hide Loads, StepBound, SafeStepBounds, Prod, Scale, MinOf;
    var bounds := SafeStepBounds(plan.routing, br, t, p);
    j := Least(bounds);
    assert CommonStep(plan, br, q, t, p).size == Max(0.0, bounds[j]);
    BoundBinds(plan, br, t, p, j);
    LoadMoves(plan, br, q, t, p, j);
    ScaleIs(p);
  }

  lemma Least(v: Vec) returns (j: nat)
    requires |v| > 0
    ensures j < |v| && v[j] == MinOf(v)
  {
    j :| j < |v| && v[j] == MinOf(v);
  }

  lemma ScaleIs(p: Params)
    requires p.Valid()
    ensures Scale(p.eta, p.variant) > 0.0 && (p.variant == Paper ==> Scale(p.eta, p.variant) == p.eta)
  {
  }

  lemma BoundBinds(plan: Plan, br: Matrix, t: Topology, p: Params, j: nat)
    requires plan.Fits(t) && t.Fits(br) && p.Valid() && j < t.M()
    ensures var from, toward, cap := Loads(plan.routing, t.M())[j], Loads(br, t.M())[j], t.brokers[j] - p.deltaS;
      var b := SafeStepBounds(plan.routing, br, t, p)[j];
      b < 1.0 ==>
        && toward > from && from + Prod(Scale(p.eta, p.variant), b) * (toward - from) == cap
        && (b <= 0.0 ==> from >= cap)
  {
    hide Loads, StepBound;
    GrowthIs(plan.routing, br, t, p);
    var from, toward, cap := Loads(plan.routing, t.M())[j], Loads(br, t.M())[j], t.brokers[j] - p.deltaS;
    var b := SafeStepBounds(plan.routing, br, t, p)[j];
    BoundExact(from, toward, cap, p.eta, p.variant, b);
    if b <= 0.0 {
      Overloaded(toward - from, cap - from, Scale(p.eta, p.variant), b);
    }
  }

  lemma Overloaded(growth: real, headroom: real, scale: real, b: real)
    requires growth > 0.0 && scale > 0.0 && b <= 0.0 && Prod(scale, b) * growth == headroom
    ensures headroom <= 0.0
  {
    MulNonNeg(scale, -b);
    MulNonNeg(scale * -b, growth);
    assert Prod(scale, b) * growth == -((scale * -b) * growth);
  }

  // ---------------------------------------------------------------- how far it goes

  lemma BlendMoves(w: real, x: real, y: real)
    ensures Blend(w, x, y) - x == w * (y - x)
  {
  }

  /** The routing returned is eta times the reported size of the way to the responses, entry by entry. */
  lemma EntryMoves(plan: Plan, br: Matrix, q: Vec, t: Topology, p: Params, i: nat, j: nat)
    requires plan.Fits(t) && t.Fits(br) && |q| == t.M() > 0 && p.Valid() && i < t.N() && j < t.M()
    ensures var r := CommonStep(plan, br, q, t, p);
      && r.plan.prices == q
      && r.plan.routing[i][j] - plan.routing[i][j] == p.eta * r.size * (br[i][j] - plan.routing[i][j])
  {
    hide Loads, SafeStep, SafeStepBounds, Blend;
    BlendMoves(Prod(p.eta, SafeStep(plan.routing, br, t, p)), plan.routing[i][j], br[i][j]);
  }

  /** So is every broker's load. */
  lemma LoadMoves(plan: Plan, br: Matrix, q: Vec, t: Topology, p: Params, j: nat)
    requires plan.Fits(t) && t.Fits(br) && |q| == t.M() > 0 && p.Valid() && j < t.M()
    ensures var r := CommonStep(plan, br, q, t, p);
      Loads(r.plan.routing, t.M())[j]
        == Loads(plan.routing, t.M())[j] + Prod(p.eta, r.size) * (Loads(br, t.M())[j] - Loads(plan.routing, t.M())[j])
  {
    hide Loads, SafeStepBounds, SafeStep;
    StepLoads(plan.routing, br, t, p.eta, SafeStep(plan.routing, br, t, p));
    LoadsDiff(br, plan.routing, t.M());
  }

  /** The row source i steps toward: its best response at the new prices, or its own when held or without one. */
  ghost predicate StepsToward(sqrt: real -> real, plan: Plan, t: Topology, q: Vec, held: set<nat>, i: nat, row: Vec)
    requires IsSqrt(sqrt) && plan.Fits(t) && Shape(t.links, t.N(), t.M()) && |q| == t.M() && i < t.N()
  {
    match SolveAvailable(Problem(sqrt, t.links[i], q, t.rates[i]), FLOW_TOL, MAX_ITER)
    case Ok(x) => if i in held then row == plan.routing[i] else row == x.flow
    case _ => row == plan.routing[i]
  }

  /**
   One iteration: the price of broker j goes gamma of the way to its marginal cost at the present load,
   and the flow of source i goes eta times the size of the way to its response to the new prices.
   */
  lemma IterationMoves(sqrt: real -> real, plan: Plan, t: Topology, p: Params, held: set<nat>, i: nat, j: nat)
    returns (row: Vec)
    requires IsSqrt(sqrt) && plan.Fits(t) && t.Valid() && p.Valid() && i < t.N() && j < t.M()
    ensures |row| == t.M()
    ensures var r := IterationStep(sqrt, plan, t, p, held);
      && r.plan.prices[j] - plan.prices[j]
           == p.gamma * (PriceMap(Loads(plan.routing, t.M())[j], t.brokers[j], p.eps) - plan.prices[j])
      && StepsToward(sqrt, plan, t, r.plan.prices, held, i, row)
      && r.plan.routing[i][j] - plan.routing[i][j] == p.eta * r.size * (row[j] - plan.routing[i][j])
  {
    hide Loads, SafeStep, SafeStepBounds, Blend, PriceMap, SolveAvailable;
    var q := NewPrices(plan, t, p);
    var br := Responses(sqrt, plan, t, q, held);
    row := br[i];
    EntryMoves(plan, br, q, t, p, i, j);
    BlendMoves(p.gamma, plan.prices[j], PriceMap(Loads(plan.routing, t.M())[j], t.brokers[j], p.eps));
  }

  /** The price map is the capacity over the squared gap, never taken below eps, and a broker's own update heads for it. */
  lemma PriceMapIs(load: real, mu: real, eps: real, price: real, gamma: real)
    requires eps > 0.0
    ensures mu - load >= eps ==> PriceMap(load, mu, eps) * ((mu - load) * (mu - load)) == mu
    ensures mu - load <= eps ==> PriceMap(load, mu, eps) * (eps * eps) == mu
    ensures BrokerPrice(price, load, mu, gamma, eps) - price == gamma * (PriceMap(load, mu, eps) - price)
  {
    BlendMoves(gamma, price, PriceMap(load, mu, eps));
    hide CostRate;
    RateTimes(mu, Max(mu - load, eps));
  }

  lemma RateTimes(mu: real, gap: real)
    requires gap > 0.0
    ensures CostRate(mu, gap) * (gap * gap) == mu
  {
    var v := 1.0 / gap;
    DivMul(1.0, gap);
    MarginalIs(mu - gap, mu, v);
    assert mu - (mu - gap) == gap;
    Times(v * gap, v * gap, 1.0);
    assert (mu * (v * v)) * (gap * gap) == mu * ((v * gap) * (v * gap));
  }

  // ---------------------------------------------------------------- ticks

  /** The windowed controller's ticks on unchanging capacities are the iterations of Algorithm 1. */
  lemma {:induction false} TicksAreIterations(sqrt: real -> real, plan: Plan, ts: seq<Topology>, p: Params, t: Topology,
                                             held: seq<set<nat>>)
    requires IsSqrt(sqrt) && p.Valid() && plan.Fits(t) && t.Valid() && forall k :: 0 <= k < |ts| ==> ts[k] == t
    requires |held| == |ts| && forall k :: 0 <= k < |held| ==> held[k] == {}
    ensures SameSize(ts, t.N(), t.M())
    ensures AfterTicks(sqrt, plan, ts, p, t.N(), t.M()) == Iterate(sqrt, plan, t, p, held)
  {
    hide IterationStep;
    if |ts| > 0 {
      TicksAreIterations(sqrt, plan, ts[..|ts| - 1], p, t, held[..|ts| - 1]);
    }
  }

  /** What each tick steps with: the capacities of its moment, and the prices and responses these give. */
  function TickSettings(sqrt: real -> real, plan: Plan, ts: seq<Topology>, p: Params, n: nat, m: nat): (g: seq<Setting>)
    requires IsSqrt(sqrt) && p.Valid() && SameSize(ts, n, m) && Shape(plan.routing, n, m) && |plan.prices| == m
    ensures |g| == |ts|
  {
    if |ts| == 0 then []
    else
      var before, t := AfterTicks(sqrt, plan, ts[..|ts| - 1], p, n, m), ts[|ts| - 1];
      assert before.Fits(t);
      var q := NewPrices(before, t, p);
      TickSettings(sqrt, plan, ts[..|ts| - 1], p, n, m) + [Setting(t, Responses(sqrt, before, t, q, {}), q, p)]
  }

  /** On changing capacities they are a run of common steps through those settings. */
  lemma {:induction false} TicksRunThrough(sqrt: real -> real, plan: Plan, ts: seq<Topology>, p: Params, n: nat, m: nat)
    requires IsSqrt(sqrt) && p.Valid() && SameSize(ts, n, m) && Shape(plan.routing, n, m) && |plan.prices| == m
    ensures var g := TickSettings(sqrt, plan, ts, p, n, m);
      && (forall k :: 0 <= k < |g| ==> Suits(g[k], n, m))
      && RunThrough(plan, g, n, m) == AfterTicks(sqrt, plan, ts, p, n, m)
  {
    hide CommonStep, NewPrices, BestRow;
    if |ts| > 0 {
      var g := TickSettings(sqrt, plan, ts, p, n, m);
      TicksRunThrough(sqrt, plan, ts[..|ts| - 1], p, n, m);
      assert g[..|ts| - 1] == TickSettings(sqrt, plan, ts[..|ts| - 1], p, n, m);
      assert g[|ts| - 1].t == ts[|ts| - 1] && ts[|ts| - 1].Valid();
    }
  }
}
