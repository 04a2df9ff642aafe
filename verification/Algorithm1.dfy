/** The mutable state of Algorithm 1 and its loops, tied to the step functions of Synchronous. */
module Algorithm1 {
  import opened Vectors
  import opened Threshold
  import opened Topologies
  import opened Prices
  import opened BestResponse
  import opened Synchronous
  import opened Diagnostics
  import opened CapacitySafety
  import opened Changes

  /** What to do with a source whose best response fails. */
  datatype Policy = Raise | Hold

  /** The sources from i on whose best response to these prices fails, in order. */
  function Failures(sqrt: real -> real, t: Topology, prices: Vec, i: nat): (f: seq<nat>)
    requires IsSqrt(sqrt) && t.Valid() && |prices| == t.M() && i <= t.N()
    decreases t.N() - i
  {
    if i == t.N() then []
    else if BestRow(sqrt, t, prices, i).Ok? then Failures(sqrt, t, prices, i + 1)
    else [i] + Failures(sqrt, t, prices, i + 1)
  }

  lemma NoneLeft(sqrt: real -> real, t: Topology, prices: Vec)
    requires IsSqrt(sqrt) && t.Valid() && |prices| == t.M()
    ensures Failures(sqrt, t, prices, t.N()) == []
  {
  }

  lemma FailuresStep(sqrt: real -> real, t: Topology, prices: Vec, i: nat)
    requires IsSqrt(sqrt) && t.Valid() && |prices| == t.M() && i < t.N()
    ensures var later := Failures(sqrt, t, prices, i + 1);
      Failures(sqrt, t, prices, i) == if BestRow(sqrt, t, prices, i).Ok? then later else [i] + later
  {
  }

  /** They are exactly the sources without a best response, each once and in increasing order. */
  lemma {:induction false} FailuresAre(sqrt: real -> real, t: Topology, prices: Vec, i: nat)
    requires IsSqrt(sqrt) && t.Valid() && |prices| == t.M() && i <= t.N()
    ensures var f := Failures(sqrt, t, prices, i);
      && (forall k :: k in f <==> i <= k < t.N() && !BestRow(sqrt, t, prices, k).Ok?)
      && forall a, b :: 0 <= a < b < |f| ==> f[a] < f[b]
    decreases t.N() - i
  {
    hide BestRow;
    if i < t.N() {
      FailuresAre(sqrt, t, prices, i + 1);
      var rest := Failures(sqrt, t, prices, i + 1);
      assert forall a :: 0 <= a < |rest| ==> rest[a] in rest;
      assert Failures(sqrt, t, prices, i) == if BestRow(sqrt, t, prices, i).Ok? then rest else [i] + rest;
    }
  }

  class SystemState {
    var routing: Matrix
    var prices: Vec
    var iteration: nat
    var bounds: Vec
    var size: Option<real>
    var routeRel: Option<real>
    var priceRel: Option<real>
    var failures: seq<nat>

    function View(): Plan
      reads this
    {
      Plan(routing, prices)
    }

    /** The initial state: a given routing at the prices of its own loads. */
    constructor (t: Topology, initial: Matrix, eps: real)
      requires t.Fits(initial) && eps > 0.0
      ensures View() == Plan(initial, BrokerCosts(initial, t, eps))
      ensures iteration == 0 && failures == [] && size.None?
    {
      routing, prices := initial, BrokerCosts(initial, t, eps);
      iteration, bounds, failures := 0, [], [];
      size, routeRel, priceRel := None, None, None;
    }

    method ApplyCommonStep(sqrt: real -> real, t: Topology, br: Matrix, newPrices: Vec, p: Params, held: seq<nat>)
      returns (residual: real)
      requires t.Valid() && p.Valid() && View().Fits(t) && t.Fits(br) && |newPrices| == t.M()
      modifies this
      ensures var r := CommonStep(old(View()), br, newPrices, t, p);
        View() == r.plan && bounds == r.bounds && size == Some(r.size)
      ensures iteration == old(iteration) + 1 && failures == held
      ensures routeRel == Some(RouteChange(sqrt, old(routing), routing, p.eps))
      ensures priceRel == Some(PriceChange(sqrt, old(prices), prices, p.eps))
      ensures residual == Max(RouteChange(sqrt, old(routing), routing, p.eps),
                              PriceChange(sqrt, old(prices), prices, p.eps))
    {
      hide SafeStep, SafeStepBounds, TableNorm, Norm;
      var r := CommonStep(View(), br, newPrices, t, p);
      var route := RouteChange(sqrt, routing, r.plan.routing, p.eps);
      var price := PriceChange(sqrt, prices, newPrices, p.eps);
      routing, prices := r.plan.routing, r.plan.prices;
      iteration := iteration + 1;
      bounds, size, routeRel, priceRel, failures := r.bounds, Some(r.size), Some(route), Some(price), held;
      residual := Max(route, price);
    }

    /** One iteration; under Raise a failing source aborts it and leaves the state as it was. */
    method Step(sqrt: real -> real, t: Topology, p: Params, policy: Policy) returns (done: bool, residual: real)
      requires IsSqrt(sqrt) && t.Valid() && p.Valid() && View().Fits(t)
      modifies this
      ensures done <==> policy == Hold || Failures(sqrt, t, NewPrices(old(View()), t, p), 0) == []
      ensures !done ==> unchanged(this)
      ensures done ==>
        && View() == IterationStep(sqrt, old(View()), t, p, {}).plan
        && size == Some(IterationStep(sqrt, old(View()), t, p, {}).size)
        && bounds == IterationStep(sqrt, old(View()), t, p, {}).bounds
        && routeRel == Some(RouteChange(sqrt, old(routing), routing, p.eps))
        && priceRel == Some(PriceChange(sqrt, old(prices), prices, p.eps))
        && failures == Failures(sqrt, t, NewPrices(old(View()), t, p), 0)
        && iteration == old(iteration) + 1
        && residual == Max(RouteChange(sqrt, old(routing), routing, p.eps),
                           PriceChange(sqrt, old(prices), prices, p.eps))
    {
      hide BestRow, SafeStep, SafeStepBounds, RouteChange, PriceChange, UpdatePrices, Failures, CommonStep, Responses;
      var newPrices := NewPrices(View(), t, p);
      var br, held;
      done, br, held := CollectResponses(sqrt, View(), t, newPrices, policy);
      if !done {
        return false, 0.0;
      }
      residual := ApplyCommonStep(sqrt, t, br, newPrices, p, held);
    }
  }

  /** Step 2 for all sources, in order; a failing source keeps its row, or under Raise ends the iteration. */
  method CollectResponses(sqrt: real -> real, plan: Plan, t: Topology, prices: Vec, policy: Policy)
    returns (done: bool, br: Matrix, held: seq<nat>)
    requires IsSqrt(sqrt) && t.Valid() && plan.Fits(t) && |prices| == t.M()
    ensures done <==> policy == Hold || Failures(sqrt, t, prices, 0) == []
    ensures done ==> br == Responses(sqrt, plan, t, prices, {}) && held == Failures(sqrt, t, prices, 0)
  {
    hide BestRow, Responses, Failures;
    br, held := [], [];
    for i := 0 to t.N()
      invariant |br| == i
      invariant forall k :: 0 <= k < i ==>
        br[k] == Responses(sqrt, plan, t, prices, {})[k]
      invariant Failures(sqrt, t, prices, 0) == held + Failures(sqrt, t, prices, i)
      invariant policy == Raise ==> held == []
    {
      var row := SourceBestResponse(sqrt, t, prices, i);
      FailuresStep(sqrt, t, prices, i);
      if row.Ok? {
        br := br + [row.value.flow];
      } else {
        if policy == Raise {
          return false, br, held;
        }
        br := br + [plan.routing[i]];
        held := held + [i];
      }
    }
    assert br == Responses(sqrt, plan, t, prices, {});
    NoneLeft(sqrt, t, prices);
    done := true;
  }

  method SourceBestResponse(sqrt: real -> real, t: Topology, prices: Vec, i: nat) returns (r: Result<Response>)
    requires IsSqrt(sqrt) && t.Valid() && |prices| == t.M() && i < t.N()
    ensures r == BestRow(sqrt, t, prices, i)
  {
    r := BestResponseAvailable(SourceProblem(sqrt, t, prices, i), FLOW_TOL, MAX_ITER);
  }

  function Unheld(n: nat): (h: seq<set<nat>>)
    ensures |h| == n
  {
    seq(n, _ => {})
  }

  lemma IterateNext(sqrt: real -> real, plan: Plan, t: Topology, p: Params, n: nat)
    requires IsSqrt(sqrt) && plan.Fits(t) && t.Valid() && p.Valid()
    ensures Iterate(sqrt, plan, t, p, Unheld(n + 1))
      == IterationStep(sqrt, Iterate(sqrt, plan, t, p, Unheld(n)), t, p, {}).plan
  {
    hide IterationStep;
    assert Unheld(n + 1)[..n] == Unheld(n);
  }

  /** A run of Algorithm 1: where it starts, what it asks for, and its k-th iterate. */
  datatype Search = Search(sqrt: real -> real, t: Topology, p: Params, start: Plan, tol: real,
                           requireCertificate: bool) {

    ghost predicate Sound() {
      IsSqrt(sqrt) && t.Valid() && p.Valid() && start.Fits(t)
    }

    ghost function At(k: nat): (r: Plan)
      requires Sound()
      ensures r.Fits(t)
    {
      Iterate(sqrt, start, t, p, Unheld(k))
    }

    /** The change the k-th iteration made is below the tolerance. */
    ghost predicate Settled(k: nat)
      requires Sound()
    {
      k > 0 && Max(RouteChange(sqrt, At(k - 1).routing, At(k).routing, p.eps),
                   PriceChange(sqrt, At(k - 1).prices, At(k).prices, p.eps)) < tol
    }

    /** tol of what the routes amounted to before the k-th iteration, and of what the prices did. */
    ghost function RouteReach(k: nat): real
      requires Sound() && k > 0
    {
      Prod(tol, Base(TableNorm(sqrt, At(k - 1).routing), p.eps))
    }

    ghost function PriceReach(k: nat): real
      requires Sound() && k > 0
    {
      Prod(tol, Base(Norm(sqrt, At(k - 1).prices), p.eps))
    }

    /** The k-th iteration moved every route and every price by less than that. */
    ghost predicate Still(k: nat)
      requires Sound() && k > 0
    {
      && EntriesWithin(At(k - 1).routing, At(k).routing, RouteReach(k))
      && forall j :: 0 <= j < t.M() ==> Abs(At(k).prices[j] - At(k - 1).prices[j]) < PriceReach(k)
    }

    ghost function Certificate(k: nat): Option<Diagnosis>
      requires Sound()
    {
      Diagnose(sqrt, At(k).routing, At(k).prices, t, p.eps, ACTIVE_TOL)
    }

    /** The stopping rule after the k-th iteration. */
    ghost predicate Stops(k: nat)
      requires Sound()
    {
      Settled(k) && (requireCertificate ==> Certificate(k).Some? && Certificate(k).value.Certified(DEFAULT_TOLERANCES))
    }

    /** Some source has no best response at the prices the iteration after the k-th computes. */
    ghost predicate StepRaises(k: nat)
      requires Sound()
    {
      Failures(sqrt, t, NewPrices(At(k), t, p), 0) != []
    }

    /** The certificate is asked for after the k-th iteration and some source has no best response there. */
    ghost predicate CertificateRaises(k: nat)
      requires Sound()
    {
      Settled(k) && requireCertificate && Certificate(k).None?
    }
  }

  /** The test after the k-th iteration: stop, or fail because the certificate cannot be computed, or go on. */
  method Judge(sqrt: real -> real, t: Topology, p: Params, tol: real, requireCertificate: bool, s: SystemState,
               change: real, ghost run: Search, ghost k: nat)
    returns (stop: bool, failed: bool)
    requires run.Sound() && k > 0 && s.View() == run.At(k)
    requires run == Search(sqrt, t, p, run.start, tol, requireCertificate)
    requires change == Max(RouteChange(sqrt, run.At(k - 1).routing, run.At(k).routing, p.eps),
                           PriceChange(sqrt, run.At(k - 1).prices, run.At(k).prices, p.eps))
    ensures stop <==> run.Stops(k)
    ensures failed <==> run.CertificateRaises(k)
  {
    hide Diagnose, RouteChange, PriceChange, Iterate;
    if change >= tol {
      return false, false;
    }
    if !requireCertificate {
      return true, false;
    }
    var d := ComputeDiagnostics(sqrt, s.routing, s.prices, t, p.eps, ACTIVE_TOL);
    assert d == run.Certificate(k);
    return d.Some? && d.value.Certified(DEFAULT_TOLERANCES), d.None?;
  }

  /**
   Algorithm 1 from any initial routing. The state returned is the first iterate that meets the
   stopping rule, or the last one allowed; a best response that fails, in an iteration or in the
   certificate, ends the run at the first iterate where it happens. From a feasible routing it stays feasible.
   */
  method RunAlgorithm1(sqrt: real -> real, t: Topology, p: Params, tol: real, maxIter: nat, initial: Matrix,
                       requireCertificate: bool, ghost slack: Vec)
    returns (s: SystemState, done: bool, ghost run: Search)
    requires IsSqrt(sqrt) && t.Valid() && p.Valid() && t.Fits(initial)
    ensures run == Search(sqrt, t, p, Plan(initial, BrokerCosts(initial, t, p.eps)), tol, requireCertificate)
    ensures fresh(s) && run.Sound() && s.iteration <= maxIter && s.View() == run.At(s.iteration)
    ensures CoversTolerance(t, slack) && Feasible(run.start, t, p, slack) ==> Feasible(s.View(), t, p, slack)
    ensures forall k: nat :: k < s.iteration ==>
      !run.StepRaises(k) && !run.Stops(k) && !run.CertificateRaises(k)
    ensures done ==> run.Stops(s.iteration) || (s.iteration == maxIter && !run.CertificateRaises(maxIter))
    ensures done && s.iteration < maxIter ==> s.iteration > 0 && run.Still(s.iteration)
    ensures !done ==>
      (s.iteration < maxIter && !run.Stops(s.iteration) && run.StepRaises(s.iteration))
      || run.CertificateRaises(s.iteration)
  {
    hide IterationStep, Feasible, CoversTolerance, RouteChange, PriceChange, BrokerCosts, NewPrices, Iterate, Failures,
      Search.Stops, Search.Still, Search.CertificateRaises;
    s := new SystemState(t, initial, p.eps);
    run := Search(sqrt, t, p, s.View(), tol, requireCertificate);
    StartIsFirst(run);
    NotYet(run);
    for k := 0 to maxIter
      invariant fresh(s) && s.iteration == k && run.Sound()
      invariant s.View() == run.At(k)
      invariant forall i: nat :: i < k ==> !run.StepRaises(i)
      invariant forall i: nat :: i <= k ==> !run.Stops(i) && !run.CertificateRaises(i)
    {
      var ok, change := s.Step(sqrt, t, p, Raise);
      if !ok {
        StartKeepsFeasible(run, slack, k);
        return s, false, run;
      }
      NextIterate(run, k);
      var stop, failed := Judge(sqrt, t, p, tol, requireCertificate, s, change, run, k + 1);
      if stop || failed {
        StopsWhenStill(run, k + 1);
        StartKeepsFeasible(run, slack, k + 1);
        return s, stop, run;
      }
    }
    StartKeepsFeasible(run, slack, maxIter);
    done := true;
  }

  lemma StartKeepsFeasible(run: Search, slack: Vec, k: nat)
    requires run.Sound()
    ensures CoversTolerance(run.t, slack) && Feasible(run.start, run.t, run.p, slack) ==>
      Feasible(run.At(k), run.t, run.p, slack)
  {
    hide Feasible, CoversTolerance;
    if CoversTolerance(run.t, slack) && Feasible(run.start, run.t, run.p, slack) {
      RunStaysFeasible(run.sqrt, run.start, run.t, run.p, slack, Unheld(k));
    }
  }

  /**
   An iteration settles exactly when the sums of the squared moves, of the routes and of the prices, are
   below the squares of tol times what they amounted to before; in particular each single one is.
   */
  lemma SettledIff(run: Search, k: nat)
    requires run.Sound() && k > 0
    ensures run.Settled(k) <==>
      && run.tol > 0.0
      && TableEnergy(DiffRows(run.At(k).routing, run.At(k - 1).routing)) < run.RouteReach(k) * run.RouteReach(k)
      && Energy(Minus(run.At(k).prices, run.At(k - 1).prices)) < run.PriceReach(k) * run.PriceReach(k)
    ensures run.Settled(k) ==> run.Still(k)
  {
    hide RouteChange, PriceChange, TableNorm, Norm, Iterate, TableEnergy, Energy, IsRelative, Prod, EntriesWithin;
    var before, after := run.At(k - 1), run.At(k);
    RouteChangeMeans(run.sqrt, before.routing, after.routing, run.p.eps);
    PriceChangeMeans(run.sqrt, before.prices, after.prices, run.p.eps);
    if run.Settled(k) {
      EntriesMoved(run.sqrt, before.routing, after.routing, run.p.eps, run.tol);
      PricesMoved(run.sqrt, before.prices, after.prices, run.p.eps, run.tol);
    }
  }

  lemma StopsWhenStill(run: Search, k: nat)
    requires run.Sound() && k > 0
    ensures run.Stops(k) ==> run.Still(k)
  {
    hide Search.Still, Search.Settled;
    SettledIff(run, k);
  }

  lemma StartIsFirst(run: Search)
    requires run.Sound()
    ensures run.At(0) == run.start
  {
  }

  /** Nothing is tested before the first iteration. */
  lemma NotYet(run: Search)
    requires run.Sound()
    ensures !run.Stops(0) && !run.CertificateRaises(0)
  {
  }

  lemma NextIterate(run: Search, k: nat)
    requires run.Sound()
    ensures run.At(k + 1) == IterationStep(run.sqrt, run.At(k), run.t, run.p, {}).plan
  {
    hide IterationStep;
    IterateNext(run.sqrt, run.start, run.t, run.p, k);
  }
}
