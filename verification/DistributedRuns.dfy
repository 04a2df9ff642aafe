/** The rounds refine Algorithm 1: what every step and every run keeps. */
module DistributedRuns {
  import opened Vectors
  import opened Prices
  import opened Synchronous
  import opened Distributed

  // ---------------------------------------------------------------- the plan

  /** When every broker priced, the gathered prices are the sequential price step. */
  lemma GatheredPricesAreNew(e: Setup, w: World)
    requires e.Valid() && CallsOk(e, w) && w.plan.Fits(e.t) && RoundOk(e, w) && w.phase.Pricing?
    requires forall k :: 0 <= k < |w.calls| ==> Priced(w.calls[k])
    ensures GatheredPrices(w.calls) == NewPrices(w.plan, e.t, e.p)
  {
    hide Loads, BestRow, PriceMap, Blend;
    forall j | 0 <= j < e.t.M()
      ensures PriceOf(w.calls[j]) == NewPrices(w.plan, e.t, e.p)[j]
    {
      assert CallOk(e, w, j);
    }
  }

  /** The gathered rows are the sequential responses when the sources that returned none are held. */
  lemma GatheredRowsAreResponses(e: Setup, w: World)
    requires e.Valid() && CallsOk(e, w) && w.plan.Fits(e.t) && RoundOk(e, w) && w.phase.Responding?
    requires Finished(w.calls)
    ensures |w.calls| == e.t.N() == |w.plan.routing|
    ensures GatheredRows(w.calls, w.plan.routing)
         == Responses(e.sqrt, w.plan, e.t, w.phase.newPrices, Held(w.calls))
  {
    hide Loads, BestRow, NewPrices, BrokerPrice;
    var br := Responses(e.sqrt, w.plan, e.t, w.phase.newPrices, Held(w.calls));
    forall i | 0 <= i < e.t.N()
      ensures GatheredRows(w.calls, w.plan.routing)[i] == br[i]
    {
      assert CallOk(e, w, i);
    }
  }

  lemma PlanKept(e: Setup, w: World, s: Action)
    requires e.Valid() && WorldOk(e, w) && Enabled(e, w, s)
    ensures PlanOk(e, Next(e, w, s)) && RoundOk(e, Next(e, w, s))
  {
    hide NetworkOk, CallsOk, Answer, CommonStep, NewPrices, PriceRequests;
    if s.Conclude? && w.phase.Pricing? {
      if forall k :: 0 <= k < |w.calls| ==> Priced(w.calls[k]) {
        GatheredPricesAreNew(e, w);
      }
    }
  }

  /** One step of the protocol, whichever it is, keeps the invariant. */
  lemma StepKeepsWorld(e: Setup, w: World, s: Action)
    requires e.Valid() && WorldOk(e, w) && Enabled(e, w, s)
    ensures WorldOk(e, Next(e, w, s))
  {
    hide NetworkOk, CallsOk, PlanOk, RoundOk;
    NetworkKept(e, w, s);
    CallsKept(e, w, s);
    PlanKept(e, w, s);
  }

  /** Routing, prices and the record of applied rounds stay as they are. */
  predicate Stutters(w: World, w': World) {
    w'.plan == w.plan && w'.applied == w.applied
  }

  /** One iteration of the sequential algorithm, holding the sources it adds to the record. */
  ghost predicate Iterates(e: Setup, w: World, w': World, held: set<nat>)
    requires e.Valid() && w.plan.Fits(e.t)
  {
    w'.plan == IterationStep(e.sqrt, w.plan, e.t, e.p, held).plan && w'.applied == w.applied + [held]
  }

  /** The last step of a responding round is exactly one sequential iteration; no other step moves the plan. */
  lemma StepRefines(e: Setup, w: World, s: Action)
    requires e.Valid() && WorldOk(e, w) && Enabled(e, w, s)
    ensures if s.Conclude? && w.phase.Responding? then Iterates(e, w, Next(e, w, s), Held(w.calls))
            else Stutters(w, Next(e, w, s))
  {
    hide NetworkOk, CallsOk, Answer, CommonStep, NewPrices, PriceRequests;
    if s.Conclude? && w.phase.Responding? {
      GatheredRowsAreResponses(e, w);
    }
  }

  // ---------------------------------------------------------------- every run

  ghost predicate Takes(e: Setup, run: seq<World>, steps: seq<Action>, k: int)
    requires e.Valid() && |run| == |steps| + 1 && 0 <= k < |steps|
  {
    Enabled(e, run[k], steps[k]) && run[k + 1] == Next(e, run[k], steps[k])
  }

  ghost predicate IsRun(e: Setup, run: seq<World>, steps: seq<Action>)
    requires e.Valid()
  {
    && |run| == |steps| + 1 && run[0] == Start(e)
    && forall k :: 0 <= k < |steps| ==> Takes(e, run, steps, k)
  }

  lemma {:induction false} RunKeepsWorld(e: Setup, run: seq<World>, steps: seq<Action>, k: nat)
    requires e.Valid() && IsRun(e, run, steps) && k < |run|
    ensures WorldOk(e, run[k])
  {
    hide Next, Enabled, WorldOk;
    if k == 0 {
      StartOk(e);
    } else {
      RunKeepsWorld(e, run, steps, k - 1);
      assert Takes(e, run, steps, k - 1);
      StepKeepsWorld(e, run[k - 1], steps[k - 1]);
    }
  }

  lemma StartOk(e: Setup)
    requires e.Valid()
    ensures WorldOk(e, Start(e))
  {
  }

  /**
   Whatever the network and the timers do, the controller's plan is that of the sequential
   algorithm after its applied rounds, each holding the sources recorded for it, and every round
   begun was applied, was skipped or is under way.
   */
  lemma {:induction false} RunRefinesAlgorithm1(e: Setup, run: seq<World>, steps: seq<Action>, k: nat)
    requires e.Valid() && IsRun(e, run, steps) && k < |run|
    ensures run[k].plan == Iterate(e.sqrt, e.start, e.t, e.p, run[k].applied)
    ensures run[k].begun == |run[k].applied| + run[k].skipped + if run[k].phase.Idle? then 0 else 1
  {
    hide Next, Enabled, Held, IterationStep, NetworkOk, CallsOk, RoundOk;
    RunKeepsWorld(e, run, steps, k);
    if k > 0 {
      RunRefinesAlgorithm1(e, run, steps, k - 1);
      RunKeepsWorld(e, run, steps, k - 1);
      assert Takes(e, run, steps, k - 1);
      StepRefines(e, run[k - 1], steps[k - 1]);
      AnotherIteration(e, run[k - 1], run[k]);
    }
  }

  /** A step that stutters or iterates keeps the plan in step with its record. */
  lemma AnotherIteration(e: Setup, w: World, w': World)
    requires e.Valid() && w.plan == Iterate(e.sqrt, e.start, e.t, e.p, w.applied)
    requires Stutters(w, w') || exists held :: Iterates(e, w, w', held)
    ensures w'.plan == Iterate(e.sqrt, e.start, e.t, e.p, w'.applied)
  {
    hide IterationStep;
    if !Stutters(w, w') {
      var held :| Iterates(e, w, w', held);
      assert w'.applied[..|w'.applied| - 1] == w.applied;
    }
  }

  /** The record of applied rounds only ever grows. */
  lemma {:induction false} AppliedGrows(e: Setup, run: seq<World>, steps: seq<Action>, a: nat, b: nat)
    requires e.Valid() && IsRun(e, run, steps) && a <= b < |run|
    ensures run[a].applied <= run[b].applied
  {
    hide Enabled, Next, WorldOk, Held;
    if a < b {
      AppliedGrows(e, run, steps, a, b - 1);
      RunKeepsWorld(e, run, steps, b - 1);
      assert Takes(e, run, steps, b - 1);
      StepRefines(e, run[b - 1], steps[b - 1]);
      assert run[b - 1].applied <= run[b].applied;
    }
  }

  /** Between two points with no applied round in between, routing and prices are the same. */
  lemma PlanMovesOnlyWhenApplied(e: Setup, run: seq<World>, steps: seq<Action>, a: nat, b: nat)
    requires e.Valid() && IsRun(e, run, steps) && a <= b < |run| && |run[a].applied| == |run[b].applied|
    ensures run[a].plan == run[b].plan
  {
    hide IsRun, Iterate;
    AppliedGrows(e, run, steps, a, b);
    assert run[a].applied == run[b].applied;
    RunRefinesAlgorithm1(e, run, steps, a);
    RunRefinesAlgorithm1(e, run, steps, b);
  }

  /** Late or not, a reply only ever resolves the request it names, with that worker's answer to it. */
  lemma RepliesMatchRequests(e: Setup, run: seq<World>, steps: seq<Action>, k: nat, c: nat, r: nat)
    requires e.Valid() && IsRun(e, run, steps) && k < |run| && run[k].Awaits(c, r)
    requires run[k].conns[c].line.futures[r].Replied?
    ensures var m := run[k].conns[c].line.futures[r].message;
      && m.req == Some(r) && r in run[k].log && run[k].log[r].conn == c
      && Answer(e, run[k].conns[c].peer, run[k].log[r].request) == Some(m.body)
  {
    hide Answer;
    RunKeepsWorld(e, run, steps, k);
    assert ConnectionOk(e, run[k], c);
    assert ReplyOk(e, run[k], c, run[k].conns[c].line.futures[r].message);
  }
}
