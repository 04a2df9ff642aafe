/** The event loop handles a bounded number of events before its horizon. */
module Halting {
  import opened Vectors
  import opened Algebra
  import opened Simulation
  import opened Ledger
  import opened Conservation

  /** Recurring after at least one period costs one repetition. */
  lemma RepeatsDrop(t: real, later: real, horizon: real, period: real)
    requires period > 0.0 && t <= horizon && later >= t + period
    ensures Repeats(later, horizon, period) <= Repeats(t, horizon, period) - 1.0
  {
    var x := (horizon - t) / period;
    DivGe(horizon - t, period, 0.0);
    if later <= horizon {
      DivLe(horizon - later, period, x - 1.0);
      DivMul(horizon - t, period);
      assert (x - 1.0) * period == horizon - t - period;
    }
  }

  /** Every event handled up to the horizon uses up at least one unit of the remaining effort. */
  lemma TurnEffort(c: Config, s: Sim, d: Choice, horizon: real, gap: real)
    requires Stationed(c, s) && c.window > 0.0 && gap > 0.0 && d.delay >= gap
    requires Allowed(c, s, d) && CanHandle(c, s, s.pending[d.pick]) && s.pending[d.pick].time <= horizon
    ensures var w := Effort(horizon, gap, c.window);
      Stationed(c, Turn(c, s, d)) && Total(c, w, Turn(c, s, d)) <= Total(c, w, s) - 1.0
  {
    hide Total, Stationed, Turn, CanHandle, Repeats;
    var w, e := Effort(horizon, gap, c.window), s.pending[d.pick];
    TurnTotal(c, w, s, d);
    match e
    case SourceArrival(t, _) => RepeatsDrop(t, t + d.delay, horizon, gap);
    case ControllerTick(t) => RepeatsDrop(t, t + c.window, horizon, c.window);
    case _ =>
  }

  lemma EffortNonNeg(c: Config, s: Sim, w: Weight)
    requires Stationed(c, s) && Proper(w)
    ensures Total(c, w, s) >= 0.0
  {
    EventSumNonNeg(w, s.pending);
    QueueSumNonNeg(w, Stations(c), s.queues);
  }

  lemma {:induction false} ArrivalsEffort(n: nat, w: Weight)
    requires Proper(w) && w.Effort?
    ensures EventSum(w, Arrivals(n)) == Prod(n as real, 6.0 * Repeats(0.0, w.horizon, w.gap))
  {
    if n > 0 {
      hide Repeats, Prod;
      ArrivalsEffort(n - 1, w);
      EventSumAppend(w, Arrivals(n - 1), [SourceArrival(0.0, n - 1)]);
      EventSumOne(w, SourceArrival(0.0, n - 1));
      ProdSucc(n as real - 1.0, 6.0 * Repeats(0.0, w.horizon, w.gap));
    } else {
      assert Prod(0.0, 6.0 * Repeats(0.0, w.horizon, w.gap)) == 0.0;
    }
  }

  /** What a run can cost at most: six events per arrival of each source, and the ticks. */
  function Budget(c: Config, horizon: real, gap: real): real
    requires gap > 0.0 && c.window > 0.0
  {
    Prod(c.n as real, 6.0 * (horizon / gap + 1.0)) + horizon / c.window
  }

  lemma InitialEffort(c: Config, keepRequests: bool, horizon: real, gap: real)
    requires c.window > 0.0 && gap > 0.0 && horizon >= 0.0
    ensures Stationed(c, Initial(c, keepRequests))
    ensures Total(c, Effort(horizon, gap, c.window), Initial(c, keepRequests)) <= Budget(c, horizon, gap)
  {
    hide Prod;
    var w, s := Effort(horizon, gap, c.window), Initial(c, keepRequests);
    EventSumAppend(w, [ControllerTick(c.window)], Arrivals(c.n));
    EventSumOne(w, ControllerTick(c.window));
    ArrivalsEffort(c.n, w);
    NobodyInQueues(w, Stations(c), s.queues);
    FirstTick(horizon, c.window);
  }

  lemma FirstTick(horizon: real, window: real)
    requires window > 0.0 && horizon >= 0.0
    ensures Repeats(window, horizon, window) <= horizon / window
  {
    var x := horizon / window;
    DivMul(horizon, window);
    DivGe(horizon, window, 0.0);
    if window <= horizon {
      DivIs(horizon - window, window, x - 1.0);
    }
  }

  /** Every sampled delay is at least gap and every event handled lies within the horizon. */
  ghost predicate Paced(worlds: seq<World>, choices: seq<Choice>, horizon: real, gap: real)
    requires |worlds| == |choices| + 1
  {
    forall i :: 0 <= i < |choices| ==> choices[i].delay >= gap && worlds[i + 1].sim.now <= horizon
  }

  /** When all sampled delays are at least gap, a run up to the horizon handles at most Budget events. */
  lemma {:induction false} RunEffort(c: Config, keepRequests: bool, worlds: seq<World>, choices: seq<Choice>,
                                     horizon: real, gap: real, k: nat)
    requires c.window > 0.0 && gap > 0.0 && horizon >= 0.0
    requires IsRun(c, keepRequests, worlds, choices) && k < |worlds|
    requires Paced(worlds, choices, horizon, gap)
    ensures Stationed(c, worlds[k].sim)
    ensures Total(c, Effort(horizon, gap, c.window), worlds[k].sim) <= Budget(c, horizon, gap) - k as real
  {
    hide Total, Budget, Turn;
    if k == 0 {
      InitialEffort(c, keepRequests, horizon, gap);
    } else {
      RunEffort(c, keepRequests, worlds, choices, horizon, gap, k - 1);
      RunInvariant(c, keepRequests, worlds, choices, k - 1);
      RunInvariant(c, keepRequests, worlds, choices, k);
      var w, d := worlds[k - 1], choices[k - 1];
      assert IsTurn(c, w, d, worlds[k]);
      NeverStuck(c, w.sim, d.pick);
      TurnEvents(c, w.sim, d);
      TurnEffort(c, w.sim, d, horizon, gap);
    }
  }

  lemma RunBounded(c: Config, keepRequests: bool, worlds: seq<World>, choices: seq<Choice>, horizon: real, gap: real)
    requires c.window > 0.0 && gap > 0.0 && horizon >= 0.0
    requires IsRun(c, keepRequests, worlds, choices)
    requires Paced(worlds, choices, horizon, gap)
    ensures |choices| as real <= Budget(c, horizon, gap)
  {
    hide Total, Budget, Paced;
    RunEffort(c, keepRequests, worlds, choices, horizon, gap, |choices|);
    EffortNonNeg(c, worlds[|choices|].sim, Effort(horizon, gap, c.window));
  }
}
