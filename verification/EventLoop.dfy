/** The simulation on mutable state: the event handlers and the engine's loop. */
module EventLoop {
  import opened Vectors
  import opened Simulation
  import opened Ledger
  import opened Conservation
  import opened Halting

  /** The heap never runs out of a least element while it has one at all. */
  lemma {:induction false} LeastExists(evs: seq<Event>) returns (k: nat)
    requires |evs| > 0
    ensures Least(evs, k)
  {
    k := 0;
    for i := 1 to |evs|
      invariant k < i
      invariant forall j :: 0 <= j < i ==> evs[k].time <= evs[j].time
    {
      if evs[i].time < evs[k].time {
        k := i;
      }
    }
  }

  /** One event handled by the loop: the i-th delay and broker, an event due by the horizon, its handler's next state. */
  ghost predicate Handled(c: Config, worlds: seq<World>, choices: seq<Choice>, i: nat,
                          delays: nat -> real, brokers: nat -> nat, horizon: real)
    requires |worlds| == |choices| + 1 && i < |choices|
  {
    var w, d := worlds[i], choices[i];
    && Allowed(c, w.sim, d) && CanHandle(c, w.sim, w.sim.pending[d.pick])
    && w.sim.pending[d.pick].time <= horizon
    && d.delay == delays(i) && d.broker == brokers(i)
    && worlds[i + 1] == NextWorld(c, w, d)
  }

  /** The states the loop passed through and the choices it made, from one world to another. */
  ghost predicate IsTrace(c: Config, worlds: seq<World>, choices: seq<Choice>, first: World, last: World,
                          delays: nat -> real, brokers: nat -> nat, horizon: real) {
    && |worlds| == |choices| + 1
    && worlds[0] == first && worlds[|choices|] == last
    && forall i :: 0 <= i < |choices| ==> Handled(c, worlds, choices, i, delays, brokers, horizon)
  }

  /** A trace grows by one event. */
  lemma Extend(c: Config, worlds: seq<World>, choices: seq<Choice>, first: World, last: World, d: Choice, next: World,
               delays: nat -> real, brokers: nat -> nat, horizon: real)
    requires IsTrace(c, worlds, choices, first, last, delays, brokers, horizon)
    requires Allowed(c, last.sim, d) && CanHandle(c, last.sim, last.sim.pending[d.pick])
    requires last.sim.pending[d.pick].time <= horizon && next == NextWorld(c, last, d)
    requires d.delay == delays(|choices|) && d.broker == brokers(|choices|)
    ensures IsTrace(c, worlds + [next], choices + [d], first, next, delays, brokers, horizon)
  {
    hide Allowed, CanHandle, NextWorld;
    forall i | 0 <= i < |choices + [d]|
      ensures Handled(c, worlds + [next], choices + [d], i, delays, brokers, horizon)
    {
      if i < |choices| {
        assert Handled(c, worlds, choices, i, delays, brokers, horizon);
      }
    }
  }

  class SimulationHandler {
    const config: Config
    var now: real
    var pending: seq<Event>
    var queues: map<Station, Queue>
    var units: map<nat, Unit>
    var counter: nat
    var completed: nat
    var latencySum: real
    const keepRequests: bool

    function View(): Sim
      reads this
    {
      Sim(now, pending, queues, units, counter, completed, latencySum, keepRequests)
    }

    constructor (config: Config, keepRequests: bool)
      ensures View() == Initial(config, keepRequests) && this.config == config
    {
      this.config, this.keepRequests := config, keepRequests;
      now, pending := 0.0, [ControllerTick(config.window)] + Arrivals(config.n);
      queues := map at | at in Stations(config) :: Queue([], false);
      units, counter, completed, latencySum := map[], 0, 0, 0.0;
    }

    method Schedule(e: Event)
      modifies this`pending
      ensures pending == old(pending) + [e]
    {
      pending := pending + [e];
    }

    method HandleSourceArrival(i: nat, delay: real, j: nat)
      requires Access(i, j) in queues
      modifies this
      ensures View() == Simulation.HandleSourceArrival(old(View()), i, delay, j)
    {
      Schedule(SourceArrival(now + delay, i));
      var unit := counter;
      counter := counter + 1;
      units := units[unit := Unit(now, i, None, None)];
      var queue := queues[Access(i, j)];
      if !queue.busy {
        Schedule(ServiceStart(now, Access(i, j), unit));
      } else {
        queues := queues[Access(i, j) := queue.Push(unit)];
      }
    }

    /** Access and broker services start alike. */
    method HandleServiceStart(at: Station, unit: nat, delay: real)
      requires at in queues
      modifies this
      ensures View() == HandleStart(old(View()), at, unit, delay)
    {
      queues := queues[at := queues[at].(busy := true)];
      Schedule(ServiceComplete(now + delay, at, unit));
    }

    method HandleAccessComplete(at: Station, unit: nat)
      requires at in queues && unit in units
      modifies this
      ensures View() == Simulation.HandleAccessComplete(old(View()), at, unit)
    {
      units := units[unit := units[unit].(accessComplete := Some(now))];
      var queue := queues[at];
      if |queue.waiting| > 0 {
        queues := queues[at := queue.Pop()];
        Schedule(ServiceStart(now, at, queue.waiting[0]));
      } else {
        queues := queues[at := queue.(busy := false)];
      }
      Schedule(BrokerArrival(now, at.broker, unit));
    }

    method HandleBrokerArrival(j: nat, unit: nat)
      requires Server(j) in queues
      modifies this
      ensures View() == Enter(old(View()), Server(j), unit)
    {
      var queue := queues[Server(j)];
      if !queue.busy {
        Schedule(ServiceStart(now, Server(j), unit));
      } else {
        queues := queues[Server(j) := queue.Push(unit)];
      }
    }

    method HandleBrokerComplete(at: Station, unit: nat)
      requires at in queues && unit in units
      modifies this
      ensures View() == Simulation.HandleBrokerComplete(old(View()), at, unit)
    {
      var u := units[unit].(brokerComplete := Some(now));
      completed := completed + 1;
      latencySum := latencySum + (now - u.arrival);
      units := if keepRequests then units[unit := u] else units - {unit};
      var queue := queues[at];
      if |queue.waiting| > 0 {
        queues := queues[at := queue.Pop()];
        Schedule(ServiceStart(now, at, queue.waiting[0]));
      } else {
        queues := queues[at := queue.(busy := false)];
      }
    }

    method HandleControllerTick()
      modifies this
      ensures View() == HandleTick(old(View()), config.window)
    {
      Schedule(ControllerTick(now + config.window));
    }

    method HandleEvent(e: Event, d: Choice)
      requires CanHandle(config, View(), e) && d.broker < config.m
      modifies this
      ensures View() == Handle(config, old(View()), e, d)
    {
      match e
      case SourceArrival(_, i) => HandleSourceArrival(i, d.delay, d.broker);
      case ServiceStart(_, at, unit) => HandleServiceStart(at, unit, d.delay);
      case ServiceComplete(_, at, unit) =>
        if at.Access? {
          HandleAccessComplete(at, unit);
        } else {
          HandleBrokerComplete(at, unit);
        }
      case BrokerArrival(_, j, unit) => HandleBrokerArrival(j, unit);
      case ControllerTick(_) => HandleControllerTick();
    }

    /**
     The engine's loop up to `duration`: it handles due events one after another, each a least
     one of those pending with the next sampled delay and chosen broker, until nothing due is
     left. The trace it leaves behind is a run of the handlers, so every law of runs holds of it.
     */
    method Run(duration: real, ghost gap: real, delays: nat -> real, brokers: nat -> nat, ghost area0: real)
      returns (handled: nat, ghost worlds: seq<World>, ghost choices: seq<Choice>)
      requires config.window > 0.0 && config.m > 0 && gap > 0.0
      requires forall n :: delays(n) >= gap
      requires forall n :: brokers(n) < config.m
      requires Invariant(config, World(View(), area0))
      modifies this
      ensures |worlds| == handled + 1 && worlds[handled].sim == View() && |choices| == handled
      ensures IsTrace(config, worlds, choices, World(old(View()), area0), worlds[handled], delays, brokers, duration)
      ensures Invariant(config, worlds[handled]) && now >= old(now)
      ensures forall k :: 0 <= k < |pending| ==> pending[k].time > duration
      ensures handled as real <= Total(config, Effort(duration, gap, config.window), old(View()))
    {
      hide Invariant, Total, Turn, CanHandle, InsideCount, Handled, Allowed;
      handled, worlds, choices := 0, [World(View(), area0)], [];
      ghost var first, effort := worlds[0], Effort(duration, gap, config.window);
      InvariantStationed(config, first);
      ghost var budget := Total(config, effort, View());
      while exists k :: 0 <= k < |pending| && pending[k].time <= duration
        invariant |worlds| == handled + 1 && worlds[handled].sim == View() && |choices| == handled
        invariant IsTrace(config, worlds, choices, first, worlds[handled], delays, brokers, duration)
        invariant Invariant(config, worlds[handled]) && Stationed(config, View())
        invariant now >= old(now)
        invariant Total(config, effort, View()) <= budget - handled as real
        decreases Total(config, effort, View()).Floor
      {
        ghost var w, s := worlds[handled], View();
        var found := LeastExists(pending);
        var pick: nat :| pick < |pending| && Least(pending, pick);
        var d := Choice(pick, delays(handled), brokers(handled));
        var e := pending[pick];
        IsAllowed(config, s, d);
        TurnKeepsInvariant(config, w, d);
        TurnEffort(config, s, d, duration, gap);
        EffortNonNeg(config, Turn(config, s, d), effort);
        CanHandlePopped(config, s, pick);
        Extend(config, worlds, choices, first, w, d, NextWorld(config, w, d), delays, brokers, duration);
        worlds, choices := worlds + [NextWorld(config, w, d)], choices + [d];
        pending := pending[..pick] + pending[pick + 1..];
        now := e.time;
        assert View() == Popped(s, pick);
        HandleEvent(e, d);
        assert View() == Turn(config, s, d) by {
          TurnIs(config, s, d);
        }
        handled := handled + 1;
      }
      EffortNonNeg(config, View(), effort);
    }
  }

  /** From the initial state a trace is a run in the sense of all the laws of runs. */
  lemma TraceIsRun(c: Config, keepRequests: bool, worlds: seq<World>, choices: seq<Choice>, last: World,
                   delays: nat -> real, brokers: nat -> nat, horizon: real)
    requires IsTrace(c, worlds, choices, StartWorld(c, keepRequests), last, delays, brokers, horizon)
    ensures IsRun(c, keepRequests, worlds, choices)
  {
    hide Allowed, CanHandle, NextWorld;
    forall i | 0 <= i < |choices| ensures IsTurn(c, worlds[i], choices[i], worlds[i + 1]) {
      assert Handled(c, worlds, choices, i, delays, brokers, horizon);
    }
  }

  lemma IsAllowed(c: Config, s: Sim, d: Choice)
    requires Least(s.pending, d.pick) && d.delay >= 0.0 && d.broker < c.m
    ensures Allowed(c, s, d) && forall k :: 0 <= k < |s.pending| ==> s.pending[d.pick].time <= s.pending[k].time
  {
  }

  lemma InvariantStationed(c: Config, w: World)
    requires Invariant(c, w)
    ensures Stationed(c, w.sim)
  {
  }

  lemma CanHandlePopped(c: Config, s: Sim, k: nat)
    requires k < |s.pending| && CanHandle(c, s, s.pending[k])
    ensures CanHandle(c, Popped(s, k), s.pending[k])
  {
  }

  lemma TurnIs(c: Config, s: Sim, d: Choice)
    requires Allowed(c, s, d) && CanHandle(c, s, s.pending[d.pick])
    ensures CanHandle(c, Popped(s, d.pick), s.pending[d.pick])
    ensures Turn(c, s, d) == Handle(c, Popped(s, d.pick), s.pending[d.pick], d)
  {
  }
}
