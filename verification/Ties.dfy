/** One run in which a request overtakes a pending start, so that a broker starts two units at once. */
module Ties {
  import opened Simulation
  import opened Ledger
  import opened Conservation
  import opened Fifo

  const TWO_SOURCES := Config(2, 1, 10.0)

  const LINK0 := Access(0, 0)
  const LINK1 := Access(1, 0)
  const BROKER := Server(0)
  const TICK := ControllerTick(10.0)
  const NEXT0 := SourceArrival(20.0, 0)
  const NEXT1 := SourceArrival(20.0, 1)

  /** These events are pending, nobody waits anywhere, and only the links named are busy. */
  ghost predicate Snapshot(s: Sim, pending: seq<Event>, busy0: bool, busy1: bool, counter: nat) {
    && s.pending == pending && s.counter == counter
    && LINK0 in s.queues && LINK1 in s.queues && BROKER in s.queues
    && s.queues[LINK0] == Queue([], busy0)
    && s.queues[LINK1] == Queue([], busy1)
    && s.queues[BROKER] == Queue([], false)
  }

  /** One turn between two snapshots. */
  lemma Snap(s: Sim, d: Choice, before: seq<Event>, b0: bool, b1: bool, n: nat,
             after: seq<Event>, b0': bool, b1': bool, n': nat)
    requires Snapshot(s, before, b0, b1, n) && Allowed(TWO_SOURCES, s, d)
    requires CanHandle(TWO_SOURCES, s, before[d.pick])
    requires Remove(before, d.pick) + News(TWO_SOURCES, s, before[d.pick], d) == after
    requires n' == n + (if before[d.pick].SourceArrival? then 1 else 0)
    requires b0' == (if Serves(before[d.pick], LINK0) then before[d.pick].ServiceStart? else b0)
    requires b1' == (if Serves(before[d.pick], LINK1) then before[d.pick].ServiceStart? else b1)
    requires !Serves(before[d.pick], BROKER)
    requires before[d.pick].SourceArrival? ==> !b0 && !b1 && before[d.pick].source < 2
    requires before[d.pick].BrokerArrival? ==> before[d.pick].broker == 0
    ensures Snapshot(Turn(TWO_SOURCES, s, d), after, b0', b1', n')
  {
    hide Turn, News;
    TurnPending(TWO_SOURCES, s, d);
    TurnQueues(TWO_SOURCES, s, d);
    TurnCounter(s, d);
  }

  lemma TurnCounter(s: Sim, d: Choice)
    requires Allowed(TWO_SOURCES, s, d) && CanHandle(TWO_SOURCES, s, s.pending[d.pick])
    ensures Turn(TWO_SOURCES, s, d).counter == s.counter + (if s.pending[d.pick].SourceArrival? then 1 else 0)
  {
    hide CanHandle, Allowed;
  }

  /** A run can always be continued by an allowed choice. */
  lemma Continue(worlds: seq<World>, choices: seq<Choice>, d: Choice)
    returns (worlds': seq<World>, choices': seq<Choice>)
    requires IsRun(TWO_SOURCES, true, worlds, choices) && Allowed(TWO_SOURCES, worlds[|choices|].sim, d)
    ensures IsRun(TWO_SOURCES, true, worlds', choices')
    ensures var s := worlds[|choices|].sim;
      CanHandle(TWO_SOURCES, s, s.pending[d.pick]) && worlds'[|choices'|].sim == Turn(TWO_SOURCES, s, d)
  {
    hide Invariant, Turn, InsideCount, Allowed, CanHandle;
    var k := |choices|;
    RunInvariant(TWO_SOURCES, true, worlds, choices, k);
    TurnKeepsInvariant(TWO_SOURCES, worlds[k], d);
    worlds' := worlds + [NextWorld(TWO_SOURCES, worlds[k], d)];
    choices' := choices + [d];
    forall i | 0 <= i < |choices'|
      ensures IsTurn(TWO_SOURCES, worlds'[i], choices'[i], worlds'[i + 1])
    {
      if i < k {
        assert IsTurn(TWO_SOURCES, worlds[i], choices[i], worlds[i + 1]);
      }
    }
  }

  ghost predicate Reached(worlds: seq<World>, choices: seq<Choice>, pending: seq<Event>,
                          busy0: bool, busy1: bool, counter: nat) {
    && |worlds| == |choices| + 1
    && IsRun(TWO_SOURCES, true, worlds, choices)
    && Snapshot(worlds[|choices|].sim, pending, busy0, busy1, counter)
  }

  lemma Begin() returns (worlds: seq<World>, choices: seq<Choice>)
    ensures Reached(worlds, choices, [TICK, SourceArrival(0.0, 0), SourceArrival(0.0, 1)], false, false, 0)
  {
    worlds, choices := [StartWorld(TWO_SOURCES, true)], [];
    assert Arrivals(1) == Arrivals(0) + [SourceArrival(0.0, 0)];
    assert Arrivals(2) == [SourceArrival(0.0, 0), SourceArrival(0.0, 1)];
    StationsListed(TWO_SOURCES);
  }

  lemma BothArrive() returns (ws: seq<World>, cs: seq<Choice>)
    ensures Reached(ws, cs, [TICK, NEXT0, ServiceStart(0.0, LINK0, 0), NEXT1, ServiceStart(0.0, LINK1, 1)],
                    false, false, 2)
  {
    hide Turn, IsRun;
    var p0 := [TICK, SourceArrival(0.0, 0), SourceArrival(0.0, 1)];
    var p1 := [TICK, SourceArrival(0.0, 1), NEXT0, ServiceStart(0.0, LINK0, 0)];
    var p2 := [TICK, NEXT0, ServiceStart(0.0, LINK0, 0), NEXT1, ServiceStart(0.0, LINK1, 1)];
    var d := Choice(1, 20.0, 0);
    ws, cs := Begin();
    ws, cs := Step(ws, cs, d, p0, false, false, 0, p1, false, false, 1);
    ws, cs := Step(ws, cs, d, p1, false, false, 1, p2, false, false, 2);
  }

  /** Both links draw a service of 1, so both units reach the broker at the same time. */
  lemma BothHandOver() returns (ws: seq<World>, cs: seq<Choice>)
    ensures Reached(ws, cs, [TICK, NEXT0, NEXT1, BrokerArrival(1.0, 0, 0), BrokerArrival(1.0, 0, 1)], false, false, 2)
  {
    hide Turn, IsRun;
    var p2 := [TICK, NEXT0, ServiceStart(0.0, LINK0, 0), NEXT1, ServiceStart(0.0, LINK1, 1)];
    var p3 := [TICK, NEXT0, NEXT1, ServiceStart(0.0, LINK1, 1), ServiceComplete(1.0, LINK0, 0)];
    var p4 := [TICK, NEXT0, NEXT1, ServiceComplete(1.0, LINK0, 0), ServiceComplete(1.0, LINK1, 1)];
    var p5 := [TICK, NEXT0, NEXT1, ServiceComplete(1.0, LINK1, 1), BrokerArrival(1.0, 0, 0)];
    var p6 := [TICK, NEXT0, NEXT1, BrokerArrival(1.0, 0, 0), BrokerArrival(1.0, 0, 1)];
    ws, cs := BothArrive();
    ws, cs := Step(ws, cs, Choice(2, 1.0, 0), p2, false, false, 2, p3, true, false, 2);
    ws, cs := Step(ws, cs, Choice(3, 1.0, 0), p3, true, false, 2, p4, true, true, 2);
    ws, cs := Step(ws, cs, Choice(3, 0.0, 0), p4, true, true, 2, p5, false, true, 2);
    ws, cs := Step(ws, cs, Choice(3, 0.0, 0), p5, false, true, 2, p6, false, false, 2);
  }

  /** What the handler schedules when nobody waits anywhere. */
  function PlainNews(e: Event, d: Choice, counter: nat): seq<Event> {
    match e
    case SourceArrival(t, i) => [SourceArrival(t + d.delay, i), ServiceStart(t, Access(i, d.broker), counter)]
    case ServiceStart(t, at, unit) => [ServiceComplete(t + d.delay, at, unit)]
    case ServiceComplete(t, at, unit) => if at.Access? then [BrokerArrival(t, at.broker, unit)] else []
    case BrokerArrival(t, j, unit) => [ServiceStart(t, Server(j), unit)]
    case ControllerTick(t) => [ControllerTick(t + 10.0)]
  }

  lemma Step(ws: seq<World>, cs: seq<Choice>, d: Choice, p: seq<Event>, b0: bool, b1: bool, n: nat,
             p': seq<Event>, b0': bool, b1': bool, n': nat)
    returns (ws': seq<World>, cs': seq<Choice>)
    requires Reached(ws, cs, p, b0, b1, n)
    requires Least(p, d.pick) && d.delay >= 0.0 && d.broker == 0
    requires Remove(p, d.pick) + PlainNews(p[d.pick], d, n) == p'
    requires n' == n + (if p[d.pick].SourceArrival? then 1 else 0)
    requires b0' == (if Serves(p[d.pick], LINK0) then p[d.pick].ServiceStart? else b0)
    requires b1' == (if Serves(p[d.pick], LINK1) then p[d.pick].ServiceStart? else b1)
    requires !Serves(p[d.pick], BROKER)
    requires p[d.pick].ServiceComplete? ==> Serves(p[d.pick], LINK0) || Serves(p[d.pick], LINK1)
    requires p[d.pick].SourceArrival? ==> !b0 && !b1 && p[d.pick].source < 2
    requires p[d.pick].BrokerArrival? ==> p[d.pick].broker == 0
    ensures Reached(ws', cs', p', b0', b1', n')
  {
    hide Turn, CanHandle;
    var s := ws[|cs|].sim;
    ws', cs' := Continue(ws, cs, d);
    PlainNewsIs(s, d, p, b0, b1, n);
    Snap(s, d, p, b0, b1, n, p', b0', b1', n');
    assert |ws'| == |cs'| + 1;
  }

  lemma PlainNewsIs(s: Sim, d: Choice, p: seq<Event>, b0: bool, b1: bool, n: nat)
    requires Snapshot(s, p, b0, b1, n) && d.pick < |p| && d.broker == 0 && CanHandle(TWO_SOURCES, s, p[d.pick])
    requires p[d.pick].ServiceComplete? ==> Serves(p[d.pick], LINK0) || Serves(p[d.pick], LINK1)
    requires p[d.pick].SourceArrival? ==> !b0 && !b1 && p[d.pick].source < 2
    requires p[d.pick].BrokerArrival? ==> p[d.pick].broker == 0
    ensures News(TWO_SOURCES, s, p[d.pick], d) == PlainNews(p[d.pick], d, n)
  {
    hide CanHandle, Snapshot;
    match p[d.pick]
    case SourceArrival(_, _) => PlainArrival(s, d, p, b0, b1, n);
    case ServiceComplete(_, _, _) => PlainComplete(s, d, p, b0, b1, n);
    case BrokerArrival(_, _, _) => BrokerIdle(s, p, b0, b1, n);
    case _ =>
  }

  lemma BrokerIdle(s: Sim, p: seq<Event>, b0: bool, b1: bool, n: nat)
    requires Snapshot(s, p, b0, b1, n)
    ensures BROKER in s.queues && !s.queues[BROKER].busy
  {
  }

  lemma PlainArrival(s: Sim, d: Choice, p: seq<Event>, b0: bool, b1: bool, n: nat)
    requires Snapshot(s, p, b0, b1, n) && d.pick < |p| && d.broker == 0 && CanHandle(TWO_SOURCES, s, p[d.pick])
    requires p[d.pick].SourceArrival? && !b0 && !b1 && p[d.pick].source < 2
    ensures News(TWO_SOURCES, s, p[d.pick], d) == PlainNews(p[d.pick], d, n)
  {
    hide CanHandle;
    var at := Access(p[d.pick].source, 0);
    assert at == LINK0 || at == LINK1;
    assert !s.queues[at].busy;
  }

  lemma PlainComplete(s: Sim, d: Choice, p: seq<Event>, b0: bool, b1: bool, n: nat)
    requires Snapshot(s, p, b0, b1, n) && d.pick < |p| && d.broker == 0 && CanHandle(TWO_SOURCES, s, p[d.pick])
    requires Serves(p[d.pick], LINK0) || Serves(p[d.pick], LINK1)
    requires p[d.pick].ServiceComplete?
    ensures News(TWO_SOURCES, s, p[d.pick], d) == PlainNews(p[d.pick], d, n)
  {
    hide CanHandle;
    assert s.queues[p[d.pick].at].waiting == [];
  }

  /** Single-server exclusion fails when a request overtakes a pending start: here two units start at one broker. */
  lemma TiesBreakExclusion() returns (worlds: seq<World>, choices: seq<Choice>)
    ensures IsRun(TWO_SOURCES, true, worlds, choices)
    ensures var p := worlds[|choices|].sim.pending;
      exists i, j :: 0 <= i < j < |p| && Serves(p[i], BROKER) && Serves(p[j], BROKER)
  {
    hide Turn;
    var p6 := [TICK, NEXT0, NEXT1, BrokerArrival(1.0, 0, 0), BrokerArrival(1.0, 0, 1)];
    var p7 := [TICK, NEXT0, NEXT1, BrokerArrival(1.0, 0, 1), ServiceStart(1.0, BROKER, 0)];
    var p8 := [TICK, NEXT0, NEXT1, ServiceStart(1.0, BROKER, 0), ServiceStart(1.0, BROKER, 1)];
    worlds, choices := BothHandOver();
    worlds, choices := Step(worlds, choices, Choice(3, 0.0, 0), p6, false, false, 2, p7, false, false, 2);
    worlds, choices := Step(worlds, choices, Choice(3, 0.0, 0), p7, false, false, 2, p8, false, false, 2);
    assert Serves(p8[3], BROKER) && Serves(p8[4], BROKER);
  }
}
