/** Where units go: over the link to the broker drawn for them, and then to that broker, whatever coincides. */
module Paths {
  import opened Vectors
  import opened Simulation
  import opened Ledger
  import opened Conservation
  import opened Fifo
  import opened Generators

  /** Source and broker of every unit, by id: the source that arrived and the broker drawn at that moment. */
  function RoutesAfter(events: seq<Event>, choices: seq<Choice>): (routes: seq<(nat, nat)>)
    requires |events| == |choices|
  {
    if |events| == 0 then []
    else
      var n := |events| - 1;
      RoutesAfter(events[..n], choices[..n]) + Drawn(events[n], choices[n].broker)
  }

  function Drawn(e: Event, broker: nat): seq<(nat, nat)> {
    if e.SourceArrival? then [(e.source, broker)] else []
  }

  /** The unit is rightly at this station: on its own link before the link is done with it, at its broker afterwards. */
  predicate Rightly(units: map<nat, Unit>, routes: seq<(nat, nat)>, at: Station, u: nat) {
    && u < |routes| && u in units
    && match at
       case Access(i, j) => routes[u] == (i, j) && units[u].accessComplete.None?
       case Server(j) => routes[u].1 == j && units[u].accessComplete.Some?
  }

  predicate EventRight(units: map<nat, Unit>, routes: seq<(nat, nat)>, e: Event) {
    match e
    case ServiceStart(_, at, u) => Rightly(units, routes, at, u)
    case ServiceComplete(_, at, u) => Rightly(units, routes, at, u)
    case BrokerArrival(_, j, u) => Rightly(units, routes, Server(j), u)
    case _ => true
  }

  ghost predicate EventsRight(evs: seq<Event>, units: map<nat, Unit>, routes: seq<(nat, nat)>) {
    forall e :: e in evs ==> EventRight(units, routes, e)
  }

  ghost predicate QueueRight(q: Queue, units: map<nat, Unit>, routes: seq<(nat, nat)>, at: Station) {
    forall u :: u in q.waiting ==> Rightly(units, routes, at, u)
  }

  ghost predicate OnPaths(s: Sim, routes: seq<(nat, nat)>) {
    && |routes| == s.counter
    && EventsRight(s.pending, s.units, routes)
    && forall at :: at in s.queues ==> QueueRight(s.queues[at], s.units, routes, at)
  }

  /** A handler leaves the other units' records alone. */
  lemma TurnUnits(c: Config, s: Sim, d: Choice)
    requires Allowed(c, s, d) && CanHandle(c, s, s.pending[d.pick])
    ensures var e, s' := s.pending[d.pick], Turn(c, s, d);
      && s'.counter == s.counter + (if e.SourceArrival? then 1 else 0)
      && (e.SourceArrival? ==> s'.units == s.units[s.counter := Unit(e.time, e.source, None, None)])
      && (e.ServiceStart? || e.BrokerArrival? || e.ControllerTick? ==> s'.units == s.units)
      && (e.ServiceComplete? && e.at.Access? ==>
            s'.units == s.units[e.unit := s.units[e.unit].(accessComplete := Some(e.time))])
      && (e.ServiceComplete? && e.at.Server? ==> forall u :: u != e.unit ==>
            (u in s.units <==> u in s'.units) && (u in s.units ==> s'.units[u] == s.units[u]))
  {
    hide CanHandle, Allowed;
  }

  lemma StaysRight(units: map<nat, Unit>, routes: seq<(nat, nat)>, units': map<nat, Unit>, routes': seq<(nat, nat)>,
                   at: Station, u: nat)
    requires Rightly(units, routes, at, u) && routes <= routes' && u in units' && units'[u] == units[u]
    ensures Rightly(units', routes', at, u)
  {
  }

  /** Units that an event does not carry keep their records. */
  lemma OthersKept(c: Config, s: Sim, d: Choice, u: nat)
    requires Allowed(c, s, d) && CanHandle(c, s, s.pending[d.pick]) && UnitsOk(s)
    requires u in s.units && !(s.pending[d.pick].ServiceComplete? && s.pending[d.pick].unit == u)
    ensures u in Turn(c, s, d).units && Turn(c, s, d).units[u] == s.units[u]
  {
    hide Turn, CanHandle;
    TurnUnits(c, s, d);
  }

  lemma OldEventRight(c: Config, s: Sim, d: Choice, routes: seq<(nat, nat)>, k: nat)
    requires SimOk(c, s) && Allowed(c, s, d) && CanHandle(c, s, s.pending[d.pick]) && OnPaths(s, routes)
    requires k < |s.pending| && k != d.pick
    ensures EventRight(Turn(c, s, d).units, routes + Drawn(s.pending[d.pick], d.broker), s.pending[k])
  {
    hide Turn, CanHandle, Rightly, Total;
    var e, x := s.pending[d.pick], s.pending[k];
    assert x in s.pending;
    if x.ServiceStart? || x.ServiceComplete? || x.BrokerArrival? {
      var at := if x.BrokerArrival? then Server(x.broker) else x.at;
      NeverInTwoPlaces(c, s, x.unit);
      RightlyKnown(s.units, routes, at, x.unit);
      OthersKept(c, s, d, x.unit);
      StaysRight(s.units, routes, Turn(c, s, d).units, routes + Drawn(e, d.broker), at, x.unit);
    }
  }

  lemma RightlyKnown(units: map<nat, Unit>, routes: seq<(nat, nat)>, at: Station, u: nat)
    requires Rightly(units, routes, at, u)
    ensures u in units
  {
  }

  lemma OldWaitingRight(c: Config, s: Sim, d: Choice, routes: seq<(nat, nat)>, at: Station, u: nat)
    requires SimOk(c, s) && Allowed(c, s, d) && CanHandle(c, s, s.pending[d.pick]) && OnPaths(s, routes)
    requires at in s.queues && u in s.queues[at].waiting
    ensures Rightly(Turn(c, s, d).units, routes + Drawn(s.pending[d.pick], d.broker), at, u)
  {
    hide Turn, CanHandle, Rightly, Total;
    var e := s.pending[d.pick];
    assert QueueRight(s.queues[at], s.units, routes, at);
    NeverInTwoPlaces(c, s, u);
    RightlyKnown(s.units, routes, at, u);
    OthersKept(c, s, d, u);
    StaysRight(s.units, routes, Turn(c, s, d).units, routes + Drawn(e, d.broker), at, u);
  }

  /** The unit that the event carries, or that arrives, goes where it should. */
  lemma CarriedRight(c: Config, s: Sim, d: Choice, routes: seq<(nat, nat)>)
    requires SimOk(c, s) && Allowed(c, s, d) && CanHandle(c, s, s.pending[d.pick]) && OnPaths(s, routes)
    ensures var e, units, routes' := s.pending[d.pick], Turn(c, s, d).units, routes + Drawn(s.pending[d.pick], d.broker);
      && (e.SourceArrival? ==> Rightly(units, routes', Access(e.source, d.broker), s.counter))
      && (e.ServiceStart? ==> Rightly(units, routes', e.at, e.unit))
      && (e.ServiceComplete? && e.at.Access? ==> Rightly(units, routes', Server(e.at.broker), e.unit))
      && (e.BrokerArrival? ==> Rightly(units, routes', Server(e.broker), e.unit))
  {
    hide Turn, CanHandle, OnePlace;
    assert s.pending[d.pick] in s.pending;
    TurnUnits(c, s, d);
  }

  lemma NewEventRight(c: Config, s: Sim, d: Choice, routes: seq<(nat, nat)>, x: Event)
    requires SimOk(c, s) && Allowed(c, s, d) && CanHandle(c, s, s.pending[d.pick]) && OnPaths(s, routes)
    requires x in News(c, s, s.pending[d.pick], d)
    ensures EventRight(Turn(c, s, d).units, routes + Drawn(s.pending[d.pick], d.broker), x)
  {
    hide Turn, CanHandle, Rightly, SimOk, OnPaths;
    var e := s.pending[d.pick];
    CarriedRight(c, s, d, routes);
    QueuesKnown(c, s, d);
    if e.ServiceComplete? && |s.queues[e.at].waiting| > 0 {
      assert s.queues[e.at].waiting[0] in s.queues[e.at].waiting;
      OldWaitingRight(c, s, d, routes, e.at, s.queues[e.at].waiting[0]);
    }
  }

  lemma QueuesKnown(c: Config, s: Sim, d: Choice)
    requires Allowed(c, s, d) && CanHandle(c, s, s.pending[d.pick])
    ensures s.pending[d.pick].ServiceComplete? ==> s.pending[d.pick].at in s.queues
  {
  }

  lemma QueueStaysRight(c: Config, s: Sim, d: Choice, routes: seq<(nat, nat)>, at: Station)
    requires SimOk(c, s) && Allowed(c, s, d) && CanHandle(c, s, s.pending[d.pick]) && OnPaths(s, routes)
    requires at in Turn(c, s, d).queues && at in s.queues
    ensures QueueRight(Turn(c, s, d).queues[at], Turn(c, s, d).units, routes + Drawn(s.pending[d.pick], d.broker), at)
  {
    hide Turn, CanHandle, Rightly, SimOk, OnPaths;
    var e, q' := s.pending[d.pick], Turn(c, s, d).queues[at];
    TurnQueues(c, s, d);
    CarriedRight(c, s, d, routes);
    forall u | u in q'.waiting
      ensures Rightly(Turn(c, s, d).units, routes + Drawn(e, d.broker), at, u)
    {
      if u in s.queues[at].waiting {
        OldWaitingRight(c, s, d, routes, at, u);
      }
    }
  }

  /** One turn keeps every unit on its path. */
  lemma TurnOnPaths(c: Config, s: Sim, d: Choice, routes: seq<(nat, nat)>)
    requires SimOk(c, s) && Allowed(c, s, d) && CanHandle(c, s, s.pending[d.pick]) && OnPaths(s, routes)
    ensures OnPaths(Turn(c, s, d), routes + Drawn(s.pending[d.pick], d.broker))
  {
    hide Turn, CanHandle, SimOk, EventRight, QueueRight, OnPaths;
    var e, s' := s.pending[d.pick], Turn(c, s, d);
    var routes' := routes + Drawn(e, d.broker);
    forall x | x in s'.pending
      ensures EventRight(s'.units, routes', x)
    {
      var k :| 0 <= k < |s'.pending| && s'.pending[k] == x;
      var i := Origin(c, s, d, k);
      if i < |s.pending| {
        OldEventRight(c, s, d, routes, i);
      } else {
        NewEventRight(c, s, d, routes, x);
      }
    }
    TurnQueues(c, s, d);
    forall at | at in s'.queues
      ensures QueueRight(s'.queues[at], s'.units, routes', at)
    {
      QueueStaysRight(c, s, d, routes, at);
    }
    PathsAre(c, s, d, routes);
  }

  lemma PathsAre(c: Config, s: Sim, d: Choice, routes: seq<(nat, nat)>)
    requires Allowed(c, s, d) && CanHandle(c, s, s.pending[d.pick]) && OnPaths(s, routes)
    requires var s', routes' := Turn(c, s, d), routes + Drawn(s.pending[d.pick], d.broker);
      && (forall x :: x in s'.pending ==> EventRight(s'.units, routes', x))
      && (forall at :: at in s'.queues ==> QueueRight(s'.queues[at], s'.units, routes', at))
    ensures OnPaths(Turn(c, s, d), routes + Drawn(s.pending[d.pick], d.broker))
  {
    hide Turn, CanHandle;
    TurnUnits(c, s, d);
  }

  /**
   In every state of every run, ties included, every unit in service or waiting is on the link from its
   source to the broker drawn when it arrived, or past that link and at that broker.
   */
  lemma {:induction false} RunOnPaths(c: Config, keepRequests: bool, worlds: seq<World>, choices: seq<Choice>, k: nat)
    requires c.window > 0.0 && IsRun(c, keepRequests, worlds, choices) && k < |worlds|
    ensures k <= |choices| && forall a :: 0 <= a < |choices| ==> choices[a].pick < |worlds[a].sim.pending|
    ensures OnPaths(worlds[k].sim, RoutesAfter(Handled(worlds, choices, k), choices[..k]))
  {
    hide Invariant, Allowed, CanHandle, Turn, OnPaths, SimOk;
    RunPicks(c, keepRequests, worlds, choices);
    if k == 0 {
      NobodyAstray(c, keepRequests);
      assert choices[..0] == [];
    } else {
      RunOnPaths(c, keepRequests, worlds, choices, k - 1);
      RunInvariant(c, keepRequests, worlds, choices, k - 1);
      var w, d := worlds[k - 1], choices[k - 1];
      InvariantParts(c, w);
      assert IsTurn(c, w, d, worlds[k]);
      NeverStuck(c, w.sim, d.pick);
      var events := Handled(worlds, choices, k);
      assert events[..k - 1] == Handled(worlds, choices, k - 1) && choices[..k][..k - 1] == choices[..k - 1];
      TurnOnPaths(c, w.sim, d, RoutesAfter(events[..k - 1], choices[..k - 1]));
    }
  }

  lemma NobodyAstray(c: Config, keepRequests: bool)
    ensures OnPaths(Initial(c, keepRequests), [])
  {
    ArrivalsOk(c.n);
    var s := Initial(c, keepRequests);
    assert forall k :: 1 <= k < |s.pending| ==> s.pending[k] == Arrivals(c.n)[k - 1];
  }
}
