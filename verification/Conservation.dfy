/** Laws of every run of the simulation, ties included: one place per unit, and Little's law along the path. */
module Conservation {
  import opened Vectors
  import opened Simulation
  import opened Ledger

  /** The simulation state, and the time integral of the number of units inside. */
  datatype World = World(sim: Sim, area: real)

  predicate Inside(units: map<nat, Unit>, id: nat) {
    id in units && units[id].brokerComplete.None?
  }

  /** Units inside among the first k. */
  function InsideCount(units: map<nat, Unit>, k: nat): nat {
    if k == 0 then 0 else InsideCount(units, k - 1) + (if Inside(units, k - 1) then 1 else 0)
  }

  /** Time the units inside among the first k have already spent. */
  function InsideAge(units: map<nat, Unit>, k: nat, now: real): real {
    if k == 0 then 0.0
    else InsideAge(units, k - 1, now) + (if Inside(units, k - 1) then now - units[k - 1].arrival else 0.0)
  }

  // ---------------------------------------------------------------- runs

  function StartWorld(c: Config, keepRequests: bool): World {
    World(Initial(c, keepRequests), 0.0)
  }

  function NextWorld(c: Config, w: World, d: Choice): World
    requires Allowed(c, w.sim, d) && CanHandle(c, w.sim, w.sim.pending[d.pick])
  {
    var next := Turn(c, w.sim, d);
    World(next, w.area + InsideCount(w.sim.units, w.sim.counter) as real * (next.now - w.sim.now))
  }

  /** A run: any event of least time is taken, with any non-negative delay and any broker. */
  ghost predicate IsRun(c: Config, keepRequests: bool, worlds: seq<World>, choices: seq<Choice>) {
    && |worlds| == |choices| + 1
    && worlds[0] == StartWorld(c, keepRequests)
    && forall k :: 0 <= k < |choices| ==> IsTurn(c, worlds[k], choices[k], worlds[k + 1])
  }

  ghost predicate IsTurn(c: Config, w: World, d: Choice, w': World) {
    && Allowed(c, w.sim, d)
    && (CanHandle(c, w.sim, w.sim.pending[d.pick]) ==> w' == NextWorld(c, w, d))
  }

  // ---------------------------------------------------------------- the invariant

  /** Events name existing stations and sources and lie in the present or future; hand-offs are immediate. */
  predicate EventOk(c: Config, s: Sim, e: Event) {
    && s.now <= e.time
    && match e
       case SourceArrival(_, i) => i < c.n
       case ServiceStart(t, at, unit) => c.IsStation(at) && t == s.now
       case ServiceComplete(_, at, unit) => c.IsStation(at)
       case BrokerArrival(t, j, unit) => j < c.m && t == s.now
       case ControllerTick(_) => true
  }

  ghost predicate UnitsOk(s: Sim) {
    forall id :: id in s.units ==> id < s.counter && s.units[id].arrival <= s.now
  }

  /** Every unit inside is in exactly one queue or one pending event, and no other request is anywhere. */
  ghost predicate OnePlace(c: Config, s: Sim)
    requires Stationed(c, s)
  {
    forall id: nat :: Total(c, OfUnit(id), s) == Indicator(Inside(s.units, id))
  }

  /** What holds of every reachable state. */
  ghost predicate SimOk(c: Config, s: Sim) {
    && Stationed(c, s)
    && (forall k :: 0 <= k < |s.pending| ==> EventOk(c, s, s.pending[k]))
    && UnitsOk(s)
    && OnePlace(c, s)
    && s.completed + InsideCount(s.units, s.counter) == s.counter
  }

  ghost predicate Invariant(c: Config, w: World) {
    && SimOk(c, w.sim)
    && w.area == w.sim.latencySum + InsideAge(w.sim.units, w.sim.counter, w.sim.now)
  }

  // ---------------------------------------------------------------- counting units

  lemma {:induction false} CountGrow(units: map<nat, Unit>, k: nat, id: nat, u: Unit, now: real)
    requires k <= id
    ensures InsideCount(units[id := u], k) == InsideCount(units, k)
    ensures InsideAge(units[id := u], k, now) == InsideAge(units, k, now)
  {
    if k > 0 {
      CountGrow(units, k - 1, id, u, now);
    }
  }

  /** Two tables that agree off id differ in the counts by what they say about id. */
  lemma {:induction false} CountChange(a: map<nat, Unit>, b: map<nat, Unit>, k: nat, id: nat, now: real)
    requires id < k
    requires forall x: nat :: x != id ==> (x in a <==> x in b)
    requires forall x: nat :: x != id && x in a ==> a[x] == b[x]
    ensures InsideCount(b, k) - InsideCount(a, k)
      == (if Inside(b, id) then 1 else 0) - (if Inside(a, id) then 1 else 0)
    ensures InsideAge(b, k, now) - InsideAge(a, k, now)
      == (if Inside(b, id) then now - b[id].arrival else 0.0) - (if Inside(a, id) then now - a[id].arrival else 0.0)
  {
    if k - 1 == id {
      CountSame(a, b, k - 1, now);
    } else {
      CountChange(a, b, k - 1, id, now);
    }
  }

  lemma {:induction false} CountSame(a: map<nat, Unit>, b: map<nat, Unit>, k: nat, now: real)
    requires forall x: nat :: x < k ==> (x in a <==> x in b)
    requires forall x: nat :: x < k && x in a ==> a[x] == b[x]
    ensures InsideCount(b, k) == InsideCount(a, k)
    ensures InsideAge(b, k, now) == InsideAge(a, k, now)
  {
    if k > 0 {
      CountSame(a, b, k - 1, now);
    }
  }

  /** As time passes every unit inside ages by the time passed. */
  lemma {:induction false} AgeAdvances(units: map<nat, Unit>, k: nat, now: real, later: real)
    ensures InsideAge(units, k, later) == InsideAge(units, k, now) + InsideCount(units, k) as real * (later - now)
  {
    if k > 0 {
      AgeAdvances(units, k - 1, now, later);
      OneMore(InsideCount(units, k - 1) as real, later - now);
    }
  }

  lemma OneMore(n: real, d: real)
    ensures (n + 1.0) * d == n * d + d
  {
  }

  // ---------------------------------------------------------------- the start

  lemma {:induction false} ArrivalsOk(n: nat)
    ensures forall k :: 0 <= k < |Arrivals(n)| ==>
      Arrivals(n)[k].SourceArrival? && Arrivals(n)[k].time == 0.0 && Arrivals(n)[k].source < n
  {
    if n > 0 {
      ArrivalsOk(n - 1);
    }
  }

  lemma {:induction false} NobodyInEvents(evs: seq<Event>, id: nat)
    requires forall k :: 0 <= k < |evs| ==> evs[k].SourceArrival? || evs[k].ControllerTick?
    ensures EventSum(OfUnit(id), evs) == 0.0
  {
    if |evs| > 0 {
      NobodyInEvents(evs[1..], id);
    }
  }

  lemma {:induction false} NobodyInQueues(w: Weight, stations: seq<Station>, queues: map<Station, Queue>)
    requires Proper(w)
    requires forall k :: 0 <= k < |stations| ==> stations[k] in queues && queues[stations[k]].waiting == []
    ensures QueueSum(w, stations, queues) == 0.0
  {
    if |stations| > 0 {
      NobodyInQueues(w, stations[1..], queues);
    }
  }

  lemma InitialInvariant(c: Config, keepRequests: bool)
    requires c.window > 0.0
    ensures Invariant(c, StartWorld(c, keepRequests))
  {
    hide EventSum, QueueSum;
    var s := Initial(c, keepRequests);
    ArrivalsOk(c.n);
    assert forall k :: 1 <= k < |s.pending| ==> s.pending[k] == Arrivals(c.n)[k - 1];
    forall id: nat
      ensures Total(c, OfUnit(id), s) == 0.0
    {
      NobodyInEvents(s.pending, id);
      NobodyInQueues(OfUnit(id), Stations(c), s.queues);
    }
  }

  // ---------------------------------------------------------------- one turn

  /** Nothing an event refers to is missing: no request table lookup can fail. */
  lemma NeverStuck(c: Config, s: Sim, k: nat)
    requires SimOk(c, s) && k < |s.pending|
    ensures CanHandle(c, s, s.pending[k])
    ensures s.pending[k].ServiceComplete? ==> Inside(s.units, s.pending[k].unit)
  {
    hide InsideCount, InsideAge;
    var e := s.pending[k];
    assert EventOk(c, s, e);
    StationsListed(c);
    if e.ServiceComplete? {
      var about := OfUnit(e.unit);
      EventSumNonNeg(about, s.pending);
      QueueSumNonNeg(about, Stations(c), s.queues);
      assert Total(c, about, s) == Indicator(Inside(s.units, e.unit));
    }
  }

  lemma {:induction false} QueueSumNonNeg(w: Weight, stations: seq<Station>, queues: map<Station, Queue>)
    requires forall k :: 0 <= k < |stations| ==> stations[k] in queues
    ensures QueueSum(w, stations, queues) >= 0.0
  {
    if |stations| > 0 {
      QueueSumNonNeg(w, stations[1..], queues);
    }
  }

  lemma TurnEvents(c: Config, s: Sim, d: Choice)
    requires Allowed(c, s, d) && CanHandle(c, s, s.pending[d.pick]) && c.window > 0.0
    requires forall k :: 0 <= k < |s.pending| ==> EventOk(c, s, s.pending[k])
    requires Stationed(c, s)
    ensures s.now <= Turn(c, s, d).now == s.pending[d.pick].time
    ensures forall k :: 0 <= k < |Turn(c, s, d).pending| ==> EventOk(c, Turn(c, s, d), Turn(c, s, d).pending[k])
  {
    hide Handle;
    var e, p := s.pending[d.pick], Popped(s, d.pick);
    assert EventOk(c, s, e);
    forall k | 0 <= k < |p.pending|
      ensures EventOk(c, p, p.pending[k])
    {
      var k' := if k < d.pick then k else k + 1;
      assert p.pending[k] == s.pending[k'] && EventOk(c, s, s.pending[k']);
    }
    HandleEvents(c, p, e, d);
  }

  lemma HandleEvents(c: Config, p: Sim, e: Event, d: Choice)
    requires CanHandle(c, p, e) && d.delay >= 0.0 && d.broker < c.m && c.window > 0.0
    requires e.time == p.now && EventOk(c, p, e) && Stationed(c, p)
    requires forall k :: 0 <= k < |p.pending| ==> EventOk(c, p, p.pending[k])
    ensures Handle(c, p, e, d).now == p.now
    ensures var s' := Handle(c, p, e, d); forall k :: 0 <= k < |s'.pending| ==> EventOk(c, s', s'.pending[k])
  {
    StationsListed(c);
    var s' := Handle(c, p, e, d);
    assert p.pending <= s'.pending;
    assert s'.now == p.now;
  }

  lemma TurnOnePlace(c: Config, s: Sim, d: Choice)
    requires Allowed(c, s, d) && CanHandle(c, s, s.pending[d.pick])
    requires Stationed(c, s) && OnePlace(c, s) && UnitsOk(s)
    requires s.pending[d.pick].ServiceComplete? ==> Inside(s.units, s.pending[d.pick].unit)
    ensures Stationed(c, Turn(c, s, d)) && OnePlace(c, Turn(c, s, d))
  {
    hide Total, Stationed;
    var e, s' := s.pending[d.pick], Turn(c, s, d);
    TurnTotal(c, OfUnit(0), s, d);
    forall id: nat
      ensures Total(c, OfUnit(id), s') == Indicator(Inside(s'.units, id))
    {
      TurnTotal(c, OfUnit(id), s, d);
      assert Total(c, OfUnit(id), s) == Indicator(Inside(s.units, id));
    }
  }

  /** The counts, by what a turn does to the request table. */
  ghost predicate CountsKept(s: Sim, s': Sim) {
    && UnitsOk(s')
    && s'.counter - s'.completed - InsideCount(s'.units, s'.counter)
         == s.counter - s.completed - InsideCount(s.units, s.counter)
    && s'.latencySum + InsideAge(s'.units, s'.counter, s'.now)
         == s.latencySum + InsideAge(s.units, s.counter, s'.now)
  }

  lemma CountsArrival(s: Sim, s': Sim, u: Unit)
    requires UnitsOk(s) && s.now <= s'.now && u.arrival == s'.now && u.brokerComplete.None?
    requires s'.units == s.units[s.counter := u] && s'.counter == s.counter + 1
    requires s'.completed == s.completed && s'.latencySum == s.latencySum
    ensures CountsKept(s, s')
  {
    CountGrow(s.units, s.counter, s.counter, u, s'.now);
  }

  lemma CountsHandOver(s: Sim, s': Sim, id: nat, u: Unit)
    requires UnitsOk(s) && s.now <= s'.now && Inside(s.units, id)
    requires u.brokerComplete.None? && u.arrival == s.units[id].arrival
    requires s'.units == s.units[id := u] && s'.counter == s.counter
    requires s'.completed == s.completed && s'.latencySum == s.latencySum
    ensures CountsKept(s, s')
  {
    CountChange(s.units, s'.units, s.counter, id, s'.now);
  }

  lemma CountsLeave(s: Sim, s': Sim, id: nat, u: Unit)
    requires UnitsOk(s) && s.now <= s'.now && Inside(s.units, id)
    requires u.brokerComplete.Some? && u.arrival == s.units[id].arrival
    requires s'.units == s.units[id := u] || s'.units == s.units - {id}
    requires s'.counter == s.counter && s'.completed == s.completed + 1
    requires s'.latencySum == s.latencySum + (s'.now - u.arrival)
    ensures CountsKept(s, s')
  {
    CountChange(s.units, s'.units, s.counter, id, s'.now);
  }

  lemma TurnCounts(c: Config, s: Sim, d: Choice)
    requires Allowed(c, s, d) && CanHandle(c, s, s.pending[d.pick])
    requires UnitsOk(s) && s.now <= s.pending[d.pick].time
    requires s.pending[d.pick].ServiceComplete? ==> Inside(s.units, s.pending[d.pick].unit)
    ensures CountsKept(s, Turn(c, s, d))
  {
    hide InsideCount, InsideAge, CountsKept;
    var e, s' := s.pending[d.pick], Turn(c, s, d);
    match e
    case SourceArrival(_, i) =>
      CountsArrival(s, s', Unit(e.time, i, None, None));
    case ServiceComplete(_, at, unit) =>
      if at.Access? {
        CountsHandOver(s, s', unit, s.units[unit].(accessComplete := Some(e.time)));
      } else {
        CountsLeave(s, s', unit, s.units[unit].(brokerComplete := Some(e.time)));
      }
    case _ =>
      CountsStill(s, s');
  }

  lemma CountsStill(s: Sim, s': Sim)
    requires UnitsOk(s) && s.now <= s'.now
    requires s'.units == s.units && s'.counter == s.counter
    requires s'.completed == s.completed && s'.latencySum == s.latencySum
    ensures CountsKept(s, s')
  {
  }

  lemma TurnKeepsSimOk(c: Config, s: Sim, d: Choice)
    requires SimOk(c, s) && c.window > 0.0 && Allowed(c, s, d)
    ensures CanHandle(c, s, s.pending[d.pick])
    ensures SimOk(c, Turn(c, s, d)) && s.now <= Turn(c, s, d).now
    ensures var s' := Turn(c, s, d);
      s'.latencySum + InsideAge(s'.units, s'.counter, s'.now)
        == s.latencySum + InsideAge(s.units, s.counter, s'.now)
  {
    hide InsideCount, InsideAge, Turn, OnePlace, Stationed, CanHandle, EventOk, UnitsOk;
    NeverStuck(c, s, d.pick);
    TurnEvents(c, s, d);
    TurnOnePlace(c, s, d);
    TurnCounts(c, s, d);
  }

  lemma TurnKeepsInvariant(c: Config, w: World, d: Choice)
    requires Invariant(c, w) && c.window > 0.0 && Allowed(c, w.sim, d)
    ensures CanHandle(c, w.sim, w.sim.pending[d.pick])
    ensures Invariant(c, NextWorld(c, w, d))
    ensures w.sim.now <= NextWorld(c, w, d).sim.now
  {
    hide InsideCount, InsideAge, Turn, SimOk, CanHandle;
    TurnKeepsSimOk(c, w.sim, d);
    AgeAdvances(w.sim.units, w.sim.counter, w.sim.now, Turn(c, w.sim, d).now);
  }

  /**
   Along every run, after every event: each unit inside is in one place only, generated =
   completed + inside, the clock has not gone back, and the integral of the number inside is
   the latency of the completed units plus the age of those inside.
   */
  lemma {:induction false} RunInvariant(c: Config, keepRequests: bool, worlds: seq<World>, choices: seq<Choice>, k: nat)
    requires c.window > 0.0 && IsRun(c, keepRequests, worlds, choices) && k < |worlds|
    ensures Invariant(c, worlds[k])
    ensures k > 0 ==> worlds[k - 1].sim.now <= worlds[k].sim.now
  {
    hide Invariant, Allowed, NextWorld, CanHandle;
    if k == 0 {
      InitialInvariant(c, keepRequests);
    } else {
      RunInvariant(c, keepRequests, worlds, choices, k - 1);
      assert IsTurn(c, worlds[k - 1], choices[k - 1], worlds[k]);
      TurnKeepsInvariant(c, worlds[k - 1], choices[k - 1]);
    }
  }

  lemma LittlesLaw(c: Config, keepRequests: bool, worlds: seq<World>, choices: seq<Choice>, k: nat)
    requires c.window > 0.0 && IsRun(c, keepRequests, worlds, choices) && k < |worlds|
    ensures var s := worlds[k].sim;
      worlds[k].area == s.latencySum + InsideAge(s.units, s.counter, s.now)
  {
    RunInvariant(c, keepRequests, worlds, choices, k);
  }

  // ---------------------------------------------------------------- the place of a unit, spelled out

  lemma {:induction false} EventSumTwo(w: Weight, evs: seq<Event>, i: nat, j: nat)
    requires Proper(w) && i < j < |evs|
    ensures W(w, evs[i]) + W(w, evs[j]) <= EventSum(w, evs)
  {
    hide W;
    EventSumNonNeg(w, evs[1..]);
    if i == 0 {
      assert evs[j] == evs[1..][j - 1];
    } else {
      EventSumTwo(w, evs[1..], i - 1, j - 1);
      WNonNegAll(w, evs[0]);
    }
  }

  lemma WNonNegAll(w: Weight, e: Event)
    requires Proper(w)
    ensures W(w, e) >= 0.0
  {
    WNonNeg(w, e);
  }

  /** Occurrences of a request in two listed queues add up. */
  lemma {:induction false} QueueSumAtLeast(id: nat, stations: seq<Station>, queues: map<Station, Queue>, i: nat)
    requires forall k :: 0 <= k < |stations| ==> stations[k] in queues
    requires i < |stations|
    ensures multiset(queues[stations[i]].waiting)[id] as real <= QueueSum(OfUnit(id), stations, queues)
    ensures forall j :: i < j < |stations| ==>
      (multiset(queues[stations[i]].waiting)[id] + multiset(queues[stations[j]].waiting)[id]) as real
        <= QueueSum(OfUnit(id), stations, queues)
  {
    var w := OfUnit(id);
    QueueSumNonNeg(w, stations[1..], queues);
    if i == 0 {
      forall j | 0 < j < |stations|
        ensures multiset(queues[stations[j]].waiting)[id] as real <= QueueSum(w, stations[1..], queues)
      {
        assert stations[1..][j - 1] == stations[j];
        QueueSumAtLeast(id, stations[1..], queues, j - 1);
      }
    } else {
      QueueSumAtLeast(id, stations[1..], queues, i - 1);
      assert forall j :: i < j < |stations| ==> stations[1..][j - 1] == stations[j];
    }
  }

  /** No unit is in two pending events, in two queues, twice in a queue, or in a queue and an event. */
  lemma NeverInTwoPlaces(c: Config, s: Sim, id: nat)
    requires Stationed(c, s) && OnePlace(c, s)
    ensures forall i, j :: 0 <= i < j < |s.pending| ==> !(Carries(s.pending[i], id) && Carries(s.pending[j], id))
    ensures forall at :: at in s.queues ==> multiset(s.queues[at].waiting)[id] <= 1
    ensures forall at, at' :: at in s.queues && at' in s.queues && at != at' ==>
      !(id in s.queues[at].waiting && id in s.queues[at'].waiting)
    ensures forall at, i :: at in s.queues && 0 <= i < |s.pending| ==>
      !(id in s.queues[at].waiting && Carries(s.pending[i], id))
  {
    var w, stations := OfUnit(id), Stations(c);
    StationsListed(c);
    assert Total(c, w, s) <= 1.0;
    EventSumNonNeg(w, s.pending);
    QueueSumNonNeg(w, stations, s.queues);
    forall i, j | 0 <= i < j < |s.pending|
      ensures !(Carries(s.pending[i], id) && Carries(s.pending[j], id))
    {
      EventSumTwo(w, s.pending, i, j);
    }
    forall at | at in s.queues
      ensures multiset(s.queues[at].waiting)[id] as real <= QueueSum(w, stations, s.queues)
    {
      var k := StationIndex(c, at);
      QueueSumAtLeast(id, stations, s.queues, k);
    }
    forall at, at' | at in s.queues && at' in s.queues && at != at'
      ensures !(id in s.queues[at].waiting && id in s.queues[at'].waiting)
    {
      var k := StationIndex(c, at);
      var k' := StationIndex(c, at');
      QueueSumAtLeast(id, stations, s.queues, if k < k' then k else k');
    }
  }

  /** A unit inside is somewhere. */
  lemma {:induction false} CarriedSomewhere(evs: seq<Event>, id: nat)
    requires forall k :: 0 <= k < |evs| ==> !Carries(evs[k], id)
    ensures EventSum(OfUnit(id), evs) == 0.0
  {
    if |evs| > 0 {
      CarriedSomewhere(evs[1..], id);
    }
  }

  lemma {:induction false} WaitingSomewhere(id: nat, stations: seq<Station>, queues: map<Station, Queue>)
    requires forall k :: 0 <= k < |stations| ==> stations[k] in queues && id !in queues[stations[k]].waiting
    ensures QueueSum(OfUnit(id), stations, queues) == 0.0
  {
    if |stations| > 0 {
      WaitingSomewhere(id, stations[1..], queues);
    }
  }

  ghost predicate InSomeEvent(s: Sim, id: nat) {
    exists k :: 0 <= k < |s.pending| && Carries(s.pending[k], id)
  }

  ghost predicate InSomeQueue(s: Sim, id: nat) {
    exists at :: at in s.queues && id in s.queues[at].waiting
  }

  lemma NeverLost(c: Config, s: Sim, id: nat)
    requires Stationed(c, s) && OnePlace(c, s)
    ensures Inside(s.units, id) <==> InSomeEvent(s, id) || InSomeQueue(s, id)
  {
    hide EventSum, QueueSum;
    var w, stations := OfUnit(id), Stations(c);
    StationsListed(c);
    assert Total(c, w, s) == Indicator(Inside(s.units, id));
    EventSumNonNeg(w, s.pending);
    QueueSumNonNeg(w, stations, s.queues);
    if InSomeQueue(s, id) {
      var at :| at in s.queues && id in s.queues[at].waiting;
      var k := StationIndex(c, at);
      QueueSumAtLeast(id, stations, s.queues, k);
    } else if !InSomeEvent(s, id) {
      CarriedSomewhere(s.pending, id);
      WaitingSomewhere(id, stations, s.queues);
    }
  }
}
