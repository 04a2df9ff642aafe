/**
 The discrete-event simulation of the queues (src/simulation). The functions fix what each
 handler does to the state; the class SimulationHandler runs them on mutable fields.
 */
module Simulation {
  import opened Vectors

  /** Where units are served: an access link or a broker. */
  datatype Station = Access(source: nat, broker: nat) | Server(broker: nat)

  /** Events compare on their time only. The two kinds of service share their constructors. */
  datatype Event =
    | SourceArrival(time: real, source: nat)
    | ServiceStart(time: real, at: Station, unit: nat)
    | ServiceComplete(time: real, at: Station, unit: nat)
    | BrokerArrival(time: real, broker: nat, unit: nat)
    | ControllerTick(time: real)

  datatype Queue = Queue(waiting: seq<nat>, busy: bool) {
    function Push(unit: nat): Queue { this.(waiting := waiting + [unit]) }

    function Pop(): Queue
      requires |waiting| > 0
    {
      this.(waiting := waiting[1..])
    }
  }

  /** The record of one work unit. */
  datatype Unit = Unit(arrival: real, source: nat, accessComplete: Option<real>, brokerComplete: Option<real>)

  datatype Config = Config(n: nat, m: nat, window: real) {

    predicate IsStation(at: Station) {
      match at
      case Access(i, j) => i < n && j < m
      case Server(j) => j < m
    }
  }

  datatype Sim = Sim(
    now: real,
    pending: seq<Event>,
    queues: map<Station, Queue>,
    units: map<nat, Unit>,
    counter: nat,
    completed: nat,
    latencySum: real,
    keepRequests: bool)

  /** What the environment supplies for one event: which event of least time, the sampled delay, the chosen broker. */
  datatype Choice = Choice(pick: nat, delay: real, broker: nat)

  // ---------------------------------------------------------------- stations

  function BrokerStations(m: nat): (s: seq<Station>) {
    if m == 0 then [] else BrokerStations(m - 1) + [Server(m - 1)]
  }

  function RowStations(i: nat, m: nat): (s: seq<Station>) {
    if m == 0 then [] else RowStations(i, m - 1) + [Access(i, m - 1)]
  }

  function AccessStations(n: nat, m: nat): (s: seq<Station>) {
    if n == 0 then [] else AccessStations(n - 1, m) + RowStations(n - 1, m)
  }

  function Stations(c: Config): seq<Station> {
    AccessStations(c.n, c.m) + BrokerStations(c.m)
  }

  function Arrivals(n: nat): (e: seq<Event>) {
    if n == 0 then [] else Arrivals(n - 1) + [SourceArrival(0.0, n - 1)]
  }

  /** Empty queues, the first tick one window ahead, one arrival per source at time zero. */
  function Initial(c: Config, keepRequests: bool): Sim {
    Sim(0.0, [ControllerTick(c.window)] + Arrivals(c.n),
        map at | at in Stations(c) :: Queue([], false), map[], 0, 0, 0.0, keepRequests)
  }

  // ---------------------------------------------------------------- one event

  function Remove(evs: seq<Event>, k: nat): seq<Event>
    requires k < |evs|
  {
    evs[..k] + evs[k + 1..]
  }

  /** The event is among the earliest pending ones. */
  predicate Least(evs: seq<Event>, k: nat) {
    k < |evs| && forall i :: 0 <= i < |evs| ==> evs[k].time <= evs[i].time
  }

  predicate Allowed(c: Config, s: Sim, d: Choice) {
    Least(s.pending, d.pick) && d.delay >= 0.0 && d.broker < c.m
  }

  /** A request enters a station: served next if the station is idle, otherwise it waits. */
  function Enter(s: Sim, at: Station, unit: nat): Sim
    requires at in s.queues
  {
    if s.queues[at].busy then s.(queues := s.queues[at := s.queues[at].Push(unit)])
    else s.(pending := s.pending + [ServiceStart(s.now, at, unit)])
  }

  /** A station that has completed a service takes the next waiting request or falls idle. */
  function Release(s: Sim, at: Station): Sim
    requires at in s.queues
  {
    var q := s.queues[at];
    if |q.waiting| > 0 then
      s.(queues := s.queues[at := q.Pop()], pending := s.pending + [ServiceStart(s.now, at, q.waiting[0])])
    else
      s.(queues := s.queues[at := q.(busy := false)])
  }

  function HandleSourceArrival(s: Sim, i: nat, delay: real, j: nat): Sim
    requires Access(i, j) in s.queues
  {
    var s1 := s.(pending := s.pending + [SourceArrival(s.now + delay, i)],
                 units := s.units[s.counter := Unit(s.now, i, None, None)],
                 counter := s.counter + 1);
    Enter(s1, Access(i, j), s.counter)
  }

  function HandleStart(s: Sim, at: Station, unit: nat, delay: real): Sim
    requires at in s.queues
  {
    s.(queues := s.queues[at := s.queues[at].(busy := true)],
       pending := s.pending + [ServiceComplete(s.now + delay, at, unit)])
  }

  function HandleAccessComplete(s: Sim, at: Station, unit: nat): Sim
    requires at in s.queues && unit in s.units
  {
    var s1 := Release(s.(units := s.units[unit := s.units[unit].(accessComplete := Some(s.now))]), at);
    s1.(pending := s1.pending + [BrokerArrival(s.now, at.broker, unit)])
  }

  function HandleBrokerComplete(s: Sim, at: Station, unit: nat): Sim
    requires at in s.queues && unit in s.units
  {
    var u := s.units[unit].(brokerComplete := Some(s.now));
    Release(s.(units := if s.keepRequests then s.units[unit := u] else s.units - {unit},
               completed := s.completed + 1,
               latencySum := s.latencySum + (s.now - u.arrival)), at)
  }

  function HandleTick(s: Sim, window: real): Sim {
    s.(pending := s.pending + [ControllerTick(s.now + window)])
  }

  /** Stations named by events exist, and completions refer to recorded requests. */
  ghost predicate CanHandle(c: Config, s: Sim, e: Event) {
    && s.queues.Keys == (set at | at in Stations(c))
    && match e
       case SourceArrival(_, i) => forall j :: 0 <= j < c.m ==> Access(i, j) in s.queues
       case ServiceStart(_, at, _) => at in s.queues
       case ServiceComplete(_, at, unit) => at in s.queues && unit in s.units
       case BrokerArrival(_, j, _) => Server(j) in s.queues
       case ControllerTick(_) => true
  }

  function Handle(c: Config, s: Sim, e: Event, d: Choice): Sim
    requires CanHandle(c, s, e) && d.broker < c.m
  {
    match e
    case SourceArrival(_, i) => HandleSourceArrival(s, i, d.delay, d.broker)
    case ServiceStart(_, at, unit) => HandleStart(s, at, unit, d.delay)
    case ServiceComplete(_, at, unit) =>
      if at.Access? then HandleAccessComplete(s, at, unit) else HandleBrokerComplete(s, at, unit)
    case BrokerArrival(_, j, unit) => Enter(s, Server(j), unit)
    case ControllerTick(_) => HandleTick(s, c.window)
  }

  /** The event popped, with the clock moved to it. */
  function Popped(s: Sim, k: nat): Sim
    requires k < |s.pending|
  {
    s.(now := s.pending[k].time, pending := Remove(s.pending, k))
  }

  /** One turn of the event loop. */
  function Turn(c: Config, s: Sim, d: Choice): Sim
    requires Allowed(c, s, d) && CanHandle(c, s, s.pending[d.pick])
  {
    Handle(c, Popped(s, d.pick), s.pending[d.pick], d)
  }
}
