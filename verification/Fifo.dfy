/**
 One unit per server, first in first out, and the completion times of every station: what holds
 when sampled delays are positive and no two access completions toward one broker coincide.
 */
module Fifo {
  import opened Vectors
  import opened Simulation
  import opened Ledger
  import opened Conservation

  datatype Visit = Visit(unit: nat, time: real)

  /** What has happened at a station: requests in order of arrival, service times drawn, requests in order of completion. */
  datatype Log = Log(arrivals: seq<Visit>, services: seq<real>, done: seq<Visit>)

  type History = map<Station, Log>

  datatype Watched = Watched(sim: Sim, history: History)

  function UnitsOf(v: seq<Visit>): (u: seq<nat>)
    ensures |u| == |v|
    ensures forall k :: 0 <= k < |v| ==> u[k] == v[k].unit
  {
    seq(|v|, k requires 0 <= k < |v| => v[k].unit)
  }

  /** When the k-th request can start: it has arrived and its predecessor is done. */
  function Ready(log: Log, k: nat): real
    requires k < |log.arrivals| && k <= |log.done|
  {
    Max(log.arrivals[k].time, if k == 0 then 0.0 else log.done[k - 1].time)
  }

  /** The completed requests are the first arrivals in order, each done one service after it was ready. */
  ghost predicate DoneInOrder(log: Log) {
    && |log.done| <= |log.arrivals| && |log.done| <= |log.services|
    && forall k :: 0 <= k < |log.done| ==> DoneAt(log, k)
  }

  predicate DoneAt(log: Log, k: nat)
    requires k < |log.done| && k < |log.arrivals| && k < |log.services|
  {
    log.done[k].unit == log.arrivals[k].unit && log.done[k].time == Ready(log, k) + log.services[k]
  }

  ghost predicate TimesOk(log: Log, now: real) {
    && (forall k :: 0 <= k < |log.arrivals| ==> 0.0 <= log.arrivals[k].time <= now)
    && (forall k :: 0 <= k < |log.done| ==> log.done[k].time <= now)
  }

  function Engaged(s: Sim, at: Station): real {
    EventSum(InService(at), s.pending)
  }

  /** The start or completion pending at a station concerns its oldest uncompleted request, at the right time. */
  predicate InServiceOk(e: Event, busy: bool, log: Log)
    requires e.ServiceStart? || e.ServiceComplete?
  {
    var k := |log.done|;
    && k < |log.arrivals|
    && e.unit == log.arrivals[k].unit
    && if e.ServiceStart? then |log.services| == k && e.time == Ready(log, k)
       else busy && |log.services| == k + 1 && e.time == Ready(log, k) + log.services[k]
  }

  /** A station is idle with nobody waiting, or exactly one start or completion is pending and the others wait in order. */
  ghost predicate StationOk(s: Sim, at: Station, log: Log)
    requires at in s.queues
  {
    var q, k := s.queues[at], |log.done|;
    && DoneInOrder(log) && TimesOk(log, s.now)
    && (Engaged(s, at) == 0.0 || Engaged(s, at) == 1.0)
    && (Engaged(s, at) == 0.0 ==> !q.busy && q.waiting == [] && |log.arrivals| == |log.services| == k)
    && (Engaged(s, at) == 1.0 ==> k < |log.arrivals| && q.waiting == UnitsOf(log.arrivals[k + 1..]))
    && (!q.busy ==> q.waiting == [])
    && forall i :: 0 <= i < |s.pending| && Serves(s.pending[i], at) ==> InServiceOk(s.pending[i], q.busy, log)
  }

  // ---------------------------------------------------------------- histories

  function StartWatch(c: Config, keepRequests: bool): Watched {
    Watched(Initial(c, keepRequests), map at | at in Stations(c) :: Log([], [], []))
  }

  /** The station whose queue the handler of e touches. */
  function Touched(e: Event, d: Choice): Option<Station> {
    match e
    case SourceArrival(_, i) => Some(Access(i, d.broker))
    case ServiceStart(_, at, _) => Some(at)
    case ServiceComplete(_, at, _) => Some(at)
    case BrokerArrival(_, j, _) => Some(Server(j))
    case ControllerTick(_) => None
  }

  function Entry(log: Log, s: Sim, e: Event, d: Choice): Log {
    match e
    case SourceArrival(t, _) => log.(arrivals := log.arrivals + [Visit(s.counter, t)])
    case ServiceStart(_, _, _) => log.(services := log.services + [d.delay])
    case ServiceComplete(t, _, unit) => log.(done := log.done + [Visit(unit, t)])
    case BrokerArrival(t, _, unit) => log.(arrivals := log.arrivals + [Visit(unit, t)])
    case ControllerTick(_) => log
  }

  function NextHistory(h: History, s: Sim, e: Event, d: Choice): History
    requires Touched(e, d).Some? ==> Touched(e, d).value in h
  {
    match Touched(e, d)
    case None => h
    case Some(at) => h[at := Entry(h[at], s, e, d)]
  }

  /** Where the request that e brings goes. */
  function Destination(e: Event, d: Choice): Option<Station> {
    match e
    case SourceArrival(_, i) => Some(Access(i, d.broker))
    case BrokerArrival(_, j, _) => Some(Server(j))
    case _ => None
  }

  predicate StartPending(s: Sim, at: Station) {
    exists k :: 0 <= k < |s.pending| && s.pending[k].ServiceStart? && s.pending[k].at == at
  }

  /** The request arrives at a station that does not look busy yet although the start of another one is pending there. */
  predicate Overtakes(s: Sim, d: Choice)
    requires d.pick < |s.pending|
  {
    var to := Destination(s.pending[d.pick], d);
    to.Some? && to.value in s.queues && !s.queues[to.value].busy && StartPending(s, to.value)
  }

  // ---------------------------------------------------------------- the invariant

  ghost predicate FifoInvariant(c: Config, w: Watched) {
    var s := w.sim;
    && Stationed(c, s) && w.history.Keys == s.queues.Keys
    && (forall k :: 0 <= k < |s.pending| ==> EventOk(c, s, s.pending[k]))
    && s.now >= 0.0
    && (forall at :: at in s.queues ==> StationOk(s, at, w.history[at]))
  }

  // ---------------------------------------------------------------- pending events after a turn

  /** What the handler of e schedules. */
  function News(c: Config, s: Sim, e: Event, d: Choice): seq<Event>
    requires CanHandle(c, s, e) && d.broker < c.m
  {
    match e
    case SourceArrival(t, i) =>
      [SourceArrival(t + d.delay, i)]
      + (if s.queues[Access(i, d.broker)].busy then [] else [ServiceStart(t, Access(i, d.broker), s.counter)])
    case ServiceStart(t, at, unit) => [ServiceComplete(t + d.delay, at, unit)]
    case ServiceComplete(t, at, unit) =>
      var waiting := s.queues[at].waiting;
      (if |waiting| > 0 then [ServiceStart(t, at, waiting[0])] else [])
      + (if at.Access? then [BrokerArrival(t, at.broker, unit)] else [])
    case BrokerArrival(t, j, unit) => if s.queues[Server(j)].busy then [] else [ServiceStart(t, Server(j), unit)]
    case ControllerTick(t) => [ControllerTick(t + c.window)]
  }

  lemma TurnPending(c: Config, s: Sim, d: Choice)
    requires Allowed(c, s, d) && CanHandle(c, s, s.pending[d.pick])
    ensures var e := s.pending[d.pick];
      Turn(c, s, d).pending == Remove(s.pending, d.pick) + News(c, s, e, d)
  {
    var e, p := s.pending[d.pick], Popped(s, d.pick);
    HandlePending(c, p, e, d);
    hide Handle;
    assert News(c, p, e, d) == News(c, s, e, d);
  }

  lemma HandlePending(c: Config, s: Sim, e: Event, d: Choice)
    requires CanHandle(c, s, e) && d.broker < c.m && e.time == s.now
    ensures Handle(c, s, e, d).pending == s.pending + News(c, s, e, d)
  {
    match e
    case SourceArrival(t, i) =>
      var next := s.(pending := s.pending + [SourceArrival(t + d.delay, i)],
                     units := s.units[s.counter := Unit(t, i, None, None)], counter := s.counter + 1);
      EnterPending(next, Access(i, d.broker), s.counter);
      hide Enter;
    case ServiceComplete(_, at, unit) =>
      ReleasePending(s.(units := s.units[unit := s.units[unit].(accessComplete := Some(s.now))]), at);
      ReleasePending(s, at);
      hide Release;
    case BrokerArrival(_, j, unit) =>
      EnterPending(s, Server(j), unit);
      hide Enter;
    case _ =>
  }

  lemma EnterPending(s: Sim, at: Station, unit: nat)
    requires at in s.queues
    ensures Enter(s, at, unit).pending
      == s.pending + if s.queues[at].busy then [] else [ServiceStart(s.now, at, unit)]
  {
  }

  lemma ReleasePending(s: Sim, at: Station)
    requires at in s.queues
    ensures Release(s, at).pending
      == s.pending + if |s.queues[at].waiting| > 0 then [ServiceStart(s.now, at, s.queues[at].waiting[0])] else []
  {
  }

  lemma TurnSum(c: Config, w: Weight, s: Sim, d: Choice)
    requires Proper(w) && Allowed(c, s, d) && CanHandle(c, s, s.pending[d.pick])
    ensures var e := s.pending[d.pick];
      EventSum(w, Turn(c, s, d).pending) == EventSum(w, s.pending) - W(w, e) + EventSum(w, News(c, s, e, d))
  {
    hide W, Turn;
    TurnPending(c, s, d);
    EventSumRemove(w, s.pending, d.pick);
    EventSumAppend(w, Remove(s.pending, d.pick), News(c, s, s.pending[d.pick], d));
  }

  lemma SumOfTwo(w: Weight, a: Event, b: Event)
    requires Proper(w)
    ensures EventSum(w, [a]) == W(w, a)
    ensures EventSum(w, [a] + [b]) == W(w, a) + W(w, b)
    ensures EventSum(w, []) == 0.0
    ensures EventSum(w, [] + [b]) == W(w, b)
    ensures EventSum(w, [a] + []) == W(w, a)
    ensures EventSum(w, [] + []) == 0.0
  {
    hide W;
    EventSumOne(w, a);
    EventSumOne(w, b);
    EventSumAppend(w, [a], [b]);
    EventSumAppend(w, [], [b]);
    EventSumAppend(w, [a], []);
    EventSumAppend(w, [], []);
  }

  /** The sum of the events a handler schedules, spelled out. */
  function NewsTotal(c: Config, w: Weight, s: Sim, e: Event, d: Choice): real
    requires Proper(w) && CanHandle(c, s, e) && d.broker < c.m
  {
      match e
      case SourceArrival(t, i) =>
        W(w, SourceArrival(t + d.delay, i))
        + (if s.queues[Access(i, d.broker)].busy then 0.0
           else W(w, ServiceStart(t, Access(i, d.broker), s.counter)))
      case ServiceStart(t, at, unit) => W(w, ServiceComplete(t + d.delay, at, unit))
      case ServiceComplete(t, at, unit) =>
        (if |s.queues[at].waiting| > 0 then W(w, ServiceStart(t, at, s.queues[at].waiting[0])) else 0.0)
        + (if at.Access? then W(w, BrokerArrival(t, at.broker, unit)) else 0.0)
      case BrokerArrival(t, j, unit) =>
        if s.queues[Server(j)].busy then 0.0 else W(w, ServiceStart(t, Server(j), unit))
      case ControllerTick(t) => W(w, ControllerTick(t + c.window))
  }

  lemma NewsSum(c: Config, w: Weight, s: Sim, e: Event, d: Choice)
    requires Proper(w) && CanHandle(c, s, e) && d.broker < c.m
    ensures EventSum(w, News(c, s, e, d)) == NewsTotal(c, w, s, e, d)
  {
    hide W;
    match e
    case SourceArrival(t, i) =>
      SumOfTwo(w, SourceArrival(t + d.delay, i), ServiceStart(t, Access(i, d.broker), s.counter));
    case ServiceStart(t, at, unit) =>
      SumOfTwo(w, ServiceComplete(t + d.delay, at, unit), e);
    case ServiceComplete(t, at, unit) =>
      var waiting := s.queues[at].waiting;
      var start := if |waiting| > 0 then ServiceStart(t, at, waiting[0]) else e;
      SumOfTwo(w, start, if at.Access? then BrokerArrival(t, at.broker, unit) else e);
    case BrokerArrival(t, j, unit) =>
      SumOfTwo(w, ServiceStart(t, Server(j), unit), e);
    case ControllerTick(t) =>
      SumOfTwo(w, ControllerTick(t + c.window), e);
  }

  lemma {:induction false} SumZero(w: Weight, evs: seq<Event>)
    requires Proper(w)
    requires forall k :: 0 <= k < |evs| ==> W(w, evs[k]) == 0.0
    ensures EventSum(w, evs) == 0.0
  {
    if |evs| > 0 {
      hide W;
      SumZero(w, evs[1..]);
    }
  }

  /** A pending event after a turn was pending before, at another index than the one taken, or is new. */
  lemma Origin(c: Config, s: Sim, d: Choice, k: nat) returns (i: nat)
    requires Allowed(c, s, d) && CanHandle(c, s, s.pending[d.pick]) && k < |Turn(c, s, d).pending|
    ensures (i < |s.pending| && i != d.pick && s.pending[i] == Turn(c, s, d).pending[k])
         || (i == |s.pending| && Turn(c, s, d).pending[k] in News(c, s, s.pending[d.pick], d))
  {
    TurnPending(c, s, d);
    hide Turn, News;
    var rest := Remove(s.pending, d.pick);
    if k < d.pick {
      i := k;
    } else if k < |rest| {
      i := k + 1;
    } else {
      i := |s.pending|;
      assert Turn(c, s, d).pending[k] == News(c, s, s.pending[d.pick], d)[k - |rest|];
    }
  }

  function Entered(q: Queue, unit: nat): Queue {
    if q.busy then q.Push(unit) else q
  }

  function Released(q: Queue): Queue {
    if |q.waiting| > 0 then q.Pop() else q.(busy := false)
  }

  /** The queues after a turn. */
  lemma TurnQueues(c: Config, s: Sim, d: Choice)
    requires Allowed(c, s, d) && CanHandle(c, s, s.pending[d.pick])
    ensures var e, s' := s.pending[d.pick], Turn(c, s, d);
      && s'.now == e.time && s'.queues.Keys == s.queues.Keys
      && (forall at :: at in s.queues && Touched(e, d) != Some(at) ==> s'.queues[at] == s.queues[at])
      && (Touched(e, d).Some? ==> Touched(e, d).value in s.queues)
      && (e.ServiceStart? ==> s'.queues[e.at] == s.queues[e.at].(busy := true))
      && (e.ServiceComplete? ==> s'.queues[e.at] == Released(s.queues[e.at]))
      && (e.SourceArrival? ==>
            s'.queues[Access(e.source, d.broker)] == Entered(s.queues[Access(e.source, d.broker)], s.counter))
      && (e.BrokerArrival? ==> s'.queues[Server(e.broker)] == Entered(s.queues[Server(e.broker)], e.unit))
  {
  }

  lemma TwoInService(s: Sim, at: Station, i: nat, j: nat)
    requires i < |s.pending| && j < |s.pending| && i != j
    requires Serves(s.pending[i], at) && Serves(s.pending[j], at)
    ensures Engaged(s, at) >= 2.0
  {
    EventSumTwo(InService(at), s.pending, if i < j then i else j, if i < j then j else i);
  }

  lemma OneInService(s: Sim, at: Station, i: nat)
    requires i < |s.pending| && Serves(s.pending[i], at)
    ensures Engaged(s, at) >= 1.0
  {
    EventSumNonNeg(InService(at), s.pending);
  }

  lemma EngagedAtMostOne(s: Sim, at: Station, log: Log)
    requires at in s.queues && StationOk(s, at, log)
    ensures Engaged(s, at) <= 1.0
  {
  }

  lemma CompleteIsBusy(s: Sim, at: Station, log: Log, k: nat)
    requires at in s.queues && StationOk(s, at, log)
    requires k < |s.pending| && s.pending[k].ServiceComplete? && s.pending[k].at == at
    ensures s.queues[at].busy && InServiceOk(s.pending[k], true, log) && Engaged(s, at) == 1.0
  {
    OneInService(s, at, k);
  }

  // ---------------------------------------------------------------- stations

  lemma UntouchedStation(c: Config, s: Sim, d: Choice, at: Station, log: Log)
    requires Allowed(c, s, d) && CanHandle(c, s, s.pending[d.pick])
    requires s.now <= s.pending[d.pick].time
    requires at in s.queues && StationOk(s, at, log) && Touched(s.pending[d.pick], d) != Some(at)
    ensures at in Turn(c, s, d).queues && StationOk(Turn(c, s, d), at, log)
  {
    hide Turn, DoneInOrder, InServiceOk, News;
    var e, s' := s.pending[d.pick], Turn(c, s, d);
    TurnQueues(c, s, d);
    NewsElsewhere(c, s, e, d, at);
    TurnSum(c, InService(at), s, d);
    forall k | 0 <= k < |s'.pending| && Serves(s'.pending[k], at)
      ensures InServiceOk(s'.pending[k], s'.queues[at].busy, log)
    {
      var i := Origin(c, s, d, k);
    }
  }

  /** A station that the event does not touch is served by nothing new. */
  lemma NewsElsewhere(c: Config, s: Sim, e: Event, d: Choice, at: Station)
    requires CanHandle(c, s, e) && d.broker < c.m && Touched(e, d) != Some(at)
    ensures forall x :: x in News(c, s, e, d) ==> !Serves(x, at)
    ensures EventSum(InService(at), News(c, s, e, d)) == 0.0
  {
    hide CanHandle;
    var news := News(c, s, e, d);
    assert forall k :: 0 <= k < |news| ==> news[k] in news;
    SumZero(InService(at), news);
  }

  /** What is done stays done as the log grows. */
  lemma DoneStays(log: Log, log': Log)
    requires DoneInOrder(log)
    requires log.arrivals <= log'.arrivals && log.services <= log'.services && log.done <= log'.done
    ensures |log.done| <= |log'.arrivals| && |log.done| <= |log'.services|
    ensures forall i :: 0 <= i < |log.done| ==> DoneAt(log', i)
  {
    forall i | 0 <= i < |log.done|
      ensures DoneAt(log', i)
    {
      assert DoneAt(log, i);
    }
  }

  /** A request arriving at a busy station joins the end of the queue. */
  lemma JoinStation(s: Sim, s': Sim, at: Station, log: Log, unit: nat)
    requires at in s.queues && StationOk(s, at, log) && s.queues[at].busy
    requires at in s'.queues && s'.queues[at] == s.queues[at].Push(unit)
    requires s.now <= s'.now && 0.0 <= s'.now && Engaged(s', at) == Engaged(s, at)
    requires forall k :: 0 <= k < |s'.pending| && Serves(s'.pending[k], at) ==>
      exists i :: 0 <= i < |s.pending| && s.pending[i] == s'.pending[k]
    ensures StationOk(s', at, log.(arrivals := log.arrivals + [Visit(unit, s'.now)]))
  {
    var log' := log.(arrivals := log.arrivals + [Visit(unit, s'.now)]);
    var k := |log.done|;
    DoneStays(log, log');
    assert log'.arrivals[k + 1..] == log.arrivals[k + 1..] + [Visit(unit, s'.now)];
    assert UnitsOf(log'.arrivals[k + 1..]) == UnitsOf(log.arrivals[k + 1..]) + [unit];
  }

  /** A request arriving at an idle station is ready at once. */
  lemma WakeStation(s: Sim, s': Sim, at: Station, log: Log, unit: nat)
    requires at in s.queues && StationOk(s, at, log) && Engaged(s, at) == 0.0
    requires at in s'.queues && s'.queues[at] == s.queues[at]
    requires s.now <= s'.now && 0.0 <= s'.now && Engaged(s', at) == 1.0
    requires forall k :: 0 <= k < |s'.pending| && Serves(s'.pending[k], at) ==>
      s'.pending[k] == ServiceStart(s'.now, at, unit)
    ensures StationOk(s', at, log.(arrivals := log.arrivals + [Visit(unit, s'.now)]))
  {
    var log' := log.(arrivals := log.arrivals + [Visit(unit, s'.now)]);
    var k := |log.done|;
    DoneStays(log, log');
    assert UnitsOf(log'.arrivals[k + 1..]) == [];
  }

  /** A start turns into the one completion of the station. */
  lemma BeginStation(s: Sim, s': Sim, at: Station, log: Log, e: Event, delay: real)
    requires at in s.queues && StationOk(s, at, log) && Engaged(s, at) == 1.0
    requires e.ServiceStart? && InServiceOk(e, s.queues[at].busy, log)
    requires at in s'.queues && s'.queues[at] == s.queues[at].(busy := true)
    requires s.now <= s'.now && Engaged(s', at) == 1.0
    requires forall k :: 0 <= k < |s'.pending| && Serves(s'.pending[k], at) ==>
      s'.pending[k] == ServiceComplete(e.time + delay, at, e.unit)
    ensures StationOk(s', at, log.(services := log.services + [delay]))
  {
    var log' := log.(services := log.services + [delay]);
    var k := |log.done|;
    DoneStays(log, log');
    assert Ready(log', k) == Ready(log, k);
  }

  /** A completion releases the station to the next waiting request, or to idleness. */
  lemma EndStation(s: Sim, s': Sim, at: Station, log: Log, e: Event)
    requires at in s.queues && StationOk(s, at, log) && Engaged(s, at) == 1.0
    requires e.ServiceComplete? && InServiceOk(e, true, log) && e.time == s'.now >= s.now
    requires at in s'.queues && s.queues[at].busy
    requires var q := s.queues[at];
      if |q.waiting| > 0 then
        && s'.queues[at] == q.Pop() && Engaged(s', at) == 1.0
        && forall k :: 0 <= k < |s'.pending| && Serves(s'.pending[k], at) ==>
             s'.pending[k] == ServiceStart(s'.now, at, q.waiting[0])
      else
        && s'.queues[at] == q.(busy := false) && Engaged(s', at) == 0.0
        && forall k :: 0 <= k < |s'.pending| ==> !Serves(s'.pending[k], at)
    ensures StationOk(s', at, log.(done := log.done + [Visit(e.unit, e.time)]))
  {
    var log' := log.(done := log.done + [Visit(e.unit, e.time)]);
    var k := |log.done|;
    DoneStays(log, log');
    assert DoneAt(log', k);
    if |s.queues[at].waiting| > 0 {
      assert log.arrivals[k + 1..][1..] == log'.arrivals[k + 2..];
      assert UnitsOf(log.arrivals[k + 1..])[1..] == UnitsOf(log'.arrivals[k + 2..]);
      assert UnitsOf(log.arrivals[k + 1..])[0] == log.arrivals[k + 1].unit;
    } else {
      assert |log.arrivals[k + 1..]| == 0;
    }
  }

  // ---------------------------------------------------------------- one turn

  /** A station that receives a request. */
  lemma ArrivalStation(c: Config, s: Sim, d: Choice, at: Station, log: Log, unit: nat)
    requires Allowed(c, s, d) && CanHandle(c, s, s.pending[d.pick]) && !Overtakes(s, d)
    requires forall k :: 0 <= k < |s.pending| ==> EventOk(c, s, s.pending[k])
    requires s.now >= 0.0
    requires var e := s.pending[d.pick];
      if e.SourceArrival? then at == Access(e.source, d.broker) && unit == s.counter
      else e.BrokerArrival? && at == Server(e.broker) && unit == e.unit
    requires at in s.queues && StationOk(s, at, log)
    ensures var s' := Turn(c, s, d);
      at in s'.queues && StationOk(s', at, log.(arrivals := log.arrivals + [Visit(unit, s'.now)]))
  {
    hide Turn, StationOk;
    var e, s' := s.pending[d.pick], Turn(c, s, d);
    assert EventOk(c, s, e);
    TurnQueues(c, s, d);
    TurnSum(c, InService(at), s, d);
    NewsSum(c, InService(at), s, e, d);
    if s.queues[at].busy {
      forall k | 0 <= k < |s'.pending| && Serves(s'.pending[k], at)
        ensures exists i :: 0 <= i < |s.pending| && s.pending[i] == s'.pending[k]
      {
        var i := Origin(c, s, d, k);
      }
      JoinStation(s, s', at, log, unit);
    } else {
      IdleBeforeArrival(s, d, at, log);
      forall k | 0 <= k < |s'.pending| && Serves(s'.pending[k], at)
        ensures s'.pending[k] == ServiceStart(s'.now, at, unit)
      {
        var i := Origin(c, s, d, k);
        if i < |s.pending| {
          OneInService(s, at, i);
        }
      }
      WakeStation(s, s', at, log, unit);
    }
  }

  /** A request that overtakes nobody finds its station busy or with nothing pending. */
  lemma IdleBeforeArrival(s: Sim, d: Choice, at: Station, log: Log)
    requires d.pick < |s.pending| && at in s.queues && StationOk(s, at, log) && !s.queues[at].busy
    requires Destination(s.pending[d.pick], d) == Some(at) && !Overtakes(s, d)
    ensures Engaged(s, at) == 0.0
  {
    if Engaged(s, at) == 1.0 {
      var k := SomeInService(s, at);
      ServedIsOk(s, at, log, k);
      assert false;
    }
  }

  lemma SomeInService(s: Sim, at: Station) returns (k: nat)
    requires Engaged(s, at) > 0.0
    ensures k < |s.pending| && Serves(s.pending[k], at)
  {
    if forall i :: 0 <= i < |s.pending| ==> !Serves(s.pending[i], at) {
      SumZero(InService(at), s.pending);
    }
    k :| 0 <= k < |s.pending| && Serves(s.pending[k], at);
  }

  /** A station whose request starts or completes. */
  lemma ServiceStation(c: Config, s: Sim, d: Choice, log: Log)
    requires Allowed(c, s, d) && CanHandle(c, s, s.pending[d.pick])
    requires forall k :: 0 <= k < |s.pending| ==> EventOk(c, s, s.pending[k])
    requires s.pending[d.pick].ServiceStart? || s.pending[d.pick].ServiceComplete?
    requires s.pending[d.pick].at in s.queues && StationOk(s, s.pending[d.pick].at, log)
    ensures var e, s' := s.pending[d.pick], Turn(c, s, d);
      e.at in s'.queues && StationOk(s', e.at, Entry(log, s, e, d))
  {
    hide Turn, StationOk, InServiceOk;
    var e, s' := s.pending[d.pick], Turn(c, s, d);
    var at := e.at;
    assert EventOk(c, s, e);
    TurnQueues(c, s, d);
    TurnSum(c, InService(at), s, d);
    NewsSum(c, InService(at), s, e, d);
    OneInService(s, at, d.pick);
    EngagedAtMostOne(s, at, log);
    ServedIsOk(s, at, log, d.pick);
    forall k | 0 <= k < |s'.pending| && Serves(s'.pending[k], at)
      ensures s'.pending[k] in News(c, s, e, d)
    {
      var i := Origin(c, s, d, k);
      if i < |s.pending| {
        TwoInService(s, at, i, d.pick);
      }
    }
    if e.ServiceStart? {
      BeginStation(s, s', at, log, e, d.delay);
    } else {
      CompleteIsBusy(s, at, log, d.pick);
      EndStation(s, s', at, log, e);
    }
  }

  lemma ServedIsOk(s: Sim, at: Station, log: Log, k: nat)
    requires at in s.queues && StationOk(s, at, log)
    requires k < |s.pending| && Serves(s.pending[k], at)
    ensures InServiceOk(s.pending[k], s.queues[at].busy, log)
  {
  }

  function NextWatched(c: Config, w: Watched, d: Choice): Watched
    requires Allowed(c, w.sim, d) && CanHandle(c, w.sim, w.sim.pending[d.pick])
    requires w.history.Keys == w.sim.queues.Keys
  {
    var e := w.sim.pending[d.pick];
    TurnQueues(c, w.sim, d);
    Watched(Turn(c, w.sim, d), NextHistory(w.history, w.sim, e, d))
  }

  lemma TurnKeepsFifo(c: Config, w: Watched, d: Choice)
    requires FifoInvariant(c, w) && c.window > 0.0
    requires Allowed(c, w.sim, d) && !Overtakes(w.sim, d) && CanHandle(c, w.sim, w.sim.pending[d.pick])
    ensures FifoInvariant(c, NextWatched(c, w, d))
  {
    hide Turn, StationOk, EventOk, Stationed, Entry, CanHandle, Overtakes;
    var s, h, e := w.sim, w.history, w.sim.pending[d.pick];
    var w' := NextWatched(c, w, d);
    TurnEvents(c, s, d);
    TurnQueues(c, s, d);
    StationedKeeps(c, s, d);
    forall at | at in w'.sim.queues
      ensures StationOk(w'.sim, at, w'.history[at])
    {
      if Touched(e, d) != Some(at) {
        UntouchedStation(c, s, d, at, h[at]);
      } else {
        TouchedStation(c, s, d, at, h[at]);
      }
    }
  }

  lemma StationedKeeps(c: Config, s: Sim, d: Choice)
    requires Stationed(c, s) && Allowed(c, s, d) && CanHandle(c, s, s.pending[d.pick])
    ensures Stationed(c, Turn(c, s, d))
  {
    TurnQueues(c, s, d);
  }

  lemma TouchedStation(c: Config, s: Sim, d: Choice, at: Station, log: Log)
    requires Allowed(c, s, d) && CanHandle(c, s, s.pending[d.pick]) && !Overtakes(s, d)
    requires forall k :: 0 <= k < |s.pending| ==> EventOk(c, s, s.pending[k])
    requires s.now >= 0.0
    requires at in s.queues && StationOk(s, at, log) && Touched(s.pending[d.pick], d) == Some(at)
    ensures at in Turn(c, s, d).queues && StationOk(Turn(c, s, d), at, Entry(log, s, s.pending[d.pick], d))
  {
    hide Turn, StationOk, EventOk, Overtakes, CanHandle;
    var e := s.pending[d.pick];
    TurnQueues(c, s, d);
    match e
    case SourceArrival(_, _) => ArrivalStation(c, s, d, at, log, s.counter);
    case BrokerArrival(_, _, unit) => ArrivalStation(c, s, d, at, log, unit);
    case ServiceStart(_, _, _) => ServiceStation(c, s, d, log);
    case ServiceComplete(_, _, _) => ServiceStation(c, s, d, log);
    case ControllerTick(_) =>
  }

  // ---------------------------------------------------------------- whole runs

  ghost predicate IsWatchedRun(c: Config, keepRequests: bool, ws: seq<Watched>, choices: seq<Choice>) {
    && |ws| == |choices| + 1
    && ws[0] == StartWatch(c, keepRequests)
    && forall k :: 0 <= k < |choices| ==> IsWatchedTurn(c, ws[k], choices[k], ws[k + 1])
  }

  ghost predicate IsWatchedTurn(c: Config, w: Watched, d: Choice, w': Watched) {
    && Allowed(c, w.sim, d)
    && (CanHandle(c, w.sim, w.sim.pending[d.pick]) && w.history.Keys == w.sim.queues.Keys ==>
          w' == NextWatched(c, w, d))
  }

  /** No choice of the run lets a request overtake a pending start. */
  predicate Orderly(ws: seq<Watched>, choices: seq<Choice>)
    requires |ws| == |choices| + 1
  {
    forall k :: 0 <= k < |choices| ==> choices[k].pick < |ws[k].sim.pending| && !Overtakes(ws[k].sim, choices[k])
  }

  lemma InitialFifo(c: Config, keepRequests: bool)
    requires c.window > 0.0
    ensures FifoInvariant(c, StartWatch(c, keepRequests))
  {
    var w := StartWatch(c, keepRequests);
    InitialInvariant(c, keepRequests);
    ArrivalsOk(c.n);
    assert forall k :: 1 <= k < |w.sim.pending| ==> w.sim.pending[k] == Arrivals(c.n)[k - 1];
    forall at | at in w.sim.queues
      ensures Engaged(w.sim, at) == 0.0
    {
      SumZero(InService(at), w.sim.pending);
    }
  }

  /**
   Along every run in which no request overtakes a pending start, every station serves one request
   at a time, first come first served.
   */
  lemma {:induction false} RunFifo(c: Config, keepRequests: bool, ws: seq<Watched>, choices: seq<Choice>, k: nat)
    requires c.window > 0.0 && IsWatchedRun(c, keepRequests, ws, choices) && Orderly(ws, choices) && k < |ws|
    ensures SimOk(c, ws[k].sim) && FifoInvariant(c, ws[k])
  {
    hide SimOk, FifoInvariant, Allowed, NextWatched, CanHandle, Overtakes;
    if k == 0 {
      InitialFifo(c, keepRequests);
      InitialInvariant(c, keepRequests);
      InvariantParts(c, StartWorld(c, keepRequests));
    } else {
      RunFifo(c, keepRequests, ws, choices, k - 1);
      var w, d := ws[k - 1], choices[k - 1];
      assert IsWatchedTurn(c, w, d, ws[k]);
      TurnKeepsSimOk(c, w.sim, d);
      FifoKeys(c, w);
      TurnKeepsFifo(c, w, d);
      NextWatchedSim(c, w, d);
    }
  }

  lemma InvariantParts(c: Config, w: World)
    requires Invariant(c, w)
    ensures SimOk(c, w.sim)
  {
  }

  lemma FifoKeys(c: Config, w: Watched)
    requires FifoInvariant(c, w)
    ensures w.history.Keys == w.sim.queues.Keys
  {
  }

  lemma NextWatchedSim(c: Config, w: Watched, d: Choice)
    requires Allowed(c, w.sim, d) && CanHandle(c, w.sim, w.sim.pending[d.pick])
    requires w.history.Keys == w.sim.queues.Keys
    ensures NextWatched(c, w, d).sim == Turn(c, w.sim, d)
  {
  }

  /** What that means at a station: never two in service; busy means one in service; idle means nobody waits. */
  lemma OneUnitPerServer(c: Config, w: Watched, at: Station)
    requires FifoInvariant(c, w) && at in w.sim.queues
    ensures forall i, j :: 0 <= i < j < |w.sim.pending| ==>
      !(Serves(w.sim.pending[i], at) && Serves(w.sim.pending[j], at))
    ensures w.sim.queues[at].busy ==> exists i :: 0 <= i < |w.sim.pending| && Serves(w.sim.pending[i], at)
    ensures !w.sim.queues[at].busy ==> w.sim.queues[at].waiting == []
    ensures (forall i :: 0 <= i < |w.sim.pending| ==> !Serves(w.sim.pending[i], at)) ==>
      !w.sim.queues[at].busy && w.sim.queues[at].waiting == []
  {
    var s := w.sim;
    assert StationOk(s, at, w.history[at]);
    forall i, j | 0 <= i < j < |s.pending|
      ensures !(Serves(s.pending[i], at) && Serves(s.pending[j], at))
    {
      if Serves(s.pending[i], at) && Serves(s.pending[j], at) {
        TwoInService(s, at, i, j);
      }
    }
    if Engaged(s, at) == 1.0 {
      var k := SomeInService(s, at);
    }
  }
}
