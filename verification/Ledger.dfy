/**
 Weighted counts over the pending events and the queues. Every event handler changes a total
 only by what it removes and adds, so one lemma per handler serves all weights.
 */
module Ledger {
  import opened Vectors
  import opened Algebra
  import opened Simulation

  /** What is counted. */
  datatype Weight =
    | OfUnit(unit: nat)                     // places holding this request
    | InService(at: Station)                // pending starts and completions of a station
    | Feeds(at: Station, time: real)        // events that will bring a request to a station at that time
    | FromSource(source: nat)               // pending arrivals of a source
    | Effort(horizon: real, gap: real, window: real)  // events still to handle up to the horizon

  predicate Carries(e: Event, unit: nat) {
    (e.ServiceStart? || e.ServiceComplete? || e.BrokerArrival?) && e.unit == unit
  }

  predicate Serves(e: Event, at: Station) {
    (e.ServiceStart? || e.ServiceComplete?) && e.at == at
  }

  predicate Feeding(e: Event, at: Station) {
    match at
    case Access(i, _) => e.SourceArrival? && e.source == i
    case Server(j) => (e.BrokerArrival? && e.broker == j)
                      || (e.ServiceComplete? && e.at.Access? && e.at.broker == j)
  }

  function Indicator(b: bool): real {
    if b then 1.0 else 0.0
  }

  /** Repetitions of a recurring event from time t to the horizon, the one at t included. */
  function Repeats(t: real, horizon: real, period: real): real
    requires period > 0.0
  {
    if t <= horizon then (horizon - t) / period + 1.0 else 0.0
  }

  predicate Proper(w: Weight) {
    w.Effort? ==> w.gap > 0.0 && w.window > 0.0
  }

  function EffortOf(e: Event, horizon: real, gap: real, window: real): real
    requires gap > 0.0 && window > 0.0
  {
    match e
    case SourceArrival(t, _) => 6.0 * Repeats(t, horizon, gap)
    case ServiceStart(_, at, _) => if at.Access? then 5.0 else 2.0
    case ServiceComplete(_, at, _) => if at.Access? then 4.0 else 1.0
    case BrokerArrival(_, _, _) => 3.0
    case ControllerTick(t) => Repeats(t, horizon, window)
  }

  function W(w: Weight, e: Event): real
    requires Proper(w)
  {
    match w
    case OfUnit(unit) => Indicator(Carries(e, unit))
    case InService(at) => Indicator(Serves(e, at))
    case Feeds(at, t) => Indicator(Feeding(e, at) && e.time == t)
    case FromSource(i) => Indicator(e.SourceArrival? && e.source == i)
    case Effort(horizon, gap, window) => EffortOf(e, horizon, gap, window)
  }

  function EventSum(w: Weight, evs: seq<Event>): real
    requires Proper(w)
  {
    if |evs| == 0 then 0.0 else W(w, evs[0]) + EventSum(w, evs[1..])
  }

  /** What a queue's waiting requests count for. */
  function QW(w: Weight, at: Station, q: Queue): real {
    match w
    case OfUnit(unit) => multiset(q.waiting)[unit] as real
    case Effort(_, _, _) => |q.waiting| as real * (if at.Access? then 5.0 else 2.0)
    case _ => 0.0
  }

  function QueueSum(w: Weight, stations: seq<Station>, queues: map<Station, Queue>): real
    requires forall k :: 0 <= k < |stations| ==> stations[k] in queues
  {
    if |stations| == 0 then 0.0
    else QW(w, stations[0], queues[stations[0]]) + QueueSum(w, stations[1..], queues)
  }

  // ---------------------------------------------------------------- sums over events

  lemma {:induction false} EventSumAppend(w: Weight, a: seq<Event>, b: seq<Event>)
    requires Proper(w)
    ensures EventSum(w, a + b) == EventSum(w, a) + EventSum(w, b)
  {
    if |a| == 0 {
      assert a + b == b;
    } else {
      assert (a + b)[1..] == a[1..] + b;
      EventSumAppend(w, a[1..], b);
    }
  }

  lemma EventSumOne(w: Weight, e: Event)
    requires Proper(w)
    ensures EventSum(w, [e]) == W(w, e)
  {
    assert EventSum(w, [e][1..]) == 0.0;
  }

  lemma EventSumRemove(w: Weight, evs: seq<Event>, k: nat)
    requires Proper(w) && k < |evs|
    ensures EventSum(w, evs) == W(w, evs[k]) + EventSum(w, Remove(evs, k))
  {
    hide W;
    assert evs == evs[..k] + ([evs[k]] + evs[k + 1..]);
    EventSumAppend(w, evs[..k], [evs[k]] + evs[k + 1..]);
    EventSumAppend(w, [evs[k]], evs[k + 1..]);
    EventSumOne(w, evs[k]);
    EventSumAppend(w, evs[..k], evs[k + 1..]);
  }

  lemma {:induction false} EventSumNonNeg(w: Weight, evs: seq<Event>)
    requires Proper(w)
    ensures EventSum(w, evs) >= 0.0
    ensures forall k :: 0 <= k < |evs| ==> W(w, evs[k]) <= EventSum(w, evs)
  {
    if |evs| > 0 {
      EventSumNonNeg(w, evs[1..]);
      WNonNeg(w, evs[0]);
      hide W;
      forall k | 0 <= k < |evs|
        ensures W(w, evs[k]) <= EventSum(w, evs)
      {
        if k > 0 {
          assert evs[k] == evs[1..][k - 1];
        }
      }
    }
  }

  lemma WNonNeg(w: Weight, e: Event)
    requires Proper(w)
    ensures W(w, e) >= 0.0
  {
    if w.Effort? {
      RepeatsNonNeg(e.time, w.horizon, w.gap);
      RepeatsNonNeg(e.time, w.horizon, w.window);
    }
  }

  lemma RepeatsNonNeg(t: real, horizon: real, period: real)
    requires period > 0.0
    ensures Repeats(t, horizon, period) >= 0.0
    ensures t <= horizon ==> Repeats(t, horizon, period) >= 1.0
  {
    if t <= horizon {
      DivGe(horizon - t, period, 0.0);
    }
  }

  // ---------------------------------------------------------------- sums over queues

  ghost predicate Distinct(stations: seq<Station>) {
    forall i, j :: 0 <= i < j < |stations| ==> stations[i] != stations[j]
  }

  lemma {:induction false} QueueSumUpdate(w: Weight, stations: seq<Station>, queues: map<Station, Queue>,
                                          k: nat, q: Queue)
    requires forall i :: 0 <= i < |stations| ==> stations[i] in queues
    requires Distinct(stations) && k < |stations|
    ensures QueueSum(w, stations, queues[stations[k] := q])
      == QueueSum(w, stations, queues) - QW(w, stations[k], queues[stations[k]]) + QW(w, stations[k], q)
  {
    hide QW;
    var changed := queues[stations[k] := q];
    assert forall i :: 0 < i < |stations| ==> stations[1..][i - 1] == stations[i];
    if k == 0 {
      QueueSumSame(w, stations[1..], queues, changed);
    } else {
      QueueSumUpdate(w, stations[1..], queues, k - 1, q);
    }
  }

  lemma {:induction false} QueueSumSame(w: Weight, stations: seq<Station>, a: map<Station, Queue>,
                                        b: map<Station, Queue>)
    requires forall i :: 0 <= i < |stations| ==> stations[i] in a && stations[i] in b
    requires forall i :: 0 <= i < |stations| ==> a[stations[i]] == b[stations[i]]
    ensures QueueSum(w, stations, a) == QueueSum(w, stations, b)
  {
    if |stations| > 0 {
      QueueSumSame(w, stations[1..], a, b);
    }
  }

  // ---------------------------------------------------------------- the stations of a configuration

  lemma {:induction false} BrokersListed(m: nat)
    ensures Distinct(BrokerStations(m))
    ensures forall at :: at in BrokerStations(m) <==> at.Server? && at.broker < m
  {
    if m > 0 {
      BrokersListed(m - 1);
    }
  }

  lemma {:induction false} RowListed(i: nat, m: nat)
    ensures Distinct(RowStations(i, m))
    ensures forall at :: at in RowStations(i, m) <==> at.Access? && at.source == i && at.broker < m
  {
    if m > 0 {
      RowListed(i, m - 1);
    }
  }

  lemma {:induction false} AccessListed(n: nat, m: nat)
    ensures Distinct(AccessStations(n, m))
    ensures forall at :: at in AccessStations(n, m) <==> at.Access? && at.source < n && at.broker < m
  {
    if n > 0 {
      AccessListed(n - 1, m);
      RowListed(n - 1, m);
      Concatenated(AccessStations(n - 1, m), RowStations(n - 1, m));
    }
  }

  lemma Concatenated(a: seq<Station>, b: seq<Station>)
    requires Distinct(a) && Distinct(b) && forall x :: x in a ==> x !in b
    ensures Distinct(a + b)
    ensures forall x :: x in a + b <==> x in a || x in b
  {
    var c := a + b;
    forall i, j | 0 <= i < j < |c|
      ensures c[i] != c[j]
    {
      if i < |a| && j >= |a| {
        assert c[i] in a && c[j] == b[j - |a|] && c[j] in b;
      }
    }
  }

  lemma StationsListed(c: Config)
    ensures Distinct(Stations(c))
    ensures forall at :: at in Stations(c) <==> c.IsStation(at)
  {
    AccessListed(c.n, c.m);
    BrokersListed(c.m);
    Concatenated(AccessStations(c.n, c.m), BrokerStations(c.m));
  }

  // ---------------------------------------------------------------- totals

  ghost predicate Stationed(c: Config, s: Sim) {
    s.queues.Keys == (set at | at in Stations(c))
  }

  function Total(c: Config, w: Weight, s: Sim): real
    requires Stationed(c, s) && Proper(w)
  {
    EventSum(w, s.pending) + QueueSum(w, Stations(c), s.queues)
  }

  lemma StationIndex(c: Config, at: Station) returns (k: nat)
    requires at in Stations(c)
    ensures k < |Stations(c)| && Stations(c)[k] == at
  {
    k :| 0 <= k < |Stations(c)| && Stations(c)[k] == at;
  }

  /** Replacing one queue and appending one event changes a total by just that. */
  lemma TotalChange(c: Config, w: Weight, s: Sim, at: Station, q: Queue, evs: seq<Event>)
    requires Stationed(c, s) && Proper(w) && at in s.queues
    ensures var s' := s.(queues := s.queues[at := q], pending := s.pending + evs);
      && Stationed(c, s')
      && Total(c, w, s') == Total(c, w, s) + EventSum(w, evs) + QW(w, at, q) - QW(w, at, s.queues[at])
  {
    hide W, QW;
    StationsListed(c);
    var k := StationIndex(c, at);
    QueueSumUpdate(w, Stations(c), s.queues, k, q);
    EventSumAppend(w, s.pending, evs);
  }

  lemma TotalPopped(c: Config, w: Weight, s: Sim, k: nat)
    requires Stationed(c, s) && Proper(w) && k < |s.pending|
    ensures Stationed(c, Popped(s, k))
    ensures Total(c, w, Popped(s, k)) == Total(c, w, s) - W(w, s.pending[k])
  {
    hide W, QW;
    EventSumRemove(w, s.pending, k);
  }

  /** A request entering a station is counted once: as its start, or among the waiting. */
  lemma TotalEnter(c: Config, w: Weight, s: Sim, at: Station, unit: nat)
    requires Stationed(c, s) && Proper(w) && at in s.queues
    ensures Stationed(c, Enter(s, at, unit))
    ensures Total(c, w, Enter(s, at, unit)) == Total(c, w, s) +
      if s.queues[at].busy then QW(w, at, s.queues[at].Push(unit)) - QW(w, at, s.queues[at])
      else W(w, ServiceStart(s.now, at, unit))
  {
    hide W, QW;
    var q := s.queues[at];
    if q.busy {
      TotalChange(c, w, s, at, q.Push(unit), []);
      assert s.pending + [] == s.pending;
    } else {
      EventSumOne(w, ServiceStart(s.now, at, unit));
      EventSumAppend(w, s.pending, [ServiceStart(s.now, at, unit)]);
    }
  }

  lemma TotalRelease(c: Config, w: Weight, s: Sim, at: Station)
    requires Stationed(c, s) && Proper(w) && at in s.queues
    ensures Stationed(c, Release(s, at))
    ensures Total(c, w, Release(s, at)) == Total(c, w, s) +
      var q := s.queues[at];
      if |q.waiting| > 0 then W(w, ServiceStart(s.now, at, q.waiting[0])) + QW(w, at, q.Pop()) - QW(w, at, q)
      else QW(w, at, q.(busy := false)) - QW(w, at, q)
  {
    hide W, QW;
    var q := s.queues[at];
    if |q.waiting| > 0 {
      EventSumOne(w, ServiceStart(s.now, at, q.waiting[0]));
      TotalChange(c, w, s, at, q.Pop(), [ServiceStart(s.now, at, q.waiting[0])]);
    } else {
      TotalChange(c, w, s, at, q.(busy := false), []);
      assert s.pending + [] == s.pending;
    }
  }

  /** What a request at a station counts for, whether waiting there or about to start. */
  function Presence(w: Weight, at: Station, unit: nat): real {
    match w
    case OfUnit(u) => Indicator(u == unit)
    case Effort(_, _, _) => if at.Access? then 5.0 else 2.0
    case _ => 0.0
  }

  lemma PushPop(w: Weight, at: Station, q: Queue, unit: nat)
    ensures QW(w, at, q.Push(unit)) - QW(w, at, q) == Presence(w, at, unit)
    ensures |q.waiting| > 0 ==> QW(w, at, q) - QW(w, at, q.Pop()) == Presence(w, at, q.waiting[0])
  {
    if |q.waiting| > 0 {
      assert q.waiting == [q.waiting[0]] + q.waiting[1..];
    }
  }

  /** Weights that follow a request through the system, wherever it is. */
  predicate FollowsUnits(w: Weight) {
    w.OfUnit? || w.Effort?
  }

  lemma EnterKeeps(c: Config, w: Weight, s: Sim, at: Station, unit: nat)
    requires Stationed(c, s) && Proper(w) && FollowsUnits(w) && at in s.queues
    ensures Stationed(c, Enter(s, at, unit))
    ensures Total(c, w, Enter(s, at, unit)) == Total(c, w, s) + Presence(w, at, unit)
  {
    hide Total, QW;
    TotalEnter(c, w, s, at, unit);
    PushPop(w, at, s.queues[at], unit);
  }

  lemma ReleaseKeeps(c: Config, w: Weight, s: Sim, at: Station)
    requires Stationed(c, s) && Proper(w) && FollowsUnits(w) && at in s.queues
    ensures Stationed(c, Release(s, at))
    ensures Total(c, w, Release(s, at)) == Total(c, w, s)
  {
    hide Total;
    TotalRelease(c, w, s, at);
    PushPop(w, at, s.queues[at], 0);
  }

  lemma AppendKeeps(c: Config, w: Weight, s: Sim, e: Event)
    requires Stationed(c, s) && Proper(w)
    ensures Stationed(c, s.(pending := s.pending + [e]))
    ensures Total(c, w, s.(pending := s.pending + [e])) == Total(c, w, s) + W(w, e)
  {
    hide W, QW;
    EventSumAppend(w, s.pending, [e]);
    EventSumOne(w, e);
  }

  lemma StartKeeps(c: Config, w: Weight, s: Sim, at: Station, unit: nat, delay: real)
    requires Stationed(c, s) && Proper(w) && at in s.queues
    ensures Stationed(c, HandleStart(s, at, unit, delay))
    ensures Total(c, w, HandleStart(s, at, unit, delay))
      == Total(c, w, s) + W(w, ServiceComplete(s.now + delay, at, unit))
  {
    hide W, Total;
    var e := ServiceComplete(s.now + delay, at, unit);
    TotalChange(c, w, s, at, s.queues[at].(busy := true), [e]);
    EventSumOne(w, e);
  }

  /** What the handler of e puts back into a total that follows requests. */
  function Successors(c: Config, w: Weight, s: Sim, e: Event, d: Choice): real
    requires Proper(w)
  {
    match e
    case SourceArrival(_, i) =>
      W(w, SourceArrival(e.time + d.delay, i)) + Presence(w, Access(i, d.broker), s.counter)
    case ServiceStart(_, at, unit) => W(w, ServiceComplete(e.time + d.delay, at, unit))
    case ServiceComplete(_, at, unit) => if at.Access? then W(w, BrokerArrival(e.time, at.broker, unit)) else 0.0
    case BrokerArrival(_, j, unit) => Presence(w, Server(j), unit)
    case ControllerTick(_) => W(w, ControllerTick(e.time + c.window))
  }

  /** One turn of the event loop, in totals that follow requests. */
  lemma TurnTotal(c: Config, w: Weight, s: Sim, d: Choice)
    requires Stationed(c, s) && Proper(w) && FollowsUnits(w)
    requires Allowed(c, s, d) && CanHandle(c, s, s.pending[d.pick])
    ensures Stationed(c, Turn(c, s, d))
    ensures var e := s.pending[d.pick];
      Total(c, w, Turn(c, s, d)) == Total(c, w, s) - W(w, e) + Successors(c, w, s, e, d)
  {
    hide W, Total, Presence, Stationed;
    var e, p := s.pending[d.pick], Popped(s, d.pick);
    TotalPopped(c, w, s, d.pick);
    match e
    case SourceArrival(_, i) =>
      AppendKeeps(c, w, p, SourceArrival(p.now + d.delay, i));
      TurnArrival(c, w, p, i, d.delay, d.broker);
    case ServiceStart(_, at, unit) =>
      StartKeeps(c, w, p, at, unit, d.delay);
    case ServiceComplete(_, at, unit) =>
      TurnComplete(c, w, p, at, unit);
    case BrokerArrival(_, j, unit) =>
      EnterKeeps(c, w, p, Server(j), unit);
    case ControllerTick(_) =>
      AppendKeeps(c, w, p, ControllerTick(p.now + c.window));
  }

  lemma TurnArrival(c: Config, w: Weight, s: Sim, i: nat, delay: real, j: nat)
    requires Stationed(c, s) && Proper(w) && FollowsUnits(w) && Access(i, j) in s.queues
    ensures Stationed(c, HandleSourceArrival(s, i, delay, j))
    ensures Total(c, w, HandleSourceArrival(s, i, delay, j))
      == Total(c, w, s) + W(w, SourceArrival(s.now + delay, i)) + Presence(w, Access(i, j), s.counter)
  {
    hide W, Presence;
    var s1 := s.(pending := s.pending + [SourceArrival(s.now + delay, i)],
                 units := s.units[s.counter := Unit(s.now, i, None, None)],
                 counter := s.counter + 1);
    AppendKeeps(c, w, s, SourceArrival(s.now + delay, i));
    assert Total(c, w, s1) == Total(c, w, s.(pending := s1.pending));
    EnterKeeps(c, w, s1, Access(i, j), s.counter);
  }

  lemma TurnComplete(c: Config, w: Weight, s: Sim, at: Station, unit: nat)
    requires Stationed(c, s) && Proper(w) && FollowsUnits(w) && at in s.queues && unit in s.units
    ensures at.Access? ==>
      && Stationed(c, HandleAccessComplete(s, at, unit))
      && Total(c, w, HandleAccessComplete(s, at, unit))
           == Total(c, w, s) + W(w, BrokerArrival(s.now, at.broker, unit))
    ensures at.Server? ==>
      && Stationed(c, HandleBrokerComplete(s, at, unit))
      && Total(c, w, HandleBrokerComplete(s, at, unit)) == Total(c, w, s)
  {
    hide W;
    if at.Access? {
      var s0 := s.(units := s.units[unit := s.units[unit].(accessComplete := Some(s.now))]);
      ReleaseKeeps(c, w, s0, at);
      AppendKeeps(c, w, Release(s0, at), BrokerArrival(s.now, at.broker, unit));
    } else {
      var u := s.units[unit].(brokerComplete := Some(s.now));
      var s0 := s.(units := if s.keepRequests then s.units[unit := u] else s.units - {unit},
                   completed := s.completed + 1, latencySum := s.latencySum + (s.now - u.arrival));
      ReleaseKeeps(c, w, s0, at);
    }
  }
}
