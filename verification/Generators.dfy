/** The recurring events of a run: every source always has its next arrival pending, and the controller its next tick. */
module Generators {
  import opened Vectors
  import opened Simulation
  import opened Conservation
  import opened Fifo

  /** Who recurs: a source, or the controller. */
  datatype Clock = Arrival(source: nat, time: real) | Tick(time: real)

  function ClockOf(e: Event): Option<Clock> {
    match e
    case SourceArrival(t, i) => Some(Arrival(i, t))
    case ControllerTick(t) => Some(Tick(t))
    case _ => None
  }

  /** How many of some events are this one. */
  function Count(evs: seq<Event>, x: Clock): nat {
    if |evs| == 0 then 0 else Count(evs[1..], x) + if ClockOf(evs[0]) == Some(x) then 1 else 0
  }

  lemma {:induction false} CountAppend(a: seq<Event>, b: seq<Event>, x: Clock)
    ensures Count(a + b, x) == Count(a, x) + Count(b, x)
  {
    if |a| == 0 {
      assert a + b == b;
    } else {
      CountAppend(a[1..], b, x);
      assert (a + b)[1..] == a[1..] + b;
    }
  }

  lemma CountOne(e: Event, x: Clock)
    ensures Count([e], x) == if ClockOf(e) == Some(x) then 1 else 0
  {
    assert [e][1..] == [];
  }

  lemma CountRemove(evs: seq<Event>, k: nat, x: Clock)
    requires k < |evs|
    ensures Count(evs, x) == Count(Remove(evs, k), x) + if ClockOf(evs[k]) == Some(x) then 1 else 0
  {
    var a, b := evs[..k], evs[k + 1..];
    assert evs == a + ([evs[k]] + b);
    CountAppend(a, [evs[k]] + b, x);
    CountAppend([evs[k]], b, x);
    CountAppend(a, b, x);
    CountOne(evs[k], x);
  }

  /** When each source's next unit is due, and the next tick. */
  datatype Due = Due(arrivals: Vec, tick: real)

  /** A source's next unit comes its sampled delay after the present one, the next tick one window after the present one. */
  function Advance(c: Config, due: Due, e: Event, delay: real): Due {
    match e
    case SourceArrival(_, i) =>
      if i < |due.arrivals| then due.(arrivals := due.arrivals[i := due.arrivals[i] + delay]) else due
    case ControllerTick(_) => due.(tick := due.tick + c.window)
    case _ => due
  }

  function DueAfter(c: Config, events: seq<Event>, choices: seq<Choice>): Due
    requires |events| == |choices|
  {
    if |events| == 0 then Due(seq(c.n, _ => 0.0), c.window)
    else
      var n := |events| - 1;
      Advance(c, DueAfter(c, events[..n], choices[..n]), events[n], choices[n].delay)
  }

  predicate IsDue(due: Due, x: Clock) {
    match x
    case Arrival(i, t) => i < |due.arrivals| && t == due.arrivals[i]
    case Tick(t) => t == due.tick
  }

  /** Exactly one arrival per source and one tick, each when it is due. */
  ghost predicate OnTime(evs: seq<Event>, due: Due) {
    forall x :: Count(evs, x) == if IsDue(due, x) then 1 else 0
  }

  /** The event that follows a recurring one. */
  function Following(c: Config, e: Event, delay: real): Option<Clock> {
    match e
    case SourceArrival(t, i) => Some(Arrival(i, t + delay))
    case ControllerTick(t) => Some(Tick(t + c.window))
    case _ => None
  }

  /** What recurs among the events a handler schedules. */
  lemma NewsCount(c: Config, s: Sim, e: Event, d: Choice, x: Clock)
    requires CanHandle(c, s, e) && d.broker < c.m
    ensures Count(News(c, s, e, d), x) == if Following(c, e, d.delay) == Some(x) then 1 else 0
  {
    hide CanHandle;
    var news := News(c, s, e, d);
    if |news| > 0 {
      CountOne(news[0], x);
      if |news| > 1 {
        CountOne(news[1], x);
        assert news == [news[0]] + [news[1]];
        CountAppend([news[0]], [news[1]], x);
      } else {
        assert news == [news[0]];
      }
    }
  }

  /** One turn hands the recurring event on and leaves the others. */
  lemma TurnOnTime(c: Config, s: Sim, d: Choice, due: Due)
    requires Allowed(c, s, d) && CanHandle(c, s, s.pending[d.pick]) && OnTime(s.pending, due)
    ensures OnTime(Turn(c, s, d).pending, Advance(c, due, s.pending[d.pick], d.delay))
  {
    hide Turn, CanHandle, News, Count, IsDue, Advance, Following;
    var e := s.pending[d.pick];
    TurnPending(c, s, d);
    EventIsDue(s.pending, d.pick, due);
    forall x
      ensures Count(Turn(c, s, d).pending, x) == if IsDue(Advance(c, due, e, d.delay), x) then 1 else 0
    {
      CountAppend(Remove(s.pending, d.pick), News(c, s, e, d), x);
      CountRemove(s.pending, d.pick, x);
      NewsCount(c, s, e, d, x);
      Handed(c, due, e, d.delay, x);
    }
  }

  lemma EventIsDue(evs: seq<Event>, k: nat, due: Due)
    requires k < |evs| && OnTime(evs, due)
    ensures ClockOf(evs[k]).Some? ==> IsDue(due, ClockOf(evs[k]).value)
  {
    if ClockOf(evs[k]).Some? {
      CountRemove(evs, k, ClockOf(evs[k]).value);
    }
  }

  lemma Handed(c: Config, due: Due, e: Event, delay: real, x: Clock)
    requires ClockOf(e).Some? ==> IsDue(due, ClockOf(e).value)
    ensures (if IsDue(Advance(c, due, e, delay), x) then 1 else 0)
      == (if IsDue(due, x) then 1 else 0) - (if ClockOf(e) == Some(x) then 1 else 0)
         + if Following(c, e, delay) == Some(x) then 1 else 0
  {
  }

  lemma {:induction false} FirstArrivals(n: nat, x: Clock)
    ensures Count(Arrivals(n), x) == if x.Arrival? && x.source < n && x.time == 0.0 then 1 else 0
  {
    if n > 0 {
      FirstArrivals(n - 1, x);
      CountAppend(Arrivals(n - 1), [SourceArrival(0.0, n - 1)], x);
      CountOne(SourceArrival(0.0, n - 1), x);
    }
  }

  lemma FirstOnTime(c: Config, keepRequests: bool)
    ensures OnTime(Initial(c, keepRequests).pending, DueAfter(c, [], []))
  {
    hide Count;
    forall x
      ensures Count(Initial(c, keepRequests).pending, x) == if IsDue(DueAfter(c, [], []), x) then 1 else 0
    {
      CountAppend([ControllerTick(c.window)], Arrivals(c.n), x);
      CountOne(ControllerTick(c.window), x);
      FirstArrivals(c.n, x);
    }
  }

  /** The first k events a run handled. */
  function Handled(worlds: seq<World>, choices: seq<Choice>, k: nat): (events: seq<Event>)
    requires k <= |choices| < |worlds|
    requires forall a :: 0 <= a < k ==> choices[a].pick < |worlds[a].sim.pending|
    ensures |events| == k
    ensures forall a :: 0 <= a < k ==> events[a] == worlds[a].sim.pending[choices[a].pick]
  {
    seq(k, a requires 0 <= a < k => worlds[a].sim.pending[choices[a].pick])
  }

  /** The events handled so far can be named at every point of a run. */
  lemma RunPicks(c: Config, keepRequests: bool, worlds: seq<World>, choices: seq<Choice>)
    requires IsRun(c, keepRequests, worlds, choices)
    ensures forall a :: 0 <= a < |choices| ==> choices[a].pick < |worlds[a].sim.pending|
  {
    hide NextWorld, CanHandle;
    forall a | 0 <= a < |choices| ensures choices[a].pick < |worlds[a].sim.pending| {
      assert IsTurn(c, worlds[a], choices[a], worlds[a + 1]);
    }
  }

  /**
   At every point of every run each source has exactly one arrival pending, at the sum of its sampled
   delays, and the controller exactly one tick, at the next multiple of the window.
   */
  lemma {:induction false} RunClocks(c: Config, keepRequests: bool, worlds: seq<World>, choices: seq<Choice>, k: nat)
    requires c.window > 0.0 && IsRun(c, keepRequests, worlds, choices) && k < |worlds|
    ensures k <= |choices| && forall a :: 0 <= a < |choices| ==> choices[a].pick < |worlds[a].sim.pending|
    ensures OnTime(worlds[k].sim.pending, DueAfter(c, Handled(worlds, choices, k), choices[..k]))
  {
    hide Invariant, Allowed, CanHandle, Turn, OnTime, Advance, SimOk;
    RunPicks(c, keepRequests, worlds, choices);
    if k == 0 {
      FirstOnTime(c, keepRequests);
      assert choices[..0] == [];
    } else {
      RunClocks(c, keepRequests, worlds, choices, k - 1);
      RunInvariant(c, keepRequests, worlds, choices, k - 1);
      var w, d := worlds[k - 1], choices[k - 1];
      InvariantParts(c, w);
      assert IsTurn(c, w, d, worlds[k]);
      NeverStuck(c, w.sim, d.pick);
      var events := Handled(worlds, choices, k);
      assert events[..k - 1] == Handled(worlds, choices, k - 1) && choices[..k][..k - 1] == choices[..k - 1];
      TurnOnTime(c, w.sim, d, DueAfter(c, events[..k - 1], choices[..k - 1]));
    }
  }
}
