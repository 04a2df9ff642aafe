/** A condition on the sampled delays alone under which no request ever overtakes a pending start. */
module Freshness {
  import opened Simulation
  import opened Ledger
  import opened Conservation
  import opened Fifo

  /** A choice with a positive delay that does not make two access completions toward one broker coincide. */
  predicate Fresh(s: Sim, d: Choice)
    requires d.pick < |s.pending|
  {
    var e := s.pending[d.pick];
    && d.delay > 0.0
    && (e.ServiceStart? && e.at.Access? ==>
          forall k :: 0 <= k < |s.pending| ==>
            !(s.pending[k].ServiceComplete? && s.pending[k].at.Access? && s.pending[k].at.broker == e.at.broker
              && s.pending[k].time == e.time + d.delay))
  }

  /** What fresh delays keep besides order at the stations. */
  ghost predicate FreshInvariant(s: Sim) {
    SourcesOnce(s) && FeedsOnce(s) && StartsAlone(s)
  }

  ghost predicate SourcesOnce(s: Sim) {
    forall i: nat :: EventSum(FromSource(i), s.pending) <= 1.0
  }

  /** No two pending events bring requests to one station at one time. */
  ghost predicate FeedsOnce(s: Sim) {
    forall at, t :: EventSum(Feeds(at, t), s.pending) <= 1.0
  }

  /** While a station has a start pending but is not yet busy, nothing can arrive there now. */
  ghost predicate StartsAlone(s: Sim) {
    forall k :: 0 <= k < |s.pending| ==> StartAlone(s, s.pending[k])
  }

  ghost predicate StartAlone(s: Sim, e: Event) {
    e.ServiceStart? && e.at in s.queues && !s.queues[e.at].busy ==>
      EventSum(Feeds(e.at, s.now), s.pending) == 0.0
  }

  lemma {:induction false} SumDominated(v: Weight, w: Weight, evs: seq<Event>)
    requires Proper(v) && Proper(w)
    requires forall e :: W(v, e) <= W(w, e)
    ensures EventSum(v, evs) <= EventSum(w, evs)
  {
    if |evs| > 0 {
      SumDominated(v, w, evs[1..]);
    }
  }

  lemma FeedsOfSource(s: seq<Event>, i: nat, j: nat, t: real)
    ensures EventSum(Feeds(Access(i, j), t), s) <= EventSum(FromSource(i), s)
  {
    SumDominated(Feeds(Access(i, j), t), FromSource(i), s);
  }

  // ---------------------------------------------------------------- arrivals never clash

  lemma TurnSourcesOnce(c: Config, s: Sim, d: Choice)
    requires Allowed(c, s, d) && CanHandle(c, s, s.pending[d.pick]) && SourcesOnce(s)
    ensures SourcesOnce(Turn(c, s, d))
  {
    hide Turn, News;
    var e := s.pending[d.pick];
    forall i: nat
      ensures EventSum(FromSource(i), Turn(c, s, d).pending) <= 1.0
    {
      TurnSum(c, FromSource(i), s, d);
      NewsSum(c, FromSource(i), s, e, d);
      assert EventSum(FromSource(i), s.pending) <= 1.0;
    }
  }

  /** When a start is pending, no time can pass before it is handled. */
  lemma StartIsNow(c: Config, s: Sim, d: Choice, k: nat)
    requires Allowed(c, s, d) && k < |s.pending|
    requires forall i :: 0 <= i < |s.pending| ==> EventOk(c, s, s.pending[i])
    requires s.pending[k].ServiceStart? || s.pending[k].BrokerArrival?
    ensures s.pending[d.pick].time == s.now
  {
    assert EventOk(c, s, s.pending[k]) && EventOk(c, s, s.pending[d.pick]);
  }

  lemma FreshFeeds(c: Config, s: Sim, d: Choice)
    requires Allowed(c, s, d) && Fresh(s, d)
    requires forall i :: 0 <= i < |s.pending| ==> EventOk(c, s, s.pending[i])
    requires s.pending[d.pick].ServiceStart? && s.pending[d.pick].at.Access?
    ensures var e := s.pending[d.pick];
      EventSum(Feeds(Server(e.at.broker), e.time + d.delay), s.pending) == 0.0
  {
    var e := s.pending[d.pick];
    StartIsNow(c, s, d, d.pick);
    var w := Feeds(Server(e.at.broker), e.time + d.delay);
    forall k | 0 <= k < |s.pending|
      ensures W(w, s.pending[k]) == 0.0
    {
      assert EventOk(c, s, s.pending[k]);
    }
    SumZero(w, s.pending);
  }

  lemma TurnFeedsOnce(c: Config, s: Sim, d: Choice)
    requires Allowed(c, s, d) && CanHandle(c, s, s.pending[d.pick]) && Fresh(s, d)
    requires forall i :: 0 <= i < |s.pending| ==> EventOk(c, s, s.pending[i])
    requires SourcesOnce(s) && FeedsOnce(s)
    ensures FeedsOnce(Turn(c, s, d))
  {
    hide Turn, News, EventOk;
    var e, s' := s.pending[d.pick], Turn(c, s, d);
    TurnSourcesOnce(c, s, d);
    if e.ServiceStart? && e.at.Access? {
      FreshFeeds(c, s, d);
    }
    forall at, t
      ensures EventSum(Feeds(at, t), s'.pending) <= 1.0
    {
      if at.Access? {
        FeedsOfSource(s'.pending, at.source, at.broker, t);
        assert EventSum(FromSource(at.source), s'.pending) <= 1.0;
      } else {
        TurnSum(c, Feeds(at, t), s, d);
        NewsSum(c, Feeds(at, t), s, e, d);
        assert EventSum(Feeds(at, t), s.pending) <= 1.0;
      }
    }
  }

  // ---------------------------------------------------------------- starts stay alone

  /** An old start at a station that is still not busy: nothing has arrived for it and nothing will now. */
  lemma OldStartAlone(c: Config, s: Sim, d: Choice, h: History, i: nat)
    requires Allowed(c, s, d) && CanHandle(c, s, s.pending[d.pick]) && d.delay > 0.0 && c.window > 0.0
    requires forall k :: 0 <= k < |s.pending| ==> EventOk(c, s, s.pending[k])
    requires i < |s.pending| && i != d.pick && s.pending[i].ServiceStart?
    requires s.pending[i].at in s.queues && s.pending[i].at in h && StationOk(s, s.pending[i].at, h[s.pending[i].at])
    requires StartAlone(s, s.pending[i])
    ensures StartAlone(Turn(c, s, d), s.pending[i])
  {
    hide Turn, News, StationOk, EventOk;
    var e, o, s' := s.pending[d.pick], s.pending[i], Turn(c, s, d);
    TurnQueues(c, s, d);
    StartIsNow(c, s, d, i);
    if !s'.queues[o.at].busy {
      if s.queues[o.at].busy {
        TwoInService(s, o.at, i, d.pick);
        EngagedAtMostOne(s, o.at, h[o.at]);
        assert false;
      }
      var w := Feeds(o.at, s'.now);
      TurnSum(c, w, s, d);
      NewsSum(c, w, s, e, d);
      EventSumNonNeg(w, s.pending);
      assert W(w, e) == 0.0;
    }
  }

  /** A newly scheduled start: its station is busy already, or the arrival that caused it was the only one. */
  lemma NewStartAlone(c: Config, s: Sim, d: Choice, h: History, o: Event)
    requires Allowed(c, s, d) && CanHandle(c, s, s.pending[d.pick]) && d.delay > 0.0 && c.window > 0.0
    requires forall k :: 0 <= k < |s.pending| ==> EventOk(c, s, s.pending[k])
    requires FeedsOnce(s) && o in News(c, s, s.pending[d.pick], d)
    requires forall at :: at in s.queues ==> at in h && StationOk(s, at, h[at])
    ensures StartAlone(Turn(c, s, d), o)
  {
    hide Turn, StationOk, EventOk;
    var e, s' := s.pending[d.pick], Turn(c, s, d);
    TurnQueues(c, s, d);
    if o.ServiceStart? && o.at in s'.queues && !s'.queues[o.at].busy {
      if e.ServiceComplete? {
        CompleteIsBusy(s, e.at, h[e.at], d.pick);
        assert false;
      }
      var w := Feeds(o.at, s'.now);
      TurnSum(c, w, s, d);
      NewsSum(c, w, s, e, d);
      EventSumNonNeg(w, s'.pending);
      assert W(w, e) == 1.0;
      assert EventSum(w, s.pending) <= 1.0;
    }
  }

  lemma TurnStartsAlone(c: Config, s: Sim, d: Choice, h: History)
    requires Allowed(c, s, d) && CanHandle(c, s, s.pending[d.pick]) && d.delay > 0.0 && c.window > 0.0
    requires forall k :: 0 <= k < |s.pending| ==> EventOk(c, s, s.pending[k])
    requires FeedsOnce(s) && StartsAlone(s)
    requires forall at :: at in s.queues ==> at in h && StationOk(s, at, h[at])
    ensures StartsAlone(Turn(c, s, d))
  {
    hide Turn, News, StationOk, EventOk, FeedsOnce;
    var s' := Turn(c, s, d);
    TurnQueues(c, s, d);
    forall k | 0 <= k < |s'.pending|
      ensures StartAlone(s', s'.pending[k])
    {
      var i := Origin(c, s, d, k);
      if i < |s.pending| {
        assert StartAlone(s, s.pending[i]);
        if s.pending[i].ServiceStart? && s.pending[i].at in s.queues {
          OldStartAlone(c, s, d, h, i);
        }
      } else {
        NewStartAlone(c, s, d, h, s'.pending[k]);
      }
    }
  }

  lemma {:induction false} ArrivalsOnce(n: nat, i: nat)
    ensures EventSum(FromSource(i), Arrivals(n)) == Indicator(i < n)
    ensures forall j, t :: EventSum(Feeds(Server(j), t), Arrivals(n)) == 0.0
    ensures forall at :: EventSum(InService(at), Arrivals(n)) == 0.0
  {
    if n > 0 {
      ArrivalsOnce(n - 1, i);
      var e := SourceArrival(0.0, n - 1);
      EventSumAppend(FromSource(i), Arrivals(n - 1), [e]);
      EventSumOne(FromSource(i), e);
      forall j, t
        ensures EventSum(Feeds(Server(j), t), Arrivals(n)) == 0.0
      {
        EventSumAppend(Feeds(Server(j), t), Arrivals(n - 1), [e]);
        EventSumOne(Feeds(Server(j), t), e);
      }
      forall at
        ensures EventSum(InService(at), Arrivals(n)) == 0.0
      {
        EventSumAppend(InService(at), Arrivals(n - 1), [e]);
        EventSumOne(InService(at), e);
      }
    }
  }

  lemma InitialFresh(c: Config, keepRequests: bool)
    requires c.window > 0.0
    ensures FreshInvariant(Initial(c, keepRequests))
  {
    var s := Initial(c, keepRequests);
    ArrivalsOk(c.n);
    assert forall k :: 1 <= k < |s.pending| ==> s.pending[k] == Arrivals(c.n)[k - 1];
    InitialSums(c, s.pending);
    forall at, t
      ensures EventSum(Feeds(at, t), s.pending) <= 1.0
    {
      if at.Access? {
        FeedsOfSource(s.pending, at.source, at.broker, t);
      }
    }
  }

  lemma InitialSums(c: Config, evs: seq<Event>)
    requires evs == [ControllerTick(c.window)] + Arrivals(c.n)
    ensures forall i: nat :: EventSum(FromSource(i), evs) <= 1.0
    ensures forall j, t :: EventSum(Feeds(Server(j), t), evs) == 0.0
    ensures forall at :: EventSum(InService(at), evs) == 0.0
  {
    var tick := ControllerTick(c.window);
    forall i: nat
      ensures EventSum(FromSource(i), evs) <= 1.0
    {
      ArrivalsOnce(c.n, i);
      EventSumAppend(FromSource(i), [tick], Arrivals(c.n));
      EventSumOne(FromSource(i), tick);
    }
    forall j, t
      ensures EventSum(Feeds(Server(j), t), evs) == 0.0
    {
      ArrivalsOnce(c.n, 0);
      EventSumAppend(Feeds(Server(j), t), [tick], Arrivals(c.n));
      EventSumOne(Feeds(Server(j), t), tick);
    }
    forall at
      ensures EventSum(InService(at), evs) == 0.0
    {
      ArrivalsOnce(c.n, 0);
      EventSumAppend(InService(at), [tick], Arrivals(c.n));
      EventSumOne(InService(at), tick);
    }
  }

  /** While starts are alone, the request being handled overtakes none of them. */
  lemma FreshOvertakesNobody(c: Config, s: Sim, d: Choice)
    requires Allowed(c, s, d) && StartsAlone(s)
    requires forall k :: 0 <= k < |s.pending| ==> EventOk(c, s, s.pending[k])
    ensures !Overtakes(s, d)
  {
    if Overtakes(s, d) {
      var to := Destination(s.pending[d.pick], d).value;
      var k :| 0 <= k < |s.pending| && s.pending[k].ServiceStart? && s.pending[k].at == to;
      StartIsNow(c, s, d, k);
      assert StartAlone(s, s.pending[k]);
      SumPositive(Feeds(to, s.now), s.pending, d.pick);
    }
  }

  lemma {:induction false} SumPositive(w: Weight, evs: seq<Event>, k: nat)
    requires Proper(w) && k < |evs| && W(w, evs[k]) > 0.0
    ensures EventSum(w, evs) > 0.0
  {
    hide W;
    EventSumNonNeg(w, evs[1..]);
    WNonNeg(w, evs[0]);
    if k > 0 {
      SumPositive(w, evs[1..], k - 1);
    }
  }

  predicate AllFresh(ws: seq<Watched>, choices: seq<Choice>)
    requires |ws| == |choices| + 1
  {
    forall k :: 0 <= k < |choices| ==> choices[k].pick < |ws[k].sim.pending| && Fresh(ws[k].sim, choices[k])
  }

  /** Positive delays that never make two units reach a broker at one time keep a run orderly. */
  lemma FreshRunsAreOrderly(c: Config, keepRequests: bool, ws: seq<Watched>, choices: seq<Choice>)
    requires c.window > 0.0 && IsWatchedRun(c, keepRequests, ws, choices) && AllFresh(ws, choices)
    ensures Orderly(ws, choices)
  {
    FreshPrefix(c, keepRequests, ws, choices, |choices|);
  }

  lemma {:induction false} FreshPrefix(c: Config, keepRequests: bool, ws: seq<Watched>, choices: seq<Choice>, k: nat)
    requires c.window > 0.0 && IsWatchedRun(c, keepRequests, ws, choices) && AllFresh(ws, choices) && k < |ws|
    ensures SimOk(c, ws[k].sim) && FifoInvariant(c, ws[k]) && FreshInvariant(ws[k].sim)
    ensures forall i :: 0 <= i < k ==> !Overtakes(ws[i].sim, choices[i])
  {
    hide SimOk, FifoInvariant, FreshInvariant, Allowed, NextWatched, CanHandle, Overtakes, Fresh;
    if k == 0 {
      InitialFifo(c, keepRequests);
      InitialFresh(c, keepRequests);
      InitialInvariant(c, keepRequests);
      InvariantParts(c, StartWorld(c, keepRequests));
    } else {
      FreshPrefix(c, keepRequests, ws, choices, k - 1);
      var w, d := ws[k - 1], choices[k - 1];
      assert IsWatchedTurn(c, w, d, ws[k]);
      TurnKeepsSimOk(c, w.sim, d);
      FifoKeys(c, w);
      TurnKeepsFresh(c, w, d);
      TurnKeepsFifo(c, w, d);
      NextWatchedSim(c, w, d);
    }
  }

  lemma TurnKeepsFresh(c: Config, w: Watched, d: Choice)
    requires FifoInvariant(c, w) && FreshInvariant(w.sim) && c.window > 0.0
    requires Allowed(c, w.sim, d) && Fresh(w.sim, d) && CanHandle(c, w.sim, w.sim.pending[d.pick])
    ensures !Overtakes(w.sim, d) && FreshInvariant(Turn(c, w.sim, d))
  {
    hide Turn, StationOk, EventOk, Stationed, CanHandle, Overtakes, SourcesOnce, FeedsOnce, StartsAlone;
    FreshOvertakesNobody(c, w.sim, d);
    TurnSourcesOnce(c, w.sim, d);
    TurnFeedsOnce(c, w.sim, d);
    TurnStartsAlone(c, w.sim, d, w.history);
  }
}
