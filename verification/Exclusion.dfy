/** Exactly when a run of the simulation keeps at most one request in service at every station. */
module Exclusion {
  import opened Vectors
  import opened Simulation
  import opened Ledger
  import opened Conservation
  import opened Fifo

  /** At no station are two starts or completions pending. */
  ghost predicate Exclusive(s: Sim) {
    forall at :: at in s.queues ==> Engaged(s, at) <= 1.0
  }

  /** A station whose completion is pending is marked busy. */
  ghost predicate MarkedBusy(s: Sim) {
    forall k :: 0 <= k < |s.pending| && s.pending[k].ServiceComplete? ==>
      s.pending[k].at in s.queues && s.queues[s.pending[k].at].busy
  }

  /** One station: a request brought to it adds a start iff it is not busy, any other event trades one for one or less. */
  lemma EngagedAfter(c: Config, s: Sim, d: Choice, at: Station)
    requires Allowed(c, s, d) && CanHandle(c, s, s.pending[d.pick]) && at in s.queues
    ensures var s' := Turn(c, s, d);
      if Destination(s.pending[d.pick], d) == Some(at) && !s.queues[at].busy then
        Engaged(s', at) == Engaged(s, at) + 1.0
      else
        Engaged(s', at) <= Engaged(s, at)
  {
    hide Turn, News;
    TurnSum(c, InService(at), s, d);
    NewsSum(c, InService(at), s, s.pending[d.pick], d);
  }

  /** From a state with at most one in service everywhere, a turn keeps that exactly when it overtakes nobody. */
  lemma TurnExclusive(c: Config, s: Sim, d: Choice)
    requires Allowed(c, s, d) && CanHandle(c, s, s.pending[d.pick]) && Exclusive(s) && MarkedBusy(s)
    ensures Exclusive(Turn(c, s, d)) <==> !Overtakes(s, d)
  {
    hide Turn, CanHandle, Engaged;
    var e, s' := s.pending[d.pick], Turn(c, s, d);
    TurnQueues(c, s, d);
    forall at | at in s.queues
      ensures Engaged(s', at) <= 1.0 <==> !(Overtakes(s, d) && Destination(e, d) == Some(at))
    {
      EngagedAfter(c, s, d, at);
      if Destination(e, d) == Some(at) && !s.queues[at].busy {
        NotBusy(s, at);
      }
    }
  }

  /** At a station that is not marked busy only starts can be pending. */
  lemma NotBusy(s: Sim, at: Station)
    requires at in s.queues && MarkedBusy(s) && !s.queues[at].busy
    ensures StartPending(s, at) ==> Engaged(s, at) >= 1.0
    ensures !StartPending(s, at) ==> Engaged(s, at) == 0.0
  {
    if StartPending(s, at) {
      var k :| 0 <= k < |s.pending| && s.pending[k].ServiceStart? && s.pending[k].at == at;
      OneInService(s, at, k);
    } else {
      forall k | 0 <= k < |s.pending| ensures !Serves(s.pending[k], at) {
      }
      SumZero(InService(at), s.pending);
    }
  }

  lemma TurnMarkedBusy(c: Config, s: Sim, d: Choice)
    requires Allowed(c, s, d) && CanHandle(c, s, s.pending[d.pick]) && Exclusive(s) && MarkedBusy(s)
    ensures MarkedBusy(Turn(c, s, d))
  {
    hide Turn, News, CanHandle, Engaged;
    var e, s' := s.pending[d.pick], Turn(c, s, d);
    TurnQueues(c, s, d);
    forall k | 0 <= k < |s'.pending| && s'.pending[k].ServiceComplete?
      ensures s'.pending[k].at in s'.queues && s'.queues[s'.pending[k].at].busy
    {
      var i := Origin(c, s, d, k);
      if i < |s.pending| {
        if e.ServiceComplete? && e.at == s.pending[i].at {
          TwoInService(s, e.at, i, d.pick);
        }
      } else {
        NewCompletion(c, s, d, s'.pending[k]);
      }
    }
  }

  /** Only handling a start schedules a completion. */
  lemma NewCompletion(c: Config, s: Sim, d: Choice, o: Event)
    requires Allowed(c, s, d) && CanHandle(c, s, s.pending[d.pick])
    requires o in News(c, s, s.pending[d.pick], d) && o.ServiceComplete?
    ensures s.pending[d.pick].ServiceStart? && o.at == s.pending[d.pick].at
  {
  }

  lemma InitiallyExclusive(c: Config, keepRequests: bool)
    ensures Exclusive(Initial(c, keepRequests)) && MarkedBusy(Initial(c, keepRequests))
  {
    var s := Initial(c, keepRequests);
    ArrivalsOk(c.n);
    assert forall k :: 1 <= k < |s.pending| ==> s.pending[k] == Arrivals(c.n)[k - 1];
    forall at | at in s.queues
      ensures Engaged(s, at) == 0.0
    {
      SumZero(InService(at), s.pending);
    }
  }

  ghost predicate ExclusiveUpTo(worlds: seq<World>, n: nat)
    requires n < |worlds|
  {
    forall k :: 0 <= k <= n ==> Exclusive(worlds[k].sim)
  }

  /** No choice among the first n overtakes a pending start. */
  predicate OrderlyUpTo(worlds: seq<World>, choices: seq<Choice>, n: nat)
    requires |worlds| == |choices| + 1 && n <= |choices|
  {
    forall k :: 0 <= k < n ==> choices[k].pick < |worlds[k].sim.pending| && !Overtakes(worlds[k].sim, choices[k])
  }

  /**
   A run keeps at most one request in service at every station up to its n-th state exactly when
   none of its first n choices lets a request overtake a pending start.
   */
  lemma {:induction false} ExclusiveIffOrderly(c: Config, keepRequests: bool, worlds: seq<World>,
                                               choices: seq<Choice>, n: nat)
    requires c.window > 0.0 && IsRun(c, keepRequests, worlds, choices) && n < |worlds|
    ensures ExclusiveUpTo(worlds, n) <==> OrderlyUpTo(worlds, choices, n)
    ensures ExclusiveUpTo(worlds, n) ==> MarkedBusy(worlds[n].sim)
  {
    hide Exclusive, MarkedBusy, Overtakes, Allowed, CanHandle, Turn, Invariant, InsideCount;
    if n == 0 {
      InitiallyExclusive(c, keepRequests);
    } else {
      var w, d := worlds[n - 1], choices[n - 1];
      ExclusiveIffOrderly(c, keepRequests, worlds, choices, n - 1);
      assert IsTurn(c, w, d, worlds[n]);
      assert d.pick < |w.sim.pending| by {
        PickExists(c, w.sim, d);
      }
      assert ExclusiveUpTo(worlds, n) <==> ExclusiveUpTo(worlds, n - 1) && Exclusive(worlds[n].sim);
      assert OrderlyUpTo(worlds, choices, n) <==> OrderlyUpTo(worlds, choices, n - 1) && !Overtakes(w.sim, d);
      if ExclusiveUpTo(worlds, n - 1) {
        assert Exclusive(w.sim);
        RunInvariant(c, keepRequests, worlds, choices, n - 1);
        TurnKeepsInvariant(c, w, d);
        TurnExclusive(c, w.sim, d);
        TurnMarkedBusy(c, w.sim, d);
      }
    }
  }

  lemma PickExists(c: Config, s: Sim, d: Choice)
    requires Allowed(c, s, d)
    ensures d.pick < |s.pending|
  {
  }

  /** Watching a run changes nothing about it. */
  lemma {:induction false} WatchedIsRun(c: Config, keepRequests: bool, ws: seq<Watched>, choices: seq<Choice>, n: nat)
    returns (worlds: seq<World>)
    requires c.window > 0.0 && IsWatchedRun(c, keepRequests, ws, choices) && n < |ws|
    ensures IsRun(c, keepRequests, worlds, choices[..n])
    ensures forall k :: 0 <= k <= n ==> worlds[k].sim == ws[k].sim && ws[k].history.Keys == ws[k].sim.queues.Keys
  {
    hide Invariant, Turn, InsideCount, Allowed, CanHandle, NextWatched;
    if n == 0 {
      worlds := [StartWorld(c, keepRequests)];
      assert ws[0].history.Keys == ws[0].sim.queues.Keys;
    } else {
      var w, d := ws[n - 1], choices[n - 1];
      var before := WatchedIsRun(c, keepRequests, ws, choices, n - 1);
      assert IsWatchedTurn(c, w, d, ws[n]);
      RunInvariant(c, keepRequests, before, choices[..n - 1], n - 1);
      TurnKeepsInvariant(c, before[n - 1], d);
      NextWatchedSim(c, w, d);
      HistoryKeys(c, w, d);
      worlds := before + [NextWorld(c, before[n - 1], d)];
      assert choices[..n][..n - 1] == choices[..n - 1];
      forall k | 0 <= k < n
        ensures IsTurn(c, worlds[k], choices[..n][k], worlds[k + 1])
      {
        if k < n - 1 {
          assert IsTurn(c, before[k], choices[..n - 1][k], before[k + 1]);
        }
      }
    }
  }

  lemma HistoryKeys(c: Config, w: Watched, d: Choice)
    requires Allowed(c, w.sim, d) && CanHandle(c, w.sim, w.sim.pending[d.pick])
    requires w.history.Keys == w.sim.queues.Keys
    ensures NextWatched(c, w, d).history.Keys == NextWatched(c, w, d).sim.queues.Keys
  {
    hide Turn;
    TurnQueues(c, w.sim, d);
  }

  ghost predicate FifoThroughout(c: Config, ws: seq<Watched>) {
    forall k :: 0 <= k < |ws| ==> FifoInvariant(c, ws[k])
  }

  /** A run serves one at a time, first come first served, in all its states exactly when it is orderly. */
  lemma FifoIffOrderly(c: Config, keepRequests: bool, ws: seq<Watched>, choices: seq<Choice>)
    requires c.window > 0.0 && IsWatchedRun(c, keepRequests, ws, choices)
    ensures FifoThroughout(c, ws) <==> Orderly(ws, choices)
  {
    hide FifoInvariant, Overtakes, IsWatchedTurn, Exclusive, MarkedBusy, IsTurn;
    var n := |choices|;
    var worlds := WatchedIsRun(c, keepRequests, ws, choices, n);
    assert choices[..n] == choices;
    ExclusiveIffOrderly(c, keepRequests, worlds, choices, n);
    if Orderly(ws, choices) {
      forall k | 0 <= k < |ws| ensures FifoInvariant(c, ws[k]) {
        RunFifo(c, keepRequests, ws, choices, k);
      }
    }
    if FifoThroughout(c, ws) {
      forall k | 0 <= k <= n ensures Exclusive(worlds[k].sim) {
        FifoIsExclusive(c, ws[k]);
      }
      assert ExclusiveUpTo(worlds, n);
    }
  }

  lemma FifoIsExclusive(c: Config, w: Watched)
    requires FifoInvariant(c, w)
    ensures Exclusive(w.sim)
  {
    forall at | at in w.sim.queues ensures Engaged(w.sim, at) <= 1.0 {
      EngagedAtMostOne(w.sim, at, w.history[at]);
    }
  }
}
