/** The recursion every first-in-first-out server follows, and its closed form. */
module Lindley {
  import opened Vectors
  import opened Simulation
  import opened Conservation
  import opened Fifo

  /** Completion of the k-th job of a server that is free from time 0. */
  function Finish(arrivals: Vec, services: Vec, k: nat): real
    requires k < |arrivals| && k < |services|
  {
    Max(arrivals[k], if k == 0 then 0.0 else Finish(arrivals, services, k - 1)) + services[k]
  }

  /** Serving i to k without a pause, from the arrival of i. */
  function Chain(arrivals: Vec, services: Vec, i: nat, k: nat): real
    requires i <= k < |arrivals| && k < |services|
  {
    arrivals[i] + Sum(services[i..k + 1])
  }

  lemma ChainStep(arrivals: Vec, services: Vec, i: nat, k: nat)
    requires i < k < |arrivals| && k < |services|
    ensures Chain(arrivals, services, i, k) == Chain(arrivals, services, i, k - 1) + services[k]
  {
    assert services[i..k + 1] == services[i..k] + [services[k]];
    SumAppend(services[i..k], [services[k]]);
    assert [services[k]][1..] == [];
  }

  lemma ChainStart(arrivals: Vec, services: Vec, k: nat)
    requires k < |arrivals| && k < |services|
    ensures Chain(arrivals, services, k, k) == arrivals[k] + services[k]
  {
    assert services[k..k + 1] == [services[k]];
    assert Sum([services[k]]) == services[k] + Sum([]);
  }

  /** The k-th completion is the largest of the chains ending in k. */
  lemma {:induction false} ClosedForm(arrivals: Vec, services: Vec, k: nat) returns (first: nat)
    requires k < |arrivals| && k < |services|
    requires forall i :: 0 <= i <= k ==> arrivals[i] >= 0.0
    ensures forall i :: 0 <= i <= k ==> Chain(arrivals, services, i, k) <= Finish(arrivals, services, k)
    ensures first <= k && Chain(arrivals, services, first, k) == Finish(arrivals, services, k)
  {
    hide Chain;
    ChainStart(arrivals, services, k);
    first := k;
    if k > 0 {
      var before := ClosedForm(arrivals, services, k - 1);
      forall i | 0 <= i < k
        ensures Chain(arrivals, services, i, k) == Chain(arrivals, services, i, k - 1) + services[k]
      {
        ChainStep(arrivals, services, i, k);
      }
      if arrivals[k] < Finish(arrivals, services, k - 1) {
        first := before;
      }
    }
  }

  /** Jobs leave in the order in which they came. */
  lemma {:induction false} FinishInOrder(arrivals: Vec, services: Vec, i: nat, k: nat)
    requires i <= k < |arrivals| && k < |services|
    requires forall j :: 0 <= j < |services| ==> services[j] >= 0.0
    ensures Finish(arrivals, services, i) <= Finish(arrivals, services, k)
  {
    if i < k {
      FinishInOrder(arrivals, services, i, k - 1);
    }
  }

  /** Later jobs do not change earlier completions. */
  lemma {:induction false} FinishPrefix(a: Vec, s: Vec, a': Vec, s': Vec, k: nat)
    requires k < |a| && k < |s| && a <= a' && s <= s'
    ensures Finish(a', s', k) == Finish(a, s, k)
  {
    if k > 0 {
      FinishPrefix(a, s, a', s', k - 1);
    }
  }

  // ---------------------------------------------------------------- the event simulation follows it

  function TimesOf(v: seq<Visit>): (t: Vec)
    ensures |t| == |v|
    ensures forall k :: 0 <= k < |v| ==> t[k] == v[k].time
  {
    seq(|v|, k requires 0 <= k < |v| => v[k].time)
  }

  lemma {:induction false} DoneIsFinish(log: Log, k: nat)
    requires DoneInOrder(log) && k < |log.done|
    ensures log.done[k].time == Finish(TimesOf(log.arrivals), log.services, k)
    ensures log.done[k].unit == log.arrivals[k].unit
  {
    assert DoneAt(log, k);
    if k > 0 {
      DoneIsFinish(log, k - 1);
    }
  }

  /**
   In every run in which no request overtakes a pending start, the k-th completion at every
   station, access link or broker, is the k-th arrival's, at the time the virtual clock gives.
   */
  lemma SimulationFollowsClock(c: Config, keepRequests: bool, ws: seq<Watched>, choices: seq<Choice>, n: nat,
                               at: Station, k: nat)
    requires c.window > 0.0 && IsWatchedRun(c, keepRequests, ws, choices) && Orderly(ws, choices) && n < |ws|
    requires at in ws[n].sim.queues && at in ws[n].history && k < |ws[n].history[at].done|
    ensures var log := ws[n].history[at];
      && k < |log.arrivals| && k < |log.services|
      && log.done[k].unit == log.arrivals[k].unit
      && log.done[k].time == Finish(TimesOf(log.arrivals), log.services, k)
  {
    hide IsWatchedRun, SimOk;
    RunFifo(c, keepRequests, ws, choices, n);
    assert StationOk(ws[n].sim, at, ws[n].history[at]);
    DoneIsFinish(ws[n].history[at], k);
  }
}
