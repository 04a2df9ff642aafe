/** The request table against what happened: every record, stamp and latency is that of the events handled. */
module Records {
  import opened Vectors
  import opened Simulation
  import opened Conservation
  import opened Fifo
  import opened Generators

  /** What the handled events tell: who arrived when, in order, and when each unit left its link and its broker. */
  datatype Story = Story(born: seq<(real, nat)>, linked: map<nat, real>, done: map<nat, real>)

  function Tell(story: Story, e: Event): Story {
    match e
    case SourceArrival(t, i) => story.(born := story.born + [(t, i)])
    case ServiceComplete(t, Access(_, _), unit) => story.(linked := story.linked[unit := t])
    case ServiceComplete(t, Server(_), unit) => story.(done := story.done[unit := t])
    case _ => story
  }

  function StoryOf(events: seq<Event>): Story {
    if |events| == 0 then Story([], map[], map[])
    else Tell(StoryOf(events[..|events| - 1]), events[|events| - 1])
  }

  function Stamp(times: map<nat, real>, id: nat): Option<real> {
    if id in times then Some(times[id]) else None
  }

  /** The latencies of the completed units among the first k. */
  function Latencies(story: Story, k: nat): real
    requires k <= |story.born|
  {
    if k == 0 then 0.0
    else Latencies(story, k - 1) + if k - 1 in story.done then story.done[k - 1] - story.born[k - 1].0 else 0.0
  }

  /** The same, read off a request table. */
  function RecordedLatencies(units: map<nat, Unit>, k: nat): real {
    if k == 0 then 0.0
    else RecordedLatencies(units, k - 1)
         + if k - 1 in units && units[k - 1].brokerComplete.Some? then units[k - 1].brokerComplete.value - units[k - 1].arrival
           else 0.0
  }

  /** One id: it is in the table once it arrived, until its completion unless requests are kept, with what happened to it. */
  predicate RecordOk(units: map<nat, Unit>, keep: bool, story: Story, id: nat) {
    && (id in story.linked || id in story.done ==> id < |story.born|)
    && (id in units <==> id < |story.born| && (keep || id !in story.done))
    && (id in units ==>
          units[id] == Unit(story.born[id].0, story.born[id].1, Stamp(story.linked, id), Stamp(story.done, id)))
  }

  ghost predicate TableOk(units: map<nat, Unit>, keep: bool, story: Story) {
    forall id: nat :: RecordOk(units, keep, story, id)
  }

  /** The table is the story's, and the totals are those of the completions. */
  ghost predicate Recorded(s: Sim, story: Story) {
    && |story.born| == s.counter
    && TableOk(s.units, s.keepRequests, story)
    && s.completed == |story.done|
    && s.latencySum == Latencies(story, s.counter)
  }

  lemma {:induction false} LatenciesSame(a: Story, b: Story, k: nat)
    requires k <= |a.born| <= |b.born| && a.born == b.born[..|a.born|]
    requires forall id: nat :: id < k ==> (id in a.done <==> id in b.done)
    requires forall id: nat :: id < k && id in a.done ==> a.done[id] == b.done[id]
    ensures Latencies(a, k) == Latencies(b, k)
  {
    if k > 0 {
      LatenciesSame(a, b, k - 1);
      assert a.born[k - 1] == b.born[k - 1];
    }
  }

  lemma {:induction false} LatenciesDone(a: Story, unit: nat, t: real, k: nat)
    requires unit < k <= |a.born| && unit !in a.done
    ensures Latencies(a.(done := a.done[unit := t]), k) == Latencies(a, k) + (t - a.born[unit].0)
  {
    var b := a.(done := a.done[unit := t]);
    if k - 1 == unit {
      LatenciesSame(a, b, k - 1);
    } else {
      LatenciesDone(a, unit, t, k - 1);
    }
  }

  /** Stations come and go without touching the table. */
  lemma StationsLeaveRecords(s: Sim, at: Station, unit: nat)
    requires at in s.queues
    ensures SameTable(s, Enter(s, at, unit)) && SameTable(s, Release(s, at))
  {
  }

  /** Being recorded is about the table and the totals only. */
  predicate SameTable(s: Sim, s': Sim) {
    && s'.units == s.units && s'.counter == s.counter && s'.completed == s.completed
    && s'.latencySum == s.latencySum && s'.keepRequests == s.keepRequests
  }

  lemma SameTableRecorded(s: Sim, s': Sim, story: Story)
    requires Recorded(s, story) && SameTable(s, s')
    ensures Recorded(s', story)
  {
  }

  lemma BornTable(units: map<nat, Unit>, keep: bool, story: Story, t: real, i: nat)
    requires TableOk(units, keep, story)
    ensures TableOk(units[|story.born| := Unit(t, i, None, None)], keep, story.(born := story.born + [(t, i)]))
  {
    var unit := |story.born|;
    assert RecordOk(units, keep, story, unit);
    var units', story' := units[unit := Unit(t, i, None, None)], story.(born := story.born + [(t, i)]);
    forall id: nat ensures RecordOk(units', keep, story', id) {
      assert RecordOk(units, keep, story, id);
    }
  }

  lemma Born(s: Sim, story: Story, i: nat)
    requires Recorded(s, story)
    ensures Recorded(s.(units := s.units[s.counter := Unit(s.now, i, None, None)], counter := s.counter + 1),
                     Tell(story, SourceArrival(s.now, i)))
  {
    hide TableOk;
    BornTable(s.units, s.keepRequests, story, s.now, i);
    LatenciesSame(story, Tell(story, SourceArrival(s.now, i)), s.counter);
    NotYetDone(s.units, s.keepRequests, story);
  }

  lemma NotYetDone(units: map<nat, Unit>, keep: bool, story: Story)
    requires TableOk(units, keep, story)
    ensures |story.born| !in story.done
  {
    assert RecordOk(units, keep, story, |story.born|);
  }

  lemma ArrivalRecorded(s: Sim, story: Story, i: nat, delay: real, j: nat)
    requires Recorded(s, story) && Access(i, j) in s.queues
    ensures Recorded(HandleSourceArrival(s, i, delay, j), Tell(story, SourceArrival(s.now, i)))
  {
    hide Enter, Recorded, Tell;
    var s1 := s.(pending := s.pending + [SourceArrival(s.now + delay, i)],
                 units := s.units[s.counter := Unit(s.now, i, None, None)],
                 counter := s.counter + 1);
    Born(s, story, i);
    StationsLeaveRecords(s1, Access(i, j), s.counter);
    SameTableRecorded(s.(units := s1.units, counter := s1.counter), HandleSourceArrival(s, i, delay, j),
                      Tell(story, SourceArrival(s.now, i)));
  }

  lemma LinkTable(units: map<nat, Unit>, keep: bool, story: Story, unit: nat, t: real)
    requires TableOk(units, keep, story) && Inside(units, unit)
    ensures TableOk(units[unit := units[unit].(accessComplete := Some(t))], keep,
                    story.(linked := story.linked[unit := t]))
  {
    var units', story' := units[unit := units[unit].(accessComplete := Some(t))], story.(linked := story.linked[unit := t]);
    forall id: nat ensures RecordOk(units', keep, story', id) {
      assert RecordOk(units, keep, story, id);
    }
  }

  lemma LinkRecorded(s: Sim, story: Story, at: Station, unit: nat)
    requires Recorded(s, story) && at in s.queues && at.Access? && Inside(s.units, unit)
    ensures Recorded(HandleAccessComplete(s, at, unit), Tell(story, ServiceComplete(s.now, at, unit)))
  {
    hide Release, TableOk;
    var s0 := s.(units := s.units[unit := s.units[unit].(accessComplete := Some(s.now))]);
    LinkTable(s.units, s.keepRequests, story, unit, s.now);
    LatenciesSame(story, Tell(story, ServiceComplete(s.now, at, unit)), s.counter);
    StationsLeaveRecords(s0, at, unit);
    SameTableRecorded(s0, HandleAccessComplete(s, at, unit), Tell(story, ServiceComplete(s.now, at, unit)));
  }

  /** What a completion leaves of the table. */
  function AfterDone(units: map<nat, Unit>, keep: bool, unit: nat, t: real): map<nat, Unit>
    requires unit in units
  {
    if keep then units[unit := units[unit].(brokerComplete := Some(t))] else units - {unit}
  }

  lemma DoneTable(units: map<nat, Unit>, keep: bool, story: Story, unit: nat, t: real)
    requires TableOk(units, keep, story) && Inside(units, unit)
    ensures TableOk(AfterDone(units, keep, unit, t), keep, story.(done := story.done[unit := t]))
    ensures unit < |story.born| && unit !in story.done && units[unit].arrival == story.born[unit].0
  {
    assert RecordOk(units, keep, story, unit);
    var units', story' := AfterDone(units, keep, unit, t), story.(done := story.done[unit := t]);
    forall id: nat ensures RecordOk(units', keep, story', id) {
      assert RecordOk(units, keep, story, id);
    }
  }

  lemma DoneRecorded(s: Sim, story: Story, unit: nat)
    requires Recorded(s, story) && Inside(s.units, unit)
    ensures Recorded(s.(units := AfterDone(s.units, s.keepRequests, unit, s.now), completed := s.completed + 1,
                        latencySum := s.latencySum + (s.now - s.units[unit].arrival)),
                     story.(done := story.done[unit := s.now]))
  {
    hide Latencies, TableOk, AfterDone;
    DoneTable(s.units, s.keepRequests, story, unit, s.now);
    LatenciesDone(story, unit, s.now, s.counter);
  }

  lemma BrokerRecorded(s: Sim, story: Story, at: Station, unit: nat)
    requires Recorded(s, story) && at in s.queues && at.Server? && Inside(s.units, unit)
    ensures Recorded(HandleBrokerComplete(s, at, unit), Tell(story, ServiceComplete(s.now, at, unit)))
  {
    hide HandleBrokerComplete, Recorded, AfterDone;
    DoneRecorded(s, story, unit);
    BrokerTable(s, at, unit);
    var s0 := s.(units := AfterDone(s.units, s.keepRequests, unit, s.now), completed := s.completed + 1,
                 latencySum := s.latencySum + (s.now - s.units[unit].arrival));
    SameTableRecorded(s0, HandleBrokerComplete(s, at, unit), story.(done := story.done[unit := s.now]));
  }

  lemma BrokerTable(s: Sim, at: Station, unit: nat)
    requires at in s.queues && unit in s.units
    ensures SameTable(s.(units := AfterDone(s.units, s.keepRequests, unit, s.now), completed := s.completed + 1,
                         latencySum := s.latencySum + (s.now - s.units[unit].arrival)),
                      HandleBrokerComplete(s, at, unit))
  {
    hide Release;
    StationsLeaveRecords(s.(units := AfterDone(s.units, s.keepRequests, unit, s.now), completed := s.completed + 1,
                            latencySum := s.latencySum + (s.now - s.units[unit].arrival)), at, unit);
  }

  /** One turn of the loop keeps the table true to the story. */
  lemma TurnRecorded(c: Config, s: Sim, story: Story, d: Choice)
    requires SimOk(c, s) && Allowed(c, s, d) && Recorded(s, story)
    ensures CanHandle(c, s, s.pending[d.pick])
    ensures Recorded(Turn(c, s, d), Tell(story, s.pending[d.pick]))
    ensures Turn(c, s, d).keepRequests == s.keepRequests
  {
    NeverStuck(c, s, d.pick);
    HandleRecorded(c, Popped(s, d.pick), story, s.pending[d.pick], d);
  }

  lemma HandleRecorded(c: Config, s: Sim, story: Story, e: Event, d: Choice)
    requires CanHandle(c, s, e) && d.broker < c.m && Recorded(s, story) && e.time == s.now
    requires e.ServiceComplete? ==> Inside(s.units, e.unit)
    ensures Recorded(Handle(c, s, e, d), Tell(story, e))
    ensures Handle(c, s, e, d).keepRequests == s.keepRequests
  {
    hide Recorded;
    match e
    case SourceArrival(_, i) =>
      ArrivalRecorded(s, story, i, d.delay, d.broker);
    case ServiceComplete(_, at, unit) =>
      if at.Access? {
        LinkRecorded(s, story, at, unit);
      } else {
        BrokerRecorded(s, story, at, unit);
      }
    case BrokerArrival(_, j, unit) =>
      StationsLeaveRecords(s, Server(j), unit);
      SameTableRecorded(s, Handle(c, s, e, d), story);
    case _ =>
      SameTableRecorded(s, Handle(c, s, e, d), story);
  }

  /**
   Along every run, ties included, the request table and the totals are those of the events handled:
   every record carries its arrival event's time and source and the times at which its link and broker
   completions were handled.
   */
  lemma {:induction false} RunRecorded(c: Config, keepRequests: bool, worlds: seq<World>, choices: seq<Choice>, k: nat)
    requires c.window > 0.0 && IsRun(c, keepRequests, worlds, choices) && k < |worlds|
    ensures k <= |choices| && forall a :: 0 <= a < |choices| ==> choices[a].pick < |worlds[a].sim.pending|
    ensures Recorded(worlds[k].sim, StoryOf(Handled(worlds, choices, k))) && worlds[k].sim.keepRequests == keepRequests
  {
    hide Invariant, Allowed, CanHandle, Turn, Recorded, SimOk, Tell;
    RunPicks(c, keepRequests, worlds, choices);
    if k == 0 {
      NothingYet(c, keepRequests);
    } else {
      RunRecorded(c, keepRequests, worlds, choices, k - 1);
      RunInvariant(c, keepRequests, worlds, choices, k - 1);
      InvariantParts(c, worlds[k - 1]);
      assert IsTurn(c, worlds[k - 1], choices[k - 1], worlds[k]);
      var events := Handled(worlds, choices, k);
      assert events[..k - 1] == Handled(worlds, choices, k - 1);
      TurnRecorded(c, worlds[k - 1].sim, StoryOf(events[..k - 1]), choices[k - 1]);
    }
  }

  lemma NothingYet(c: Config, keepRequests: bool)
    ensures Recorded(Initial(c, keepRequests), StoryOf([]))
  {
  }

  lemma {:induction false} TableLatencies(s: Sim, story: Story, k: nat)
    requires Recorded(s, story) && s.keepRequests && k <= s.counter
    ensures RecordedLatencies(s.units, k) == Latencies(story, k)
  {
    if k > 0 {
      TableLatencies(s, story, k - 1);
      assert RecordOk(s.units, true, story, k - 1);
    }
  }

  /** With requests kept the latency sum can be read off the table; otherwise no completed record is left. */
  lemma LatencyFromTable(c: Config, keepRequests: bool, worlds: seq<World>, choices: seq<Choice>, k: nat)
    requires c.window > 0.0 && IsRun(c, keepRequests, worlds, choices) && k < |worlds|
    ensures var s := worlds[k].sim;
      if keepRequests then s.latencySum == RecordedLatencies(s.units, s.counter)
      else forall id | id in s.units :: s.units[id].brokerComplete.None?
  {
    RunRecorded(c, keepRequests, worlds, choices, k);
    var s, story := worlds[k].sim, StoryOf(Handled(worlds, choices, k));
    if keepRequests {
      TableLatencies(s, story, s.counter);
    } else {
      forall id | id in s.units ensures s.units[id].brokerComplete.None? {
        assert RecordOk(s.units, false, story, id);
      }
    }
  }
}
