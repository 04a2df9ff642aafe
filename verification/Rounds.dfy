/** Which rounds are applied and whom they hold: what a round makes of its calls, and rounds that meet no failure. */
module Rounds {
  import opened Vectors
  import opened Prices
  import opened BestResponse
  import opened Synchronous
  import opened Protocol
  import opened Distributed
  import opened DistributedRuns
  import opened Barrier

  // ---------------------------------------------------------------- what the calls came to

  /** Call k returned this price. */
  predicate ReturnsPrice(w: World, k: nat, price: real) {
    k < |w.calls| && w.calls[k] == Done(Some(PriceReply(price)))
  }

  /** Call k returned this row. */
  predicate ReturnsRow(w: World, k: nat, row: Vec) {
    k < |w.calls| && w.calls[k] == Done(Some(RowReply(row)))
  }

  ghost predicate Unpriced(w: World, j: nat) {
    forall price :: !ReturnsPrice(w, j, price)
  }

  ghost predicate Rowless(w: World, i: nat) {
    forall row :: !ReturnsRow(w, i, row)
  }

  /** A pricing phase is over: the round is skipped iff some broker returned no price, and else the sources are asked. */
  lemma PricingEnds(e: Setup, w: World)
    requires e.Valid() && WorldOk(e, w) && Enabled(e, w, Conclude) && w.phase.Pricing?
    ensures var w' := Next(e, w, Conclude);
      if exists j: nat :: j < e.t.M() && Unpriced(w, j) then
        w' == w.(phase := Idle, calls := [], messages := [], skipped := w.skipped + 1)
      else
        && w'.phase.Responding? && |w'.phase.newPrices| == e.t.M()
        && (forall j: nat :: j < e.t.M() ==> ReturnsPrice(w, j, w'.phase.newPrices[j]))
        && |w'.calls| == |w'.messages| == e.t.N()
        && (forall i :: 0 <= i < e.t.N() ==> w'.calls[i] == NotStarted && w'.messages[i] == ResponseRequest(w'.phase.newPrices))
        && w' == w.(phase := w'.phase, calls := w'.calls, messages := w'.messages)
  {
    hide NetworkOk, CallsOk, PlanOk, PriceRequests, CommonStep;
    forall j: nat | j < e.t.M()
      ensures Priced(w.calls[j]) <==> !Unpriced(w, j)
    {
      if Priced(w.calls[j]) {
        assert ReturnsPrice(w, j, w.calls[j].outcome.value.price);
      }
    }
  }

  /** A responding phase is over: the round is applied, holding exactly the sources that returned no row. */
  lemma RespondingEnds(e: Setup, w: World) returns (held: set<nat>)
    requires e.Valid() && WorldOk(e, w) && Enabled(e, w, Conclude) && w.phase.Responding?
    ensures forall i: nat :: i in held <==> i < e.t.N() && Rowless(w, i)
    ensures var w' := Next(e, w, Conclude);
      && w'.applied == w.applied + [held]
      && w'.plan == IterationStep(e.sqrt, w.plan, e.t, e.p, held).plan
      && w' == w.(phase := Idle, calls := [], messages := [], plan := w'.plan, applied := w'.applied)
  {
    hide NetworkOk, CallsOk, PlanOk, PriceRequests, CommonStep, IterationStep, NewPrices;
    held := Held(w.calls);
    StepRefines(e, w, Conclude);
    forall i: nat | i < e.t.N()
      ensures Responded(w.calls[i]) <==> !Rowless(w, i)
    {
      if Responded(w.calls[i]) {
        assert ReturnsRow(w, i, w.calls[i].outcome.value.row);
      }
    }
  }

  // ---------------------------------------------------------------- rounds that meet no failure

  /** A connection closes, a registration goes, a timer runs out or a write fails. */
  predicate Failing(s: Action) {
    s.Lose? || s.Forget? || s.Expire? || s.Break?
  }

  predicate Up(w: World, peer: Peer) {
    && peer in w.channels && w.channels[peer] < |w.conns|
    && !w.conns[w.channels[peer]].line.closed
  }

  ghost predicate AllUp(e: Setup, w: World) {
    && (forall j: nat :: j < e.t.M() ==> Up(w, Broker(j)))
    && (forall i: nat :: i < e.t.N() ==> Up(w, Source(i)))
  }

  /** A call that is under way can still be answered, and one that is over was. */
  predicate Alive(w: World, c: Call) {
    match c
    case NotStarted => true
    case Active(conn, req) =>
      && w.Awaits(conn, req)
      && var line := w.conns[conn].line;
         line.futures[req].Replied? || (line.futures[req].Waiting? && req in line.pending && !line.closed)
    case Done(outcome) => outcome.Some?
  }

  ghost predicate AllAlive(w: World) {
    forall k :: 0 <= k < |w.calls| ==> Alive(w, w.calls[k])
  }

  lemma CalleeUp(e: Setup, w: World, k: nat)
    requires e.Valid() && WorldOk(e, w) && AllUp(e, w) && k < |w.calls| && !w.phase.Idle?
    ensures Up(w, Callee(w.phase, k))
  {
    hide NetworkOk, CallsOk, Up, NewPrices, PriceRequests;
  }

  lemma StaysUp(e: Setup, w: World, s: Action)
    requires e.Valid() && WorldOk(e, w) && Enabled(e, w, s) && AllUp(e, w) && !Failing(s)
    ensures AllUp(e, Next(e, w, s))
  {
    hide WorldOk, Answer, CommonStep;
    if s.Conclude? {
      hide Conclusion;
      ConclusionLeavesUp(e, w);
    } else {
      forall peer | Up(w, peer) ensures Up(Next(e, w, s), peer) {
      }
    }
  }

  lemma ConclusionLeavesUp(e: Setup, w: World)
    requires e.Valid() && RoundFits(e, w) && !w.phase.Idle? && e.t.M() > 0
    ensures Conclusion(e, w).channels == w.channels && Conclusion(e, w).conns == w.conns
  {
    hide CommonStep;
  }

  lemma AskStaysAlive(e: Setup, w: World, k: nat)
    requires e.Valid() && WorldOk(e, w) && Enabled(e, w, Ask(k)) && AllAlive(w) && Up(w, Callee(w.phase, k))
    ensures AllAlive(Next(e, w, Ask(k)))
  {
    hide PlanOk, RoundOk, Answer;
    var w' := Next(e, w, Ask(k));
    forall d | 0 <= d < |w'.calls| ensures Alive(w', w'.calls[d]) {
      if d != k {
        assert Alive(w, w.calls[d]) && CallOk(e, w, d);
      }
    }
  }

  lemma SettleStaysAlive(e: Setup, w: World, k: nat)
    requires e.Valid() && WorldOk(e, w) && Enabled(e, w, Settle(k)) && AllAlive(w)
    ensures AllAlive(Next(e, w, Settle(k)))
  {
    hide PlanOk, RoundOk, Answer, NetworkOk;
    var w' := Next(e, w, Settle(k));
    assert Alive(w, w.calls[k]) && CallOk(e, w, k);
    forall d | 0 <= d < |w'.calls| ensures Alive(w', w'.calls[d]) {
      if d != k {
        assert Alive(w, w.calls[d]) && CallOk(e, w, d);
      }
    }
  }

  lemma DeliverStaysAlive(e: Setup, w: World, c: nat, m: Message<Reply>)
    requires e.Valid() && WorldOk(e, w) && Enabled(e, w, Deliver(c, m)) && AllAlive(w)
    ensures AllAlive(Next(e, w, Deliver(c, m)))
  {
    hide WorldOk, Answer;
    var w' := Next(e, w, Deliver(c, m));
    forall d | 0 <= d < |w'.calls| ensures Alive(w', w'.calls[d]) {
      assert Alive(w, w.calls[d]);
    }
  }

  lemma OtherStaysAlive(e: Setup, w: World, s: Action)
    requires e.Valid() && WorldOk(e, w) && Enabled(e, w, s) && AllAlive(w)
    requires s.Join? || s.Serve? || s.Begin? || s.Conclude?
    ensures AllAlive(Next(e, w, s))
  {
    hide WorldOk, Answer, CommonStep;
    var w' := Next(e, w, s);
    if s.Conclude? {
      ConclusionCalls(e, w);
    } else {
      forall d | 0 <= d < |w'.calls| ensures Alive(w', w'.calls[d]) {
        if !s.Begin? {
          assert Alive(w, w.calls[d]);
        }
      }
    }
  }

  lemma StaysAlive(e: Setup, w: World, s: Action)
    requires e.Valid() && WorldOk(e, w) && Enabled(e, w, s) && AllUp(e, w) && AllAlive(w) && !Failing(s)
    ensures AllAlive(Next(e, w, s))
  {
    hide WorldOk, Next, AllUp, AllAlive, Up;
    match s {
      case Ask(k) => {
        AskedInRound(e, w, k);
        CalleeUp(e, w, k);
        AskStaysAlive(e, w, k);
      }
      case Settle(k) => SettleStaysAlive(e, w, k);
      case Deliver(c, m) => DeliverStaysAlive(e, w, c, m);
      case _ => OtherStaysAlive(e, w, s);
    }
  }

  lemma AskedInRound(e: Setup, w: World, k: nat)
    requires e.Valid() && WorldOk(e, w) && Enabled(e, w, Ask(k))
    ensures k < |w.calls| && !w.phase.Idle?
  {
    hide NetworkOk, CallsOk, NewPrices, PriceRequests;
  }

  /** The round that began in w0 is under way, with everyone connected and nothing missed so far. */
  ghost predicate Underway(e: Setup, w0: World, w: World) {
    && !w.phase.Idle? && AllUp(e, w) && AllAlive(w)
    && w.plan == w0.plan && w.applied == w0.applied && w.skipped == w0.skipped
  }

  /** The sources whose best response to the new prices fails. */
  ghost predicate Fails(e: Setup, plan: Plan, i: nat)
    requires e.Valid() && plan.Fits(e.t)
  {
    i < e.t.N() && !SolveAvailable(Problem(e.sqrt, e.t.links[i], NewPrices(plan, e.t, e.p), e.t.rates[i]),
                                   FLOW_TOL, MAX_ITER).Ok?
  }

  /** The round that began in w0 was applied: one iteration, holding just the sources whose best response fails. */
  ghost predicate Applied(e: Setup, w0: World, w: World)
    requires e.Valid() && w0.plan.Fits(e.t)
  {
    && w.skipped == w0.skipped
    && |w.applied| == |w0.applied| + 1 && w0.applied == w.applied[..|w0.applied|]
    && (forall i: nat :: i in w.applied[|w0.applied|] <==> Fails(e, w0.plan, i))
    && w.plan == IterationStep(e.sqrt, w0.plan, e.t, e.p, w.applied[|w0.applied|]).plan
  }

  /** Everyone answered, so every broker returned its price. */
  lemma AllPriced(e: Setup, w: World)
    requires e.Valid() && WorldOk(e, w) && AllAlive(w) && Finished(w.calls) && w.phase.Pricing?
    ensures forall j: nat :: j < e.t.M() ==> !Unpriced(w, j)
  {
    hide NetworkOk, PlanOk, NewPrices, BrokerPrice, BestRow;
    forall j: nat | j < e.t.M() ensures !Unpriced(w, j) {
      assert Alive(w, w.calls[j]) && CallOk(e, w, j) && w.calls[j].Done?;
      assert ReturnsPrice(w, j, w.calls[j].outcome.value.price);
    }
  }

  /** Everyone answered, so the sources without a row are those whose best response fails. */
  lemma AllRowed(e: Setup, w: World, i: nat)
    requires e.Valid() && WorldOk(e, w) && AllAlive(w) && Finished(w.calls) && w.phase.Responding? && i < e.t.N()
    ensures Rowless(w, i) <==> Fails(e, w.plan, i)
  {
    hide NetworkOk, NewPrices, BrokerPrice, SolveAvailable;
    assert Alive(w, w.calls[i]) && CallOk(e, w, i) && w.calls[i].Done?;
    if !Fails(e, w.plan, i) {
      assert ReturnsRow(w, i, w.calls[i].outcome.value.row);
    }
  }

  /** A step without failure keeps the round under way, or applies it. */
  lemma UnderwayStep(e: Setup, w0: World, w: World, s: Action)
    requires e.Valid() && WorldOk(e, w) && Enabled(e, w, s) && !Failing(s) && Underway(e, w0, w) && w0.plan.Fits(e.t)
    ensures var w' := Next(e, w, s);
      if s.Conclude? && w.phase.Responding? then w'.phase.Idle? && Applied(e, w0, w') else Underway(e, w0, w')
  {
    hide AllUp, AllAlive, IterationStep, Fails;
    StaysUp(e, w, s);
    StaysAlive(e, w, s);
    if s.Conclude? {
      hide Next;
      if w.phase.Pricing? {
        AllPriced(e, w);
        PricingEnds(e, w);
      } else {
        var held := RespondingEnds(e, w);
        forall i: nat | i < e.t.N()
          ensures i in held <==> Fails(e, w.plan, i)
        {
          AllRowed(e, w, i);
        }
        OnlySources(e, w.plan);
      }
    } else {
      NoConclusion(e, w, s);
    }
  }

  lemma OnlySources(e: Setup, plan: Plan)
    requires e.Valid() && plan.Fits(e.t)
    ensures forall i: nat :: Fails(e, plan, i) ==> i < e.t.N()
  {
    hide SolveAvailable, NewPrices;
  }

  lemma NoConclusion(e: Setup, w: World, s: Action)
    requires e.Valid() && Enabled(e, w, s) && !s.Conclude? && !w.phase.Idle?
    ensures var w' := Next(e, w, s);
      w'.phase == w.phase && w'.plan == w.plan && w'.applied == w.applied && w'.skipped == w.skipped
  {
    hide Answer;
  }

  ghost predicate NoFailure(steps: seq<Action>, a: nat, b: nat)
    requires a <= b <= |steps|
  {
    forall k :: a <= k < b ==> !Failing(steps[k])
  }

  /**
   A round that begins with every worker connected and meets no failure until it is over is applied,
   as one iteration that holds exactly the sources whose best response fails.
   */
  lemma {:induction false} QuietRoundApplies(e: Setup, run: seq<World>, steps: seq<Action>, a: nat, b: nat)
    requires e.Valid() && IsRun(e, run, steps) && a < b < |run| && steps[a].Begin? && AllUp(e, run[a])
    requires NoFailure(steps, a, b) && OpenFrom(run, a + 1, b)
    ensures run[a].plan.Fits(e.t)
    ensures if run[b].phase.Idle? then Applied(e, run[a], run[b]) else Underway(e, run[a], run[b])
  {
    hide Next, Enabled, WorldOk, AllUp, AllAlive, Fails, IterationStep;
    RunKeepsWorld(e, run, steps, a);
    PlanFits(e, run[a]);
    assert Takes(e, run, steps, b - 1);
    if b == a + 1 {
      Begins(e, run[a]);
    } else {
      QuietRoundApplies(e, run, steps, a, b - 1);
      RunKeepsWorld(e, run, steps, b - 1);
      UnderwayStep(e, run[a], run[b - 1], steps[b - 1]);
    }
  }

  lemma PlanFits(e: Setup, w: World)
    requires e.Valid() && WorldOk(e, w)
    ensures w.plan.Fits(e.t)
  {
    hide NetworkOk, CallsOk;
  }

  lemma Begins(e: Setup, w: World)
    requires e.Valid() && WorldOk(e, w) && Enabled(e, w, Begin) && AllUp(e, w)
    ensures Underway(e, w, Next(e, w, Begin))
  {
    hide WorldOk;
    StaysUp(e, w, Begin);
  }

  // ---------------------------------------------------------------- such a round can always be finished

  /** The worker's answer to an open request can be sent and delivered, which brings its call forward. */
  lemma AnswerArrives(e: Setup, w: World, k: nat) returns (m: Message<Reply>)
    requires e.Valid() && WorldOk(e, w) && AllAlive(w) && !w.phase.Idle? && k < |w.calls| && w.calls[k].Active?
    requires var c, r := w.calls[k].conn, w.calls[k].req; w.Awaits(c, r) && w.conns[c].line.futures[r].Waiting?
    ensures var c, r := w.calls[k].conn, w.calls[k].req;
      && Enabled(e, w, Serve(r)) && WorldOk(e, Next(e, w, Serve(r)))
      && Enabled(e, Next(e, w, Serve(r)), Deliver(c, m))
      && Work(e, Next(e, Next(e, w, Serve(r)), Deliver(c, m))) < Work(e, w)
  {
    hide PlanOk, RoundOk, Work, BestRow, BrokerPrice;
    var c, r := w.calls[k].conn, w.calls[k].req;
    assert CallOk(e, w, k) && ConnectionOk(e, w, c);
    ActiveCallHasFuture(e, w, k);
    var answer := HasAnswer(e, w, k);
    m := Message(Some(r), answer);
    StepKeepsWorld(e, w, Serve(r));
    StepWork(e, w, Serve(r));
    assert Alive(w, w.calls[k]);
    DeliveryDrops(e, Next(e, w, Serve(r)), k, m);
  }

  lemma HasAnswer(e: Setup, w: World, k: nat) returns (answer: Reply)
    requires e.Valid() && WorldOk(e, w) && !w.phase.Idle? && k < |w.calls|
    ensures k < |w.messages| && Answer(e, Callee(w.phase, k), w.messages[k]) == Some(answer)
  {
    hide NetworkOk, PlanOk, BestRow, BrokerPrice, NewPrices;
    answer := Answer(e, Callee(w.phase, k), w.messages[k]).value;
  }

  lemma DeliveryDrops(e: Setup, w: World, k: nat, m: Message<Reply>)
    requires e.Valid() && WorldOk(e, w) && !w.phase.Idle? && k < |w.calls| && w.calls[k].Active?
    requires Enabled(e, w, Deliver(w.calls[k].conn, m)) && m.req == Some(w.calls[k].req)
    requires w.Awaits(w.calls[k].conn, w.calls[k].req)
    requires var line := w.conns[w.calls[k].conn].line;
      line.futures[w.calls[k].req].Waiting? && w.calls[k].req in line.pending
    ensures Work(e, Next(e, w, Deliver(w.calls[k].conn, m))) < Work(e, w)
  {
    hide NetworkOk, CallsOk, PlanOk, RoundOk, Efforts;
    var c := w.calls[k].conn;
    var w' := Next(e, w, Deliver(c, m));
    LineAddsNothing(w, c, w.conns[c].line.Receive(m));
    EffortsDrop(w, w', |w.calls|, k);
  }

  ghost predicate NoneFails(steps: seq<Action>) {
    forall s | s in steps :: !Failing(s)
  }

  /** Some way forward without failure: ask, have an answer sent and delivered, return, or conclude. */
  lemma WayForward(e: Setup, w0: World, w: World) returns (some: seq<Action>, w': World)
    requires e.Valid() && WorldOk(e, w) && Underway(e, w0, w) && w0.plan.Fits(e.t)
    ensures Leads(e, w, some, w') && NoneFails(some) && WorldOk(e, w')
    ensures Work(e, w') < Work(e, w)
    ensures if w'.phase.Idle? then Applied(e, w0, w') else Underway(e, w0, w')
  {
    hide WorldOk, Work, Next, Enabled, Applied, AllUp, AllAlive;
    var s := SomeOwnMove(e, w);
    if s.Expire? {
      WaitingCall(e, w, s.k);
      var c, r := w.calls[s.k].conn, w.calls[s.k].req;
      var m := AnswerArrives(e, w, s.k);
      var w1 := Next(e, w, Serve(r));
      w' := Next(e, w1, Deliver(c, m));
      some := [Serve(r), Deliver(c, m)];
      UnderwayStep(e, w0, w, Serve(r));
      UnderwayStep(e, w0, w1, Deliver(c, m));
      StepKeepsWorld(e, w1, Deliver(c, m));
      assert some[1..] == [Deliver(c, m)] && some[1..][1..] == [];
      assert Leads(e, w1, [Deliver(c, m)], w');
    } else {
      w' := Next(e, w, s);
      some := [s];
      StepWork(e, w, s);
      StepKeepsWorld(e, w, s);
      UnderwayStep(e, w0, w, s);
      assert some[1..] == [];
    }
  }

  lemma WaitingCall(e: Setup, w: World, k: nat)
    requires e.Valid() && Enabled(e, w, Expire(k))
    ensures k < |w.calls| && w.calls[k].Active? && w.Awaits(w.calls[k].conn, w.calls[k].req)
    ensures w.conns[w.calls[k].conn].line.futures[w.calls[k].req].Waiting?
  {
  }

  lemma {:induction false} LeadsOn(e: Setup, w: World, first: seq<Action>, w': World, second: seq<Action>, w'': World)
    requires e.Valid() && Leads(e, w, first, w') && Leads(e, w', second, w'')
    ensures Leads(e, w, first + second, w'')
    decreases |first|
  {
    hide Next, Enabled;
    if |first| == 0 {
      assert first + second == second;
    } else {
      LeadsOn(e, Next(e, w, first[0]), first[1..], w', second, w'');
      assert (first + second)[1..] == first[1..] + second;
    }
  }

  lemma {:induction false} Finishes(e: Setup, w0: World, w: World) returns (rest: seq<Action>, w': World)
    requires e.Valid() && WorldOk(e, w) && Underway(e, w0, w) && w0.plan.Fits(e.t)
    ensures Leads(e, w, rest, w') && NoneFails(rest) && w'.phase.Idle? && Applied(e, w0, w')
    decreases Work(e, w)
  {
    hide WorldOk, Work, Underway, Applied, Leads;
    var some, next := WayForward(e, w0, w);
    if next.phase.Idle? {
      rest, w' := some, next;
    } else {
      var more;
      more, w' := Finishes(e, w0, next);
      rest := some + more;
      LeadsOn(e, w, some, next, more, w');
    }
  }

  /** With every worker connected a round can be begun and, without a single failure, brought to its application. */
  lemma QuietRoundExists(e: Setup, w: World) returns (steps: seq<Action>, w': World)
    requires e.Valid() && WorldOk(e, w) && w.phase.Idle? && AllUp(e, w)
    ensures |steps| > 0 && steps[0] == Begin && NoneFails(steps) && Leads(e, w, steps, w')
    ensures w.plan.Fits(e.t) && w'.phase.Idle? && Applied(e, w, w')
  {
    hide WorldOk, AllUp, Underway, Applied;
    PlanFits(e, w);
    Begins(e, w);
    StepKeepsWorld(e, w, Begin);
    var rest;
    rest, w' := Finishes(e, w, Next(e, w, Begin));
    steps := [Begin] + rest;
    assert steps[1..] == rest;
  }
}
