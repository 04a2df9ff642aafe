/** The rounds never block: within a bounded number of the controller's own moves every round is over. */
module Barrier {
  import opened Vectors
  import opened Synchronous
  import opened Protocol
  import opened Distributed
  import opened DistributedRuns

  /** The controller's own moves: nothing a worker or the network has to do. */
  predicate OwnMove(s: Action) {
    s.Ask? || s.Expire? || s.Settle? || s.Conclude?
  }

  ghost predicate OwnMoves(steps: seq<Action>) {
    forall s | s in steps :: OwnMove(s)
  }

  // ---------------------------------------------------------------- what is left of a round

  /** Own moves left for one call: to be asked, to wait for its answer or timer, to return. */
  function Effort(w: World, k: nat): nat
    requires k < |w.calls|
  {
    match w.calls[k]
    case NotStarted => 3
    case Active(c, r) => if w.Awaits(c, r) && w.conns[c].line.futures[r].Waiting? then 2 else 1
    case Done(_) => 0
  }

  function Efforts(w: World, k: nat): nat
    requires k <= |w.calls|
  {
    if k == 0 then 0 else Efforts(w, k - 1) + Effort(w, k - 1)
  }

  /** Own moves left in the round, the responding phase included. */
  function Work(e: Setup, w: World): nat {
    match w.phase
    case Idle => 0
    case Pricing => Efforts(w, |w.calls|) + 3 * e.t.N() + 2
    case Responding(_) => Efforts(w, |w.calls|) + 1
  }

  lemma {:induction false} EffortsAtMost(w: World, w': World, k: nat)
    requires k <= |w.calls| == |w'.calls|
    requires forall i :: 0 <= i < k ==> Effort(w', i) <= Effort(w, i)
    ensures Efforts(w', k) <= Efforts(w, k)
  {
    if k > 0 {
      EffortsAtMost(w, w', k - 1);
    }
  }

  lemma {:induction false} EffortsDrop(w: World, w': World, k: nat, at: nat)
    requires at < k <= |w.calls| == |w'.calls|
    requires forall i :: 0 <= i < k ==> Effort(w', i) <= Effort(w, i)
    requires Effort(w', at) < Effort(w, at)
    ensures Efforts(w', k) < Efforts(w, k)
  {
    if at == k - 1 {
      EffortsAtMost(w, w', k - 1);
    } else {
      EffortsDrop(w, w', k - 1, at);
    }
  }

  lemma {:induction false} EffortsOfAll(w: World, k: nat)
    requires k <= |w.calls|
    ensures Efforts(w, k) <= 3 * k
  {
    if k > 0 {
      EffortsOfAll(w, k - 1);
    }
  }

  // ---------------------------------------------------------------- one step

  /** Changing one line without starting to wait for anything adds no effort. */
  lemma LineAddsNothing(w: World, c: nat, line: Line<Reply>)
    requires c < |w.conns|
    requires forall r | r in line.futures && line.futures[r].Waiting? ::
      r in w.conns[c].line.futures && w.conns[c].line.futures[r].Waiting?
    ensures forall i :: 0 <= i < |w.calls| ==> Effort(w.WithLine(c, line), i) <= Effort(w, i)
  {
  }

  lemma AskDrops(e: Setup, w: World, k: nat)
    requires e.Valid() && CallsOk(e, w) && Enabled(e, w, Ask(k))
    ensures var w' := StartCall(w, k);
      && |w'.calls| == |w.calls| && Effort(w', k) < Effort(w, k)
      && forall i :: 0 <= i < |w.calls| ==> Effort(w', i) <= Effort(w, i)
  {
    hide Answer;
    var w' := StartCall(w, k);
    forall i | 0 <= i < |w.calls| ensures Effort(w', i) <= Effort(w, i) {
      assert CallOk(e, w, i);
    }
  }

  lemma EndDrops(w: World, k: nat, outcome: Option<Reply>)
    requires k < |w.calls| && w.calls[k].Active? && w.calls[k].conn < |w.conns|
    ensures var w' := EndCall(w, k, outcome);
      && |w'.calls| == |w.calls| && Effort(w', k) < Effort(w, k)
      && forall i :: 0 <= i < |w.calls| ==> Effort(w', i) <= Effort(w, i)
  {
  }

  /** A move of the controller's own that is not the conclusion brings one call forward and sets none back. */
  lemma OwnMoveDrops(e: Setup, w: World, s: Action)
    requires e.Valid() && WorldOk(e, w) && Enabled(e, w, s) && !w.phase.Idle?
    requires OwnMove(s) && !s.Conclude?
    ensures Work(e, Next(e, w, s)) < Work(e, w)
  {
    hide NetworkOk, PlanOk, RoundOk, Answer, Conclusion, Efforts;
    var w' := Next(e, w, s);
    var k := s.k;
    match s {
      case Ask(_) => AskDrops(e, w, k);
      case Expire(_) =>
        var c, r := w.calls[k].conn, w.calls[k].req;
        LineAddsNothing(w, c, w.conns[c].line.Expire(r));
      case Settle(_) =>
        EndDrops(w, k, Outcome(w.conns[w.calls[k].conn].line.futures[w.calls[k].req]));
    }
    EffortsDrop(w, w', |w.calls|, k);
  }

  lemma ConclusionDrops(e: Setup, w: World)
    requires e.Valid() && WorldOk(e, w) && Enabled(e, w, Conclude)
    ensures Work(e, Next(e, w, Conclude)) < Work(e, w)
  {
    hide NetworkOk, CallsOk, PlanOk, RoundOk, CommonStep;
    var w' := Next(e, w, Conclude);
    EffortsOfAll(w', |w'.calls|);
  }

  /** What workers, network and failing writes do sets no call back. */
  lemma OthersAddNothing(e: Setup, w: World, s: Action)
    requires e.Valid() && WorldOk(e, w) && Enabled(e, w, s) && !w.phase.Idle? && !OwnMove(s)
    ensures Work(e, Next(e, w, s)) <= Work(e, w)
  {
    hide NetworkOk, PlanOk, RoundOk, CallsOk, Answer, Efforts;
    var w' := Next(e, w, s);
    match s {
      case Lose(c) => LineAddsNothing(w, c, w.conns[c].line.Close());
      case Deliver(c, m) => LineAddsNothing(w, c, w.conns[c].line.Receive(m));
      case Break(k) => EndDrops(w, k, None);
      case _ => CallsUntouched(e, w, s);
    }
    EffortsAtMost(w, w', |w.calls|);
  }

  lemma CallsUntouched(e: Setup, w: World, s: Action)
    requires e.Valid() && WorldOk(e, w) && Enabled(e, w, s) && (s.Join? || s.Forget? || s.Serve?)
    ensures var w' := Next(e, w, s);
      w'.calls == w.calls && forall i :: 0 <= i < |w.calls| ==> Effort(w', i) <= Effort(w, i)
  {
    hide NetworkOk, PlanOk, RoundOk, Answer, CallOk;
    var w' := Next(e, w, s);
    forall i | 0 <= i < |w.calls| ensures Effort(w', i) <= Effort(w, i) {
      assert CallOk(e, w, i);
      if w.calls[i].Active? {
        ActiveCallHasFuture(e, w, i);
      }
    }
  }

  /** Every step of a round: own moves use up what is left of it, nothing else adds to it. */
  lemma StepWork(e: Setup, w: World, s: Action)
    requires e.Valid() && WorldOk(e, w) && Enabled(e, w, s) && !w.phase.Idle?
    ensures Work(e, Next(e, w, s)) <= Work(e, w) - if OwnMove(s) then 1 else 0
  {
    hide WorldOk, Enabled, Next, Work;
    if OwnMove(s) {
      if s.Conclude? {
        ConclusionDrops(e, w);
      } else {
        OwnMoveDrops(e, w, s);
      }
    } else {
      OthersAddNothing(e, w, s);
    }
  }

  // ---------------------------------------------------------------- never stuck

  lemma CalleeReachable(e: Setup, w: World, k: nat)
    requires e.Valid() && NetworkOk(e, w)
    ensures Reachable(w, Callee(w.phase, k))
  {
    hide ConnectionOk, ReplyOk, Answer;
  }

  /** Once everyone has returned the phase can be concluded. */
  lemma ConcludeEnabled(e: Setup, w: World)
    requires e.Valid() && WorldOk(e, w) && !w.phase.Idle? && Finished(w.calls)
    ensures Enabled(e, w, Conclude)
  {
    hide NetworkOk, Iterate, NewPrices, BestRow, PriceRequests;
    if w.phase.Responding? {
      forall k | 0 <= k < |w.calls| && Responded(w.calls[k])
        ensures |w.calls[k].outcome.value.row| == e.t.M()
      {
        assert CallOk(e, w, k);
      }
    }
  }

  /** While a round is open the controller always has a move of its own. */
  lemma SomeOwnMove(e: Setup, w: World) returns (s: Action)
    requires e.Valid() && WorldOk(e, w) && !w.phase.Idle?
    ensures OwnMove(s) && Enabled(e, w, s)
  {
    hide NetworkOk, PlanOk, RoundOk, Answer, CallOk;
    if Finished(w.calls) {
      ConcludeEnabled(e, w);
      s := Conclude;
    } else {
      var k: nat :| k < |w.calls| && !w.calls[k].Done?;
      assert CallOk(e, w, k);
      if w.calls[k].NotStarted? {
        CalleeReachable(e, w, k);
        s := Ask(k);
      } else {
        ActiveCallHasFuture(e, w, k);
        s := if w.conns[w.calls[k].conn].line.futures[w.calls[k].req].Waiting? then Expire(k) else Settle(k);
      }
    }
  }

  function OwnCount(steps: seq<Action>): nat {
    if |steps| == 0 then 0
    else OwnCount(steps[..|steps| - 1]) + if OwnMove(steps[|steps| - 1]) then 1 else 0
  }

  /** The round is open from the a-th state up to, but not necessarily in, the b-th. */
  predicate OpenFrom(run: seq<World>, a: nat, b: nat)
    requires a <= b < |run|
  {
    forall k :: a <= k < b ==> !run[k].phase.Idle?
  }

  lemma {:induction false} OwnMovesUseWork(e: Setup, run: seq<World>, steps: seq<Action>, a: nat, b: nat)
    requires e.Valid() && IsRun(e, run, steps) && a <= b < |run| && OpenFrom(run, a, b)
    ensures OwnCount(steps[a..b]) + Work(e, run[b]) <= Work(e, run[a])
  {
    hide Work, Next, Enabled, WorldOk;
    if a < b {
      OwnMovesUseWork(e, run, steps, a, b - 1);
      RunKeepsWorld(e, run, steps, b - 1);
      assert Takes(e, run, steps, b - 1);
      StepWork(e, run[b - 1], steps[b - 1]);
      assert steps[a..b][..b - 1 - a] == steps[a..b - 1];
    }
  }

  lemma WorkBound(e: Setup, w: World)
    requires e.Valid() && WorldOk(e, w)
    ensures Work(e, w) <= 3 * (e.t.N() + e.t.M()) + 2
  {
    hide NetworkOk, CallsOk, PlanOk, NewPrices, PriceRequests;
    EffortsOfAll(w, |w.calls|);
  }

  /**
   However controller, workers, timers and network interleave: while a round is open the controller
   has a move of its own to make, and it makes at most 3 (N + M) + 2 of them before the round is over.
   */
  lemma RoundEnds(e: Setup, run: seq<World>, steps: seq<Action>, a: nat, b: nat)
    requires e.Valid() && IsRun(e, run, steps) && a <= b < |run| && OpenFrom(run, a, b)
    ensures OwnCount(steps[a..b]) <= 3 * (e.t.N() + e.t.M()) + 2
    ensures !run[b].phase.Idle? ==> exists s :: OwnMove(s) && Enabled(e, run[b], s)
  {
    hide Work, Next, Enabled, WorldOk;
    RunKeepsWorld(e, run, steps, a);
    RunKeepsWorld(e, run, steps, b);
    OwnMovesUseWork(e, run, steps, a, b);
    WorkBound(e, run[a]);
    if !run[b].phase.Idle? {
      var s := SomeOwnMove(e, run[b]);
    }
  }

  // ---------------------------------------------------------------- without any help

  ghost predicate Leads(e: Setup, w: World, steps: seq<Action>, w': World)
    requires e.Valid()
    decreases |steps|
  {
    if |steps| == 0 then w' == w
    else Enabled(e, w, steps[0]) && Leads(e, Next(e, w, steps[0]), steps[1..], w')
  }

  /** Even if nothing but the controller moves any more, an open round comes to its end. */
  lemma {:induction false} TimersEndRound(e: Setup, w: World) returns (rest: seq<Action>, w': World)
    requires e.Valid() && WorldOk(e, w)
    ensures Leads(e, w, rest, w') && OwnMoves(rest) && |rest| <= Work(e, w) && w'.phase.Idle?
    decreases Work(e, w)
  {
    hide Work, Next, Enabled, WorldOk;
    if w.phase.Idle? {
      rest, w' := [], w;
    } else {
      var s := SomeOwnMove(e, w);
      StepKeepsWorld(e, w, s);
      StepWork(e, w, s);
      var more;
      more, w' := TimersEndRound(e, Next(e, w, s));
      rest := [s] + more;
      assert rest[1..] == more;
    }
  }
}
