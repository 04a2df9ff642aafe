/**
 The controller's rounds over an unreliable network (src/distributed/controller.py): messages may be
 late, reordered, repeated or lost, workers may drop and rejoin, and timers may run out at any moment.
 */
module Distributed {
  import opened Vectors
  import opened Threshold
  import opened Topologies
  import opened Prices
  import opened Synchronous
  import opened Protocol

  datatype Peer = Broker(j: nat) | Source(i: nat)

  datatype Request = PriceRequest(price: real, load: real) | ResponseRequest(prices: Vec)

  datatype Reply = PriceReply(price: real) | RowReply(row: Vec) | FailedReply

  /** A request on its way: the connection it was written to and what it says. */
  datatype Envelope = Envelope(conn: nat, request: Request)

  datatype Connection = Connection(peer: Peer, line: Line<Reply>)

  /** One worker's part in the round under way. */
  datatype Call = NotStarted | Active(conn: nat, req: nat) | Done(outcome: Option<Reply>)

  datatype Phase = Idle | Pricing | Responding(newPrices: Vec)

  datatype Setup = Setup(sqrt: real -> real, t: Topology, p: Params, start: Plan) {
    ghost predicate Valid() {
      IsSqrt(sqrt) && t.Valid() && p.Valid() && start.Fits(t)
    }
  }

  /**
   The controller and the network. `applied` lists, round by round, the sources each applied round
   held (br_failures); `log` holds every request ever written, by id, and `replies` every reply.
   */
  datatype World = World(
    plan: Plan,
    phase: Phase,
    messages: seq<Request>,
    calls: seq<Call>,
    conns: seq<Connection>,
    channels: map<Peer, nat>,
    nextReq: nat,
    log: map<nat, Envelope>,
    replies: set<(nat, Message<Reply>)>,
    begun: nat,
    skipped: nat,
    applied: seq<set<nat>>)
  {
    /** Request r of connection c has not returned yet. */
    predicate Awaits(c: nat, r: nat) {
      c < |conns| && r in conns[c].line.futures
    }

    function WithLine(c: nat, line: Line<Reply>): World
      requires c < |conns|
    {
      this.(conns := conns[c := conns[c].(line := line)])
    }
  }

  datatype Action =
    | Join(peer: Peer)                       // a worker registers, or registers again
    | Lose(conn: nat)                        // a connection closes
    | Forget(conn: nat)                      // the controller notices
    | Begin                                  // the window is over: ask every broker for a price
    | Ask(k: nat)                            // one request is written, or finds nobody connected
    | Expire(k: nat)                         // its timer runs out
    | Break(k: nat)                          // writing it fails
    | Settle(k: nat)                         // it returns what its future holds
    | Serve(req: nat)                        // a worker reads a request and answers
    | Deliver(conn: nat, message: Message<Reply>)
    | Conclude                               // everyone asked has returned

  // ---------------------------------------------------------------- the workers

  /** What a worker replies: brokers price, sources best-respond; other requests go unanswered. */
  function Answer(e: Setup, peer: Peer, request: Request): Option<Reply>
    requires e.Valid()
  {
    match (peer, request)
    case (Broker(j), PriceRequest(price, load)) =>
      if j < e.t.M() then Some(PriceReply(BrokerPrice(price, load, e.t.brokers[j], e.p.gamma, e.p.eps))) else None
    case (Source(i), ResponseRequest(prices)) =>
      if i < e.t.N() && |prices| == e.t.M() then
        var r := BestRow(e.sqrt, e.t, prices, i);
        Some(if r.Ok? then RowReply(r.value.flow) else FailedReply)
      else None
    case _ => None
  }

  // ---------------------------------------------------------------- the round

  function PriceRequests(e: Setup, plan: Plan): (q: seq<Request>)
    requires e.Valid() && plan.Fits(e.t)
    ensures |q| == e.t.M()
  {
    seq(e.t.M(), j requires 0 <= j < e.t.M() => PriceRequest(plan.prices[j], Loads(plan.routing, e.t.M())[j]))
  }

  function Everyone<T>(n: nat, x: T): (s: seq<T>)
    ensures |s| == n && forall k :: 0 <= k < n ==> s[k] == x
  {
    seq(n, _ => x)
  }

  /** Whom call k of the round addresses. */
  function Callee(phase: Phase, k: nat): Peer {
    if phase.Responding? then Source(k) else Broker(k)
  }

  predicate Finished(calls: seq<Call>) {
    forall k :: 0 <= k < |calls| ==> calls[k].Done?
  }

  predicate Priced(c: Call) {
    c.Done? && c.outcome.Some? && c.outcome.value.PriceReply?
  }

  predicate Responded(c: Call) {
    c.Done? && c.outcome.Some? && c.outcome.value.RowReply?
  }

  function PriceOf(c: Call): real
    requires Priced(c)
  {
    c.outcome.value.price
  }

  function GatheredPrices(calls: seq<Call>): (q: Vec)
    requires forall k :: 0 <= k < |calls| ==> Priced(calls[k])
    ensures |q| == |calls|
  {
    seq(|calls|, k requires 0 <= k < |calls| => PriceOf(calls[k]))
  }

  /** The rows to step toward: a source that did not return a row keeps its own. */
  function GatheredRows(calls: seq<Call>, a: Matrix): (br: Matrix)
    requires |calls| == |a|
    ensures |br| == |a|
    ensures forall i :: 0 <= i < |a| ==>
      br[i] == if Responded(calls[i]) then calls[i].outcome.value.row else a[i]
  {
    seq(|a|, i requires 0 <= i < |a| => if Responded(calls[i]) then calls[i].outcome.value.row else a[i])
  }

  function Held(calls: seq<Call>): set<nat> {
    set i: nat | i < |calls| && !Responded(calls[i])
  }

  // ---------------------------------------------------------------- steps

  ghost predicate Enabled(e: Setup, w: World, s: Action)
    requires e.Valid()
  {
    match s
    case Join(peer) => if peer.Broker? then peer.j < e.t.M() else peer.i < e.t.N()
    case Lose(c) => c < |w.conns| && w.conns[c].line.Valid()
    case Forget(c) => c < |w.conns| && w.conns[c].line.closed
    case Begin => w.phase.Idle? && w.plan.Fits(e.t)
    case Ask(k) => k < |w.calls| == |w.messages| && w.calls[k].NotStarted? && Reachable(w, Callee(w.phase, k))
    case Expire(k) =>
      && k < |w.calls| && w.calls[k].Active? && w.Awaits(w.calls[k].conn, w.calls[k].req)
      && w.conns[w.calls[k].conn].line.futures[w.calls[k].req].Waiting?
    case Break(k) => k < |w.calls| && w.calls[k].Active? && w.Awaits(w.calls[k].conn, w.calls[k].req)
    case Settle(k) =>
      && k < |w.calls| && w.calls[k].Active? && w.Awaits(w.calls[k].conn, w.calls[k].req)
      && !w.conns[w.calls[k].conn].line.futures[w.calls[k].req].Waiting?
    case Serve(r) => r in w.log && w.log[r].conn < |w.conns|
    case Deliver(c, m) => (c, m) in w.replies && c < |w.conns| && w.conns[c].line.Valid() && !w.conns[c].line.closed
    case Conclude => !w.phase.Idle? && Finished(w.calls) && RoundFits(e, w)
  }

  /** The channel registered for a peer, if any, exists. */
  predicate Reachable(w: World, peer: Peer) {
    peer in w.channels ==> w.channels[peer] < |w.conns|
  }

  predicate RoundFits(e: Setup, w: World) {
    && w.plan.Fits(e.t)
    && (w.phase.Pricing? ==> |w.calls| == e.t.M())
    && (w.phase.Responding? ==>
          && |w.calls| == e.t.N() && |w.phase.newPrices| == e.t.M()
          && forall k :: 0 <= k < |w.calls| && Responded(w.calls[k]) ==> |w.calls[k].outcome.value.row| == e.t.M())
  }

  function StartCall(w: World, k: nat): World
    requires k < |w.calls| == |w.messages| && Reachable(w, Callee(w.phase, k))
  {
    var peer := Callee(w.phase, k);
    if peer !in w.channels then w.(calls := w.calls[k := Done(None)])
    else
      var c := w.channels[peer];
      w.WithLine(c, w.conns[c].line.Request(w.nextReq))
       .(calls := w.calls[k := Active(c, w.nextReq)],
         log := w.log[w.nextReq := Envelope(c, w.messages[k])],
         nextReq := w.nextReq + 1)
  }

  function EndCall(w: World, k: nat, outcome: Option<Reply>): World
    requires k < |w.calls| && w.calls[k].Active? && w.calls[k].conn < |w.conns|
  {
    var c, r := w.calls[k].conn, w.calls[k].req;
    w.WithLine(c, w.conns[c].line.Leave(r)).(calls := w.calls[k := Done(outcome)])
  }

  function Outcome(f: Future<Reply>): Option<Reply> {
    if f.Replied? then Some(f.message.body) else None
  }

  function Conclusion(e: Setup, w: World): World
    requires e.Valid() && RoundFits(e, w) && !w.phase.Idle? && e.t.M() > 0
  {
    var over := w.(phase := Idle, calls := [], messages := []);
    if w.phase.Pricing? then
      if forall k :: 0 <= k < |w.calls| ==> Priced(w.calls[k]) then
        var q := GatheredPrices(w.calls);
        w.(phase := Responding(q), messages := Everyone(e.t.N(), ResponseRequest(q)),
           calls := Everyone(e.t.N(), NotStarted))
      else over.(skipped := w.skipped + 1)
    else
      var br := GatheredRows(w.calls, w.plan.routing);
      over.(plan := CommonStep(w.plan, br, w.phase.newPrices, e.t, e.p).plan,
            applied := w.applied + [Held(w.calls)])
  }

  function Next(e: Setup, w: World, s: Action): World
    requires e.Valid() && Enabled(e, w, s)
  {
    match s
    case Join(peer) =>
      w.(conns := w.conns + [Connection(peer, NewLine())], channels := w.channels[peer := |w.conns|])
    case Lose(c) => w.WithLine(c, w.conns[c].line.Close())
    case Forget(c) =>
      var peer := w.conns[c].peer;
      if peer in w.channels && w.channels[peer] == c then w.(channels := w.channels - {peer}) else w
    case Begin =>
      w.(phase := Pricing, messages := PriceRequests(e, w.plan), calls := Everyone(e.t.M(), NotStarted),
         begun := w.begun + 1)
    case Ask(k) => StartCall(w, k)
    case Expire(k) =>
      var c, r := w.calls[k].conn, w.calls[k].req;
      w.WithLine(c, w.conns[c].line.Expire(r))
    case Break(k) => EndCall(w, k, None)
    case Settle(k) => EndCall(w, k, Outcome(w.conns[w.calls[k].conn].line.futures[w.calls[k].req]))
    case Serve(r) =>
      var c := w.log[r].conn;
      var a := Answer(e, w.conns[c].peer, w.log[r].request);
      if a.Some? then w.(replies := w.replies + {(c, Message(Some(r), a.value))}) else w
    case Deliver(c, m) => w.WithLine(c, w.conns[c].line.Receive(m))
    case Conclude => Conclusion(e, w)
  }

  function Start(e: Setup): World {
    World(e.start, Idle, [], [], [], map[], 1, map[], {}, 0, 0, [])
  }

  // ---------------------------------------------------------------- the invariant

  /** A connection's futures are requests that were written, and hold replies that were sent. */
  ghost predicate ConnectionOk(e: Setup, w: World, c: nat)
    requires c < |w.conns|
  {
    var line := w.conns[c].line;
    && line.Valid()
    && (forall r | r in line.futures :: r < w.nextReq)
    && (forall r | r in line.futures && line.futures[r].Replied? ::
          (c, line.futures[r].message) in w.replies && line.futures[r].message.req == Some(r))
  }

  ghost predicate Written(w: World, r: nat) {
    r in w.log && r < w.nextReq && w.log[r].conn < |w.conns|
  }

  /** A reply says what its worker answers to the request it names, and nothing else. */
  ghost predicate ReplyOk(e: Setup, w: World, c: nat, m: Message<Reply>)
    requires e.Valid()
  {
    && m.req.Some? && Written(w, m.req.value) && w.log[m.req.value].conn == c
    && Answer(e, w.conns[c].peer, w.log[m.req.value].request) == Some(m.body)
  }

  ghost predicate CallOk(e: Setup, w: World, k: nat)
    requires e.Valid() && k < |w.calls| == |w.messages|
  {
    match w.calls[k]
    case NotStarted => true
    case Active(c, r) =>
      && w.Awaits(c, r) && w.conns[c].peer == Callee(w.phase, k)
      && Written(w, r) && w.log[r] == Envelope(c, w.messages[k])
    case Done(outcome) => outcome.Some? ==> Answer(e, Callee(w.phase, k), w.messages[k]) == outcome
  }

  ghost predicate RoundOk(e: Setup, w: World)
    requires e.Valid() && w.plan.Fits(e.t)
  {
    match w.phase
    case Idle => w.calls == [] && w.messages == []
    case Pricing => |w.calls| == e.t.M() && w.messages == PriceRequests(e, w.plan)
    case Responding(q) =>
      && q == NewPrices(w.plan, e.t, e.p) && |w.calls| == e.t.N()
      && w.messages == Everyone(e.t.N(), ResponseRequest(q))
  }

  ghost predicate NetworkOk(e: Setup, w: World)
    requires e.Valid()
  {
    && (forall peer | peer in w.channels ::
          w.channels[peer] < |w.conns| && w.conns[w.channels[peer]].peer == peer)
    && (forall c :: 0 <= c < |w.conns| ==> ConnectionOk(e, w, c))
    && (forall x | x in w.replies :: ReplyOk(e, w, x.0, x.1))
    && (forall r | r in w.log :: Written(w, r))
  }

  ghost predicate CallsOk(e: Setup, w: World)
    requires e.Valid()
  {
    |w.calls| == |w.messages| && forall k :: 0 <= k < |w.calls| ==> CallOk(e, w, k)
  }

  /** Every round begun was applied, was skipped or is under way. */
  ghost predicate PlanOk(e: Setup, w: World)
    requires e.Valid()
  {
    && w.plan.Fits(e.t)
    && w.begun == |w.applied| + w.skipped + if w.phase.Idle? then 0 else 1
  }

  ghost predicate WorldOk(e: Setup, w: World)
    requires e.Valid()
  {
    NetworkOk(e, w) && CallsOk(e, w) && PlanOk(e, w) && RoundOk(e, w)
  }

  // ---------------------------------------------------------------- every step keeps it

  /** What no step undoes: connections keep their peers and written requests stay written. */
  ghost predicate Grows(w: World, w': World) {
    && |w.conns| <= |w'.conns| && w.nextReq <= w'.nextReq
    && (forall c :: 0 <= c < |w.conns| ==> w'.conns[c].peer == w.conns[c].peer)
    && (forall r | r in w.log && r < w.nextReq :: r in w'.log && w'.log[r] == w.log[r])
    && w.replies <= w'.replies
  }

  lemma RepliesKept(e: Setup, w: World, w': World)
    requires e.Valid() && Grows(w, w')
    ensures forall c, m | ReplyOk(e, w, c, m) :: ReplyOk(e, w', c, m)
    ensures forall r | Written(w, r) :: Written(w', r) && w'.log[r] == w.log[r]
  {
  }

  /** Changing one line in order keeps the network in order. */
  lemma LineKept(e: Setup, w: World, c: nat, line: Line<Reply>)
    requires e.Valid() && NetworkOk(e, w) && c < |w.conns|
    requires ConnectionOk(e, w.WithLine(c, line), c)
    ensures NetworkOk(e, w.WithLine(c, line)) && Grows(w, w.WithLine(c, line))
  {
    var w' := w.WithLine(c, line);
    RepliesKept(e, w, w');
    forall d | 0 <= d < |w'.conns| ensures ConnectionOk(e, w', d) {
      if d != c {
        assert ConnectionOk(e, w, d);
      }
    }
  }

  lemma NetworkKept(e: Setup, w: World, s: Action)
    requires e.Valid() && WorldOk(e, w) && Enabled(e, w, s)
    ensures NetworkOk(e, Next(e, w, s)) && Grows(w, Next(e, w, s))
  {
    hide RoundOk, PlanOk, Answer, Conclusion;
    var w' := Next(e, w, s);
    match s
    case Join(peer) => {
      Joins(e, w, peer);
    }
    case Lose(c) => {
      assert ConnectionOk(e, w, c);
      LineKept(e, w, c, w.conns[c].line.Close());
    }
    case Expire(k) => {
      var c, r := w.calls[k].conn, w.calls[k].req;
      assert ConnectionOk(e, w, c);
      LineKept(e, w, c, w.conns[c].line.Expire(r));
    }
    case Break(k) => {
      CallEnds(e, w, k, None);
    }
    case Settle(k) => {
      CallEnds(e, w, k, Outcome(w.conns[w.calls[k].conn].line.futures[w.calls[k].req]));
    }
    case Deliver(c, m) => {
      assert ConnectionOk(e, w, c);
      LineKept(e, w, c, w.conns[c].line.Receive(m));
    }
    case Ask(k) => {
      CallStarts(e, w, k);
    }
    case Serve(r) => {
      AnswerSent(e, w, r);
    }
    case Forget(c) => {
      SameNetwork(e, w, w');
    }
    case Begin => {
      SameNetwork(e, w, w');
    }
    case Conclude => {
      ConclusionLeavesNetwork(e, w);
      SameNetwork(e, w, w');
    }
  }

  lemma Joins(e: Setup, w: World, peer: Peer)
    requires e.Valid() && NetworkOk(e, w) && Enabled(e, w, Join(peer))
    ensures NetworkOk(e, Next(e, w, Join(peer))) && Grows(w, Next(e, w, Join(peer)))
  {
    var w' := Next(e, w, Join(peer));
    RepliesKept(e, w, w');
    forall d | 0 <= d < |w'.conns| ensures ConnectionOk(e, w', d) {
      if d < |w.conns| {
        assert ConnectionOk(e, w, d);
      }
    }
  }

  lemma SameNetwork(e: Setup, w: World, w': World)
    requires e.Valid() && NetworkOk(e, w)
    requires w'.conns == w.conns && w'.log == w.log && w'.replies == w.replies && w'.nextReq == w.nextReq
    requires forall peer | peer in w'.channels :: peer in w.channels && w'.channels[peer] == w.channels[peer]
    ensures NetworkOk(e, w') && Grows(w, w')
  {
    RepliesKept(e, w, w');
    forall d | 0 <= d < |w'.conns| ensures ConnectionOk(e, w', d) {
      assert ConnectionOk(e, w, d);
    }
  }

  lemma ConclusionLeavesNetwork(e: Setup, w: World)
    requires e.Valid() && RoundFits(e, w) && !w.phase.Idle? && e.t.M() > 0
    ensures var w' := Conclusion(e, w);
      && w'.conns == w.conns && w'.log == w.log && w'.replies == w.replies && w'.nextReq == w.nextReq
      && w'.channels == w.channels
  {
    hide CommonStep;
  }

  lemma CallEnds(e: Setup, w: World, k: nat, outcome: Option<Reply>)
    requires e.Valid() && NetworkOk(e, w)
    requires k < |w.calls| && w.calls[k].Active? && w.calls[k].conn < |w.conns|
    ensures NetworkOk(e, EndCall(w, k, outcome)) && Grows(w, EndCall(w, k, outcome))
  {
    hide Answer;
    var c, r := w.calls[k].conn, w.calls[k].req;
    assert ConnectionOk(e, w, c);
    LineKept(e, w, c, w.conns[c].line.Leave(r));
    SameNetwork(e, w.WithLine(c, w.conns[c].line.Leave(r)), EndCall(w, k, outcome));
  }

  lemma CallStarts(e: Setup, w: World, k: nat)
    requires e.Valid() && NetworkOk(e, w)
    requires k < |w.calls| == |w.messages| && Reachable(w, Callee(w.phase, k))
    ensures NetworkOk(e, StartCall(w, k)) && Grows(w, StartCall(w, k))
  {
    hide Answer;
    var w' := StartCall(w, k);
    RepliesKept(e, w, w');
    forall d | 0 <= d < |w'.conns| ensures ConnectionOk(e, w', d) {
      assert ConnectionOk(e, w, d);
    }
    forall r | r in w'.log ensures Written(w', r) {
      assert r == w.nextReq || Written(w, r);
    }
  }

  lemma AnswerSent(e: Setup, w: World, r: nat)
    requires e.Valid() && NetworkOk(e, w) && Enabled(e, w, Serve(r))
    ensures NetworkOk(e, Next(e, w, Serve(r))) && Grows(w, Next(e, w, Serve(r)))
  {
    hide Answer;
    var w' := Next(e, w, Serve(r));
    RepliesKept(e, w, w');
    assert Written(w, r);
    forall d | 0 <= d < |w'.conns| ensures ConnectionOk(e, w', d) {
      assert ConnectionOk(e, w, d);
    }
  }

  // ---------------------------------------------------------------- calls

  /** A call in order stays so while its connection keeps its future. */
  lemma CallKept(e: Setup, w: World, w': World, k: nat)
    requires e.Valid() && Grows(w, w') && k < |w.calls| == |w.messages| && CallOk(e, w, k)
    requires w'.messages == w.messages && |w'.calls| == |w.calls| && w'.calls[k] == w.calls[k]
    requires Callee(w'.phase, k) == Callee(w.phase, k)
    requires w.calls[k].Active? ==> w'.Awaits(w.calls[k].conn, w.calls[k].req)
    ensures CallOk(e, w', k)
  {
    hide Answer;
  }

  lemma LineChangeKeepsCalls(e: Setup, w: World, c: nat, line: Line<Reply>)
    requires e.Valid() && CallsOk(e, w) && c < |w.conns| && w.conns[c].line.futures.Keys == line.futures.Keys
    requires Grows(w, w.WithLine(c, line))
    ensures CallsOk(e, w.WithLine(c, line))
  {
    hide Answer, CallOk;
    var w' := w.WithLine(c, line);
    forall k | 0 <= k < |w'.calls| ensures CallOk(e, w', k) {
      assert CallOk(e, w, k);
      if w.calls[k].Active? {
        ActiveCallHasFuture(e, w, k);
      }
      CallKept(e, w, w', k);
    }
  }

  lemma ActiveCallHasFuture(e: Setup, w: World, k: nat)
    requires e.Valid() && k < |w.calls| == |w.messages| && CallOk(e, w, k) && w.calls[k].Active?
    ensures var c, r := w.calls[k].conn, w.calls[k].req;
      && w.Awaits(c, r) && w.conns[c].peer == Callee(w.phase, k)
      && Written(w, r) && w.log[r] == Envelope(c, w.messages[k])
  {
    hide Answer;
  }

  /** Two calls of one round never share a connection: they address different workers. */
  lemma EndCallKeepsCalls(e: Setup, w: World, k: nat, outcome: Option<Reply>)
    requires e.Valid() && CallsOk(e, w) && k < |w.calls| && w.calls[k].Active? && w.calls[k].conn < |w.conns|
    requires outcome.Some? ==> Answer(e, Callee(w.phase, k), w.messages[k]) == outcome
    requires Grows(w, EndCall(w, k, outcome))
    ensures CallsOk(e, EndCall(w, k, outcome))
  {
    hide Answer;
    var w' := EndCall(w, k, outcome);
    assert CallOk(e, w, k);
    forall d | 0 <= d < |w'.calls| ensures CallOk(e, w', d) {
      if d != k {
        assert CallOk(e, w, d);
        CallKept(e, w, w', d);
      }
    }
  }

  lemma StartCallKeepsCalls(e: Setup, w: World, k: nat)
    requires e.Valid() && NetworkOk(e, w) && CallsOk(e, w)
    requires k < |w.calls| && w.calls[k].NotStarted? && Reachable(w, Callee(w.phase, k))
    requires Grows(w, StartCall(w, k))
    ensures CallsOk(e, StartCall(w, k))
  {
    hide Answer, ConnectionOk, ReplyOk;
    var w' := StartCall(w, k);
    forall d | 0 <= d < |w'.calls| ensures CallOk(e, w', d) {
      if d != k {
        assert CallOk(e, w, d);
        CallKept(e, w, w', d);
      }
    }
  }

  /** A future that was answered holds what the worker answers to the call's own message. */
  lemma OutcomeIsAnswer(e: Setup, w: World, k: nat)
    requires e.Valid() && NetworkOk(e, w) && CallsOk(e, w) && k < |w.calls| && w.calls[k].Active?
    requires w.Awaits(w.calls[k].conn, w.calls[k].req)
    ensures var o := Outcome(w.conns[w.calls[k].conn].line.futures[w.calls[k].req]);
      o.Some? ==> Answer(e, Callee(w.phase, k), w.messages[k]) == o
  {
    hide Answer;
    var c, r := w.calls[k].conn, w.calls[k].req;
    assert CallOk(e, w, k) && ConnectionOk(e, w, c);
    var f := w.conns[c].line.futures[r];
    if f.Replied? {
      assert ReplyOk(e, w, c, f.message);
    }
  }

  lemma CallsKept(e: Setup, w: World, s: Action)
    requires e.Valid() && WorldOk(e, w) && Enabled(e, w, s) && Grows(w, Next(e, w, s))
    ensures CallsOk(e, Next(e, w, s))
  {
    hide RoundOk, PlanOk, Answer, Conclusion, NetworkOk, CallOk;
    var w' := Next(e, w, s);
    match s
    case Lose(c) => {
      LineChangeKeepsCalls(e, w, c, w.conns[c].line.Close());
    }
    case Expire(k) => {
      var c, r := w.calls[k].conn, w.calls[k].req;
      LineChangeKeepsCalls(e, w, c, w.conns[c].line.Expire(r));
    }
    case Break(k) => {
      EndCallKeepsCalls(e, w, k, None);
    }
    case Settle(k) => {
      OutcomeIsAnswer(e, w, k);
      EndCallKeepsCalls(e, w, k, Outcome(w.conns[w.calls[k].conn].line.futures[w.calls[k].req]));
    }
    case Deliver(c, m) => {
      LineChangeKeepsCalls(e, w, c, w.conns[c].line.Receive(m));
    }
    case Ask(k) => {
      StartCallKeepsCalls(e, w, k);
    }
    case Begin => {
      FreshCalls(e, w');
    }
    case Conclude => {
      ConclusionCalls(e, w);
      FreshCalls(e, w');
    }
    case _ => {
      forall k | 0 <= k < |w'.calls| ensures CallOk(e, w', k) {
        assert CallOk(e, w, k);
        if w.calls[k].Active? {
          ActiveCallHasFuture(e, w, k);
        }
        CallKept(e, w, w', k);
      }
    }
  }

  lemma FreshCalls(e: Setup, w: World)
    requires e.Valid() && |w.calls| == |w.messages|
    requires forall k :: 0 <= k < |w.calls| ==> w.calls[k].NotStarted?
    ensures CallsOk(e, w)
  {
  }

  lemma ConclusionCalls(e: Setup, w: World)
    requires e.Valid() && RoundFits(e, w) && !w.phase.Idle? && e.t.M() > 0
    ensures var w' := Conclusion(e, w);
      |w'.calls| == |w'.messages| && forall k :: 0 <= k < |w'.calls| ==> w'.calls[k].NotStarted?
  {
    hide CommonStep;
  }
}
