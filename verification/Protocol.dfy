/** Control connections: requests, the futures awaiting their replies, and the inbox (src/distributed/protocol.py). */
module Protocol {
  import opened Vectors

  /** A message from a worker; req names the request it answers, if it answers one. */
  datatype Message<B> = Message(req: Option<nat>, body: B)

  datatype Future<B> = Waiting | Replied(message: Message<B>) | Failed | Cancelled

  /**
   One connection: the futures its requests still hold, the ids it matches replies against, and
   the messages that matched none.
   */
  datatype Line<B(==)> = Line(futures: map<nat, Future<B>>, pending: set<nat>, inbox: seq<Message<B>>, closed: bool) {

    predicate Valid() {
      pending <= futures.Keys
    }

    function Request(req: nat): Line<B> {
      this.(futures := futures[req := Waiting], pending := pending + {req})
    }

    /** The reader matches a message once: a reply to a request nobody awaits goes to the inbox. */
    predicate Matches(m: Message<B>)
      requires Valid()
    {
      m.req.Some? && m.req.value in pending && futures[m.req.value].Waiting?
    }

    function Receive(m: Message<B>): Line<B>
      requires Valid()
    {
      var rest := if m.req.Some? then pending - {m.req.value} else pending;
      if Matches(m) then this.(futures := futures[m.req.value := Replied(m)], pending := rest)
      else this.(inbox := inbox + [m], pending := rest)
    }

    /** The connection is gone: whoever still waits gets an error. */
    function Close(): Line<B>
      requires Valid()
    {
      var failed := map r | r in futures ::
        if r in pending && futures[r].Waiting? then Failed else futures[r];
      this.(futures := failed, pending := {}, closed := true)
    }

    /** The timer of a request runs out. */
    function Expire(req: nat): Line<B>
      requires req in futures
    {
      if futures[req].Waiting? then this.(futures := futures[req := Cancelled]) else this
    }

    /** The request returns, with whatever its future holds. */
    function Leave(req: nat): Line<B> {
      this.(futures := futures - {req}, pending := pending - {req})
    }
  }

  function NewLine<B(==)>(): Line<B> {
    Line(map[], {}, [], false)
  }

  // ---------------------------------------------------------------- the channel object

  /** The request counter every channel shares. */
  class RequestIds {
    var next: nat

    constructor ()
      ensures next == 1
    {
      next := 1;
    }

    method Take() returns (req: nat)
      modifies this
      ensures req == old(next) && next == old(next) + 1
    {
      req := next;
      next := next + 1;
    }
  }

  class Channel<B(==)> {
    var futures: map<nat, Future<B>>
    var pending: set<nat>
    var inbox: seq<Message<B>>
    var closed: bool

    function View(): Line<B>
      reads this
    {
      Line(futures, pending, inbox, closed)
    }

    constructor ()
      ensures View() == NewLine() && View().Valid()
    {
      futures, pending, inbox, closed := map[], {}, [], false;
    }

    method BeginRequest(ids: RequestIds) returns (req: nat)
      requires View().Valid()
      modifies this, ids
      ensures req == old(ids.next) && ids.next == req + 1
      ensures View() == old(View()).Request(req) && View().Valid()
      ensures futures == old(futures)[req := Waiting] && pending == old(pending) + {req}
      ensures inbox == old(inbox) && closed == old(closed)
    {
      req := ids.Take();
      futures := futures[req := Waiting];
      pending := pending + {req};
    }

    method OnMessage(m: Message<B>)
      requires View().Valid()
      modifies this
      ensures View() == old(View()).Receive(m) && View().Valid()
      ensures closed == old(closed) && pending == old(pending) - (if m.req.Some? then {m.req.value} else {})
      ensures if m.req.Some? && m.req.value in old(pending) && old(futures)[m.req.value].Waiting?
              then futures == old(futures)[m.req.value := Replied(m)] && inbox == old(inbox)
              else futures == old(futures) && inbox == old(inbox) + [m]
    {
      if m.req.Some? && m.req.value in pending {
        pending := pending - {m.req.value};
        if futures[m.req.value].Waiting? {
          futures := futures[m.req.value := Replied(m)];
        } else {
          inbox := inbox + [m];
        }
      } else {
        inbox := inbox + [m];
      }
    }

    method OnClosed()
      requires View().Valid()
      modifies this
      ensures View() == old(View()).Close() && View().Valid()
      ensures closed && pending == {} && inbox == old(inbox) && futures.Keys == old(futures).Keys
      ensures forall r | r in futures ::
        futures[r] == if r in old(pending) && old(futures)[r].Waiting? then Failed else old(futures)[r]
    {
      closed := true;
      var left := pending;
      ghost var was := futures;
      while left != {}
        invariant left <= pending <= futures.Keys && futures.Keys == was.Keys
        invariant closed && pending == old(pending) && inbox == old(inbox)
        invariant forall r | r in futures ::
          futures[r] == if r in pending - left && was[r].Waiting? then Failed else was[r]
      {
        var r :| r in left;
        if futures[r].Waiting? {
          futures := futures[r := Failed];
        }
        left := left - {r};
      }
      pending := {};
    }

    method OnTimeout(req: nat)
      requires View().Valid() && req in futures
      modifies this
      ensures View() == old(View()).Expire(req) && View().Valid()
      ensures futures == (if old(futures)[req].Waiting? then old(futures)[req := Cancelled] else old(futures))
      ensures pending == old(pending) && inbox == old(inbox) && closed == old(closed)
    {
      if futures[req].Waiting? {
        futures := futures[req := Cancelled];
      }
    }

    method EndRequest(req: nat) returns (outcome: Future<B>)
      requires View().Valid() && req in futures
      modifies this
      ensures outcome == old(futures)[req]
      ensures View() == old(View()).Leave(req) && View().Valid()
      ensures futures == old(futures) - {req} && pending == old(pending) - {req}
      ensures inbox == old(inbox) && closed == old(closed)
    {
      outcome := futures[req];
      futures := futures - {req};
      pending := pending - {req};
    }
  }

  // ---------------------------------------------------------------- every history of one connection

  datatype Event<B> = Requested(req: nat) | Received(message: Message<B>) | Closed | Expired(req: nat) | Left(req: nat)

  /** The line after a history, oldest event first; each id is requested at most once. */
  function After<B(==)>(history: seq<Event<B>>): (line: Line<B>)
    ensures line.Valid()
  {
    if |history| == 0 then NewLine()
    else
      var before := After(history[..|history| - 1]);
      match history[|history| - 1]
      case Requested(r) => before.Request(r)
      case Received(m) => before.Receive(m)
      case Closed => before.Close()
      case Expired(r) => if r in before.futures then before.Expire(r) else before
      case Left(r) => before.Leave(r)
  }

  /** The replies that resolved a request, in order. */
  function Resolved<B(==)>(history: seq<Event<B>>): seq<Message<B>> {
    if |history| == 0 then []
    else
      var before := history[..|history| - 1];
      var last := history[|history| - 1];
      if last.Received? && After(before).Matches(last.message) then Resolved(before) + [last.message]
      else Resolved(before)
  }

  function Arrivals<B>(history: seq<Event<B>>): seq<Message<B>> {
    if |history| == 0 then []
    else
      var last := history[|history| - 1];
      Arrivals(history[..|history| - 1]) + if last.Received? then [last.message] else []
  }

  ghost predicate FreshIds<B(!new)>(history: seq<Event<B>>) {
    forall a, b | 0 <= a < b < |history| ::
      history[a].Requested? && history[b].Requested? ==> history[a].req != history[b].req
  }

  ghost predicate Asked<B(!new)>(history: seq<Event<B>>, r: nat) {
    Requested(r) in history
  }

  ghost predicate Answered<B(!new)>(history: seq<Event<B>>, r: nat) {
    exists m :: m in Resolved(history) && m.req == Some(r)
  }

  /** What holds at every point of a connection's life. */
  ghost predicate LineInvariant<B(!new)>(history: seq<Event<B>>) {
    && multiset(Arrivals(history)) == multiset(After(history).inbox) + multiset(Resolved(history))
    && RepliesMatched(history)
  }

  ghost predicate RepliesMatched<B(!new)>(history: seq<Event<B>>) {
    var line := After(history);
    && (forall m | m in Resolved(history) :: m.req.Some? && Asked(history, m.req.value))
    && (forall r | r in line.futures :: Asked(history, r))
    && (forall r | r in line.pending :: !Answered(history, r))
    && (forall r | r in line.futures && line.futures[r].Replied? ::
          line.futures[r].message in Resolved(history) && line.futures[r].message.req == Some(r))
    && (forall i, j | 0 <= i < j < |Resolved(history)| :: Resolved(history)[i].req != Resolved(history)[j].req)
  }

  /**
   Every message that arrives goes to exactly one place: it resolves the one request that carries
   its id, which no other message ever resolves, or it lands in the inbox.
   */
  lemma {:induction false} RepliesResolveTheirRequest<B(!new)>(history: seq<Event<B>>)
    requires FreshIds(history)
    ensures LineInvariant(history)
  {
    if |history| > 0 {
      var before := history[..|history| - 1];
      var last := history[|history| - 1];
      forall a, b | 0 <= a < b < |before| && before[a].Requested? && before[b].Requested?
        ensures before[a].req != before[b].req
      {
        assert history[a] == before[a] && history[b] == before[b];
      }
      RepliesResolveTheirRequest(before);
      LineStep(before, last, history);
    }
  }

  /** A request that waits is known to the reader, so that a closing connection fails every one of them. */
  lemma {:induction false} WaitingIsPending<B(!new)>(history: seq<Event<B>>)
    ensures forall r | r in After(history).futures && After(history).futures[r].Waiting? :: r in After(history).pending
    ensures var closed := After(history).Close();
      && closed.closed && closed.pending == {}
      && forall r | r in closed.futures :: !closed.futures[r].Waiting?
    ensures forall r | r in After(history).futures && After(history).futures[r].Waiting? ::
      r in After(history).Close().futures && After(history).Close().futures[r].Failed?
  {
    if |history| > 0 {
      WaitingIsPending(history[..|history| - 1]);
    }
  }

  lemma LineStep<B(!new)>(before: seq<Event<B>>, last: Event<B>, history: seq<Event<B>>)
    requires history == before + [last] && LineInvariant(before) && FreshIds(history)
    ensures LineInvariant(history)
  {
    hide LineInvariant;
    assert history[..|history| - 1] == before;
    if last.Received? {
      if After(before).Matches(last.message) {
        Resolves(before, last, history);
      } else {
        GoesToInbox(before, last, history);
      }
    } else {
      BringsNoMessage(before, last, history);
    }
  }

  lemma StillAsked<B(!new)>(before: seq<Event<B>>, last: Event<B>, r: nat)
    requires Asked(before, r)
    ensures Asked(before + [last], r)
  {
    assert Requested(r) in before;
  }

  lemma Resolves<B(!new)>(before: seq<Event<B>>, last: Event<B>, history: seq<Event<B>>)
    requires history == before + [last] && history[..|history| - 1] == before && LineInvariant(before)
    requires last.Received? && After(before).Matches(last.message)
    ensures LineInvariant(history)
  {
    assert Resolved(history) == Resolved(before) + [last.message];
    assert Arrivals(history) == Arrivals(before) + [last.message];
    ResolvesMatched(before, last, history);
    hide RepliesMatched;
  }

  lemma ResolvesMatched<B(!new)>(before: seq<Event<B>>, last: Event<B>, history: seq<Event<B>>)
    requires history == before + [last] && history[..|history| - 1] == before && RepliesMatched(before)
    requires last.Received? && After(before).Matches(last.message)
    ensures RepliesMatched(history)
  {
    var line, m := After(history), last.message;
    assert Resolved(history) == Resolved(before) + [m];
    forall r | Asked(before, r) ensures Asked(history, r) {
      StillAsked(before, last, r);
    }
    assert Asked(history, m.req.value);
    forall r | r in line.pending ensures !Answered(history, r) {
      assert !Answered(before, r) && m.req != Some(r);
    }
    assert !Answered(before, m.req.value);
    assert forall i | 0 <= i < |Resolved(before)| :: Resolved(before)[i] in Resolved(before);
  }

  lemma GoesToInbox<B(!new)>(before: seq<Event<B>>, last: Event<B>, history: seq<Event<B>>)
    requires history == before + [last] && history[..|history| - 1] == before && LineInvariant(before)
    requires last.Received? && !After(before).Matches(last.message)
    ensures LineInvariant(history)
  {
    assert Resolved(history) == Resolved(before) && Arrivals(history) == Arrivals(before) + [last.message];
    assert After(history).inbox == After(before).inbox + [last.message];
    forall r | Asked(before, r) ensures Asked(history, r) {
      StillAsked(before, last, r);
    }
    forall r | !Answered(before, r) ensures !Answered(history, r) {
    }
  }

  lemma BringsNoMessage<B(!new)>(before: seq<Event<B>>, last: Event<B>, history: seq<Event<B>>)
    requires history == before + [last] && history[..|history| - 1] == before && LineInvariant(before)
    requires FreshIds(history) && !last.Received?
    ensures LineInvariant(history)
  {
    assert Resolved(history) == Resolved(before) && Arrivals(history) == Arrivals(before);
    Futures(before, last, history);
    forall r | Asked(before, r) ensures Asked(history, r) {
      StillAsked(before, last, r);
    }
    forall r | !Answered(before, r) ensures !Answered(history, r) {
    }
    if last.Requested? {
      NeverAskedBefore(before, last, history);
      assert !Answered(before, last.req);
      assert last in history;
    }
  }

  /** Apart from messages, futures only start waiting, fail, run out or go; none gains a reply. */
  lemma Futures<B(!new)>(before: seq<Event<B>>, last: Event<B>, history: seq<Event<B>>)
    requires history == before + [last] && history[..|history| - 1] == before && !last.Received?
    ensures After(history).inbox == After(before).inbox
    ensures forall r | r in After(history).pending ::
      r in After(before).pending || last == Requested(r)
    ensures forall r | r in After(history).futures ::
      r in After(before).futures || last == Requested(r)
    ensures forall r | r in After(history).futures && After(history).futures[r].Replied? ::
      r in After(before).futures && After(history).futures[r] == After(before).futures[r]
  {
  }

  lemma NeverAskedBefore<B(!new)>(before: seq<Event<B>>, last: Event<B>, history: seq<Event<B>>)
    requires history == before + [last] && FreshIds(history) && last.Requested?
    ensures !Asked(before, last.req)
  {
    forall a | 0 <= a < |before| && before[a].Requested? ensures before[a].req != last.req {
      assert history[a] == before[a] && history[|before|] == last;
    }
  }
}
