/** Which connection the controller talks to: always a worker's latest one, until that one is found closed. */
module Registrations {
  import opened Vectors
  import opened Protocol
  import opened Distributed
  import opened DistributedRuns

  /** Connection c is the last that this peer opened. */
  predicate Latest(w: World, peer: Peer, c: nat) {
    && c < |w.conns| && w.conns[c].peer == peer
    && forall d :: c < d < |w.conns| ==> w.conns[d].peer != peer
  }

  /**
   Every channel is its peer's latest connection, and a peer whose latest connection is open has a
   channel: noticing late that an old connection closed never drops a worker that has rejoined.
   */
  ghost predicate LatestRegistered(w: World) {
    && (forall peer | peer in w.channels :: Latest(w, peer, w.channels[peer]))
    && (forall c: nat :: c < |w.conns| && Latest(w, w.conns[c].peer, c) && !w.conns[c].line.closed ==>
          w.conns[c].peer in w.channels)
  }

  lemma JoinRegisters(e: Setup, w: World, peer: Peer)
    requires e.Valid() && Enabled(e, w, Join(peer)) && LatestRegistered(w)
    ensures LatestRegistered(Next(e, w, Join(peer)))
    ensures var w' := Next(e, w, Join(peer)); peer in w'.channels && w'.channels[peer] == |w.conns|
  {
    var w' := Next(e, w, Join(peer));
    assert w'.conns == w.conns + [Connection(peer, NewLine())] && w'.channels == w.channels[peer := |w.conns|];
    hide Next, Enabled;
    forall c: nat, other | c < |w.conns|
      ensures Latest(w', other, c) <==> Latest(w, other, c) && other != peer
    {
      LatestBefore(w, w', peer, c);
    }
    forall c: nat | c < |w'.conns| && Latest(w', w'.conns[c].peer, c) && !w'.conns[c].line.closed
      ensures w'.conns[c].peer in w'.channels
    {
      if c < |w.conns| {
        assert w'.conns[c] == w.conns[c];
      }
    }
  }

  lemma LatestBefore(w: World, w': World, peer: Peer, c: nat)
    requires c < |w.conns| && |w'.conns| == |w.conns| + 1 && w'.conns[|w.conns|].peer == peer
    requires forall d :: 0 <= d < |w.conns| ==> w'.conns[d] == w.conns[d]
    ensures forall other :: Latest(w', other, c) <==> Latest(w, other, c) && other != peer
  {
  }

  /** Noticing that a connection closed ends its registration, if it still is the one registered, and nothing else. */
  lemma ForgetDrops(e: Setup, w: World, c: nat)
    requires e.Valid() && Enabled(e, w, Forget(c))
    ensures var peer, w' := w.conns[c].peer, Next(e, w, Forget(c));
      && w' == w.(channels := w'.channels)
      && (forall other :: other in w'.channels <==> other in w.channels && !(other == peer && w.channels[other] == c))
      && forall other | other in w'.channels :: w'.channels[other] == w.channels[other]
  {
    hide Answer, Conclusion;
  }

  /** Asking a worker without a channel fails at once; asking another writes the call's message to its channel and waits. */
  lemma AskMeans(e: Setup, w: World, k: nat)
    requires e.Valid() && Enabled(e, w, Ask(k))
    ensures var peer, w' := Callee(w.phase, k), Next(e, w, Ask(k));
      && w'.messages == w.messages && |w'.calls| == |w.calls|
      && (forall i :: 0 <= i < |w.calls| && i != k ==> w'.calls[i] == w.calls[i])
      && if peer !in w.channels then
           w'.calls[k] == Done(None) && w' == w.(calls := w'.calls)
         else
           var c := w.channels[peer];
           && w'.calls[k] == Active(c, w.nextReq) && w'.nextReq == w.nextReq + 1
           && w'.log == w.log[w.nextReq := Envelope(c, w.messages[k])]
           && |w'.conns| == |w.conns| && w'.conns[c].line == w.conns[c].line.Request(w.nextReq)
           && forall d :: 0 <= d < |w.conns| && d != c ==> w'.conns[d] == w.conns[d]
  {
    hide Answer, Conclusion;
  }

  /** Connections keep their peers, open none again, and registrations stay. */
  ghost predicate SameRegistrations(w: World, w': World) {
    && w'.channels == w.channels && |w'.conns| == |w.conns|
    && forall c :: 0 <= c < |w.conns| ==>
         w'.conns[c].peer == w.conns[c].peer && (w.conns[c].line.closed ==> w'.conns[c].line.closed)
  }

  lemma SameStaysRegistered(w: World, w': World)
    requires LatestRegistered(w) && SameRegistrations(w, w')
    ensures LatestRegistered(w')
  {
    forall c: nat | c < |w'.conns| && Latest(w', w'.conns[c].peer, c) && !w'.conns[c].line.closed
      ensures w'.conns[c].peer in w'.channels
    {
      assert Latest(w, w.conns[c].peer, c);
    }
  }

  lemma OthersRegisterNothing(e: Setup, w: World, s: Action)
    requires e.Valid() && WorldOk(e, w) && Enabled(e, w, s) && !s.Join? && !s.Forget?
    ensures SameRegistrations(w, Next(e, w, s))
  {
    hide WorldOk, Answer;
    if s.Conclude? {
      ConclusionSame(e, w);
    }
  }

  lemma ConclusionSame(e: Setup, w: World)
    requires e.Valid() && Enabled(e, w, Conclude) && e.t.M() > 0
    ensures SameRegistrations(w, Next(e, w, Conclude))
  {
    hide Answer;
    ConclusionLeavesNetwork(e, w);
    hide Conclusion;
  }

  lemma StepKeepsRegistrations(e: Setup, w: World, s: Action)
    requires e.Valid() && WorldOk(e, w) && Enabled(e, w, s) && LatestRegistered(w)
    ensures LatestRegistered(Next(e, w, s))
  {
    hide WorldOk;
    if s.Join? {
      hide Next;
      JoinRegisters(e, w, s.peer);
    } else if !s.Forget? {
      hide Next;
      OthersRegisterNothing(e, w, s);
      SameStaysRegistered(w, Next(e, w, s));
    }
  }

  /** In every run, whatever is lost, forgotten and rejoined, the controller talks to the latest connection of each worker. */
  lemma {:induction false} RegisteredIsLatest(e: Setup, run: seq<World>, steps: seq<Action>, k: nat)
    requires e.Valid() && IsRun(e, run, steps) && k < |run|
    ensures LatestRegistered(run[k])
  {
    hide Next, Enabled, WorldOk, LatestRegistered;
    if k == 0 {
      NobodyYet(e);
    } else {
      RunKeepsWorld(e, run, steps, k - 1);
      RegisteredIsLatest(e, run, steps, k - 1);
      assert Takes(e, run, steps, k - 1);
      StepKeepsRegistrations(e, run[k - 1], steps[k - 1]);
    }
  }

  lemma NobodyYet(e: Setup)
    ensures LatestRegistered(Start(e))
  {
  }
}
