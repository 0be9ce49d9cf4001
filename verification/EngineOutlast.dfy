/**
 The wait of Close for the websocket transport has no bound: the read loop chooses between messages and the
 stop token, and as long as it chooses messages, and the message loop consumes them, the wait goes on.
 */
module EngineOutlast {
  import opened Options
  import opened Bytes
  import opened Frames
  import opened TransportContract
  import opened EngineClient
  import opened EngineProof
  import opened EngineReach
  import W = EngineWitness
  import R = EngineReuseWitness
  import WT = WebsocketTransport

  /** A Close has stopped the websocket transport and waits; the read loop is between two messages. */
  predicate Outlasting(s: State) {
    && s.crash.None? && s.msg.MIdle? && s.queue == [] && !s.queueClosed && s.closers == map[0 := KWait]
    && s.owner.Websocket? && s.ws.token && R.BetweenMessages(s.ws.(token := false))
  }

  lemma WsMoves(from: State, s: State, a: WT.LoopAct) returns (t: State)
    requires ReachableFrom(from, s) && s.crash.None? && WsEnabled(s, a) && WT.LoopEffect(s.ws, a).Silent?
    ensures t == s.(ws := WT.LoopNext(s.ws, a)) && ReachableFrom(from, t)
  {
    hide ReachableFrom, WT.LoopNext, WT.LoopEffect, WT.Enabled;
    SilentChangesNothing(s, s.ws.onClose);
    NextReachableFrom(from, s, ByWs(a));
    t := Next(s, ByWs(a));
  }

  /** A message arrives at the outer select. */
  lemma MessageArrives(from: State, s: State) returns (t: State)
    requires ReachableFrom(from, s) && Outlasting(s)
    ensures ReachableFrom(from, t) && t == s.(ws := t.ws) && t.ws.loop.Selecting? && t.ws.holding == [Other]
    ensures t.ws.token && R.BetweenMessages(t.ws.(token := false, loop := WT.Spawning, holding := []))
  {
    hide ReachableFrom;
    var s1 := WsMoves(from, s, WT.Spawn);
    var s2 := WsMoves(from, s1, WT.ReaderCalls);
    t := WsMoves(from, s2, WT.ReaderGets(Other));
  }

  /** The loop takes it rather than the token. */
  lemma MessageIsTaken(from: State, s: State) returns (t: State)
    requires ReachableFrom(from, s) && s.crash.None? && s.ws.loop.Selecting? && s.ws.holding == [Other] && s.ws.token
    requires R.BetweenMessages(s.ws.(token := false, loop := WT.Spawning, holding := []))
    ensures ReachableFrom(from, t) && t == s.(ws := t.ws) && t.ws.loop == WT.Forwarding(Other)
    ensures t.ws.token && R.BetweenMessages(t.ws.(token := false, loop := WT.Spawning))
  {
    hide ReachableFrom;
    var s1 := WsMoves(from, s, WT.ReaderDelivers(0));
    t := WsMoves(from, s1, WT.SelectTakes);
  }

  lemma MessageIsForwarded(from: State, s: State) returns (t: State)
    requires ReachableFrom(from, s) && s.crash.None? && s.queue == [] && !s.queueClosed
    requires s.ws.loop == WT.Forwarding(Other)
    ensures ReachableFrom(from, t)
    ensures t == s.(ws := WT.LoopNext(s.ws, WT.ForwardSent), queue := [Other], enq := s.enq + [Other])
  {
    hide ReachableFrom;
    NextReachableFrom(from, s, ByWs(WT.ForwardSent));
    t := Next(s, ByWs(WT.ForwardSent));
  }

  lemma MessageIsConsumed(from: State, s: State) returns (t: State)
    requires ReachableFrom(from, s) && s.crash.None? && s.msg.MIdle? && s.queue == [Other]
    ensures ReachableFrom(from, t) && t == s.(queue := [])
  {
    hide ReachableFrom;
    NextReachableFrom(from, s, ByMsg(Receive));
    var s1 := Next(s, ByMsg(Receive));
    NextReachableFrom(from, s1, ByMsg(Handle(true, 0)));
    t := Next(s1, ByMsg(Handle(true, 0)));
    assert s.sent + [] == s.sent && s.delivered + [] == s.delivered;
  }

  lemma Lap(from: State, s: State) returns (t: State)
    requires ReachableFrom(from, s) && Outlasting(s)
    ensures ReachableFrom(from, t) && Outlasting(t) && |t.enq| == |s.enq| + 1
  {
    hide ReachableFrom;
    var s1 := MessageArrives(from, s);
    var s2 := MessageIsTaken(from, s1);
    var s3 := MessageIsForwarded(from, s2);
    t := MessageIsConsumed(from, s3);
  }

  lemma {:induction false} Laps(s: State, n: nat) returns (t: State)
    requires Outlasting(s)
    ensures ReachableFrom(s, t) && Outlasting(t) && |t.enq| == |s.enq| + n
  {
    if n == 0 {
      StaysReachable(s);
      t := s;
    } else {
      var u := Laps(s, n - 1);
      t := Lap(s, u);
    }
  }

  lemma CloseWaits(s: State) returns (t: State)
    requires Reachable(s) && R.Rest(s) && s.queue == [] && R.BetweenMessages(s.ws)
    requires s.connect.COk? && s.owner.Websocket?
    ensures Reachable(t) && Outlasting(t)
  {
    hide Reachable;
    NextReachable(s, ByClose(0, Begin));
    var s1 := Next(s, ByClose(0, Begin));
    NextReachable(s1, ByClose(0, Proceed));
    t := Next(s1, ByClose(0, Proceed));
  }

  /**
   Whatever number of frames, there is a run in which one Close waits for the websocket transport while that
   many are forwarded and consumed.
   */
  lemma CloseOutlasts(n: nat) returns (s: State, t: State)
    ensures Reachable(s) && ReachableFrom(s, t) && s.crash.None? && t.crash.None?
    ensures s.owner.Websocket? && s.closers == t.closers == map[0 := KWait]
    ensures |t.enq| == |s.enq| + n
  {
    hide Reachable, ReachableFrom, R.Rest, R.BetweenMessages;
    var s0 := R.FirstUpgrade();
    s := CloseWaits(s0);
    t := Laps(s, n);
  }
}
