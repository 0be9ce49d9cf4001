/**
 Runs of the client in which the websocket transport is run again with something left of its first run:
 a stop token, a close still to come, or a reader that has yet to call.  Each of the three is reachable
 without the others.
 */
module EngineReuseWitness {
  import opened Options
  import opened Bytes
  import opened GoInt
  import opened Frames
  import opened TransportContract
  import opened EngineClient
  import opened EngineInvariant
  import opened EngineProof
  import opened EngineReach
  import opened EngineReuse
  import W = EngineWitness
  import PT = PollingTransport
  import WT = WebsocketTransport

  // ------------------------------------------------------------------ steps, one lemma for each kind

  lemma WsMoves(s: State, a: WT.LoopAct) returns (t: State)
    requires Reachable(s) && s.crash.None? && WsEnabled(s, a) && WT.LoopEffect(s.ws, a).Silent?
    ensures t == s.(ws := WT.LoopNext(s.ws, a)) && Reachable(t)
  {
    hide Reachable, WT.LoopNext, WT.LoopEffect, WT.Enabled;
    SilentChangesNothing(s, s.ws.onClose);
    NextReachable(s, ByWs(a));
    t := Next(s, ByWs(a));
  }

  lemma WsForwards(s: State) returns (t: State)
    requires Reachable(s) && s.crash.None? && s.ws.loop.Forwarding? && s.queue == [] && !s.queueClosed
    ensures t == s.(ws := WT.LoopNext(s.ws, WT.ForwardSent),
                    queue := [s.ws.loop.frame], enq := s.enq + [s.ws.loop.frame])
    ensures Reachable(t)
  {
    hide Reachable;
    NextReachable(s, ByWs(WT.ForwardSent));
    t := Next(s, ByWs(WT.ForwardSent));
  }

  lemma WsSignals(s: State) returns (t: State)
    requires Reachable(s) && s.crash.None? && s.ws.loop.Closing? && s.ws.onClose < |s.chans|
    requires s.chans[s.ws.onClose].Fresh?
    ensures t == s.(ws := WT.LoopNext(s.ws, WT.PutClose), chans := s.chans[s.ws.onClose := Signalled])
    ensures Reachable(t)
  {
    hide Reachable;
    NextReachable(s, ByWs(WT.PutClose));
    t := Next(s, ByWs(WT.PutClose));
  }

  lemma PollMoves(s: State, a: PT.LoopAct) returns (t: State)
    requires Reachable(s) && s.crash.None? && PollEnabled(s, a) && PT.LoopEffect(s.poll, a).Silent?
    ensures t == s.(poll := PT.LoopNext(s.poll, a)) && Reachable(t)
  {
    hide Reachable, PT.LoopNext, PT.LoopEffect, PT.Enabled;
    SilentChangesNothing(s, s.poll.onClose);
    NextReachable(s, ByPoll(a));
    t := Next(s, ByPoll(a));
  }

  lemma PollForwards(s: State) returns (t: State)
    requires Reachable(s) && s.crash.None? && s.poll.loop.Offering? && s.queue == [] && !s.queueClosed
    ensures t == s.(poll := PT.LoopNext(s.poll, PT.OfferSent),
                    queue := [s.poll.loop.frame], enq := s.enq + [s.poll.loop.frame])
    ensures Reachable(t)
  {
    hide Reachable;
    NextReachable(s, ByPoll(PT.OfferSent));
    t := Next(s, ByPoll(PT.OfferSent));
  }

  lemma PollSignals(s: State) returns (t: State)
    requires Reachable(s) && s.crash.None? && s.poll.loop.Signalling?
    requires s.poll.onClose < |s.chans| && s.chans[s.poll.onClose].Fresh?
    ensures t == s.(poll := PT.LoopNext(s.poll, PT.PutClose), chans := s.chans[s.poll.onClose := Signalled])
    ensures Reachable(t)
  {
    hide Reachable;
    NextReachable(s, ByPoll(PT.PutClose));
    t := Next(s, ByPoll(PT.PutClose));
  }

  function Offer(target: TransportName): Frame {
    Frame.Open(true, 0, [Named(target)])
  }

  /** The message loop takes an OPEN that offers the other transport, and decides to upgrade to it. */
  lemma OfferIsTaken(s: State, target: TransportName) returns (t: State)
    requires Reachable(s) && s.crash.None? && s.msg.MIdle? && s.queue == [Offer(target)] && s.supported == W.BOTH
    requires s.transport.Some? && s.transport.value != target
    ensures t == s.(queue := [], sid := true, poll := PT.SetHandshake(s.poll), msg := MLock(target)) && Reachable(t)
  {
    hide Reachable, PT.SetHandshake;
    NextReachable(s, ByMsg(Receive));
    var s1 := Next(s, ByMsg(Receive));
    var s2 := OfferIsDispatched(s1, target);
    NextReachable(s2, ByMsg(Handle(true, 1)));
    t := Next(s2, ByMsg(Handle(true, 1)));
  }

  lemma OfferIsDispatched(s: State, target: TransportName) returns (t: State)
    requires Reachable(s) && s.crash.None? && s.msg == MDispatch(Offer(target)) && s.supported == W.BOTH
    ensures t == s.(sid := true, poll := PT.SetHandshake(s.poll), msg := MDecide([Named(target)])) && Reachable(t)
  {
    hide Reachable, PT.SetHandshake;
    NextReachable(s, ByMsg(Handle(true, 1)));
    t := Next(s, ByMsg(Handle(true, 1)));
    assert s.sent + [] == s.sent && s.delivered + [] == s.delivered;
  }

  lemma UpgradeLocks(s: State, target: TransportName) returns (t: State)
    requires Reachable(s) && s.crash.None? && s.msg == MLock(target) && s.transport.Some? && !s.locked
    ensures t == s.(msg := MStop(target, PT.StopCas), locked := true, gates := s.gates + [false],
                    made := s.made + [|s.sent|], wu := Some(|s.gates|), wuSpent := false)
    ensures Reachable(t)
  {
    hide Reachable;
    NextReachable(s, ByMsg(Handle(true, 1)));
    t := Next(s, ByMsg(Handle(true, 1)));
  }

  lemma WebsocketIsStopped(s: State) returns (t: State)
    requires Reachable(s) && s.crash.None? && s.transport == Some(Websocket) && s.msg == MStop(Polling, PT.StopCas)
    ensures t == s.(ws := WT.Stop(s.ws), msg := MWait(Polling)) && Reachable(t)
  {
    hide Reachable;
    NextReachable(s, ByMsg(Handle(true, 1)));
    t := Next(s, ByMsg(Handle(true, 1)));
  }

  lemma WaitEnds(s: State, target: TransportName) returns (t: State)
    requires Reachable(s) && s.crash.None? && s.msg == MWait(target)
    requires s.chans != [] && s.chans[|s.chans| - 1].Signalled?
    ensures t == s.(chans := s.chans[|s.chans| - 1 := Drained], msg := MRun(target)) && Reachable(t)
  {
    hide Reachable;
    NextReachable(s, ByMsg(Handle(true, 1)));
    t := Next(s, ByMsg(Handle(true, 1)));
  }

  lemma PollingRuns(s: State) returns (t: State)
    requires Reachable(s) && s.crash.None? && s.msg == MRun(Polling) && s.sid
    ensures t == s.(owner := Polling, chans := s.chans + [Fresh], poll := PT.Run(s.poll, true, |s.chans|),
                    transport := Some(Polling), locked := false, msg := MProbe(Polling))
    ensures Reachable(t)
  {
    hide Reachable, PT.Run;
    NextReachable(s, ByMsg(Handle(true, 1)));
    t := Next(s, ByMsg(Handle(true, 1)));
  }

  lemma PollingIsProbed(s: State, hook: nat) returns (t: State)
    requires Reachable(s) && s.crash.None? && s.msg == MProbe(Polling) && s.transport.Some?
    requires s.wh.Opened? && s.whSpent && hook !in s.senders
    ensures t == s.(msg := MIdle, upgraded := true, sent := t.sent, senders := t.senders) && Reachable(t)
  {
    hide Reachable;
    NextReachable(s, ByMsg(Handle(true, hook)));
    var s1 := Next(s, ByMsg(Handle(true, hook)));
    NextReachable(s1, ByMsg(Handle(true, hook)));
    t := Next(s1, ByMsg(Handle(true, hook)));
  }

  // ------------------------------------------------------------------ the run

  datatype Leftover = Token | LateClose | LateReader

  /** The first websocket run, between two messages. */
  predicate BetweenMessages(w: WT.Transport) {
    && w.loop.Spawning? && w.onClose == 1 && !w.token && w.conn.Some?
    && !w.closing && w.staleClosing == 0 && w.calling == 0 && w.staleCalling == 0
    && w.receiving == 0 && w.holding == [] && w.failing == 0 && w.inbox == [] && w.errors == 0
  }

  /** What has ended, and what that has left. */
  predicate Left(w: WT.Transport, left: Leftover) {
    && (w.token <==> left.Token?)
    && (w.closing <==> left.LateClose?) && w.staleClosing == 0
    && w.calling == (if left.LateReader? then 1 else 0) && w.staleCalling == 0
  }

  /** An upgraded client at rest; `chan` is its current transportClosed channel. */
  predicate Rest(s: State) {
    && s.crash.None? && s.msg.MIdle? && !s.queueClosed && !s.locked && !s.ctxDone && s.supported == W.BOTH
    && s.transport == Some(Websocket) && s.wh.Opened? && s.whSpent && s.senders.Keys == {0, 1}
    && s.chans == [Drained, Fresh] && s.gates == [false] && s.wu == Some(0) && s.closers == map[]
  }

  lemma FirstUpgrade() returns (s: State)
    ensures Reachable(s) && Rest(s) && s.queue == [] && BetweenMessages(s.ws)
    ensures s.connect.COk? && s.owner.Websocket?
  {
    hide Reachable, WT.Run, WT.Clean, BetweenMessages;
    var before;
    s, before := W.UpgradesWithWaiter();
    assert s.senders.Keys == {0, 1};
    RunIsBetween(before, 1);
  }

  lemma RunIsBetween(w: WT.Transport, chan: nat)
    requires chan == 1 && WT.Clean(w)
    ensures BetweenMessages(WT.Run(w, chan))
  {
  }

  /** A reader of the first websocket run receives an offer of polling. */
  lemma OfferIsReceived(s: State) returns (t: State)
    requires Reachable(s) && Rest(s) && s.queue == [] && BetweenMessages(s.ws)
    ensures t.senders == s.senders
    ensures Reachable(t) && Rest(t) && t.queue == [] && t.ws.loop.Selecting? && t.ws.holding == [Offer(Polling)]
    ensures BetweenMessages(t.ws.(loop := WT.Spawning, holding := []))
  {
    hide Reachable;
    var s1 := WsMoves(s, WT.Spawn);
    var s2 := WsMoves(s1, WT.ReaderCalls);
    t := WsMoves(s2, WT.ReaderGets(Offer(Polling)));
  }

  /** And the loop forwards it. */
  lemma OfferArrives(s: State) returns (t: State)
    requires Reachable(s) && Rest(s) && s.queue == [] && s.ws.loop.Selecting? && s.ws.holding == [Offer(Polling)]
    requires BetweenMessages(s.ws.(loop := WT.Spawning, holding := []))
    ensures Reachable(t) && Rest(t) && t.queue == [Offer(Polling)] && BetweenMessages(t.ws)
    ensures t.senders == s.senders
  {
    hide Reachable;
    var s1 := WsMoves(s, WT.ReaderDelivers(0));
    var s2 := WsMoves(s1, WT.SelectTakes);
    t := WsForwards(s2);
  }

  /** The loop, notified or failing, ends and puts its signal. */
  lemma LoopSignals(s: State) returns (t: State)
    requires Reachable(s) && s.crash.None? && s.ws.loop.Closing? && s.ws.onClose == 1 && s.chans == [Drained, Fresh]
    ensures Reachable(t) && t == s.(ws := t.ws, chans := [Drained, Signalled])
    ensures t.ws == s.ws.(loop := WT.Exited, closes := s.ws.closes + 1, closing := true)
  {
    hide Reachable;
    t := WsSignals(s);
  }

  /** The message loop handles the offer up to its wait for the websocket loop. */
  lemma WebsocketIsLeft(s: State) returns (t: State)
    requires Reachable(s) && s.crash.None? && s.msg.MIdle? && s.queue == [Offer(Polling)] && s.supported == W.BOTH
    requires s.transport == Some(Websocket) && !s.locked
    ensures Reachable(t) && t == s.(queue := [], sid := true, poll := t.poll, msg := MWait(Polling), locked := true,
                                    gates := t.gates, made := t.made, wu := t.wu, wuSpent := false, ws := WT.Stop(s.ws))
  {
    hide Reachable, PT.SetHandshake;
    var s1 := OfferIsTaken(s, Polling);
    var s2 := UpgradeLocks(s1, Polling);
    t := WebsocketIsStopped(s2);
  }

  /** The loop takes the token; its reader may have called or not, and the connection may be closed or not. */
  lemma EndsByToken(s: State, left: Leftover) returns (t: State)
    requires Reachable(s) && Rest(s) && s.queue == [Offer(Polling)] && BetweenMessages(s.ws) && !left.Token?
    ensures Reachable(t) && RunEnded(t, left)
  {
    hide Reachable, PT.SetHandshake;
    var s1 := WsMoves(s, WT.Spawn);
    if left.LateClose? {
      s1 := WsMoves(s1, WT.ReaderCalls);
    }
    var s2 := WebsocketIsLeft(s1);
    var s3 := WsMoves(s2, WT.SelectStops);
    t := LoopSignals(s3);
    if !left.LateClose? {
      t := WsMoves(t, WT.CloseConn);
    }
  }

  /** The connection fails, and the loop ends by itself. */
  lemma LoopFails(s: State) returns (t: State)
    requires Reachable(s) && Rest(s) && s.queue == [Offer(Polling)] && BetweenMessages(s.ws)
    ensures Reachable(t) && t == s.(ws := t.ws) && t.ws.loop.Closing? && BetweenMessages(t.ws.(loop := WT.Spawning))
  {
    hide Reachable;
    var s1 := WsMoves(s, WT.Spawn);
    var s2 := WsMoves(s1, WT.ReaderCalls);
    var s3 := WsMoves(s2, WT.ReaderFails);
    var s4 := WsMoves(s3, WT.ReaderReports);
    t := WsMoves(s4, WT.SelectFails);
  }

  lemma EndsByError(s: State) returns (t: State)
    requires Reachable(s) && Rest(s) && s.queue == [Offer(Polling)] && BetweenMessages(s.ws)
    ensures Reachable(t) && RunEnded(t, Token)
  {
    hide Reachable, PT.SetHandshake;
    var s1 := LoopFails(s);
    var s2 := LoopSignals(s1);
    var s3 := WsMoves(s2, WT.CloseConn);
    t := WebsocketIsLeft(s3);
  }

  /** Polling runs, and its first GET brings an offer of websocket. */
  lemma PollingOffers(s: State) returns (t: State)
    requires Reachable(s) && s.crash.None? && s.msg == MWait(Polling) && s.chans == [Drained, Signalled]
    requires s.queue == [] && !s.queueClosed && !s.ctxDone && s.sid && s.supported == W.BOTH
    requires s.wh.Opened? && s.whSpent && s.senders.Keys == {0, 1}
    ensures Reachable(t) && t.crash.None? && t.msg.MIdle? && t.ws == s.ws && t.supported == W.BOTH && !t.locked
    ensures t.queue == [Offer(Websocket)] && t.transport == Some(Polling) && t.chans == [Drained, Drained, Fresh]
    ensures t.poll.loop.LoopTop? && t.poll.onClose == 2 && PT.Unstopped(t.poll) && !t.poll.stopped && !t.ctxDone
  {
    hide Reachable;
    var s1 := WaitEnds(s, Polling);
    var s2 := PollingRuns(s1);
    var s3 := PollingIsProbed(s2, 2);
    var s4 := PollMoves(s3, PT.GatePasses);
    var s5 := PollMoves(s4, PT.TopPolls);
    var s6 := PollMoves(s5, PT.GetReturns(Offer(Websocket)));
    t := PollForwards(s6);
  }

  lemma PollingIsStopped(s: State) returns (t: State)
    requires Reachable(s) && s.crash.None? && s.transport == Some(Polling) && s.msg == MStop(Websocket, PT.StopCas)
    requires s.poll.loop.LoopTop? && PT.Unstopped(s.poll) && !s.poll.stopped
    requires s.poll.onClose == 2 && s.chans == [Drained, Drained, Fresh]
    ensures Reachable(t) && t.crash.None? && t.msg == MWait(Websocket) && t.ws == s.ws
    ensures t.chans == [Drained, Drained, Signalled]
  {
    hide Reachable;
    var s1 := W.StopReturns(s);
    var s2 := PollMoves(s1, PT.TopStops);
    var s3 := PollMoves(s2, PT.StoreStopped);
    t := PollSignals(s3);
  }

  lemma BackToWebsocket(s: State) returns (t: State)
    requires Reachable(s) && s.crash.None? && s.msg.MIdle? && s.supported == W.BOTH && !s.locked
    requires s.queue == [Offer(Websocket)] && s.transport == Some(Polling) && s.chans == [Drained, Drained, Fresh]
    requires s.poll.loop.LoopTop? && s.poll.onClose == 2 && PT.Unstopped(s.poll) && !s.poll.stopped
    ensures Reachable(t) && t.crash.None? && t.msg == MRun(Websocket) && t.ws == s.ws
  {
    hide Reachable;
    var s1 := OfferIsTaken(s, Websocket);
    var s2 := UpgradeLocks(s1, Websocket);
    var s3 := PollingIsStopped(s2);
    t := WaitEnds(s3, Websocket);
  }

  lemma FirstOffer() returns (s: State)
    ensures Reachable(s) && Rest(s) && s.queue == [Offer(Polling)] && BetweenMessages(s.ws)
  {
    hide Reachable, Rest, BetweenMessages, WT.Run;
    var s0 := FirstUpgrade();
    var s1 := OfferIsReceived(s0);
    s := OfferArrives(s1);
  }

  predicate RunEnded(s: State, left: Leftover) {
    && s.crash.None? && s.msg == MWait(Polling) && s.chans == [Drained, Signalled]
    && Left(s.ws, left) && s.queue == [] && !s.queueClosed && !s.ctxDone && s.sid && s.supported == W.BOTH
    && s.wh.Opened? && s.whSpent && s.senders.Keys == {0, 1}
  }

  lemma FirstRunEnds(left: Leftover) returns (t: State)
    ensures Reachable(t) && RunEnded(t, left)
  {
    hide Reachable, Rest, BetweenMessages;
    var s := FirstOffer();
    if left.Token? {
      t := EndsByError(s);
    } else {
      t := EndsByToken(s, left);
    }
  }

  lemma LeftIsDirty(w: WT.Transport, left: Leftover)
    requires Left(w, left)
    ensures !WT.Clean(w)
  {
  }

  /**
   Each kind of leftover can be there alone when the client runs the websocket transport again, so that none
   of the three conditions of a clean reuse can be left out.
   */
  lemma EachLeftoverIsReachable(left: Leftover) returns (s: State)
    ensures Reachable(s) && s.crash.None? && s.msg == MRun(Websocket)
    ensures Left(s.ws, left) && !WT.Clean(s.ws)
  {
    hide Reachable, PT.Unstopped, Left, WT.Clean;
    var s2 := FirstRunEnds(left);
    var s3 := PollingOffers(s2);
    s := BackToWebsocket(s3);
    LeftIsDirty(s.ws, left);
  }

  /** And each of them, alone, can disturb the run that begins then. */
  lemma EachLeftoverDisturbs(left: Leftover, hook: nat) returns (s: State)
    ensures Reachable(s) && s.crash.None? && s.msg == MRun(Websocket) && Left(s.ws, left)
    ensures Enabled(s, ByMsg(Handle(true, hook))) && !NeverDisturbed(Next(s, ByMsg(Handle(true, hook))))
  {
    hide Reachable, Inv, Left, Enabled, Next, WT.Clean, WT.Run, WT.Undisturbed, WebsocketLeftAlone;
    s := EachLeftoverIsReachable(left);
    ReachableKeeps(s);
    RunsWebsocket(s, hook);
    var t := Next(s, ByMsg(Handle(true, hook)));
    var ss, acts := LeftoversDisturb(t, s.ws, |s.chans|);
    assert RunFrom(t, ss, acts) && WebsocketLeftAlone(ss, acts) && !WT.Undisturbed(ss[|acts|].ws);
  }

  // ------------------------------------------------------------------ a gate that is replaced

  /** The connect hook's Send goes on to the upgrade gate. */
  lemma HookWaits(s: State) returns (t: State)
    requires Reachable(s) && Rest(s) && s.senders[1] == Sender(Hook, None, SNew)
    ensures Reachable(t) && t == s.(senders := s.senders[1 := Sender(Hook, Some(0), SAwaitUpgrade)])
  {
    hide Reachable;
    NextReachable(s, BySend(1, Step));
    var s1 := Next(s, BySend(1, Step));
    NextReachable(s1, BySend(1, Step));
    t := Next(s1, BySend(1, Step));
  }

  /** While it waits there, a second OPEN begins another upgrade. */
  lemma GateIsReplaced() returns (s: State)
    ensures Reachable(s) && s.crash.None? && s.transport.Some? && s.closers == map[]
    ensures s.gates == [false, false] && 1 in s.senders && s.senders[1] == Sender(Hook, Some(0), SAwaitUpgrade)
  {
    hide Reachable, BetweenMessages, WT.Run, WT.Clean, PT.SetHandshake;
    var s0, before := W.UpgradesWithWaiter();
    assert s0.senders.Keys == {0, 1};
    RunIsBetween(before, 1);
    var s1 := HookWaits(s0);
    assert s1.senders.Keys == {0, 1};
    var s2 := OfferIsReceived(s1);
    var s3 := OfferArrives(s2);
    var s4 := OfferIsTaken(s3, Polling);
    s := UpgradeLocks(s4, Polling);
  }
}
