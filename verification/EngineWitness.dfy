/**
 Concrete runs of the Engine.IO client that show where its guarantees end: what a caller outside the
 Socket.IO stack, a second Close or an unexpected frame can bring about.
 */
module EngineWitness {
  import opened Options
  import opened Bytes
  import opened GoInt
  import opened Frames
  import opened TransportContract
  import opened EngineClient
  import opened EngineReach
  import opened EngineOrdering
  import opened EngineTheorems
  import PT = PollingTransport
  import WT = WebsocketTransport

  lemma InitReachable(supported: set<TransportName>)
    requires supported != {}
    ensures Reachable(InitialState(supported, false, ROOT))
  {
    StaysReachable(InitialState(supported, false, ROOT));
    assert IsFreshClient(InitialState(supported, false, ROOT));
  }

  const BOTH := {Polling, Websocket}

  /** Connect up to its handshake request. */
  function Requesting(): State {
    InitialState(BOTH, false, ROOT).(
      chans := [Fresh], poll := PT.Run(PT.NEW, false, 0), msg := MIdle, wh := Waiting, connect := CGet)
  }

  lemma ConnectRequests()
    ensures Reachable(Requesting())
  {
    var s := InitialState(BOTH, false, ROOT);
    InitReachable(BOTH);
    NextReachable(s, ByConnect(RunIt(true)));
    var s1 := Next(s, ByConnect(RunIt(true)));
    NextReachable(s1, ByConnect(Launch));
    var s2 := Next(s1, ByConnect(Launch));
    NextReachable(s2, ByConnect(Install));
    var s3 := Next(s2, ByConnect(Install));
    NextReachable(s3, ByConnect(Request));
    assert Next(s3, ByConnect(Request)) == Requesting();
  }

  /** Connect has returned nil after a GET that brought `f`. */
  function Connected(f: Frame): State {
    Requesting().(queue := [f], enq := [f], connect := COk)
  }

  lemma ConnectReturns(f: Frame)
    ensures Reachable(Connected(f))
  {
    var s := Requesting();
    ConnectRequests();
    NextReachable(s, ByConnect(GetReturns(f)));
    var s1 := Next(s, ByConnect(GetReturns(f)));
    NextReachable(s1, ByConnect(OfferSent));
    assert Next(s1, ByConnect(OfferSent)) == Connected(f);
  }

  /**
   FIFO conservation speaks of the Close that took the transport.  Another Close returns at once, with a
   live context and a payload still undelivered.
   */
  lemma SecondCloseDoesNotWait(data: Bytes) returns (s: State)
    ensures Reachable(s) && s.crash.None? && !s.ctxDone
    ensures 1 in s.closers && s.closers[1] == KReturned(false)
    ensures s.delivered == [] && Payloads(s.enq) == [data]
  {
    var s0 := Connected(Message(data, Ordinary));
    ConnectReturns(Message(data, Ordinary));
    NextReachable(s0, ByClose(0, Begin));
    var s1 := Next(s0, ByClose(0, Begin));
    NextReachable(s1, ByClose(1, Begin));
    s := Next(s1, ByClose(1, Begin));
    PayloadsSnoc([], Message(data, Ordinary));
    assert [] + [Message(data, Ordinary)] == s.enq;
  }

  /** A PING dispatched after Close has taken the transport makes the client panic. */
  lemma PingAfterClosePanics() returns (s: State)
    ensures Reachable(s) && s.crash == Some(NilTransport)
  {
    var s0 := Connected(Ping);
    ConnectReturns(Ping);
    NextReachable(s0, ByClose(0, Begin));
    var s1 := Next(s0, ByClose(0, Begin));
    NextReachable(s1, ByMsg(Receive));
    var s2 := Next(s1, ByMsg(Receive));
    NextReachable(s2, ByMsg(Handle(true, 0)));
    s := Next(s2, ByMsg(Handle(true, 0)));
  }

  /** One frame, taken and handled right after Connect. */
  lemma FirstFrameHandled(f: Frame) returns (s: State)
    ensures Reachable(s) && s == Dispatch(Connected(f).(queue := [], msg := MDispatch(f)), f)
  {
    hide Dispatch, Reachable;
    var s0 := Connected(f);
    ConnectReturns(f);
    NextReachable(s0, ByMsg(Receive));
    var s1 := Next(s0, ByMsg(Receive));
    NextReachable(s1, ByMsg(Handle(true, 0)));
    s := Next(s1, ByMsg(Handle(true, 0)));
  }

  /** An OPEN whose ping interval is negative makes the client reset a ticker to it. */
  lemma NegativeIntervalPanics() returns (s: State)
    ensures Reachable(s) && s.crash == Some(BadTicker)
  {
    TickerRange(-1);
    s := FirstFrameHandled(Frame.Open(true, -1, []));
  }

  /** A MESSAGE of one byte, an EVENT without its event, makes the client dereference nil. */
  lemma IncompletePacketPanics() returns (s: State)
    ensures Reachable(s) && s.crash == Some(NilPacket)
  {
    s := FirstFrameHandled(Message([0x32], Incomplete));
  }

  /** A caller of Send that does not wait for Connect finds no gates, and the polling transport. */
  lemma PicksBeforeConnect() returns (s: State)
    ensures Reachable(s) && s.crash.None? && s.connect.CStart? && PT.NeverRun(s.poll)
    ensures 0 in s.senders && s.senders[0].pc == SHand(Polling)
  {
    hide Reachable;
    var s0 := InitialState(BOTH, false, ROOT);
    InitReachable(BOTH);
    NextReachable(s0, BySend(0, Start(Bare)));
    var s1 := Next(s0, BySend(0, Start(Bare)));
    NextReachable(s1, BySend(0, Step));
    var s2 := Next(s1, BySend(0, Step));
    NextReachable(s2, BySend(0, Step));
    s := Next(s2, BySend(0, Step));
  }

  /** Handing its MESSAGE to that transport, which has no url yet, panics. */
  lemma SendBeforeConnectPanics() returns (s: State)
    ensures Reachable(s) && s.crash == Some(NilUrl) && s.connect.CStart?
  {
    hide Reachable;
    var t := PicksBeforeConnect();
    NextReachable(t, BySend(0, Step));
    s := Next(t, BySend(0, Step));
  }

  /** A probe's PONG that answers no probe makes the client close a nil channel. */
  lemma UnaskedPongPanics() returns (s: State)
    ensures Reachable(s) && s.crash == Some(NilGate)
  {
    hide Reachable;
    var s1 := FirstFrameHandled(Pong(true));
    NextReachable(s1, ByMsg(Handle(true, 0)));
    s := Next(s1, ByMsg(Handle(true, 0)));
  }

  // ------------------------------------------------------------------ two GETs

  /** A polling client that has requested its handshake. */
  lemma RequestWithSid(supported: set<TransportName>, sid: bool, defaultNs: Bytes) returns (s: State)
    requires Polling in supported
    ensures ReachableFrom(InitialState(supported, sid, defaultNs), s)
    ensures s == InitialState(supported, sid, defaultNs).(
                   chans := [Fresh], poll := PT.Run(PT.NEW, sid, 0), msg := MIdle, wh := Waiting, connect := CGet)
  {
    hide ReachableFrom;
    var s0 := InitialState(supported, sid, defaultNs);
    StaysReachable(s0);
    NextReachableFrom(s0, s0, ByConnect(RunIt(true)));
    var s1 := Next(s0, ByConnect(RunIt(true)));
    NextReachableFrom(s0, s1, ByConnect(Launch));
    var s2 := Next(s1, ByConnect(Launch));
    NextReachableFrom(s0, s2, ByConnect(Install));
    var s3 := Next(s2, ByConnect(Install));
    NextReachableFrom(s0, s3, ByConnect(Request));
    s := Next(s3, ByConnect(Request));
  }

  lemma LoopGetsToo(start: State, s: State) returns (t: State)
    requires ReachableFrom(start, s) && s.crash.None? && s.connect.CGet? && s.poll == PT.Run(PT.NEW, true, 0)
    requires !s.ctxDone
    ensures ReachableFrom(start, t) && t.crash.None? && t.connect.CGet? && t.poll.loop.InGet?
  {
    hide ReachableFrom;
    NextReachableFrom(start, s, ByPoll(PT.GatePasses));
    var s1 := Next(s, ByPoll(PT.GatePasses));
    NextReachableFrom(start, s1, ByPoll(PT.TopPolls));
    t := Next(s1, ByPoll(PT.TopPolls));
  }

  ghost predicate BothGet(s: State) {
    s.crash.None? && s.connect.CGet? && s.poll.loop.InGet?
  }

  lemma FreshNeverBoth(supported: set<TransportName>, defaultNs: Bytes, s: State)
    requires Polling in supported && ReachableFrom(InitialState(supported, false, defaultNs), s)
    ensures !BothGet(s)
  {
    hide Enabled, Next;
    var start := InitialState(supported, false, defaultNs);
    var ss: seq<State>, acts: seq<Action> :| RunFrom(start, ss, acts) && ss[|acts|] == s;
    assert IsFreshClient(start);
    if s.crash.None? {
      SingleGet(ss, acts, |acts|);
    }
  }

  /**
   A polling client can have its handshake GET and a GET of its loop in flight together exactly when it
   knows a session id already when Connect is called.
   */
  lemma TwoGetsIff(supported: set<TransportName>, sid: bool, defaultNs: Bytes)
    requires Polling in supported
    ensures (exists s :: ReachableFrom(InitialState(supported, sid, defaultNs), s) && BothGet(s)) <==> sid
  {
    hide ReachableFrom;
    if sid {
      var s := RequestWithSid(supported, true, defaultNs);
      var t := LoopGetsToo(InitialState(supported, true, defaultNs), s);
      assert BothGet(t);
    } else {
      forall s | ReachableFrom(InitialState(supported, sid, defaultNs), s)
        ensures !BothGet(s)
      {
        FreshNeverBoth(supported, defaultNs, s);
      }
    }
  }

  // ------------------------------------------------------------------ a caller outside the stack

  const OPEN := Frame.Open(true, 0, [Named(Websocket)])

  /** After Connect, but before its frame is handled, somebody has called Send on the engine. */
  function EarlySend(f: Frame): State {
    Connected(f).(senders := map[0 := Sender(Bare, None, SAwaitHandshake)])
  }

  lemma SendsEarly(f: Frame) returns (s: State)
    ensures Reachable(s) && s == EarlySend(f)
  {
    hide Reachable;
    var s0 := Connected(f);
    ConnectReturns(f);
    NextReachable(s0, BySend(0, Start(Bare)));
    var s1 := Next(s0, BySend(0, Start(Bare)));
    NextReachable(s1, BySend(0, Step));
    s := Next(s1, BySend(0, Step));
  }

  lemma CloseBegins(s: State) returns (t: State)
    requires Reachable(s) && s.crash.None? && s.connect.COk? && !s.locked && s.closers == map[] && s.transport.Some?
    ensures Reachable(t) && t == s.(transport := None, winner := Some(0), closers := t.closers)
  {
    hide Reachable;
    NextReachable(s, ByClose(0, Begin));
    t := Next(s, ByClose(0, Begin));
  }

  /** The OPEN is taken and its sid distributed. */
  function Deciding(): State {
    EarlySend(OPEN).(
      queue := [], msg := MDecide([Named(Websocket)]), sid := true,
      poll := PT.Run(PT.NEW, false, 0).(sid := true, gate := PT.GateOpen))
  }

  lemma OpenIsTaken()
    ensures Reachable(Deciding())
  {
    var s := SendsEarly(OPEN);
    NextReachable(s, ByMsg(Receive));
    var s1 := Next(s, ByMsg(Receive));
    NextReachable(s1, ByMsg(Handle(true, 1)));
    assert Next(s1, ByMsg(Handle(true, 1))) == Deciding();
  }

  /** transportUpgrade has made its gate and holds the lock. */
  function Locked(s: State): State {
    s.(msg := MStop(Websocket, PT.StopCas), locked := true, gates := [false], made := [0], wu := Some(0))
  }

  lemma UpgradeBegins(s: State)
    requires Reachable(s) && s == Deciding()
    ensures Reachable(Locked(s))
  {
    NextReachable(s, ByMsg(Handle(true, 1)));
    var s1 := Next(s, ByMsg(Handle(true, 1)));
    NextReachable(s1, ByMsg(Handle(true, 1)));
    assert Next(s1, ByMsg(Handle(true, 1))) == Locked(s);
  }

  /** One step of stopping the old polling transport. */
  lemma StopMoves(s: State, pc: PT.StopPc) returns (t: State)
    requires Reachable(s) && s.crash.None? && s.transport == Some(Polling) && s.msg == MStop(Websocket, pc)
    requires !s.poll.broadcast
    ensures
      var (poll, next) := PT.StopStep(s.poll, pc);
      t == s.(poll := poll, msg := if next.StopReturned? then MWait(Websocket) else MStop(Websocket, next))
    ensures Reachable(t)
  {
    NextReachable(s, ByMsg(Handle(true, 1)));
    t := Next(s, ByMsg(Handle(true, 1)));
  }

  lemma PollMoves(s: State, a: PT.LoopAct) returns (t: State)
    requires Reachable(s) && s.crash.None? && PollEnabled(s, a) && PT.LoopEffect(s.poll, a).Silent?
    ensures t == s.(poll := PT.LoopNext(s.poll, a)) && Reachable(t)
  {
    NextReachable(s, ByPoll(a));
    t := Next(s, ByPoll(a));
  }

  lemma PollSignals(s: State) returns (t: State)
    requires Reachable(s) && s.crash.None? && s.poll.loop.Signalling? && s.poll.onClose == 0 && s.chans == [Fresh]
    ensures t == s.(poll := PT.LoopNext(s.poll, PT.PutClose), chans := [Signalled]) && Reachable(t)
  {
    NextReachable(s, ByPoll(PT.PutClose));
    t := Next(s, ByPoll(PT.PutClose));
  }

  lemma StopReturns(s: State) returns (t: State)
    requires Reachable(s) && s.crash.None? && s.transport == Some(Polling) && s.msg == MStop(Websocket, PT.StopCas)
    requires !s.poll.stopped && !s.poll.once && !s.poll.broadcast
    ensures t == s.(msg := MWait(Websocket), poll := t.poll) && Reachable(t)
    ensures t.poll.token && t.poll.loop == s.poll.loop && t.poll.onClose == s.poll.onClose
  {
    hide Reachable, PollEnabled;
    var s1 := StopMoves(s, PT.StopCas);
    var s2 := StopMoves(s1, PT.StopCancel);
    var s3 := StopMoves(s2, PT.StopBroadcast);
    t := StopLast(s3);
  }

  /** Polling has been stopped and has put its signal. */
  lemma OldTransportStops(s: State) returns (t: State)
    requires Reachable(s) && s.crash.None? && s.poll.loop.AwaitGate? && s.poll.token
    requires s.poll.onClose == 0 && s.chans == [Fresh]
    ensures t == s.(chans := [Signalled], poll := t.poll) && Reachable(t)
  {
    hide Reachable;
    var s1 := PollMoves(s, PT.GateStops);
    var s2 := PollMoves(s1, PT.StoreStopped);
    t := PollSignals(s2);
  }

  lemma StopLast(s: State) returns (t: State)
    requires Reachable(s) && s.crash.None? && s.transport == Some(Polling) && s.msg == MStop(Websocket, PT.StopToken)
    ensures t == s.(poll := s.poll.(token := true), msg := MWait(Websocket)) && Reachable(t)
  {
    NextReachable(s, ByMsg(Handle(true, 1)));
    t := Next(s, ByMsg(Handle(true, 1)));
  }

  lemma WaitEnds(s: State) returns (t: State)
    requires Reachable(s) && s.crash.None? && s.msg == MWait(Websocket) && s.chans == [Signalled]
    ensures t == s.(chans := [Drained], msg := MRun(Websocket)) && Reachable(t)
  {
    NextReachable(s, ByMsg(Handle(true, 1)));
    t := Next(s, ByMsg(Handle(true, 1)));
  }

  lemma NewTransportRuns(s: State) returns (t: State)
    requires Reachable(s) && s.crash.None? && s.msg == MRun(Websocket) && s.chans == [Drained]
    ensures t == s.(chans := [Drained, Fresh], owner := Websocket, transport := Some(Websocket), locked := false,
                    ws := WT.Run(s.ws, 1), msg := MProbe(Websocket))
    ensures Reachable(t)
  {
    hide Reachable;
    NextReachable(s, ByMsg(Handle(true, 1)));
    t := Next(s, ByMsg(Handle(true, 1)));
  }

  lemma ProbeIsSent(s: State) returns (t: State)
    requires Reachable(s) && s.crash.None? && s.msg == MProbe(Websocket) && s.transport == Some(Websocket)
    requires s.wh.Waiting? && !s.whSpent && 1 !in s.senders && s.sent == []
    ensures t == s.(msg := MIdle, upgraded := true, sent := [Sent(Websocket, ProbePacket)],
                    wh := Opened, whSpent := true, senders := s.senders[1 := Sender(Hook, None, SNew)])
    ensures Reachable(t)
  {
    NextReachable(s, ByMsg(Handle(true, 1)));
    var s1 := Next(s, ByMsg(Handle(true, 1)));
    NextReachable(s1, ByMsg(Handle(true, 1)));
    t := Next(s1, ByMsg(Handle(true, 1)));
  }

  lemma WaitingSendWakes(s: State) returns (t: State)
    requires Reachable(s) && s.crash.None? && s.wh.Opened? && !s.locked && s.transport == Some(Websocket)
    requires 0 in s.senders && s.senders[0] == Sender(Bare, None, SAwaitHandshake)
    ensures t == s.(senders := s.senders[0 := Sender(Bare, None, SHand(Websocket))]) && Reachable(t)
  {
    hide Reachable;
    NextReachable(s, BySend(0, Step));
    var s1 := Next(s, BySend(0, Step));
    NextReachable(s1, BySend(0, Step));
    t := Next(s1, BySend(0, Step));
  }

  lemma SendIsHanded(s: State) returns (t: State)
    requires Reachable(s) && s.crash.None? && 0 in s.senders && s.senders[0] == Sender(Bare, None, SHand(Websocket))
    ensures t.crash.None? && t.upgraded == s.upgraded && t.enq == s.enq
    ensures t.sent == s.sent + [Sent(Websocket, MessagePacket(Bare, None))] && Reachable(t)
  {
    hide Reachable;
    NextReachable(s, BySend(0, Step));
    t := Next(s, BySend(0, Step));
  }

  /** The client has upgraded to websocket, and the early caller still waits to go on. */
  lemma UpgradesWithWaiter() returns (s: State, before: WT.Transport)
    ensures Reachable(s) && s.crash.None? && s.msg.MIdle? && s.queue == [] && !s.queueClosed && !s.locked && !s.ctxDone
    ensures s.supported == BOTH && s.transport == Some(Websocket) && s.owner.Websocket? && s.connect.COk?
    ensures s.chans == [Drained, Fresh] && s.ws == WT.Run(before, 1) && WT.Clean(before)
    ensures s.gates == [false] && s.wu == Some(0) && s.closers == map[]
    ensures s.wh.Opened? && s.whSpent && s.upgraded && s.enq == [OPEN] && s.sent == [Sent(Websocket, ProbePacket)]
    ensures s.senders == map[0 := Sender(Bare, None, SAwaitHandshake), 1 := Sender(Hook, None, SNew)]
  {
    hide Reachable;
    OpenIsTaken();
    var s0 := Deciding();
    UpgradeBegins(s0);
    var s1 := StopReturns(Locked(s0));
    var s2 := OldTransportStops(s1);
    var s3 := WaitEnds(s2);
    var s4 := NewTransportRuns(s3);
    s := ProbeIsSent(s4);
    before := s3.ws;
  }

  /**
   UpgradeOrdering leaves out callers that did not see the upgrade gate, and must: one that calls Send
   between Connect's return and the handling of OPEN waits for the handshake gate only, and its MESSAGE
   reaches the new transport ahead of UPGRADE.
   */
  lemma BareSendOvertakesUpgrade() returns (s: State)
    ensures Reachable(s) && s.crash.None? && s.upgraded && OneOpenFirst(s.enq)
    ensures s.sent == [Sent(Websocket, ProbePacket), Sent(Websocket, MessagePacket(Bare, None))]
  {
    hide Reachable;
    var s1, _ := UpgradesWithWaiter();
    var s2 := WaitingSendWakes(s1);
    s := SendIsHanded(s2);
  }
}
