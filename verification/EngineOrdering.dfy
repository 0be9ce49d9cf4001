/**
 The order of packets across an upgrade.  When the first frame is the only OPEN and transportUpgrade
 succeeds, every MESSAGE of the Socket.IO stack goes to the websocket transport, after UPGRADE.
 */
module EngineOrdering {
  import opened Options
  import opened Bytes
  import opened Frames
  import opened TransportContract
  import opened EngineClient
  import opened EngineInvariant
  import opened EngineProof
  import opened EngineGrowth
  import PT = PollingTransport
  import WT = WebsocketTransport

  ghost predicate OneOpenFirst(enq: seq<Frame>) {
    enq != [] ==> enq[0].Open? && forall i :: 0 < i < |enq| ==> !enq[i].Open?
  }

  /** The handling of the first frame is not over. */
  predicate Early(taken: int, m: MsgPc) {
    taken == 0 || (taken == 1 && (m.MDispatch? || OpenPath(m)))
  }

  /** A MESSAGE that the ordering guarantee covers: of the Socket.IO stack, or of a caller that saw the upgrade gate. */
  predicate Covered(p: Packet) {
    p.MessagePacket? && (!p.caller.Bare? || p.saw.Some?)
  }

  /** The packet at `i` went to the websocket transport, and UPGRADE went there before it. */
  ghost predicate Ordered(sent: seq<Sent>, i: int)
    requires 0 <= i < |sent|
  {
    sent[i].via.Websocket? && exists j :: 0 <= j < i && sent[j] == Sent(Websocket, UpgradePacket)
  }

  ghost predicate AllOrdered(sent: seq<Sent>) {
    forall i :: 0 <= i < |sent| && Covered(sent[i].packet) ==> sent[i].packet.saw.Some? && Ordered(sent, i)
  }

  /** Nobody of the stack sends before the OPEN is handled. */
  predicate OrdEarly(early: bool, nsOpen: bool, senders: map<nat, Sender>) {
    early ==> !nsOpen && forall id :: id in senders ==> senders[id].caller.Bare?
  }

  /** And no probe has been answered by then. */
  predicate OrdEarlySent(early: bool, sent: seq<Sent>) {
    early ==> forall i :: 0 <= i < |sent| ==>
      sent[i].packet != UpgradePacket && (sent[i].packet.MessagePacket? ==> sent[i].packet.caller.Bare?)
  }

  /** There is one upgrade at most, and success is recorded at its end. */
  predicate OrdGate(taken: int, m: MsgPc, gates: seq<bool>, upgraded: bool) {
    && |gates| <= 1
    && (taken == 0 || (taken == 1 && (m.MDispatch? || m.MDecide? || m.MLock?)) ==> gates == [] && !upgraded)
    && (Holding(m) || m.MProbe? || m.MProbeFailed? || (m.MOpenGate? && !m.ok) ==> !upgraded)
  }

  predicate OrdUpgraded(upgraded: bool, owner: TransportName, gates: seq<bool>, sent: seq<Sent>, m: MsgPc) {
    upgraded ==>
      && owner.Websocket? && |gates| == 1
      && (gates[0] || m.MUpgradeSent? ==> Sent(Websocket, UpgradePacket) in sent)
  }

  /** The first OPEN can only upgrade from polling to websocket. */
  predicate OrdOwner(taken: int, m: MsgPc, owner: TransportName, supported: set<TransportName>) {
    && (taken == 0 || (taken == 1 && (m.MDispatch? || m.MDecide? || m.MLock? || Holding(m))) ==>
          owner == First(supported))
    && (m.MProbe? || m.MProbeFailed? ==> owner.Websocket?)
  }

  predicate OrdSenders(upgraded: bool, senders: map<nat, Sender>) {
    upgraded ==> forall id :: id in senders ==> SenderOrdered(senders[id])
  }

  predicate SenderOrdered(me: Sender) {
    && (!me.caller.Bare? && !me.pc.SNew? ==> me.saw.Some?)
    && (me.saw.Some? && me.pc.SHand? ==> me.pc.via.Websocket?)
  }

  ghost predicate OrdSent(upgraded: bool, sent: seq<Sent>) {
    upgraded ==> AllOrdered(sent)
  }

  ghost predicate Order(s: State) {
    && OrdEarly(Early(Taken(s.queue, s.enq), s.msg), s.nsOpen, s.senders)
    && OrdEarlySent(Early(Taken(s.queue, s.enq), s.msg), s.sent)
    && OrdGate(Taken(s.queue, s.enq), s.msg, s.gates, s.upgraded)
    && OrdOwner(Taken(s.queue, s.enq), s.msg, s.owner, s.supported)
    && OrdUpgraded(s.upgraded, s.owner, s.gates, s.sent, s.msg)
    && OrdSenders(s.upgraded, s.senders)
    && OrdSent(s.upgraded, s.sent)
  }

  // ------------------------------------------------------------------ steps that Order does not see

  lemma PollOrder(s: State, a: PT.LoopAct)
    requires Order(s)
    ensures Order(PollStep(s, a))
  {
  }

  lemma WsOrder(s: State, a: WT.LoopAct)
    requires Order(s)
    ensures Order(WsStep(s, a))
  {
  }

  lemma BeginOrder(s: State, id: nat)
    requires Order(s) && CloseEnabled(s, id, Begin)
    ensures Order(CloseStep(s, id, Begin))
  {
  }

  lemma CloseStopOrder(s: State, id: nat, pc: ClosePc)
    requires Order(s) && pc.KStop?
    ensures Order(ProceedClose(s, id, pc))
  {
    hide PT.StopStep;
  }

  lemma CloseRestOrder(s: State, id: nat, pc: ClosePc)
    requires Order(s) && (pc.KWait? || pc.KClose? || pc.KJoin?)
    ensures Order(ProceedClose(s, id, pc))
  {
    hide StopTransport, StopNext, Received;
  }

  lemma CloseOrder(s: State, id: nat, a: CloseAct)
    requires Order(s) && CloseEnabled(s, id, a)
    ensures Order(CloseStep(s, id, a))
  {
    hide Order, ProceedClose;
    match a
    case Begin => BeginOrder(s, id);
    case Proceed =>
      if s.closers[id].KStop? {
        CloseStopOrder(s, id, s.closers[id]);
      } else {
        CloseRestOrder(s, id, s.closers[id]);
      }
  }

  lemma RunItOrder(s: State, ok: bool)
    requires Inv(s) && Order(s) && s.connect.CStart?
    ensures Order(ConnectStep(s, RunIt(ok)))
  {
  }

  lemma LaunchOrder(s: State)
    requires Inv(s) && Order(s) && s.connect.CLaunch?
    ensures Order(ConnectStep(s, Launch))
  {
  }

  lemma CleanupStopOrder(s: State)
    requires Order(s) && s.connect.CStop?
    ensures Order(CleanupStep(s))
  {
    hide PT.StopStep;
  }

  lemma CleanupWaitOrder(s: State)
    requires Order(s) && s.connect.CWait? && CanReceiveClose(s)
    ensures Order(CleanupStep(s))
  {
    hide Received;
  }

  lemma CleanupCloseOrder(s: State)
    requires Order(s) && s.connect.CClose?
    ensures Order(CleanupStep(s))
  {
  }

  lemma CleanupJoinOrder(s: State)
    requires Order(s) && s.connect.CJoin? && s.msg.MExited?
    ensures Order(CleanupStep(s))
  {
  }

  lemma CleanupOrder(s: State)
    requires Order(s) && ConnectEnabled(s, Cleanup)
    ensures Order(CleanupStep(s))
  {
    hide Order, CleanupStep;
    match s.connect
    case CStop(_) => CleanupStopOrder(s);
    case CWait => CleanupWaitOrder(s);
    case CClose => CleanupCloseOrder(s);
    case CJoin => CleanupJoinOrder(s);
    case _ =>
  }

  lemma ConnectOrder(s: State, a: ConnectAct)
    requires Inv(s) && Order(s) && ConnectEnabled(s, a)
    ensures Order(ConnectStep(s, a))
  {
    hide Inv, CleanupStep, RunTransport;
    match a
    case RunIt(ok) => RunItOrder(s, ok);
    case Launch => LaunchOrder(s);
    case Cleanup => CleanupOrder(s);
    case _ =>
  }

  // ------------------------------------------------------------------ Send

  lemma StartOrder(s: State, id: nat, caller: Caller)
    requires Order(s) && (caller.Bare? || (caller.Emit? && s.nsOpen))
    ensures Order(s.(senders := s.senders[id := Sender(caller, None, SNew)]))
  {
  }

  lemma HandedOrdered(sent: seq<Sent>, x: Sent)
    requires AllOrdered(sent)
    requires Covered(x.packet) ==> x.packet.saw.Some? && x.via.Websocket? && Sent(Websocket, UpgradePacket) in sent
    ensures AllOrdered(sent + [x])
  {
    forall i | 0 <= i < |sent + [x]| && Covered((sent + [x])[i].packet)
      ensures (sent + [x])[i].packet.saw.Some? && Ordered(sent + [x], i)
    {
      if i < |sent| {
        assert Ordered(sent, i);
        var j :| 0 <= j < i && sent[j] == Sent(Websocket, UpgradePacket);
        assert (sent + [x])[j] == Sent(Websocket, UpgradePacket);
      } else {
        var j :| 0 <= j < |sent| && sent[j] == Sent(Websocket, UpgradePacket);
        assert (sent + [x])[j] == Sent(Websocket, UpgradePacket);
      }
    }
  }

  /** A caller that hands over has passed the gate that it saw; after an upgrade that is UPGRADE's gate. */
  lemma HandedIsOrdered(s: State, me: Sender)
    requires Inv(s) && Order(s) && s.upgraded && me in s.senders.Values && me.pc.SHand?
    ensures Covered(MessagePacket(me.caller, me.saw)) ==>
              me.saw.Some? && me.pc.via.Websocket? && Sent(Websocket, UpgradePacket) in s.sent
  {
  }

  lemma NextSenderOrdered(s: State, id: nat)
    requires Inv(s) && Order(s) && SendEnabled(s, id, Step) && s.upgraded
    ensures SenderOrdered(NextSender(s, s.senders[id]))
  {
  }

  lemma HandOrder(s: State, id: nat)
    requires Inv(s) && Order(s) && SendEnabled(s, id, Step)
    ensures OrdSent(s.upgraded, s.sent + Handed(s.senders[id]))
  {
    var me := s.senders[id];
    if me.pc.SHand? && s.upgraded {
      assert me in s.senders.Values;
      HandedIsOrdered(s, me);
      HandedOrdered(s.sent, Sent(me.pc.via, MessagePacket(me.caller, me.saw)));
    } else {
      assert me.pc.SHand? || s.sent + Handed(me) == s.sent;
    }
  }

  lemma StepOrder(s: State, id: nat)
    requires Inv(s) && Order(s) && SendEnabled(s, id, Step)
    ensures Order(SendStep(s, id, Step))
  {
    hide Inv, OrdSent;
    HandOrder(s, id);
    if s.upgraded {
      NextSenderOrdered(s, id);
    }
  }

  // ------------------------------------------------------------------ the message loop

  lemma ReceiveOrder(s: State)
    requires Inv(s) && Order(s) && s.msg.MIdle? && s.queue != []
    ensures Order(MsgStep(s, Receive))
  {
  }

  lemma EndOrder(s: State)
    requires Inv(s) && Order(s) && s.msg.MIdle?
    ensures Order(s.(msg := MExited))
  {
  }

  /** The frame being handled is the first one exactly when it is the OPEN. */
  lemma FirstIsOpen(s: State)
    requires Inv(s) && OneOpenFirst(s.enq)
    ensures s.msg.MDispatch? ==> (s.msg.frame.Open? <==> Taken(s.queue, s.enq) == 1) && Taken(s.queue, s.enq) >= 1
    ensures OpenPath(s.msg) ==> Taken(s.queue, s.enq) == 1
    ensures s.msg.MUpgradeSent? ==> Taken(s.queue, s.enq) >= 2
  {
  }

  /** Control packets do not disturb the order. */
  lemma RepliesOrdered(s: State, xs: seq<Sent>)
    requires Order(s) && |xs| <= 1 && (xs != [] ==> !xs[0].packet.MessagePacket?)
    ensures OrdSent(s.upgraded, s.sent + xs)
  {
    if xs == [] {
      assert s.sent + xs == s.sent;
    } else {
      assert xs == [xs[0]];
      if s.upgraded {
        HandedOrdered(s.sent, xs[0]);
      }
    }
  }

  lemma DispatchSends(s: State, f: Frame)
    requires Order(s)
    ensures OrdSent(Dispatch(s, f).upgraded, Dispatch(s, f).sent)
  {
    RepliesOrdered(s, if Reply(f).Some? then [Sent(Via(s), Reply(f).value)] else []);
    hide Order, OrdSent, Via, Reply, PT.SetHandshake, FrameCrash, KnownAfter;
  }

  lemma DispatchUpgrades(s: State, f: Frame)
    requires OrdUpgraded(s.upgraded, s.owner, s.gates, s.sent, s.msg) && s.msg == MDispatch(f)
    requires Reply(f).Some? ==> Via(s) == s.owner
    ensures
      var t := Dispatch(s, f);
      OrdUpgraded(t.upgraded, t.owner, t.gates, t.sent, t.msg)
  {
    hide Via, PT.SetHandshake, FrameCrash, KnownAfter;
    if f == Pong(true) {
      assert Sent(Via(s), UpgradePacket) in s.sent + [Sent(Via(s), UpgradePacket)];
    }
  }

  lemma DispatchOrder(s: State, f: Frame)
    requires Inv(s) && Order(s) && OneOpenFirst(s.enq) && s.msg == MDispatch(f)
    requires Reply(f).Some? ==> s.transport.Some?
    ensures Order(Dispatch(s, f))
  {
    FirstIsOpen(s);
    TransportIsOwner(s);
    DispatchSends(s, f);
    DispatchUpgrades(s, f);
    hide Inv, OrdSent, OrdUpgraded, PT.SetHandshake, FrameCrash, KnownAfter;
  }

  lemma DecideOrder(s: State, upgrades: seq<Offer>)
    requires Inv(s) && Order(s) && OneOpenFirst(s.enq) && s.msg == MDecide(upgrades)
    ensures Order(Decide(s, upgrades))
  {
  }

  lemma LockOrder(s: State, target: TransportName)
    requires Inv(s) && Order(s) && OneOpenFirst(s.enq) && s.msg == MLock(target)
    ensures Order(LockForUpgrade(s, target))
  {
  }

  lemma StopOldOrder(s: State, target: TransportName, pc: PT.StopPc)
    requires Order(s) && s.msg == MStop(target, pc)
    ensures Order(StopOld(s, target, pc))
  {
    hide PT.StopStep;
  }

  lemma WaitOrder(s: State, target: TransportName)
    requires Order(s) && s.msg == MWait(target)
    ensures Order(s.(chans := Received(s.chans), msg := MRun(target)))
  {
  }

  lemma RunOrder(s: State, target: TransportName, ok: bool)
    requires Inv(s) && Order(s) && OneOpenFirst(s.enq) && s.msg == MRun(target)
    ensures Order(RunNew(s, target, ok))
  {
  }

  lemma ProbeFacts(s: State, target: TransportName)
    requires Inv(s) && s.msg == MProbe(target)
    ensures target == s.owner && s.wu.Some? && !s.wuSpent && s.gates != [] && !s.gates[|s.gates| - 1]
  {
  }

  /** While the gate is shut, nobody who saw it has passed it. */
  lemma BeforeUpgrade(s: State)
    requires Inv(s) && Order(s) && Early(Taken(s.queue, s.enq), s.msg) && |s.gates| == 1 && !s.gates[0]
    ensures AllOrdered(s.sent) && forall id :: id in s.senders ==> SenderOrdered(s.senders[id])
  {
  }

  lemma ProbeOrder(s: State, target: TransportName, ok: bool)
    requires Inv(s) && Order(s) && OneOpenFirst(s.enq) && s.msg == MProbe(target) && s.transport.Some?
    ensures Order(SendProbe(s, target, ok))
  {
    FirstIsOpen(s);
    ProbeFacts(s, target);
    BeforeUpgrade(s);
    HandedOrdered(s.sent, Sent(Via(s), ProbePacket));
    hide Inv, AllOrdered;
  }

  lemma CloseGateOrder(s: State, m: MsgPc)
    requires Inv(s) && Order(s) && OneOpenFirst(s.enq)
    requires (s.msg.MProbeFailed? && m == MOpenGate(false, None)) || (s.msg.MUpgradeSent? && m == MIdle)
    ensures Order(CloseUpgradeGate(s).(msg := m))
  {
  }

  lemma OpenGateOrder(s: State, hook: nat)
    requires Inv(s) && Order(s) && OneOpenFirst(s.enq) && s.msg.MOpenGate?
    ensures Order(OpenHandshakeGate(s, s.msg.ok, hook))
  {
  }

  lemma HandleOrder(s: State, ok: bool, hook: nat)
    requires Inv(s) && Order(s) && OneOpenFirst(s.enq) && s.crash.None?
    requires MsgEnabled(s, Handle(ok, hook)) && MsgCrash(s).None?
    ensures Order(HandleStep(s, ok, hook))
  {
    hide Inv, Order, Dispatch, Decide, LockForUpgrade, StopOld, Received, RunNew, SendProbe, CloseUpgradeGate,
         OpenHandshakeGate;
    match s.msg
    case MDispatch(f) => DispatchOrder(s, f);
    case MDecide(upgrades) => DecideOrder(s, upgrades);
    case MLock(target) => LockOrder(s, target);
    case MStop(target, pc) => StopOldOrder(s, target, pc);
    case MWait(target) => WaitOrder(s, target);
    case MRun(target) => RunOrder(s, target, ok);
    case MProbe(target) => ProbeOrder(s, target, ok);
    case MProbeFailed(_) => CloseGateOrder(s, MOpenGate(false, None));
    case MOpenGate(_, _) => OpenGateOrder(s, hook);
    case MUpgradeSent => CloseGateOrder(s, MIdle);
    case _ =>
  }

  lemma MsgOrder(s: State, a: MsgAct)
    requires Inv(s) && Order(s) && OneOpenFirst(s.enq) && s.crash.None? && MsgEnabled(s, a)
    requires CrashOf(s, ByMsg(a)).None?
    ensures Order(MsgStep(s, a))
  {
    hide Inv, Order, HandleStep, MsgCrash;
    match a
    case Receive => ReceiveOrder(s);
    case ReceiveEnd => EndOrder(s);
    case Cancel => EndOrder(s);
    case Handle(ok, hook) => HandleOrder(s, ok, hook);
  }

  // ------------------------------------------------------------------ runs

  lemma SendOrder(s: State, id: nat, a: SendAct)
    requires Inv(s) && Order(s) && SendEnabled(s, id, a)
    ensures Order(SendStep(s, id, a))
  {
    hide Inv, Order, NextSender, Handed;
    match a
    case Start(caller) => StartOrder(s, id, caller);
    case Step => StepOrder(s, id);
  }

  lemma CancelOrder(s: State)
    requires Order(s)
    ensures Order(s.(ctxDone := true))
  {
  }

  lemma StepKeepsOrder(s: State, a: Action)
    requires Inv(s) && Order(s) && OneOpenFirst(s.enq) && Enabled(s, a) && CrashOf(s, a).None?
    ensures Order(Next(s, a))
  {
    hide Inv, Order, ConnectStep, MsgStep, SendStep, CloseStep, PollStep, WsStep, MsgCrash, CrashOf;
    hide ConnectEnabled, MsgEnabled, SendEnabled, CloseEnabled, PollEnabled, WsEnabled;
    match a
    case ByConnect(c) => ConnectOrder(s, c);
    case ByMsg(m) => MsgOrder(s, m);
    case BySend(id, x) => SendOrder(s, id, x);
    case ByClose(id, k) => CloseOrder(s, id, k);
    case ByPoll(p) => PollOrder(s, p);
    case ByWs(w) => WsOrder(s, w);
    case CancelContext => CancelOrder(s);
  }

  lemma InitOrder(s: State)
    requires IsFreshClient(s)
    ensures Order(s)
  {
  }

  lemma PrefixOneOpen(enq: seq<Frame>, enq': seq<Frame>)
    requires enq <= enq' && OneOpenFirst(enq')
    ensures OneOpenFirst(enq)
  {
  }

  lemma {:induction false} RunKeepsOrder(ss: seq<State>, acts: seq<Action>, k: nat)
    requires ClientRun(ss, acts) && k < |ss| && ss[k].crash.None? && OneOpenFirst(ss[k].enq)
    ensures Order(ss[k])
  {
    hide Inv, Order, OneOpenFirst, Next, Enabled, IsFreshClient;
    if k == 0 {
      InitOrder(ss[0]);
    } else {
      var s := ss[k - 1];
      assert Enabled(s, acts[k - 1]) && ss[k] == Next(s, acts[k - 1]);
      EnabledMeansRunning(s, acts[k - 1]);
      StepGrows(s, acts[k - 1]);
      PrefixOneOpen(s.enq, ss[k].enq);
      RunKeepsOrder(ss, acts, k - 1);
      RunKeeps(ss, acts, k - 1);
      StepKeeps(s, acts[k - 1]);
      StepKeepsOrder(s, acts[k - 1]);
    }
  }

  /**
   Upgrade ordering.  In every state of every run whose first frame is the only OPEN, once transportUpgrade
   has succeeded: every MESSAGE of the Socket.IO stack, and of any caller that saw the upgrade gate, was
   handed to the websocket transport and only after UPGRADE had been handed to it.
   */
  lemma UpgradeOrdering(ss: seq<State>, acts: seq<Action>, k: nat, i: nat)
    requires ClientRun(ss, acts) && k < |ss| && ss[k].crash.None?
    requires OneOpenFirst(ss[k].enq) && ss[k].upgraded
    requires i < |ss[k].sent| && ss[k].sent[i].packet.MessagePacket?
    requires !ss[k].sent[i].packet.caller.Bare? || ss[k].sent[i].packet.saw.Some?
    ensures ss[k].sent[i].via == Websocket
    ensures exists j :: 0 <= j < i && ss[k].sent[j] == Sent(Websocket, UpgradePacket)
  {
    RunKeepsOrder(ss, acts, k);
    assert Ordered(ss[k].sent, i);
  }
}
