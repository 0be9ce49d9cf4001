/** A gate that is not releasable stays shut: no step of anybody makes it releasable again. */
module EngineStranded {
  import opened Options
  import opened Bytes
  import opened GoInt
  import opened Frames
  import opened TransportContract
  import opened EngineClient
  import opened EngineInvariant
  import opened EngineProof
  import opened EngineReach
  import opened EngineRelease
  import PT = PollingTransport
  import WT = WebsocketTransport

  /** What steps beside the message loop can change. */
  predicate Outside(s: State, t: State) {
    && t.msg == s.msg && t.gates == s.gates && t.wh == s.wh && t.known == s.known
    && t.owner == s.owner && t.supported == s.supported && (t.transport.Some? ==> s.transport.Some?)
    && Flows(Line(s), More(s), Line(t), More(t))
  }

  lemma LineOutside(s: State, t: State, k: Gating, front: seq<Frame>)
    requires Outside(s, t) && LineClears(t, k, front + Line(t))
    ensures LineClears(s, k, front + Line(s))
  {
    hide Clears, Line, More, Flows;
    FrontFlows(front, Line(s), More(s), Line(t), More(t));
    FlowClears(k, front + Line(s), More(s), front + Line(t), More(t), EnvOf(s), EnvOf(t), ROOT in s.known);
  }

  lemma FrontFlows(front: seq<Frame>, line: seq<Frame>, more: bool, line': seq<Frame>, more': bool)
    requires Flows(line, more, line', more')
    ensures Flows(front + line, more, front + line', more')
  {
    if more && |line'| == |line| + 1 && line'[..|line|] == line {
      assert (front + line')[..|front + line|] == front + line;
    }
  }

  /** Steps beside the message loop do not help a waiter that nothing else can help. */
  lemma OutsideReleasable(s: State, t: State, k: Gating)
    requires Outside(s, t) && Releasable(t, k)
    ensures Releasable(s, k)
  {
    hide LineClears, Line, More, Flows;
    assert [] + Line(s) == Line(s) && [] + Line(t) == Line(t);
    if LineClears(t, k, Line(t)) {
      LineOutside(s, t, k, []);
    }
    if s.msg.MDispatch? && LineClears(t, k, [s.msg.frame] + Line(t)) {
      LineOutside(s, t, k, [s.msg.frame]);
    }
  }

  // ------------------------------------------------------------------ the loops

  /** While Connect is at work on a polling client, its loop has no frame and cannot get one. */
  lemma ConnectingPollIsIdle(s: State)
    requires Inv(s) && Polling in s.supported && !s.connect.COk?
    ensures HeldByPoll(s.poll) == [] && !PollBrings(s.poll, s.ctxDone)
    ensures s.owner.Polling?
  {
  }

  lemma PollOutside(s: State, a: PT.LoopAct)
    requires Inv(s) && s.crash.None? && PollEnabled(s, a)
    ensures Outside(s, PollStep(s, a))
  {
    PollStepKeeps(s, a);
    PollFacts(s, a);
    PollFlows(s.poll, a, s.ctxDone, CanSend(s));
    LiveMeansOpen(s);
    var t := PollStep(s, a);
    if s.connect.COk? {
      PollLineFlows(s, a);
    } else {
      ConnectingPollIsIdle(s);
      ConnectingPollStep(s, a);
    }
  }

  lemma ConnectingPollStep(s: State, a: PT.LoopAct)
    requires Inv(s) && s.crash.None? && PollEnabled(s, a) && !s.connect.COk? && s.owner.Polling?
    ensures Outside(s, PollStep(s, a))
  {
  }

  lemma PollLineFlows(s: State, a: PT.LoopAct)
    requires s.connect.COk? && s.owner.Polling? && !s.queueClosed
    requires
      var q := PT.LoopNext(s.poll, a);
      if PT.LoopEffect(s.poll, a).Enqueue?
      then HeldByPoll(s.poll) == [PT.LoopEffect(s.poll, a).frame] && HeldByPoll(q) == []
           && (PollBrings(q, s.ctxDone) ==> PollBrings(s.poll, s.ctxDone))
      else Flows(HeldByPoll(s.poll), PollBrings(s.poll, s.ctxDone), HeldByPoll(q), PollBrings(q, s.ctxDone))
    ensures Outside(s, PollStep(s, a))
  {
    hide PT.LoopNext, PT.LoopEffect, HeldByPoll, PollBrings;
    var q := PT.LoopNext(s.poll, a);
    if PT.LoopEffect(s.poll, a).Enqueue? {
      assert s.queue + HeldByPoll(s.poll) == s.queue + [PT.LoopEffect(s.poll, a).frame] + HeldByPoll(q);
    } else {
      FrontFlows(s.queue, HeldByPoll(s.poll), PollBrings(s.poll, s.ctxDone), HeldByPoll(q), PollBrings(q, s.ctxDone));
    }
  }

  lemma WsOutside(s: State, a: WT.LoopAct)
    requires Inv(s) && s.crash.None? && WsEnabled(s, a)
    ensures Outside(s, WsStep(s, a))
  {
    hide InvFlow, InvGating, WT.LoopNext, WT.LoopEffect, WT.Enabled, WT.Live, WT.Notified, InvReaders,
         HeldByWs, WsBrings;
    WsFacts(s, a);
    WsLocal(s.ws, a, s.ctxDone, CanSend(s));
    if WT.Live(s.ws) {
      LiveMeansOpen(s);
    }
    if s.owner.Websocket? {
      WsFlows(s.ws, a, s.ctxDone, CanSend(s));
      WsConnectHasNoOffer(s);
      WsLineFlows(s, a);
    } else {
      OtherLineFlows(s, a);
    }
  }

  lemma WsConnectHasNoOffer(s: State)
    requires Inv(s) && s.owner.Websocket?
    ensures !s.connect.COffer? && !s.connect.CGet?
  {
  }

  lemma OtherLineFlows(s: State, a: WT.LoopAct)
    requires s.owner.Polling? && !WT.LoopEffect(s.ws, a).Enqueue?
    ensures Outside(s, WsStep(s, a))
  {
    hide WT.LoopNext, WT.LoopEffect, HeldByPoll, PollBrings;
  }

  lemma WsLineFlows(s: State, a: WT.LoopAct)
    requires s.owner.Websocket? && !s.connect.COffer? && (WT.LoopEffect(s.ws, a).Enqueue? ==> !s.queueClosed)
    requires
      var v := WT.LoopNext(s.ws, a);
      if WT.LoopEffect(s.ws, a).Enqueue?
      then HeldByWs(s.ws) == [WT.LoopEffect(s.ws, a).frame] && HeldByWs(v) == [] && (WsBrings(v) ==> WsBrings(s.ws))
      else Flows(HeldByWs(s.ws), WsBrings(s.ws), HeldByWs(v), WsBrings(v))
    ensures Outside(s, WsStep(s, a))
  {
    hide WT.LoopNext, WT.LoopEffect, HeldByWs, WsBrings;
    var v := WT.LoopNext(s.ws, a);
    if WT.LoopEffect(s.ws, a).Enqueue? {
      assert s.queue + HeldByWs(s.ws) == s.queue + [WT.LoopEffect(s.ws, a).frame] + HeldByWs(v);
    } else {
      FrontFlows(s.queue, HeldByWs(s.ws), WsBrings(s.ws), HeldByWs(v), WsBrings(v));
    }
  }

  // ------------------------------------------------------------------ callers

  lemma SendOutside(s: State, id: nat, a: SendAct)
    requires SendEnabled(s, id, a)
    ensures Outside(s, SendStep(s, id, a))
  {
    hide Held, Brings, NextSender, Handed;
  }

  lemma CancelOutside(s: State)
    ensures Outside(s, s.(ctxDone := true))
  {
  }

  lemma BeginOutside(s: State, id: nat)
    requires CloseEnabled(s, id, Begin)
    ensures Outside(s, CloseStep(s, id, Begin))
  {
    hide Held, Brings;
  }

  /** A step of Stop leaves the loop where it is, and no more frames than before can come. */
  lemma StopFlows(p: PT.Transport, pc: PT.StopPc, ctxDone: bool)
    ensures HeldByPoll(PT.StopStep(p, pc).0) == HeldByPoll(p)
    ensures PollBrings(PT.StopStep(p, pc).0, ctxDone) ==> PollBrings(p, ctxDone)
  {
  }

  lemma TokenFlows(w: WT.Transport)
    ensures HeldByWs(WT.Stop(w)) == HeldByWs(w) && WsBrings(WT.Stop(w)) == WsBrings(w)
  {
  }

  lemma StopOutside(s: State, via: TransportName, pc: PT.StopPc)
    ensures Outside(s, StopTransport(s, via, pc))
  {
    hide HeldByPoll, PollBrings, HeldByWs, WsBrings, PT.StopStep, WT.Stop;
    StopFlows(s.poll, pc, s.ctxDone);
    TokenFlows(s.ws);
  }

  lemma CloseStopOutside(s: State, id: nat, pc: ClosePc)
    requires pc.KStop?
    ensures Outside(s, ProceedClose(s, id, pc))
  {
    hide Held, Brings, StopTransport, StopNext;
    StopOutside(s, pc.via, pc.stop);
  }

  lemma CloseRestOutside(s: State, id: nat, pc: ClosePc)
    requires pc.KWait? || pc.KClose? || pc.KJoin?
    ensures Outside(s, ProceedClose(s, id, pc))
  {
    hide Held, Brings, StopTransport, StopNext, Received;
  }

  lemma CloseOutside(s: State, id: nat, a: CloseAct)
    requires CloseEnabled(s, id, a)
    ensures Outside(s, CloseStep(s, id, a))
  {
    hide Outside, ProceedClose;
    match a
    case Begin => BeginOutside(s, id);
    case Proceed =>
      if s.closers[id].KStop? {
        CloseStopOutside(s, id, s.closers[id]);
      } else {
        CloseRestOutside(s, id, s.closers[id]);
      }
  }

  // ------------------------------------------------------------------ Connect

  lemma RequestOutside(s: State)
    requires Inv(s) && s.connect.CRequest?
    ensures Outside(s, ConnectStep(s, Request))
  {
    if Polling in s.supported {
      ConnectingPollIsIdle(s);
    }
    hide HeldByPoll, PollBrings, HeldByWs, WsBrings;
  }

  /** The handshake's body is the one frame that a polling client can still get. */
  lemma GetOutside(s: State, a: ConnectAct)
    requires Inv(s) && ConnectEnabled(s, a)
    requires a.GetReturns? || a.GetFails? || a.OfferCancels? || a.OfferStops?
    ensures Outside(s, ConnectStep(s, a))
  {
    RequestMeansPolling(s);
    ConnectingPollIsIdle(s);
    hide Inv, HeldByPoll, PollBrings, HeldByWs, WsBrings;
  }

  lemma OfferOutside(s: State)
    requires Inv(s) && s.connect.COffer? && CanSend(s)
    ensures Outside(s, TakeOffer(s, s.connect.frame))
  {
    RequestMeansPolling(s);
    ConnectingPollIsIdle(s);
    hide Inv, HeldByPoll, PollBrings, HeldByWs, WsBrings;
    assert s.queue + [s.connect.frame] + [] == s.queue + [s.connect.frame];
  }

  lemma CleanupStopOutside(s: State)
    requires s.connect.CStop?
    ensures Outside(s, CleanupStep(s))
  {
    hide HeldByPoll, PollBrings, HeldByWs, WsBrings, PT.StopStep, WT.Stop;
    StopFlows(s.poll, s.connect.stop, s.ctxDone);
    TokenFlows(s.ws);
  }

  lemma CleanupWaitOutside(s: State)
    requires s.connect.CWait? && CanReceiveClose(s)
    ensures Outside(s, CleanupStep(s))
  {
    hide HeldByPoll, PollBrings, HeldByWs, WsBrings, Received;
  }

  lemma CleanupCloseOutside(s: State)
    requires s.connect.CClose?
    ensures Outside(s, CleanupStep(s))
  {
    hide HeldByPoll, PollBrings, HeldByWs, WsBrings;
  }

  lemma CleanupJoinOutside(s: State)
    requires s.connect.CJoin? && s.msg.MExited?
    ensures Outside(s, CleanupStep(s))
  {
    hide HeldByPoll, PollBrings, HeldByWs, WsBrings;
  }

  lemma ConnectOutside(s: State, a: ConnectAct)
    requires Inv(s) && ConnectEnabled(s, a) && !s.wh.Absent?
    ensures Outside(s, ConnectStep(s, a))
  {
    InstalledMeansLater(s);
    hide Inv, Outside, CleanupStep, ConnectStep, TakeOffer;
    DelegatedSteps(s);
    match a
    case Request => RequestOutside(s);
    case OfferSent => OfferOutside(s);
    case Cleanup =>
      if s.connect.CStop? {
        CleanupStopOutside(s);
      } else if s.connect.CWait? {
        CleanupWaitOutside(s);
      } else if s.connect.CClose? {
        CleanupCloseOutside(s);
      } else {
        CleanupJoinOutside(s);
      }
    case RunIt(_) =>
    case Launch =>
    case Install =>
    case _ => GetOutside(s, a);
  }

  lemma InstalledMeansLater(s: State)
    requires Inv(s) && !s.wh.Absent?
    ensures !s.connect.CStart? && !s.connect.CLaunch? && !s.connect.CInstall?
  {
  }

  lemma OutsideStep(s: State, a: Action)
    requires Inv(s) && Enabled(s, a) && !a.ByMsg? && !s.wh.Absent?
    ensures Outside(s, Next(s, a))
  {
    EnabledMeansRunning(s, a);
    hide Inv, Outside, ConnectStep, MsgStep, SendStep, CloseStep, PollStep, WsStep;
    hide ConnectEnabled, MsgEnabled, SendEnabled, CloseEnabled, PollEnabled, WsEnabled;
    match a
    case ByConnect(c) => ConnectOutside(s, c);
    case BySend(id, x) => SendOutside(s, id, x);
    case ByClose(id, k) => CloseOutside(s, id, k);
    case ByPoll(p) => PollOutside(s, p);
    case ByWs(w) => WsOutside(s, w);
    case CancelContext => CancelOutside(s);
  }

  // ------------------------------------------------------------------ the message loop

  /** A shut gate has been made. */
  lemma ShutMeansInstalled(s: State, k: Gating)
    requires Inv(s) && IsShut(s, k)
    ensures !s.wh.Absent?
    ensures k.AtUpgrade? ==> s.gates != [] && s.sid
    ensures k.AtHandshake? && !Upgrading(s.msg) && !s.msg.MOpenGate? ==> s.gates == []
  {
  }

  lemma ReceiveBack(s: State, k: Gating)
    requires s.msg.MIdle? && s.queue != []
    ensures Releasable(MsgStep(s, Receive), k) ==> Releasable(s, k)
  {
    hide Held, Brings, Clears;
    var t := MsgStep(s, Receive);
    assert [t.msg.frame] + Line(t) == Line(s);
  }

  lemma ExitBack(s: State, k: Gating)
    requires s.msg.MIdle?
    ensures !Releasable(s.(msg := MExited), k)
  {
  }

  /** What is known when the handling of a frame begins and does not panic. */
  lemma FrameSurvives(s: State, f: Frame)
    requires Inv(s) && s.msg == MDispatch(f) && s.crash.None? && Dispatch(s, f).crash.None?
    ensures
      var e, root := EnvOf(s), ROOT in s.known;
      && (Panics(f, e, root) ==>
            (f == Pong(true) && s.gates == []) || (f.Open? && f.valid && f.upgrades != [] && !e.hot))
      && (ROOT in Dispatch(s, f).known <==> RootAfter(root, f))
  {
  }

  /** Once there is a session id, another OPEN does not change what the polling loop can bring. */
  lemma HandshakeBringsNothing(s: State)
    requires Inv(s) && s.sid && Polling in s.supported
    ensures PollBrings(PT.SetHandshake(s.poll), s.ctxDone) == PollBrings(s.poll, s.ctxDone)
    ensures HeldByPoll(PT.SetHandshake(s.poll)) == HeldByPoll(s.poll)
  {
  }

  lemma DispatchKeepsLine(s: State, f: Frame)
    requires Inv(s) && s.msg == MDispatch(f) && (s.sid || !(f.Open? && f.valid))
    ensures Line(Dispatch(s, f)) == Line(s) && More(Dispatch(s, f)) == More(s)
    ensures EnvOf(Dispatch(s, f)) == EnvOf(s)
  {
    if Polling in s.supported && s.sid {
      HandshakeBringsNothing(s);
    }
    hide Inv, HeldByPoll, PollBrings, HeldByWs, WsBrings, PT.SetHandshake, FrameCrash;
  }

  /** Taking the first frame off a line. */
  lemma ClearsTail(k: Gating, f: Frame, line: seq<Frame>, more: bool, e: Env, root: bool)
    ensures Clears(k, [f] + line, more, e, root) <==>
              !Panics(f, e, root) && !Replaces(k, f, e) && (Opens(k, f) || Clears(k, line, more, e, RootAfter(root, f)))
  {
    assert ([f] + line)[1..] == line;
  }

  lemma DispatchBackAtHandshake(s: State, f: Frame)
    requires Inv(s) && s.msg == MDispatch(f) && s.crash.None? && Dispatch(s, f).crash.None?
    requires IsShut(s, AtHandshake) && Releasable(Dispatch(s, f), AtHandshake)
    ensures Releasable(s, AtHandshake)
  {
    ShutMeansInstalled(s, AtHandshake);
    FrameSurvives(s, f);
    ClearsTail(AtHandshake, f, Line(s), More(s), EnvOf(s), ROOT in s.known);
    if !(f.Open? && f.valid) {
      DispatchKeepsLine(s, f);
    }
    hide Inv, Clears, Line, More;
  }

  lemma DispatchBackAtUpgrade(s: State, f: Frame, k: Gating)
    requires Inv(s) && s.msg == MDispatch(f) && s.crash.None? && Dispatch(s, f).crash.None?
    requires k.AtUpgrade? && IsShut(s, k) && Releasable(Dispatch(s, f), k)
    ensures Releasable(s, k)
  {
    ShutMeansInstalled(s, k);
    FrameSurvives(s, f);
    ClearsTail(k, f, Line(s), More(s), EnvOf(s), ROOT in s.known);
    DispatchKeepsLine(s, f);
    TransportIsOwner(s);
    hide Inv, Clears, Line, More, UpgradeTarget, TickerPanics;
  }

  lemma DispatchBack(s: State, f: Frame, k: Gating)
    requires Inv(s) && s.msg == MDispatch(f) && s.crash.None? && Dispatch(s, f).crash.None? && IsShut(s, k)
    ensures IsShut(Dispatch(s, f), k)
    ensures Releasable(Dispatch(s, f), k) ==> Releasable(s, k)
  {
    hide Inv, Releasable, FrameCrash, PT.SetHandshake;
    if Releasable(Dispatch(s, f), k) {
      if k.AtHandshake? {
        DispatchBackAtHandshake(s, f);
      } else {
        DispatchBackAtUpgrade(s, f, k);
      }
    }
  }

  lemma DecideBack(s: State, upgrades: seq<Offer>, k: Gating)
    requires Inv(s) && s.msg == MDecide(upgrades) && s.crash.None? && Decide(s, upgrades).crash.None? && IsShut(s, k)
    ensures IsShut(Decide(s, upgrades), k)
    ensures Releasable(Decide(s, upgrades), k) ==> Releasable(s, k)
  {
    TransportIsOwner(s);
    hide Inv, Clears, Held, Brings, UpgradeTarget;
    if upgrades == [] {
      NoOfferNoTarget(Via(s), s.supported);
    }
  }

  lemma NoOfferNoTarget(via: TransportName, supported: set<TransportName>)
    ensures UpgradeTarget(via, supported, []).None?
  {
  }

  lemma LockBack(s: State, target: TransportName, k: Gating)
    requires s.msg == MLock(target) && s.crash.None? && LockForUpgrade(s, target).crash.None? && IsShut(s, k)
    ensures IsShut(LockForUpgrade(s, target), k)
    ensures Releasable(LockForUpgrade(s, target), k) ==> Releasable(s, k)
  {
    hide Clears, Held, Brings;
  }

  /** While transportUpgrade is at work, the latest gate, and the handshake gate, are on their way to open. */
  lemma UpgradeBack(s: State, ok: bool, hook: nat, k: Gating)
    requires Inv(s) && MsgEnabled(s, Handle(ok, hook)) && s.crash.None? && HandleStep(s, ok, hook).crash.None?
    requires s.msg.MStop? || s.msg.MWait? || s.msg.MRun? || s.msg.MProbe?
    requires IsShut(s, k)
    ensures IsShut(HandleStep(s, ok, hook), k) || IsOpened(HandleStep(s, ok, hook), k)
    ensures IsOpened(HandleStep(s, ok, hook), k) || Releasable(HandleStep(s, ok, hook), k) ==> Releasable(s, k)
  {
    ProbeNeedsTransport(s, ok, hook);
    UpgradeKeepsGates(s, ok, hook);
    hide Inv, Clears, Held, Brings, HandleStep;
  }

  lemma ProbeNeedsTransport(s: State, ok: bool, hook: nat)
    requires Inv(s) && MsgEnabled(s, Handle(ok, hook)) && s.crash.None? && HandleStep(s, ok, hook).crash.None?
    ensures s.msg.MProbe? ==> s.transport.Some?
  {
    hide Inv, HandleStep;
    MsgCrashes(s, ok, hook);
  }

  lemma UpgradeKeepsGates(s: State, ok: bool, hook: nat)
    requires Inv(s) && MsgEnabled(s, Handle(ok, hook))
    requires s.msg.MStop? || s.msg.MWait? || s.msg.MRun? || s.msg.MProbe?
    ensures
      var t := HandleStep(s, ok, hook);
      && t.wh == s.wh && |t.gates| == |s.gates|
      && (forall i :: 0 <= i < |s.gates| - 1 ==> t.gates[i] == s.gates[i])
  {
    hide InvFlow, InvHandOver, InvShutdown, StopOld, RunNew, SendProbe, Received;
    match s.msg
    case MStop(target, pc) => StopOldGates(s, target, pc);
    case MRun(target) => RunNewGates(s, target, ok);
    case MProbe(target) => SendProbeGates(s, target, ok);
    case _ =>
  }

  lemma StopOldGates(s: State, target: TransportName, pc: PT.StopPc)
    ensures StopOld(s, target, pc).wh == s.wh && StopOld(s, target, pc).gates == s.gates
  {
    hide PT.StopStep, NilCheck, Via;
  }

  lemma RunNewGates(s: State, target: TransportName, ok: bool)
    requires InvGates(s.wh, s.whSpent, s.gates, s.wu, s.wuSpent) && s.wu.Some?
    ensures RunNew(s, target, ok).wh == s.wh && |RunNew(s, target, ok).gates| == |s.gates|
    ensures forall i :: 0 <= i < |s.gates| - 1 ==> RunNew(s, target, ok).gates[i] == s.gates[i]
  {
    hide PT.Run, WT.Run, WT.RunFails, UpgradeGateCrash;
  }

  lemma SendProbeGates(s: State, target: TransportName, ok: bool)
    ensures SendProbe(s, target, ok).wh == s.wh && SendProbe(s, target, ok).gates == s.gates
  {
    hide NilCheck, Via;
  }

  /** A gate is closed only while it is the latest. */
  lemma CloseGateBack(s: State, m: MsgPc, k: Gating)
    requires Inv(s) && s.crash.None? && CloseUpgradeGate(s).crash.None? && IsShut(s, k)
    requires (s.msg.MProbeFailed? && m == MOpenGate(false, None)) || (s.msg.MUpgradeSent? && m == MIdle)
    ensures
      var t := CloseUpgradeGate(s).(msg := m);
      (IsShut(t, k) || IsOpened(t, k)) && (IsOpened(t, k) || Releasable(t, k) ==> Releasable(s, k))
  {
    ShutMeansInstalled(s, k);
    GateIsOpenable(s);
    LatestGate(s);
    hide Inv, Clears, Held, Brings;
  }

  lemma LatestGate(s: State)
    requires Inv(s)
    ensures s.wu == if s.gates == [] then None else Some(|s.gates| - 1)
  {
  }

  lemma OpenGateBack(s: State, good: bool, hook: nat, k: Gating)
    requires Inv(s) && s.msg.MOpenGate? && s.crash.None? && OpenHandshakeGate(s, good, hook).crash.None? && IsShut(s, k)
    ensures
      var t := OpenHandshakeGate(s, good, hook);
      (IsShut(t, k) || IsOpened(t, k)) && (IsOpened(t, k) || Releasable(t, k) ==> Releasable(s, k))
  {
    hide Inv, Clears, Held, Brings;
  }

  lemma HandleBack(s: State, ok: bool, hook: nat, k: Gating)
    requires Inv(s) && MsgEnabled(s, Handle(ok, hook)) && s.crash.None? && HandleStep(s, ok, hook).crash.None?
    requires IsShut(s, k)
    ensures IsShut(HandleStep(s, ok, hook), k) || IsOpened(HandleStep(s, ok, hook), k)
    ensures IsOpened(HandleStep(s, ok, hook), k) || Releasable(HandleStep(s, ok, hook), k) ==> Releasable(s, k)
  {
    hide Inv, IsShut, IsOpened, Releasable, Dispatch, Decide, LockForUpgrade, StopOld, Received, RunNew, SendProbe,
         CloseUpgradeGate, OpenHandshakeGate;
    ShutIsNotOpened(s, k);
    match s.msg
    case MDispatch(f) =>
      DispatchBack(s, f, k);
      ShutIsNotOpened(Dispatch(s, f), k);
    case MDecide(upgrades) =>
      DecideBack(s, upgrades, k);
      ShutIsNotOpened(Decide(s, upgrades), k);
    case MLock(target) =>
      LockBack(s, target, k);
      ShutIsNotOpened(LockForUpgrade(s, target), k);
    case MProbeFailed(_) => CloseGateBack(s, MOpenGate(false, None), k);
    case MUpgradeSent => CloseGateBack(s, MIdle, k);
    case MOpenGate(good, _) => OpenGateBack(s, good, hook, k);
    case _ => UpgradeBack(s, ok, hook, k);
  }

  lemma ShutIsNotOpened(s: State, k: Gating)
    ensures IsShut(s, k) ==> !IsOpened(s, k)
  {
  }

  /** A shut gate stays shut or is opened, and a step makes no gate releasable that was not. */
  lemma StepBack(s: State, a: Action, k: Gating)
    requires Inv(s) && Enabled(s, a) && Next(s, a).crash.None? && IsShut(s, k)
    ensures IsShut(Next(s, a), k) || IsOpened(Next(s, a), k)
    ensures IsOpened(Next(s, a), k) || Releasable(Next(s, a), k) ==> Releasable(s, k)
  {
    EnabledMeansRunning(s, a);
    if a.ByMsg? {
      MsgBack(s, a.m, k);
    } else {
      ShutMeansInstalled(s, k);
      OutsideStep(s, a);
      OutsideBack(s, Next(s, a), k);
    }
  }

  lemma OutsideBack(s: State, t: State, k: Gating)
    requires Outside(s, t) && IsShut(s, k)
    ensures IsShut(t, k) && !IsOpened(t, k)
    ensures Releasable(t, k) ==> Releasable(s, k)
  {
    if Releasable(t, k) {
      hide Releasable;
      OutsideReleasable(s, t, k);
    }
  }

  lemma MsgBack(s: State, a: MsgAct, k: Gating)
    requires Inv(s) && MsgEnabled(s, a) && s.crash.None? && MsgStep(s, a).crash.None? && IsShut(s, k)
    ensures IsShut(MsgStep(s, a), k) || IsOpened(MsgStep(s, a), k)
    ensures IsOpened(MsgStep(s, a), k) || Releasable(MsgStep(s, a), k) ==> Releasable(s, k)
  {
    hide Inv, Releasable, HandleStep;
    match a
    case Receive => ReceiveBack(s, k);
    case ReceiveEnd => ExitBack(s, k);
    case Cancel => ExitBack(s, k);
    case Handle(ok, hook) => HandleBack(s, ok, hook, k);
  }

  /** A gate that is shut and not releasable stays so in every continuation. */
  lemma {:induction false} StaysStranded(s: State, k: Gating, ss: seq<State>, acts: seq<Action>, n: nat)
    requires Inv(s) && s.crash.None? && IsShut(s, k) && !Releasable(s, k)
    requires RunFrom(s, ss, acts) && n < |ss| && ss[n].crash.None?
    ensures Inv(ss[n]) && IsShut(ss[n], k) && !IsOpened(ss[n], k) && !Releasable(ss[n], k)
  {
    hide Inv, Enabled, Next, IsShut, IsOpened, Releasable;
    if n > 0 {
      var t := ss[n - 1];
      assert Enabled(t, acts[n - 1]) && ss[n] == Next(t, acts[n - 1]);
      EnabledMeansRunning(t, acts[n - 1]);
      StaysStranded(s, k, ss, acts, n - 1);
      StepKeeps(t, acts[n - 1]);
      StepBack(t, acts[n - 1], k);
    } else {
      ShutIsNotOpened(s, k);
    }
  }
}
