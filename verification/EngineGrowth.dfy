/**
 What few steps change, or change in one direction only: the histories of enqueued frames and of packets, the
 websocket object, the callers of Send, the success of an upgrade, a transport that was taken.
 */
module EngineGrowth {
  import opened Options
  import opened Frames
  import opened TransportContract
  import opened EngineClient
  import opened EngineInvariant
  import opened EngineProof
  import PT = PollingTransport
  import WT = WebsocketTransport

  /** Neither the history of frames, nor the websocket object, nor any caller of Send changes. */
  predicate Untouched(s: State, t: State) {
    t.enq == s.enq && t.ws == s.ws && t.senders == s.senders
  }

  /** Callers may come, but those that are there do not move. */
  ghost predicate SendersKept(s: State, t: State) {
    forall id :: id in s.senders ==> id in t.senders && t.senders[id] == s.senders[id]
  }

  /**
   No packet leaves the record, a transport that was taken does not come back, except by an upgrade, and a gate
   that is open stays open.
   */
  predicate Onward(s: State, t: State) {
    && s.sent <= t.sent && (s.transport.None? && !s.msg.MRun? ==> t.transport.None?)
    && (s.wh.Opened? && !s.connect.CInstall? ==> t.wh.Opened?) && (!s.wh.Absent? ==> !t.wh.Absent?)
    && GatesStay(s.gates, t.gates)
  }

  /** No gate goes, and none is shut again. */
  predicate GatesStay(gates: seq<bool>, after: seq<bool>) {
    |gates| <= |after| && forall g :: 0 <= g < |gates| && gates[g] ==> after[g]
  }

  lemma ClosingStays(s: State)
    ensures GatesStay(s.gates, GatesAfter(s))
  {
  }

  /** What only the handling of a frame changes; and no frame is taken. */
  predicate Steady(s: State, t: State) {
    && t.defaultNs == s.defaultNs && t.supported == s.supported
    && (!s.msg.MDispatch? ==> SameKnowledge(s, t))
    && Taken(t.queue, t.enq) == Taken(s.queue, s.enq)
  }

  /** A step beside the message loop and Send hands nothing over; Connect starts the loop. */
  predicate Elsewhere(s: State, t: State) {
    t.sent == s.sent && SameKnowledge(s, t) && (t.msg == s.msg || (s.connect.CLaunch? && t.msg.MIdle?))
  }

  /** What the client has learned from frames. */
  predicate SameKnowledge(s: State, t: State) {
    t.nsOpen == s.nsOpen && t.known == s.known && t.sid == s.sid
  }

  /** The step stops the websocket transport or runs it. */
  predicate TouchesWebsocket(s: State, a: Action) {
    match a
    case ByConnect(RunIt(_)) => First(s.supported).Websocket?
    case ByConnect(Cleanup) => s.connect.CStop? && Via(s).Websocket?
    case ByMsg(Handle(_, _)) => (s.msg.MStop? && Via(s).Websocket?) || s.msg == MRun(Websocket)
    case ByClose(id, Proceed) => id in s.closers && s.closers[id].KStop? && s.closers[id].via.Websocket?
    case _ => false
  }

  lemma RunItGrows(s: State, ok: bool)
    requires s.connect.CStart?
    ensures ConnectStep(s, RunIt(ok)).enq == s.enq && ConnectStep(s, RunIt(ok)).senders == s.senders
    ensures ConnectStep(s, RunIt(ok)).upgraded == s.upgraded
    ensures Onward(s, ConnectStep(s, RunIt(ok)))
    ensures Steady(s, ConnectStep(s, RunIt(ok)))
    ensures Elsewhere(s, ConnectStep(s, RunIt(ok)))
    ensures First(s.supported).Polling? ==> ConnectStep(s, RunIt(ok)).ws == s.ws
  {
  }

  lemma OfferSentGrows(s: State)
    requires ConnectEnabled(s, OfferSent)
    ensures s.enq <= ConnectStep(s, OfferSent).enq && ConnectStep(s, OfferSent).ws == s.ws
    ensures ConnectStep(s, OfferSent).senders == s.senders
    ensures ConnectStep(s, OfferSent).upgraded == s.upgraded
    ensures Onward(s, ConnectStep(s, OfferSent))
    ensures Steady(s, ConnectStep(s, OfferSent))
    ensures Elsewhere(s, ConnectStep(s, OfferSent))
  {
  }

  lemma InstallGrows(s: State, a: ConnectAct)
    requires ConnectEnabled(s, a) && (a.Launch? || a.Install? || a.Request?)
    ensures Untouched(s, ConnectStep(s, a))
    ensures ConnectStep(s, a).upgraded == s.upgraded
    ensures Onward(s, ConnectStep(s, a))
    ensures Steady(s, ConnectStep(s, a))
    ensures Elsewhere(s, ConnectStep(s, a))
  {
    hide RunTransport, TakeOffer, CleanupStep, NilCheck, Via;
  }

  lemma GetGrows(s: State, a: ConnectAct)
    requires ConnectEnabled(s, a) && (a.GetReturns? || a.GetFails? || a.OfferCancels? || a.OfferStops?)
    ensures Untouched(s, ConnectStep(s, a))
    ensures ConnectStep(s, a).upgraded == s.upgraded
    ensures Onward(s, ConnectStep(s, a))
    ensures Steady(s, ConnectStep(s, a))
    ensures Elsewhere(s, ConnectStep(s, a))
  {
    hide RunTransport, TakeOffer, CleanupStep, NilCheck, Via;
  }

  lemma CleanupStopGrows(s: State)
    requires s.connect.CStop?
    ensures CleanupStep(s).enq == s.enq && CleanupStep(s).senders == s.senders
    ensures CleanupStep(s).upgraded == s.upgraded
    ensures Onward(s, CleanupStep(s))
    ensures Steady(s, CleanupStep(s))
    ensures Elsewhere(s, CleanupStep(s))
    ensures Via(s).Polling? ==> CleanupStep(s).ws == s.ws
  {
  }

  lemma CleanupWaitGrows(s: State)
    requires s.connect.CWait? && CanReceiveClose(s)
    ensures Untouched(s, CleanupStep(s))
    ensures CleanupStep(s).upgraded == s.upgraded
    ensures Onward(s, CleanupStep(s))
    ensures Steady(s, CleanupStep(s))
    ensures Elsewhere(s, CleanupStep(s))
  {
    hide Received;
  }

  lemma CleanupCloseGrows(s: State)
    requires s.connect.CClose?
    ensures Untouched(s, CleanupStep(s))
    ensures CleanupStep(s).upgraded == s.upgraded
    ensures Onward(s, CleanupStep(s))
    ensures Steady(s, CleanupStep(s))
    ensures Elsewhere(s, CleanupStep(s))
  {
  }

  lemma CleanupGrows(s: State)
    requires ConnectEnabled(s, Cleanup)
    ensures CleanupStep(s).enq == s.enq && CleanupStep(s).senders == s.senders
    ensures CleanupStep(s).upgraded == s.upgraded
    ensures Onward(s, CleanupStep(s))
    ensures Steady(s, CleanupStep(s))
    ensures Elsewhere(s, CleanupStep(s))
    ensures !(s.connect.CStop? && Via(s).Websocket?) ==> CleanupStep(s).ws == s.ws
  {
    hide CleanupStep;
    match s.connect
    case CStop(_) => CleanupStopGrows(s);
    case CWait => CleanupWaitGrows(s);
    case CClose => CleanupCloseGrows(s);
    case CJoin => CleanupJoinGrows(s);
    case _ =>
  }

  lemma CleanupJoinGrows(s: State)
    requires s.connect.CJoin? && s.msg.MExited?
    ensures Untouched(s, CleanupStep(s))
    ensures CleanupStep(s).upgraded == s.upgraded
    ensures Onward(s, CleanupStep(s))
    ensures Steady(s, CleanupStep(s))
    ensures Elsewhere(s, CleanupStep(s))
  {
  }

  lemma StopGrows(s: State, via: TransportName, pc: PT.StopPc)
    ensures StopTransport(s, via, pc).enq == s.enq && StopTransport(s, via, pc).senders == s.senders
    ensures Untouched(s, CloseQueue(s))
    ensures StopTransport(s, via, pc).upgraded == CloseQueue(s).upgraded == s.upgraded
    ensures Onward(s, StopTransport(s, via, pc)) && Onward(s, CloseQueue(s))
    ensures Steady(s, StopTransport(s, via, pc)) && Steady(s, CloseQueue(s))
    ensures Elsewhere(s, StopTransport(s, via, pc)) && Elsewhere(s, CloseQueue(s))
    ensures via.Polling? ==> StopTransport(s, via, pc).ws == s.ws
  {
    hide PT.StopStep;
  }

  lemma UpgradeGrows(s: State, upgrades: seq<Offer>, target: TransportName, pc: PT.StopPc, ok: bool)
    ensures Untouched(s, Decide(s, upgrades)) && Untouched(s, LockForUpgrade(s, target))
    ensures Untouched(s, SendProbe(s, target, ok))
    ensures StopOld(s, target, pc).enq == RunNew(s, target, ok).enq == s.enq
    ensures StopOld(s, target, pc).senders == RunNew(s, target, ok).senders == s.senders
    ensures RunNew(s, target, ok).upgraded == s.upgraded && (s.msg.MRun? ==> Onward(s, RunNew(s, target, ok)))
    ensures Steady(s, RunNew(s, target, ok))
    ensures Onward(s, SendProbe(s, target, ok))
    ensures Steady(s, SendProbe(s, target, ok))
    ensures StopOld(s, target, pc).upgraded == s.upgraded
    ensures Onward(s, StopOld(s, target, pc))
    ensures Steady(s, StopOld(s, target, pc))
    ensures Decide(s, upgrades).upgraded == LockForUpgrade(s, target).upgraded == s.upgraded
    ensures Onward(s, Decide(s, upgrades)) && Onward(s, LockForUpgrade(s, target))
    ensures Steady(s, Decide(s, upgrades)) && Steady(s, LockForUpgrade(s, target))
    ensures Via(s).Polling? ==> StopOld(s, target, pc).ws == s.ws
    ensures target.Polling? ==> RunNew(s, target, ok).ws == s.ws
  {
    ClosingStays(s);
    hide UpgradeTarget, NilCheck, Via, PT.StopStep, PT.Run, GatesAfter, UpgradeGateCrash;
  }

  lemma RestartGrows(s: State, ok: bool, hook: nat)
    requires MsgEnabled(s, Handle(ok, hook)) && (s.msg.MStop? || s.msg.MRun?)
    ensures HandleStep(s, ok, hook).enq == s.enq && HandleStep(s, ok, hook).senders == s.senders
    ensures HandleStep(s, ok, hook).upgraded == s.upgraded
    ensures Onward(s, HandleStep(s, ok, hook))
    ensures Steady(s, HandleStep(s, ok, hook))
    ensures !TouchesWebsocket(s, ByMsg(Handle(ok, hook))) ==> HandleStep(s, ok, hook).ws == s.ws
  {
    hide Dispatch, Decide, LockForUpgrade, SendProbe, StopOld, RunNew, Received, CloseUpgradeGate, OpenHandshakeGate;
    if s.msg.MStop? {
      UpgradeGrows(s, [], s.msg.target, s.msg.stop, ok);
    } else {
      UpgradeGrows(s, [], s.msg.target, PT.StopCas, ok);
    }
  }

  lemma QuietUpgradeGrows(s: State, ok: bool, hook: nat)
    requires MsgEnabled(s, Handle(ok, hook)) && (s.msg.MDecide? || s.msg.MLock? || s.msg.MWait? || s.msg.MProbe?)
    ensures Untouched(s, HandleStep(s, ok, hook))
    ensures !s.msg.MProbe? ==> HandleStep(s, ok, hook).upgraded == s.upgraded
    ensures Onward(s, HandleStep(s, ok, hook))
    ensures Steady(s, HandleStep(s, ok, hook))
  {
    hide Dispatch, Decide, LockForUpgrade, SendProbe, StopOld, RunNew, Received, CloseUpgradeGate, OpenHandshakeGate;
    match s.msg
    case MDecide(upgrades) => UpgradeGrows(s, upgrades, Polling, PT.StopCas, ok);
    case MLock(target) => UpgradeGrows(s, [], target, PT.StopCas, ok);
    case MProbe(target) => UpgradeGrows(s, [], target, PT.StopCas, ok);
    case _ =>
  }

  lemma QuietFrameGrows(s: State, ok: bool, hook: nat)
    requires MsgEnabled(s, Handle(ok, hook)) && (s.msg.MDispatch? || s.msg.MProbeFailed? || s.msg.MUpgradeSent?)
    ensures Untouched(s, HandleStep(s, ok, hook))
    ensures HandleStep(s, ok, hook).upgraded == s.upgraded
    ensures Onward(s, HandleStep(s, ok, hook))
    ensures Steady(s, HandleStep(s, ok, hook))
  {
    hide Dispatch, Decide, LockForUpgrade, SendProbe, StopOld, RunNew, Received, CloseUpgradeGate, OpenHandshakeGate;
    FrameGrows(s, if s.msg.MDispatch? then s.msg.frame else Close, ok, hook);
  }

  lemma GateGrows(s: State, ok: bool, hook: nat)
    requires MsgEnabled(s, Handle(ok, hook)) && s.msg.MOpenGate?
    ensures HandleStep(s, ok, hook).enq == s.enq && HandleStep(s, ok, hook).ws == s.ws
    ensures SendersKept(s, HandleStep(s, ok, hook))
    ensures HandleStep(s, ok, hook).upgraded == s.upgraded
    ensures Onward(s, HandleStep(s, ok, hook))
    ensures Steady(s, HandleStep(s, ok, hook))
  {
    hide Dispatch, Decide, LockForUpgrade, SendProbe, StopOld, RunNew, Received, CloseUpgradeGate, OpenHandshakeGate;
    FrameGrows(s, Close, s.msg.ok, hook);
  }

  lemma HandleGrows(s: State, ok: bool, hook: nat)
    requires MsgEnabled(s, Handle(ok, hook))
    ensures HandleStep(s, ok, hook).enq == s.enq && SendersKept(s, HandleStep(s, ok, hook))
    ensures !s.msg.MProbe? ==> HandleStep(s, ok, hook).upgraded == s.upgraded
    ensures Onward(s, HandleStep(s, ok, hook))
    ensures Steady(s, HandleStep(s, ok, hook))
    ensures !TouchesWebsocket(s, ByMsg(Handle(ok, hook))) ==> HandleStep(s, ok, hook).ws == s.ws
    ensures !s.msg.MOpenGate? ==> HandleStep(s, ok, hook).senders == s.senders
  {
    hide HandleStep, TouchesWebsocket;
    if s.msg.MStop? || s.msg.MRun? {
      RestartGrows(s, ok, hook);
    } else if s.msg.MOpenGate? {
      GateGrows(s, ok, hook);
    } else if s.msg.MDispatch? || s.msg.MProbeFailed? || s.msg.MUpgradeSent? {
      QuietFrameGrows(s, ok, hook);
    } else {
      QuietUpgradeGrows(s, ok, hook);
    }
  }

  lemma FrameGrows(s: State, f: Frame, ok: bool, hook: nat)
    ensures Untouched(s, Dispatch(s, f)) && Untouched(s, CloseUpgradeGate(s))
    ensures Dispatch(s, f).upgraded == CloseUpgradeGate(s).upgraded == s.upgraded
    ensures OpenHandshakeGate(s, ok, hook).upgraded == s.upgraded
    ensures Onward(s, Dispatch(s, f)) && Onward(s, CloseUpgradeGate(s)) && Onward(s, OpenHandshakeGate(s, ok, hook))
    ensures s.msg.MDispatch? ==> Steady(s, Dispatch(s, f))
    ensures Steady(s, CloseUpgradeGate(s)) && Steady(s, OpenHandshakeGate(s, ok, hook))
    ensures OpenHandshakeGate(s, ok, hook).enq == s.enq && OpenHandshakeGate(s, ok, hook).ws == s.ws
    ensures hook !in s.senders ==> SendersKept(s, OpenHandshakeGate(s, ok, hook))
  {
    ClosingStays(s);
    hide PT.SetHandshake, NilCheck, Via, GatesAfter, UpgradeGateCrash;
  }

  lemma CloseGrows(s: State, id: nat, pc: ClosePc)
    requires !pc.KReturned?
    ensures ProceedClose(s, id, pc).enq == s.enq && ProceedClose(s, id, pc).senders == s.senders
    ensures ProceedClose(s, id, pc).upgraded == s.upgraded
    ensures Onward(s, ProceedClose(s, id, pc))
    ensures Steady(s, ProceedClose(s, id, pc))
    ensures Elsewhere(s, ProceedClose(s, id, pc))
    ensures !(pc.KStop? && pc.via.Websocket?) ==> ProceedClose(s, id, pc).ws == s.ws
  {
    hide StopTransport, StopNext, CloseQueue, Received;
    if pc.KStop? {
      StopGrows(s, pc.via, pc.stop);
    } else {
      StopGrows(s, Polling, PT.StopCas);
    }
  }

  lemma LoopGrows(s: State, p: PT.LoopAct, w: WT.LoopAct)
    ensures s.enq <= PollStep(s, p).enq && s.enq <= WsStep(s, w).enq
    ensures PollStep(s, p).ws == s.ws && PollStep(s, p).senders == WsStep(s, w).senders == s.senders
    ensures PollStep(s, p).upgraded == WsStep(s, w).upgraded == s.upgraded
    ensures Onward(s, PollStep(s, p)) && Onward(s, WsStep(s, w))
    ensures Steady(s, PollStep(s, p)) && Steady(s, WsStep(s, w))
    ensures Elsewhere(s, PollStep(s, p)) && Elsewhere(s, WsStep(s, w))
  {
    hide PT.LoopNext, PT.LoopEffect, WT.LoopNext, WT.LoopEffect, ChansAfter, EffectCrash;
  }

  lemma MsgGrows(s: State, a: MsgAct)
    requires MsgEnabled(s, a)
    ensures MsgStep(s, a).enq == s.enq && SendersKept(s, MsgStep(s, a))
    ensures MsgStep(s, a).upgraded == s.upgraded || (a.Handle? && s.msg.MProbe?)
    ensures Onward(s, MsgStep(s, a))
    ensures !TouchesWebsocket(s, ByMsg(a)) ==> MsgStep(s, a).ws == s.ws
    ensures !a.Receive? ==> Steady(s, MsgStep(s, a))
    ensures (a.Handle? && s.msg.MOpenGate?) || MsgStep(s, a).senders == s.senders
  {
    hide HandleStep;
    if a.Handle? {
      HandleGrows(s, a.ok, a.hook);
    }
  }

  lemma SendStarts(s: State, id: nat, caller: Caller)
    requires SendEnabled(s, id, Start(caller))
    ensures SendStep(s, id, Start(caller)).enq == s.enq && SendStep(s, id, Start(caller)).ws == s.ws
    ensures SendStep(s, id, Start(caller)).upgraded == s.upgraded
    ensures Onward(s, SendStep(s, id, Start(caller)))
    ensures SameKnowledge(s, SendStep(s, id, Start(caller))) && SendStep(s, id, Start(caller)).msg == s.msg
    ensures Steady(s, SendStep(s, id, Start(caller)))
    ensures SendersKept(s, SendStep(s, id, Start(caller)))
  {
  }

  lemma SendMoves(s: State, id: nat)
    requires SendEnabled(s, id, Step)
    ensures SendStep(s, id, Step).enq == s.enq && SendStep(s, id, Step).ws == s.ws
    ensures SendStep(s, id, Step).upgraded == s.upgraded
    ensures Onward(s, SendStep(s, id, Step))
    ensures SameKnowledge(s, SendStep(s, id, Step)) && SendStep(s, id, Step).msg == s.msg
    ensures Steady(s, SendStep(s, id, Step))
    ensures forall other :: other in s.senders && other != id ==>
              other in SendStep(s, id, Step).senders && SendStep(s, id, Step).senders[other] == s.senders[other]
  {
    hide NextSender, Handed;
  }

  lemma SendGrows(s: State, id: nat, a: SendAct)
    requires SendEnabled(s, id, a)
    ensures SendStep(s, id, a).enq == s.enq && SendStep(s, id, a).ws == s.ws
    ensures SendStep(s, id, a).upgraded == s.upgraded
    ensures Onward(s, SendStep(s, id, a))
    ensures SameKnowledge(s, SendStep(s, id, a)) && SendStep(s, id, a).msg == s.msg
    ensures Steady(s, SendStep(s, id, a))
    ensures forall other :: other in s.senders && (other != id || !a.Step?) ==>
              other in SendStep(s, id, a).senders && SendStep(s, id, a).senders[other] == s.senders[other]
  {
    hide SendStep, SendEnabled;
    match a
    case Start(caller) => SendStarts(s, id, caller);
    case Step => SendMoves(s, id);
  }

  lemma ClosersGrow(s: State, id: nat, a: CloseAct)
    requires CloseEnabled(s, id, a)
    ensures CloseStep(s, id, a).enq == s.enq && CloseStep(s, id, a).senders == s.senders
    ensures CloseStep(s, id, a).upgraded == s.upgraded
    ensures Onward(s, CloseStep(s, id, a))
    ensures Steady(s, CloseStep(s, id, a))
    ensures Elsewhere(s, CloseStep(s, id, a))
    ensures !TouchesWebsocket(s, ByClose(id, a)) ==> CloseStep(s, id, a).ws == s.ws
  {
    hide ProceedClose;
    if a.Proceed? {
      CloseGrows(s, id, s.closers[id]);
    }
  }

  lemma StartsOnly(s: State, ok: bool)
    requires ConnectEnabled(s, RunIt(ok))
    ensures s.connect.CStart?
  {
  }

  lemma ConnectGrows(s: State, a: ConnectAct)
    requires ConnectEnabled(s, a)
    ensures s.enq <= ConnectStep(s, a).enq && ConnectStep(s, a).senders == s.senders
    ensures ConnectStep(s, a).upgraded == s.upgraded
    ensures Onward(s, ConnectStep(s, a))
    ensures Steady(s, ConnectStep(s, a))
    ensures Elsewhere(s, ConnectStep(s, a))
    ensures !TouchesWebsocket(s, ByConnect(a)) ==> ConnectStep(s, a).ws == s.ws
  {
    hide CleanupStep, ConnectStep, ConnectEnabled;
    match a
    case Cleanup =>
      DelegatedSteps(s);
      CleanupGrows(s);
    case RunIt(ok) =>
      StartsOnly(s, ok);
      RunItGrows(s, ok);
    case OfferSent => OfferSentGrows(s);
    case _ =>
      if a.Launch? || a.Install? || a.Request? {
        InstallGrows(s, a);
      } else {
        GetGrows(s, a);
      }
  }

  /**
   What was enqueued or handed over stays so; only its own goroutines, Stop and Run touch the websocket object;
   a caller of Send moves by its own steps only; only sending the probe can make an upgrade a success; and only
   the Run of an upgrade can bring a transport back.
   */
  lemma StepGrows(s: State, a: Action)
    requires Enabled(s, a)
    ensures s.enq <= Next(s, a).enq
    ensures a.ByWs? || TouchesWebsocket(s, a) || Next(s, a).ws == s.ws
    ensures forall id :: id in s.senders && a != BySend(id, Step) ==>
              id in Next(s, a).senders && Next(s, a).senders[id] == s.senders[id]
    ensures Next(s, a).upgraded == s.upgraded || (a.ByMsg? && a.m.Handle? && s.msg.MProbe?)
    ensures Onward(s, Next(s, a))
    ensures a != ByMsg(Receive) ==> Steady(s, Next(s, a))
    ensures a.BySend? ==> SameKnowledge(s, Next(s, a)) && Next(s, a).msg == s.msg
    ensures !a.ByMsg? && !a.BySend? ==> Elsewhere(s, Next(s, a))
    ensures !a.BySend? && !(a.ByMsg? && a.m.Handle? && s.msg.MOpenGate?) ==> Next(s, a).senders == s.senders
  {
    hide ConnectStep, MsgStep, SendStep, CloseStep, PollStep, WsStep;
    hide ConnectEnabled, MsgEnabled, SendEnabled, CloseEnabled, PollEnabled, WsEnabled;
    match a
    case ByConnect(c) => ConnectGrows(s, c);
    case ByMsg(m) => MsgGrows(s, m);
    case BySend(id, x) => SendGrows(s, id, x);
    case ByClose(id, k) => ClosersGrow(s, id, k);
    case ByPoll(p) => LoopGrows(s, p, WT.PutClose);
    case ByWs(w) => LoopGrows(s, PT.PutClose, w);
    case CancelContext =>
  }
}
