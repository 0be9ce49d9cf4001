/**
 Every step of every thread of the Engine.IO client keeps the invariant, and the steps that panic are
 exactly the ones that CrashOf lists.  Definitions that a proof does not need are hidden from it.
 */
module EngineProof {
  import opened Options
  import opened Bytes
  import opened GoInt
  import opened Frames
  import opened TransportContract
  import opened EngineClient
  import opened EngineInvariant
  import PT = PollingTransport
  import WT = WebsocketTransport

  /** The Stop in progress, if any. */
  function Stopper(s: State): PT.StopPc {
    StopperPc(s.msg, s.connect, WinnerPc(s.winner, s.closers))
  }

  lemma CancelKeeps(s: State)
    requires Inv(s)
    ensures Inv(s.(ctxDone := true))
  {
  }

  // ------------------------------------------------------------------ transport loops

  lemma OpenTakenGrows(enq: seq<Frame>, taken: int, enq': seq<Frame>, taken': int)
    requires OpenTaken(enq, taken) && enq <= enq' && taken <= taken'
    ensures OpenTaken(enq', taken')
  {
  }

  lemma EnqueueKeepsFlow(s: State, f: Frame)
    requires InvFlow(s) && !s.queueClosed && |s.queue| < CAPACITY
    ensures InvFlow(s.(queue := s.queue + [f], enq := s.enq + [f]))
  {
    var enq := s.enq + [f];
    assert Taken(s.queue + [f], enq) == Taken(s.queue, s.enq);
    assert enq[..Handled(s.queue, s.enq, s.msg)] == s.enq[..Handled(s.queue, s.enq, s.msg)];
    if s.sid || s.poll.gate.GateOpen? {
      OpenTakenGrows(s.enq, Handled(s.queue, s.enq, s.msg), enq, Handled(s.queue, s.enq, s.msg));
    }
  }

  lemma EnqueueKeeps(s: State, f: Frame)
    requires Inv(s) && !s.queueClosed && |s.queue| < CAPACITY
    requires Polling in s.supported ==> s.connect.COk?
    ensures Inv(s.(queue := s.queue + [f], enq := s.enq + [f]))
  {
    EnqueueKeepsFlow(s, f);
  }

  /** A live loop finds `messages` open, so its send cannot panic. */
  lemma LiveMeansOpen(s: State)
    requires Inv(s) && (PT.Live(s.poll) || WT.Live(s.ws))
    ensures !s.queueClosed && s.chans != [] && s.chans[|s.chans| - 1].Fresh?
  {
  }

  /** A loop past the gate means that Connect has returned nil. */
  lemma PastGateMeansConnected(s: State)
    requires Inv(s) && (PT.PastGate(s.poll) || WT.Live(s.ws))
    ensures Polling in s.supported ==> s.connect.COk?
  {
  }

  /** Any change of the polling object that shows neither in its liveness nor in its gate. */
  lemma PollChanges(s: State, p: PT.Transport)
    requires Inv(s) && Polling in s.supported
    requires PT.Live(p) == PT.Live(s.poll) && p.onClose == s.poll.onClose && p.gate == s.poll.gate
    requires PT.GateRespected(p)
    requires s.owner.Polling? ==> PT.StopStage(p, Stopper(s))
    ensures Inv(s.(poll := p))
  {
  }

  lemma PollSignals(s: State, p: PT.Transport)
    requires Inv(s) && PT.Live(s.poll) && !PT.Live(p) && p.gate == s.poll.gate
    requires PT.GateRespected(p) && PT.StopStage(p, Stopper(s))
    ensures s.poll.onClose == |s.chans| - 1 && s.chans[s.poll.onClose].Fresh?
    ensures Inv(s.(poll := p, chans := s.chans[s.poll.onClose := Signalled]))
  {
  }

  lemma WsChanges(s: State, w: WT.Transport)
    requires Inv(s)
    requires WT.Live(w) == WT.Live(s.ws) && w.onClose == s.ws.onClose
    requires s.owner.Websocket? && WT.Live(w) && Stopper(s).StopReturned? ==> WT.Notified(w)
    requires InvReaders(w)
    ensures Inv(s.(ws := w))
  {
  }

  lemma WsSignals(s: State, w: WT.Transport)
    requires Inv(s) && WT.Live(s.ws) && !WT.Live(w) && InvReaders(w)
    ensures s.ws.onClose == |s.chans| - 1 && s.chans[s.ws.onClose].Fresh?
    ensures Inv(s.(ws := w, chans := s.chans[s.ws.onClose := Signalled]))
  {
  }

  lemma PollFacts(s: State, a: PT.LoopAct)
    requires Inv(s) && PollEnabled(s, a)
    ensures Polling in s.supported && PT.Live(s.poll) && s.owner.Polling?
    ensures PT.GateRespected(s.poll) && PT.StopStage(s.poll, Stopper(s))
    ensures PT.Enabled(s.poll, a, s.ctxDone, CanSend(s))
  {
  }

  lemma PollLocal(p: PT.Transport, a: PT.LoopAct, pc: PT.StopPc, ctxDone: bool, room: bool)
    requires PT.GateRespected(p) && PT.StopStage(p, pc) && PT.Enabled(p, a, ctxDone, room)
    ensures
      var q := PT.LoopNext(p, a);
      && q.onClose == p.onClose && q.gate == p.gate && PT.GateRespected(q) && PT.StopStage(q, pc)
      && PT.Live(p) && (PT.Live(q) <==> !PT.LoopEffect(p, a).Signal?)
      && (PT.LoopEffect(p, a).Enqueue? ==> PT.PastGate(p) && room)
  {
    PT.LoopRefines(p, a, ctxDone, room);
    PT.LoopKeepsStopStage(p, pc, a, ctxDone, room);
  }

  lemma PollSilentKeeps(s: State, a: PT.LoopAct)
    requires Inv(s) && s.crash.None? && PollEnabled(s, a) && PT.LoopEffect(s.poll, a).Silent?
    ensures PollStep(s, a).crash.None? && Inv(PollStep(s, a))
  {
    hide Inv, PollEnabled, PT.StopStage, PT.GateRespected, PT.LoopNext, PT.LoopEffect, PT.Enabled, Stopper;
    PollFacts(s, a);
    PollLocal(s.poll, a, Stopper(s), s.ctxDone, CanSend(s));
    PollChanges(s, PT.LoopNext(s.poll, a));
  }

  lemma PollEnqueueKeeps(s: State, a: PT.LoopAct)
    requires Inv(s) && s.crash.None? && PollEnabled(s, a) && PT.LoopEffect(s.poll, a).Enqueue?
    ensures PollStep(s, a).crash.None? && Inv(PollStep(s, a))
  {
    hide Inv, PollEnabled, PT.StopStage, PT.GateRespected, PT.LoopNext, PT.LoopEffect, PT.Enabled, Stopper;
    PollFacts(s, a);
    PollLocal(s.poll, a, Stopper(s), s.ctxDone, CanSend(s));
    LiveMeansOpen(s);
    PastGateMeansConnected(s);
    PollChanges(s, PT.LoopNext(s.poll, a));
    EnqueueKeeps(s.(poll := PT.LoopNext(s.poll, a)), PT.LoopEffect(s.poll, a).frame);
  }

  lemma PollSignalKeeps(s: State, a: PT.LoopAct)
    requires Inv(s) && s.crash.None? && PollEnabled(s, a) && PT.LoopEffect(s.poll, a).Signal?
    ensures PollStep(s, a).crash.None? && Inv(PollStep(s, a))
  {
    hide Inv, PollEnabled, PT.StopStage, PT.GateRespected, PT.LoopNext, PT.LoopEffect, PT.Enabled, Stopper;
    PollFacts(s, a);
    PollLocal(s.poll, a, Stopper(s), s.ctxDone, CanSend(s));
    LiveMeansOpen(s);
    PollSignals(s, PT.LoopNext(s.poll, a));
  }

  lemma PollStepKeeps(s: State, a: PT.LoopAct)
    requires Inv(s) && s.crash.None? && PollEnabled(s, a)
    ensures PollStep(s, a).crash.None? && Inv(PollStep(s, a))
  {
    hide *;
    match PT.LoopEffect(s.poll, a)
    case Silent => PollSilentKeeps(s, a);
    case Enqueue(_) => PollEnqueueKeeps(s, a);
    case Signal => PollSignalKeeps(s, a);
  }

  lemma WsFacts(s: State, a: WT.LoopAct)
    requires Inv(s) && WsEnabled(s, a)
    ensures WT.Enabled(s.ws, a, s.ctxDone, CanSend(s))
    ensures s.owner.Websocket? && Stopper(s).StopReturned? && WT.Live(s.ws) ==> WT.Notified(s.ws)
    ensures InvReaders(s.ws)
  {
  }

  lemma WsLocal(w: WT.Transport, a: WT.LoopAct, ctxDone: bool, room: bool)
    requires WT.Enabled(w, a, ctxDone, room) && InvReaders(w)
    ensures
      var v := WT.LoopNext(w, a);
      && InvReaders(v) && v.onClose == w.onClose && (WT.Notified(w) ==> WT.Notified(v))
      && (!WT.LoopEffect(w, a).Signal? ==> WT.Live(v) == WT.Live(w))
      && (WT.LoopEffect(w, a).Signal? ==> WT.Live(w) && !WT.Live(v))
      && (WT.LoopEffect(w, a).Enqueue? ==> WT.Live(w) && room)
  {
    hide WT.LoopNext, WT.LoopEffect, WT.Enabled, WT.Live, WT.Notified, WT.ReaderBound;
    WT.ReaderBoundKept(w, a, ctxDone, room);
    WT.LoopRefines(w, a, ctxDone, room);
    WT.LoopKeepsChannel(w, a);
    if WT.Notified(w) {
      WT.StopProgress(w, a, ctxDone, if room then 1 else 0);
    }
    if WT.LoopEffect(w, a).Enqueue? {
      WT.ForwardsIntoRoom(w, a, ctxDone, room);
    }
  }

  lemma SilentChangesNothing(s: State, chan: nat)
    ensures FramesAfter(s.queue, Silent, s.queueClosed) == s.queue && FramesAfter(s.enq, Silent, s.queueClosed) == s.enq
    ensures ChansAfter(s.chans, Silent, chan) == s.chans && EffectCrash(s, Silent, chan) == s.crash
  {
  }

  lemma WsSilentKeeps(s: State, a: WT.LoopAct)
    requires Inv(s) && s.crash.None? && WsEnabled(s, a) && WT.LoopEffect(s.ws, a).Silent?
    ensures WsStep(s, a).crash.None? && Inv(WsStep(s, a))
  {
    hide Inv, InvReaders, WsEnabled, WT.LoopNext, WT.LoopEffect, WT.Enabled, WT.Notified, WT.Live, Stopper,
         FramesAfter, ChansAfter, EffectCrash;
    SilentChangesNothing(s, s.ws.onClose);
    WsFacts(s, a);
    WsLocal(s.ws, a, s.ctxDone, CanSend(s));
    WsChanges(s, WT.LoopNext(s.ws, a));
  }

  lemma WsEnqueueKeeps(s: State, a: WT.LoopAct)
    requires Inv(s) && s.crash.None? && WsEnabled(s, a) && WT.LoopEffect(s.ws, a).Enqueue?
    ensures WsStep(s, a).crash.None? && Inv(WsStep(s, a))
  {
    hide Inv, InvReaders, WsEnabled, WT.LoopNext, WT.LoopEffect, WT.Enabled, WT.Notified, WT.Live, Stopper;
    WsFacts(s, a);
    WsLocal(s.ws, a, s.ctxDone, CanSend(s));
    LiveMeansOpen(s);
    PastGateMeansConnected(s);
    WsChanges(s, WT.LoopNext(s.ws, a));
    EnqueueKeeps(s.(ws := WT.LoopNext(s.ws, a)), WT.LoopEffect(s.ws, a).frame);
  }

  lemma WsSignalKeeps(s: State, a: WT.LoopAct)
    requires Inv(s) && s.crash.None? && WsEnabled(s, a) && WT.LoopEffect(s.ws, a).Signal?
    ensures WsStep(s, a).crash.None? && Inv(WsStep(s, a))
  {
    hide Inv, InvReaders, WsEnabled, WT.LoopNext, WT.LoopEffect, WT.Enabled, WT.Notified, WT.Live, Stopper;
    WsFacts(s, a);
    WsLocal(s.ws, a, s.ctxDone, CanSend(s));
    LiveMeansOpen(s);
    WsSignals(s, WT.LoopNext(s.ws, a));
  }

  lemma WsStepKeeps(s: State, a: WT.LoopAct)
    requires Inv(s) && s.crash.None? && WsEnabled(s, a)
    ensures WsStep(s, a).crash.None? && Inv(WsStep(s, a))
  {
    hide *;
    match WT.LoopEffect(s.ws, a)
    case Silent => WsSilentKeeps(s, a);
    case Enqueue(_) => WsEnqueueKeeps(s, a);
    case Signal => WsSignalKeeps(s, a);
  }

  // ------------------------------------------------------------------ Connect

  /** Only a polling client ever has a handshake request of its own to make. */
  lemma RequestMeansPolling(s: State)
    requires Inv(s) && (s.connect.CGet? || s.connect.COffer? || (s.connect.CRequest? && s.transport == Some(Polling)))
    ensures Polling in s.supported && s.owner.Polling? && !s.queueClosed && s.winner.None?
    ensures Stopper(s) == PT.StopCas
  {
  }

  /** Receiving leaves the current channel quiet, and there is no live loop. */
  lemma ReceivedIsQuiet(s: State)
    requires Inv(s) && CanReceiveClose(s)
    ensures !PT.Live(s.poll) && !WT.Live(s.ws) && LastQuiet(Received(s.chans))
    ensures InvChans(Received(s.chans), s.owner, PT.Live(s.poll), s.poll.onClose, WT.Live(s.ws), s.ws.onClose)
  {
  }

  lemma StopStageNow(s: State)
    requires Inv(s) && s.owner.Polling?
    ensures Stopper(s).StopBroadcast? ==> !s.poll.broadcast
  {
  }

  lemma TransportWhileConnecting(s: State)
    requires Inv(s) && !s.connect.COk?
    ensures s.transport == Some(s.owner)
    ensures Cleaning(s.connect) ==> s.owner.Polling?
  {
  }

  lemma RunItKeeps(s: State, ok: bool)
    requires Inv(s) && s.connect.CStart?
    ensures Inv(ConnectStep(s, RunIt(ok))) && ConnectStep(s, RunIt(ok)).crash == s.crash
  {
    PT.RunForgets(s.poll, s.poll, s.sid, |s.chans|);
  }

  lemma LaunchKeeps(s: State)
    requires Inv(s) && s.connect.CLaunch?
    ensures Inv(ConnectStep(s, Launch)) && ConnectStep(s, Launch).crash == s.crash
  {
  }

  lemma InstallKeeps(s: State)
    requires Inv(s) && ConnectEnabled(s, Install)
    ensures Inv(ConnectStep(s, Install)) && ConnectStep(s, Install).crash == s.crash
  {
  }

  lemma RequestKeeps(s: State)
    requires Inv(s) && s.connect.CRequest?
    ensures Inv(ConnectStep(s, Request)) && ConnectStep(s, Request).crash == s.crash
  {
    TransportWhileConnecting(s);
  }

  lemma GetReturnsKeeps(s: State, f: Frame)
    requires Inv(s) && s.connect.CGet?
    ensures Inv(ConnectStep(s, GetReturns(f))) && ConnectStep(s, GetReturns(f)).crash == s.crash
  {
  }

  lemma RequestFailsKeeps(s: State, a: ConnectAct)
    requires Inv(s) && ConnectEnabled(s, a) && (a.GetFails? || a.OfferCancels? || a.OfferStops?)
    ensures Inv(ConnectStep(s, a)) && ConnectStep(s, a).crash == s.crash
  {
  }

  lemma OfferKeeps(s: State)
    requires Inv(s) && s.connect.COffer? && CanSend(s)
    ensures Inv(TakeOffer(s, s.connect.frame)) && TakeOffer(s, s.connect.frame).crash == s.crash
  {
    RequestMeansPolling(s);
    EnqueueKeepsFlow(s, s.connect.frame);
  }

  lemma CleanupStopKeeps(s: State)
    requires Inv(s) && s.connect.CStop?
    ensures Inv(CleanupStep(s)) && CleanupStep(s).crash == s.crash
  {
    TransportWhileConnecting(s);
    StopStageNow(s);
    PT.StopAdvances(s.poll, s.connect.stop);
    PT.StopRefines(s.poll, s.connect.stop);
  }

  lemma CleanupWaitKeeps(s: State)
    requires Inv(s) && s.connect.CWait? && CanReceiveClose(s)
    ensures Inv(CleanupStep(s)) && CleanupStep(s).crash == s.crash
  {
  }

  lemma CleanupCloseKeeps(s: State)
    requires Inv(s) && s.connect.CClose?
    ensures Inv(CleanupStep(s)) && CleanupStep(s).crash == s.crash
  {
  }

  lemma CleanupJoinKeeps(s: State)
    requires Inv(s) && s.connect.CJoin? && s.msg.MExited?
    ensures Inv(CleanupStep(s)) && CleanupStep(s).crash == s.crash
  {
  }

  lemma CleanupStepKeeps(s: State)
    requires Inv(s) && ConnectEnabled(s, Cleanup)
    ensures Inv(CleanupStep(s)) && CleanupStep(s).crash == s.crash
  {
    hide Inv, CleanupStep;
    match s.connect
    case CStop(_) => CleanupStopKeeps(s);
    case CWait => CleanupWaitKeeps(s);
    case CClose => CleanupCloseKeeps(s);
    case CJoin => CleanupJoinKeeps(s);
    case _ =>
  }

  lemma DelegatedSteps(s: State)
    ensures s.connect.COffer? && CanSend(s) ==> ConnectStep(s, OfferSent) == TakeOffer(s, s.connect.frame)
    ensures ConnectEnabled(s, Cleanup) ==> ConnectStep(s, Cleanup) == CleanupStep(s)
  {
    hide TakeOffer, CleanupStep;
  }

  lemma ConnectStepKeeps(s: State, a: ConnectAct)
    requires Inv(s) && s.crash.None? && ConnectEnabled(s, a)
    ensures ConnectStep(s, a).crash.None? && Inv(ConnectStep(s, a))
  {
    hide Inv, ConnectStep, CleanupStep, TakeOffer;
    DelegatedSteps(s);
    match a
    case RunIt(ok) => RunItKeeps(s, ok);
    case Launch => LaunchKeeps(s);
    case Install => InstallKeeps(s);
    case Request => RequestKeeps(s);
    case GetReturns(f) => GetReturnsKeeps(s, f);
    case OfferSent => OfferKeeps(s);
    case Cleanup => CleanupStepKeeps(s);
    case _ => RequestFailsKeeps(s, a);
  }

  // ------------------------------------------------------------------ the message loop

  lemma TransportIsOwner(s: State)
    requires Inv(s)
    ensures s.transport.Some? ==> s.transport.value == s.owner
    ensures Holding(s.msg) ==> s.transport.Some?
  {
  }

  lemma ReceiveKeeps(s: State)
    requires Inv(s) && s.msg.MIdle? && s.queue != []
    ensures Inv(MsgStep(s, Receive))
  {
    var t := MsgStep(s, Receive);
    assert Handled(t.queue, t.enq, t.msg) == Handled(s.queue, s.enq, s.msg);
  }

  lemma EndKeeps(s: State)
    requires Inv(s) && s.msg.MIdle? && (s.ctxDone || (s.queueClosed && s.queue == []))
    ensures Inv(s.(msg := MExited))
  {
  }

  lemma DispatchedPayload(s: State, f: Frame)
    requires Inv(s) && s.msg == MDispatch(f)
    ensures Payloads(s.enq[..Taken(s.queue, s.enq)]) == s.delivered + (if f.Message? then [f.data] else [])
  {
    var n := Taken(s.queue, s.enq);
    assert s.enq[..n] == s.enq[..n - 1] + [f];
    PayloadsSnoc(s.enq[..n - 1], f);
  }

  lemma OpenAccepted(s: State, f: Frame)
    requires Inv(s) && s.msg == MDispatch(f) && IsOpen(f)
    ensures OpenTaken(s.enq, Taken(s.queue, s.enq))
    ensures s.connect.COk? || Polling !in s.supported
  {
  }

  lemma HandshakeLocal(p: PT.Transport, pc: PT.StopPc)
    ensures
      var q := PT.SetHandshake(p);
      && q.onClose == p.onClose && PT.Live(q) == PT.Live(p)
      && (PT.GateRespected(p) ==> PT.GateRespected(q))
      && (PT.StopStage(p, pc) ==> PT.StopStage(q, pc))
  {
  }

  lemma OpenFlow(s: State, f: Frame)
    requires Inv(s) && s.msg == MDispatch(f) && IsOpen(f) && Polling in s.supported
    ensures InvFlow(Dispatch(s, f)) && InvGating(Dispatch(s, f))
  {
    hide InvHandOver, InvShutdown, PT.SetHandshake, PT.GateRespected, PT.StopStage, PT.Live;
    OpenAccepted(s, f);
    DispatchedPayload(s, f);
    HandshakeLocal(s.poll, PT.StopCas);
    assert s.sent + [] == s.sent;
  }

  lemma OpenWithPolling(s: State, f: Frame)
    requires Inv(s) && s.msg == MDispatch(f) && IsOpen(f) && Polling in s.supported
    ensures Inv(Dispatch(s, f))
  {
    OpenAccepted(s, f);
    OpenFlow(s, f);
    HandshakeLocal(s.poll, Stopper(s));
    hide InvFlow, InvGating, PT.SetHandshake, PT.StopStage, PT.GateRespected, PT.Live;
  }

  lemma OpenWithoutPolling(s: State, f: Frame)
    requires Inv(s) && s.msg == MDispatch(f) && IsOpen(f) && Polling !in s.supported
    ensures Inv(Dispatch(s, f))
  {
    OpenAccepted(s, f);
    DispatchedPayload(s, f);
    assert s.sent + [] == s.sent;
  }

  lemma OpenKeeps(s: State, f: Frame)
    requires Inv(s) && s.msg == MDispatch(f) && IsOpen(f)
    ensures Inv(Dispatch(s, f))
  {
    hide *;
    if Polling in s.supported {
      OpenWithPolling(s, f);
    } else {
      OpenWithoutPolling(s, f);
    }
  }

  /** An answer to the server leaves the latest probe where it was, and UPGRADE answers it. */
  lemma ProbedByReply(s: State, f: Frame)
    requires Inv(s) && s.msg == MDispatch(f) && !IsOpen(f)
    ensures
      var answers := if Reply(f).Some? then [Sent(Via(s), Reply(f).value)] else [];
      InvProbed(AfterDispatch(f), s.owner, s.gates, s.made, s.sent + answers)
  {
    var answers := if Reply(f).Some? then [Sent(Via(s), Reply(f).value)] else [];
    if s.gates != [] && ProbedSince(s.sent, s.made[|s.gates| - 1], s.owner) {
      ProbeLasts(s.sent, answers, s.made[|s.gates| - 1], s.owner);
    }
  }

  lemma OtherFrameFlow(s: State, f: Frame)
    requires Inv(s) && s.msg == MDispatch(f) && !IsOpen(f)
    ensures InvFlow(Dispatch(s, f))
  {
    hide InvHandOver, InvShutdown, InvProbed, PT.SetHandshake, Via, NilCheck, FrameCrash, KnownAfter;
    DispatchedPayload(s, f);
  }

  lemma OtherFrameGating(s: State, f: Frame)
    requires Inv(s) && s.msg == MDispatch(f) && !IsOpen(f)
    ensures InvGating(Dispatch(s, f))
  {
    hide InvHandOver, InvShutdown, InvProbed, InvFlow, PT.SetHandshake, Via, NilCheck, FrameCrash, KnownAfter;
    ProbedByReply(s, f);
  }

  lemma OtherFrameKeeps(s: State, f: Frame)
    requires Inv(s) && s.msg == MDispatch(f) && !IsOpen(f)
    ensures Inv(Dispatch(s, f))
  {
    OtherFrameFlow(s, f);
    OtherFrameGating(s, f);
    hide InvFlow, InvGating, PT.SetHandshake, Via, NilCheck;
  }

  lemma DecideKeeps(s: State, upgrades: seq<Offer>)
    requires Inv(s) && s.msg == MDecide(upgrades) && (upgrades == [] || s.transport.Some?)
    ensures Inv(Decide(s, upgrades))
  {
  }

  lemma LockKeeps(s: State, target: TransportName)
    requires Inv(s) && s.msg == MLock(target) && s.transport.Some?
    ensures Inv(LockForUpgrade(s, target))
  {
  }

  lemma StopOldQuietly(s: State, target: TransportName, pc: PT.StopPc)
    requires Inv(s) && s.msg == MStop(target, pc)
    ensures InvFlow(StopOld(s, target, pc)) && InvGating(StopOld(s, target, pc))
  {
    hide InvHandOver, InvShutdown, PT.StopStep, StopNext, Via, NilCheck;
    PT.StopRefines(s.poll, pc);
  }

  lemma StopOldKeeps(s: State, target: TransportName, pc: PT.StopPc)
    requires Inv(s) && s.msg == MStop(target, pc)
    ensures Inv(StopOld(s, target, pc)) && StopOld(s, target, pc).crash == s.crash
  {
    TransportIsOwner(s);
    StopOldQuietly(s, target, pc);
    hide InvFlow, InvGating;
    if s.owner.Polling? {
      StopStageNow(s);
      PT.StopAdvances(s.poll, pc);
      PT.StopRefines(s.poll, pc);
    }
  }

  lemma WaitKeeps(s: State, target: TransportName)
    requires Inv(s) && s.msg == MWait(target) && CanReceiveClose(s)
    ensures Inv(s.(chans := Received(s.chans), msg := MRun(target)))
  {
  }

  /** When a new Run starts, no loop of either transport is left. */
  lemma NobodyLive(s: State)
    requires Inv(s) && s.msg.MRun?
    ensures !PT.Live(s.poll) && !WT.Live(s.ws) && s.winner.None? && !s.queueClosed && s.connect.COk?
  {
  }

  /** Closing a gate only helps those who wait for one. */
  lemma ClosingGateKeeps(senders: map<nat, Sender>, sent: seq<Sent>, gates: seq<bool>)
    requires gates != [] && InvSenders(senders, gates) && InvSent(sent, gates)
    ensures InvSenders(senders, gates[|gates| - 1 := true]) && InvSent(sent, gates[|gates| - 1 := true])
  {
  }

  lemma UpgradeHasGate(s: State)
    requires Inv(s) && (s.msg.MRun? || s.msg.MProbeFailed?)
    ensures s.wu.Some?
  {
  }

  lemma GateIsOpenable(s: State)
    requires Inv(s)
    ensures UpgradeGateCrash(s) == if s.wu.None? then Some(NilGate) else s.crash
    ensures s.whSpent <==> s.wh.Opened?
  {
  }

  lemma PollRunLocal(p: PT.Transport, sid: bool, chan: nat)
    ensures
      var q := PT.Run(p, sid, chan);
      PT.Live(q) && q.onClose == chan && PT.GateRespected(q) && PT.StopStage(q, PT.StopCas)
  {
  }

  lemma RunNewPollQuiet(s: State, ok: bool)
    requires Inv(s) && s.msg == MRun(Polling)
    ensures InvFlow(RunNew(s, Polling, ok)) && InvGating(RunNew(s, Polling, ok))
    ensures RunNew(s, Polling, ok).crash == s.crash
  {
  }

  lemma RunNewPoll(s: State, ok: bool)
    requires Inv(s) && s.msg == MRun(Polling)
    ensures Inv(RunNew(s, Polling, ok)) && RunNew(s, Polling, ok).crash == s.crash
  {
    NobodyLive(s);
    PollRunLocal(s.poll, s.sid, |s.chans|);
    RunNewPollQuiet(s, ok);
    hide InvFlow, InvGating, GatesAfter, UpgradeGateCrash, PT.Run, PT.StopStage, PT.GateRespected, PT.Live;
  }

  lemma RunNewWs(s: State)
    requires Inv(s) && s.msg == MRun(Websocket)
    ensures Inv(RunNew(s, Websocket, true)) && RunNew(s, Websocket, true).crash == s.crash
  {
    hide GatesAfter, UpgradeGateCrash;
    NobodyLive(s);
  }

  lemma RunNewFails(s: State)
    requires Inv(s) && s.msg == MRun(Websocket)
    ensures Inv(RunNew(s, Websocket, false)) && RunNew(s, Websocket, false).crash == s.crash
  {
    hide UpgradeGateCrash;
    NobodyLive(s);
    GateIsOpenable(s);
    UpgradeHasGate(s);
    ClosingGateKeeps(s.senders, s.sent, s.gates);
  }

  lemma RunNewKeeps(s: State, target: TransportName, ok: bool)
    requires Inv(s) && s.msg == MRun(target)
    ensures Inv(RunNew(s, target, ok)) && RunNew(s, target, ok).crash == s.crash
  {
    hide *;
    if target.Polling? {
      RunNewPoll(s, ok);
    } else if ok {
      RunNewWs(s);
    } else {
      RunNewFails(s);
    }
  }

  /** Packets handed over later change nothing about a probe handed over before. */
  lemma ProbeLasts(sent: seq<Sent>, xs: seq<Sent>, from: nat, via: TransportName)
    requires ProbedSince(sent, from, via)
    ensures ProbedSince(sent + xs, from, via)
  {
    var i :| from <= i < |sent| && sent[i] == Sent(via, ProbePacket);
    assert (sent + xs)[i] == sent[i];
  }

  lemma ProbedGrows(m: MsgPc, owner: TransportName, gates: seq<bool>, made: seq<nat>, sent: seq<Sent>, xs: seq<Sent>)
    requires InvProbed(m, owner, gates, made, sent)
    requires forall i :: 0 <= i < |xs| ==> xs[i].packet != UpgradePacket
    ensures InvProbed(m, owner, gates, made, sent + xs)
  {
    if gates != [] && ProbedSince(sent, made[|gates| - 1], owner) {
      ProbeLasts(sent, xs, made[|gates| - 1], owner);
    }
  }

  lemma ProbeIsSince(sent: seq<Sent>, from: nat, via: TransportName)
    requires from <= |sent|
    ensures ProbedSince(sent + [Sent(via, ProbePacket)], from, via)
    ensures Unanswered(sent, from) ==> Unanswered(sent + [Sent(via, ProbePacket)], from)
  {
    assert (sent + [Sent(via, ProbePacket)])[|sent|] == Sent(via, ProbePacket);
  }

  lemma SendProbeKeeps(s: State, target: TransportName, ok: bool)
    requires Inv(s) && s.msg == MProbe(target) && s.transport.Some?
    ensures Inv(SendProbe(s, target, ok))
  {
    if s.gates != [] {
      ProbeIsSince(s.sent, s.made[|s.gates| - 1], s.owner);
    }
    hide ProbedSince, Unanswered;
  }

  lemma GateClosesGating(s: State, m: MsgPc)
    requires Inv(s) && s.wu.Some?
    requires (s.msg.MProbeFailed? && m == MOpenGate(false, None)) || (s.msg.MUpgradeSent? && m == MIdle)
    ensures InvGating(CloseUpgradeGate(s).(msg := m)) && CloseUpgradeGate(s).crash == s.crash
  {
    hide InvFlow, InvHandOver, InvShutdown;
    GateIsOpenable(s);
    ClosingGateKeeps(s.senders, s.sent, s.gates);
  }

  lemma GateClosesQuietly(s: State, m: MsgPc)
    requires Inv(s) && s.wu.Some?
    requires (s.msg.MProbeFailed? && m == MOpenGate(false, None)) || (s.msg.MUpgradeSent? && m == MIdle)
    ensures InvFlow(CloseUpgradeGate(s).(msg := m))
  {
    hide InvGating, InvHandOver, InvShutdown, GatesAfter, UpgradeGateCrash;
  }

  lemma GateClosesKeeps(s: State, m: MsgPc)
    requires Inv(s) && s.wu.Some?
    requires (s.msg.MProbeFailed? && m == MOpenGate(false, None)) || (s.msg.MUpgradeSent? && m == MIdle)
    ensures Inv(CloseUpgradeGate(s).(msg := m)) && CloseUpgradeGate(s).crash == s.crash
  {
    GateClosesGating(s, m);
    GateClosesQuietly(s, m);
    hide InvFlow, InvGating, GatesAfter, UpgradeGateCrash;
  }

  lemma OpenGateKeeps(s: State, hook: nat)
    requires Inv(s) && s.msg.MOpenGate? && !s.wh.Absent?
    ensures Inv(OpenHandshakeGate(s, s.msg.ok, hook)) && OpenHandshakeGate(s, s.msg.ok, hook).crash == s.crash
  {
  }

  lemma HandleStepKeeps(s: State, ok: bool, hook: nat)
    requires Inv(s) && s.crash.None? && MsgEnabled(s, Handle(ok, hook)) && MsgCrash(s).None?
    ensures Inv(HandleStep(s, ok, hook))
  {
    hide Inv, Dispatch, Decide, LockForUpgrade, StopOld, Received, RunNew, SendProbe, CloseUpgradeGate,
         OpenHandshakeGate;
    match s.msg
    case MDispatch(f) =>
      if IsOpen(f) {
        OpenKeeps(s, f);
      } else {
        OtherFrameKeeps(s, f);
      }
    case MDecide(upgrades) => DecideKeeps(s, upgrades);
    case MLock(target) => LockKeeps(s, target);
    case MStop(target, pc) => StopOldKeeps(s, target, pc);
    case MWait(target) => WaitKeeps(s, target);
    case MRun(target) => RunNewKeeps(s, target, ok);
    case MProbe(target) => SendProbeKeeps(s, target, ok);
    case MProbeFailed(target) =>
      UpgradeHasGate(s);
      GateClosesKeeps(s, MOpenGate(false, None));
    case MOpenGate(_, _) => OpenGateKeeps(s, hook);
    case MUpgradeSent => GateClosesKeeps(s, MIdle);
    case _ =>
  }

  lemma MsgStepKeeps(s: State, a: MsgAct)
    requires Inv(s) && s.crash.None? && MsgEnabled(s, a) && (a.Handle? ==> MsgCrash(s).None?)
    ensures Inv(MsgStep(s, a))
  {
    hide Inv, HandleStep, MsgCrash;
    match a
    case Receive => ReceiveKeeps(s);
    case ReceiveEnd => EndKeeps(s);
    case Cancel => EndKeeps(s);
    case Handle(ok, hook) => HandleStepKeeps(s, ok, hook);
  }

  // ------------------------------------------------------------------ Send and Close

  lemma StartKeeps(s: State, id: nat, caller: Caller)
    requires Inv(s)
    ensures Inv(s.(senders := s.senders[id := Sender(caller, None, SNew)]))
  {
  }

  lemma SenderMoves(s: State, id: nat)
    requires Inv(s) && SendEnabled(s, id, Step)
    ensures SenderOk(NextSender(s, s.senders[id]), s.gates)
    ensures forall x :: x in Handed(s.senders[id]) ==> PacketOk(x.packet, s.gates)
    ensures InvPicked(s.senders[id := NextSender(s, s.senders[id])], s.supported)
  {
  }

  lemma ProbedByMessage(s: State, id: nat)
    requires Inv(s) && id in s.senders
    ensures InvProbed(s.msg, s.owner, s.gates, s.made, s.sent + Handed(s.senders[id]))
  {
    ProbedGrows(s.msg, s.owner, s.gates, s.made, s.sent, Handed(s.senders[id]));
  }

  lemma SendStepKeeps(s: State, id: nat)
    requires Inv(s) && SendEnabled(s, id, Step)
    ensures Inv(SendStep(s, id, Step))
  {
    hide NextSender, Handed, HandCrash, InvProbed, InvPicked;
    SenderMoves(s, id);
    ProbedByMessage(s, id);
  }

  lemma OnlyWinnerMoves(s: State, id: nat)
    requires Inv(s) && id in s.closers && s.closers[id] != KReturned(false)
    ensures s.winner == Some(id) && WinnerPc(s.winner, s.closers) == s.closers[id]
    ensures s.connect.COk? && !Holding(s.msg)
  {
  }

  lemma StoppingOwner(s: State, id: nat)
    requires Inv(s) && id in s.closers && s.closers[id].KStop?
    ensures s.closers[id].via == s.owner && Stopper(s) == s.closers[id].stop
  {
  }

  lemma BeginKeeps(s: State, id: nat)
    requires Inv(s) && CloseEnabled(s, id, Begin)
    ensures Inv(CloseStep(s, id, Begin))
  {
  }

  lemma CloseStopsQuietly(s: State, id: nat)
    requires Inv(s) && id in s.closers && s.closers[id].KStop?
    ensures InvFlow(ProceedClose(s, id, s.closers[id])) && InvGating(ProceedClose(s, id, s.closers[id]))
  {
    hide InvHandOver, InvShutdown, StopNext;
    PT.StopRefines(s.poll, s.closers[id].stop);
  }

  lemma CloseStopsPoll(s: State, id: nat)
    requires Inv(s) && id in s.closers && s.closers[id].KStop? && s.owner.Polling?
    ensures Inv(ProceedClose(s, id, s.closers[id])) && ProceedClose(s, id, s.closers[id]).crash == s.crash
  {
    OnlyWinnerMoves(s, id);
    StoppingOwner(s, id);
    StopStageNow(s);
    CloseStopsQuietly(s, id);
    hide InvFlow, InvGating;
    PT.StopAdvances(s.poll, s.closers[id].stop);
    PT.StopRefines(s.poll, s.closers[id].stop);
  }

  lemma CloseStopsWs(s: State, id: nat)
    requires Inv(s) && id in s.closers && s.closers[id].KStop? && s.owner.Websocket?
    ensures Inv(ProceedClose(s, id, s.closers[id])) && ProceedClose(s, id, s.closers[id]).crash == s.crash
  {
  }

  lemma CloseWaitKeeps(s: State, id: nat)
    requires Inv(s) && id in s.closers && s.closers[id].KWait? && CanReceiveClose(s)
    ensures Inv(ProceedClose(s, id, s.closers[id])) && ProceedClose(s, id, s.closers[id]).crash == s.crash
  {
    OnlyWinnerMoves(s, id);
    ReceivedIsQuiet(s);
  }

  lemma CloseQueueKeeps(s: State, id: nat)
    requires Inv(s) && id in s.closers && s.closers[id].KClose?
    ensures Inv(ProceedClose(s, id, s.closers[id])) && ProceedClose(s, id, s.closers[id]).crash == s.crash
  {
    OnlyWinnerMoves(s, id);
  }

  lemma CloseJoinKeeps(s: State, id: nat)
    requires Inv(s) && id in s.closers && s.closers[id].KJoin? && s.msg.MExited?
    ensures Inv(ProceedClose(s, id, s.closers[id])) && ProceedClose(s, id, s.closers[id]).crash == s.crash
  {
  }

  lemma ProceedKeeps(s: State, id: nat)
    requires Inv(s) && CloseEnabled(s, id, Proceed)
    ensures Inv(ProceedClose(s, id, s.closers[id])) && ProceedClose(s, id, s.closers[id]).crash == s.crash
  {
    hide Inv, ProceedClose;
    match s.closers[id]
    case KStop(_, _) =>
      if s.owner.Polling? {
        CloseStopsPoll(s, id);
      } else {
        CloseStopsWs(s, id);
      }
    case KWait => CloseWaitKeeps(s, id);
    case KClose => CloseQueueKeeps(s, id);
    case KJoin => CloseJoinKeeps(s, id);
    case KReturned(_) =>
  }

  lemma CloseStepKeeps(s: State, id: nat, a: CloseAct)
    requires Inv(s) && s.crash.None? && CloseEnabled(s, id, a)
    ensures CloseStep(s, id, a).crash.None? && Inv(CloseStep(s, id, a))
  {
    hide Inv, ProceedClose;
    match a
    case Begin => BeginKeeps(s, id);
    case Proceed => ProceedKeeps(s, id);
  }

  // ------------------------------------------------------------------ runs

  /** The panic that the next step of the message loop runs into, if any. */
  function MsgCrash(s: State): Option<Crash> {
    match s.msg
    case MDispatch(f) =>
      if f.Ping? || f == Pong(true) then if s.transport.None? then Some(NilTransport) else None
      else if f.Open? && f.valid && TickerPanics(f.interval) then Some(BadTicker)
      else if f.Message? && f.packet.Incomplete? && ROOT in s.known then Some(NilPacket)
      else None
    case MDecide(upgrades) => if upgrades != [] && s.transport.None? then Some(NilTransport) else None
    case MLock(_) => if s.transport.None? then Some(NilTransport) else None
    case MProbe(_) => if s.transport.None? then Some(NilTransport) else None
    case MOpenGate(_, _) => if s.wh.Absent? then Some(NilGate) else None
    case MUpgradeSent => if s.wu.None? then Some(NilGate) else None
    case _ => None
  }

  /** The panic that a caller of Send runs into when it hands its MESSAGE over, if any. */
  function SendCrash(s: State, id: nat): Option<Crash> {
    if id in s.senders && s.senders[id].pc == SHand(Polling) && PT.NeverRun(s.poll) then Some(NilUrl) else None
  }

  function CrashOf(s: State, a: Action): Option<Crash> {
    if a.ByMsg? && a.m.Handle? then MsgCrash(s)
    else if a.BySend? && a.s.Step? then SendCrash(s, a.id)
    else None
  }

  lemma DispatchCrash(s: State, f: Frame)
    requires s.crash.None? && s.msg == MDispatch(f)
    ensures Dispatch(s, f).crash == MsgCrash(s)
  {
    hide TickerPanics;
  }

  lemma LeafCrashes(s: State, upgrades: seq<Offer>, target: TransportName, ok: bool, hook: nat)
    ensures Decide(s, upgrades).crash == if upgrades == [] then s.crash else NilCheck(s)
    ensures LockForUpgrade(s, target).crash == SendProbe(s, target, ok).crash == NilCheck(s)
    ensures OpenHandshakeGate(s, ok, hook).crash ==
            if s.whSpent || s.wh.Waiting? then s.crash else if s.wh.Absent? then Some(NilGate) else Some(DoubleClose)
    ensures CloseUpgradeGate(s).crash == UpgradeGateCrash(s)
  {
    hide UpgradeTarget, UpgradeGateCrash, NilCheck;
  }

  lemma UpgradeCrashes(s: State, ok: bool, hook: nat)
    requires Inv(s) && s.crash.None? && MsgEnabled(s, Handle(ok, hook))
    requires s.msg.MLock? || s.msg.MStop? || s.msg.MWait? || s.msg.MRun? || s.msg.MProbe?
    ensures HandleStep(s, ok, hook).crash == MsgCrash(s)
  {
    hide Inv, LockForUpgrade, StopOld, RunNew, SendProbe, Received;
    match s.msg
    case MStop(target, pc) => StopOldKeeps(s, target, pc);
    case MRun(target) => RunNewKeeps(s, target, ok);
    case MLock(target) => LeafCrashes(s, [], target, ok, hook);
    case MProbe(target) => LeafCrashes(s, [], target, ok, hook);
    case _ =>
  }

  lemma GateCrashes(s: State, ok: bool, hook: nat)
    requires Inv(s) && s.crash.None? && MsgEnabled(s, Handle(ok, hook))
    requires s.msg.MProbeFailed? || s.msg.MOpenGate? || s.msg.MUpgradeSent?
    ensures HandleStep(s, ok, hook).crash == MsgCrash(s)
  {
    hide Inv, CloseUpgradeGate, OpenHandshakeGate, UpgradeGateCrash;
    GateIsOpenable(s);
    if s.msg.MProbeFailed? {
      UpgradeHasGate(s);
    }
    LeafCrashes(s, [], Polling, s.msg.MOpenGate? && s.msg.ok, hook);
  }

  lemma MsgCrashes(s: State, ok: bool, hook: nat)
    requires Inv(s) && s.crash.None? && MsgEnabled(s, Handle(ok, hook))
    ensures HandleStep(s, ok, hook).crash == MsgCrash(s)
  {
    match s.msg
    case MDispatch(f) =>
      hide Inv, Dispatch;
      DispatchCrash(s, f);
    case MDecide(upgrades) =>
      hide Inv, Decide;
      LeafCrashes(s, upgrades, Polling, ok, hook);
    case MOff => assert false;
    case MIdle => assert false;
    case MExited => assert false;
    case MProbeFailed(_) =>
      hide *;
      GateCrashes(s, ok, hook);
    case MOpenGate(_, _) =>
      hide *;
      GateCrashes(s, ok, hook);
    case MUpgradeSent =>
      hide *;
      GateCrashes(s, ok, hook);
    case _ =>
      hide *;
      UpgradeCrashes(s, ok, hook);
  }

  lemma ByMsgKeeps(s: State, a: MsgAct)
    requires Inv(s) && s.crash.None? && MsgEnabled(s, a)
    ensures MsgStep(s, a).crash == CrashOf(s, ByMsg(a))
    ensures MsgStep(s, a).crash.None? ==> Inv(MsgStep(s, a))
  {
    hide Inv, HandleStep, MsgCrash;
    if a.Handle? {
      MsgCrashes(s, a.ok, a.hook);
    }
    if CrashOf(s, ByMsg(a)).None? {
      MsgStepKeeps(s, a);
    }
  }

  lemma BySendKeeps(s: State, id: nat, a: SendAct)
    requires Inv(s) && s.crash.None? && SendEnabled(s, id, a)
    ensures SendStep(s, id, a).crash == CrashOf(s, BySend(id, a)) && Inv(SendStep(s, id, a))
  {
    hide Inv, NextSender, Handed, PT.NeverRun;
    if a.Start? {
      StartKeeps(s, id, a.caller);
    } else {
      SendStepKeeps(s, id);
    }
  }

  /** One step: the program panics exactly in the listed cases, and otherwise the invariant is kept. */
  lemma StepKeeps(s: State, a: Action)
    requires Inv(s) && Enabled(s, a)
    ensures Next(s, a).crash == CrashOf(s, a)
    ensures Next(s, a).crash.None? ==> Inv(Next(s, a))
  {
    hide Inv, ConnectStep, MsgStep, SendStep, CloseStep, PollStep, WsStep, MsgCrash;
    hide ConnectEnabled, MsgEnabled, SendEnabled, CloseEnabled, PollEnabled, WsEnabled;
    match a
    case ByConnect(c) => ConnectStepKeeps(s, c);
    case ByMsg(m) => ByMsgKeeps(s, m);
    case BySend(id, x) => BySendKeeps(s, id, x);
    case ByClose(id, k) => CloseStepKeeps(s, id, k);
    case ByPoll(p) => PollStepKeeps(s, p);
    case ByWs(w) => WsStepKeeps(s, w);
    case CancelContext => CancelKeeps(s);
  }

  lemma InitKeeps(supported: set<TransportName>, defaultNs: Bytes)
    requires supported != {}
    ensures Inv(InitialState(supported, false, defaultNs))
  {
    var t :| t in supported;
    assert t.Polling? || t.Websocket?;
    assert First(supported) in supported;
  }

  lemma FreshKeeps(s: State)
    requires IsFreshClient(s)
    ensures Inv(s)
  {
    hide Inv;
    var supported: set<TransportName>, defaultNs: Bytes :|
      supported != {} && s == InitialState(supported, false, defaultNs);
    InitKeeps(supported, defaultNs);
  }

  lemma EnabledMeansRunning(s: State, a: Action)
    requires Enabled(s, a)
    ensures s.crash.None?
  {
  }

  /** Every state of every run that has not crashed satisfies the invariant. */
  lemma {:induction false} RunKeeps(ss: seq<State>, acts: seq<Action>, k: nat)
    requires ClientRun(ss, acts) && k < |ss|
    ensures ss[k].crash.None? ==> Inv(ss[k])
  {
    hide Inv, Next, Enabled, IsFreshClient;
    if k == 0 {
      FreshKeeps(ss[0]);
    } else {
      RunKeeps(ss, acts, k - 1);
      assert Enabled(ss[k - 1], acts[k - 1]) && ss[k] == Next(ss[k - 1], acts[k - 1]);
      EnabledMeansRunning(ss[k - 1], acts[k - 1]);
      StepKeeps(ss[k - 1], acts[k - 1]);
    }
  }
}
