/**
 A caller of Send that does not move.  Nothing that anybody else does depends on a caller, nor on the record of
 packets; so every continuation of a state can be had with one caller staying where it is.
 */
module EngineBehind {
  import opened Options
  import opened GoInt
  import opened Frames
  import opened EngineClient
  import opened EngineInvariant
  import opened EngineProof
  import opened EngineReach
  import PT = PollingTransport
  import WT = WebsocketTransport

  /**
   `u` is `s`, but for the caller `id`, which is still at `me`, and for what the records say of its MESSAGE; the
   probe has been answered in both or in neither.
   */
  ghost predicate Behind(s: State, u: State, id: nat, me: Sender) {
    && id in s.senders
    && u == s.(senders := s.senders[id := me], sent := u.sent, made := u.made)
    && Unanswered(s.sent, 0) == Unanswered(u.sent, 0)
  }

  // ------------------------------------------------------------------ the records

  lemma AnswersSplit(xs: seq<Sent>, more: seq<Sent>)
    ensures Unanswered(xs + more, 0) <==> Unanswered(xs, 0) && Unanswered(more, 0)
  {
    if Unanswered(xs + more, 0) {
      forall i | 0 <= i < |xs|
        ensures xs[i].packet != UpgradePacket
      {
        assert (xs + more)[i] == xs[i];
      }
      forall i | 0 <= i < |more|
        ensures more[i].packet != UpgradePacket
      {
        assert (xs + more)[|xs| + i] == more[i];
      }
    }
  }

  lemma AnswersAlike(xs: seq<Sent>, ys: seq<Sent>, more: seq<Sent>)
    requires Unanswered(xs, 0) == Unanswered(ys, 0)
    ensures Unanswered(xs + more, 0) == Unanswered(ys + more, 0)
  {
    AnswersSplit(xs, more);
    AnswersSplit(ys, more);
  }

  lemma MessagesAnswerNothing(xs: seq<Sent>, me: Sender)
    ensures Unanswered(xs + Handed(me), 0) == Unanswered(xs, 0)
  {
    AnswersSplit(xs, Handed(me));
  }

  // ------------------------------------------------------------------ what both states share

  lemma SameReads(s: State, u: State, id: nat, me: Sender)
    requires Behind(s, u, id, me)
    ensures Via(u) == Via(s) && NilCheck(u) == NilCheck(s)
    ensures CanSend(u) == CanSend(s) && CanReceiveClose(u) == CanReceiveClose(s)
  {
    hide Unanswered;
  }

  lemma SameGates(s: State, u: State, id: nat, me: Sender)
    requires Behind(s, u, id, me)
    ensures GatesAfter(u) == GatesAfter(s) && UpgradeGateCrash(u) == UpgradeGateCrash(s)
  {
    hide Unanswered;
  }

  lemma SameFrameCrash(s: State, u: State, id: nat, me: Sender, f: Frame)
    requires Behind(s, u, id, me)
    ensures FrameCrash(u, f) == FrameCrash(s, f)
  {
    hide TickerPanics, Unanswered;
  }

  lemma Checked(s: State, u: State, id: nat, me: Sender)
    requires Behind(s, u, id, me)
    ensures Behind(s.(crash := NilCheck(s)), u.(crash := NilCheck(u)), id, me)
  {
    hide Unanswered;
  }

  // ------------------------------------------------------------------ the transports

  lemma PollBehind(s: State, u: State, id: nat, me: Sender, a: PT.LoopAct)
    requires Behind(s, u, id, me)
    ensures PollEnabled(u, a) == PollEnabled(s, a) && Behind(PollStep(s, a), PollStep(u, a), id, me)
  {
    hide PT.Enabled, PT.LoopNext, PT.LoopEffect, FramesAfter, ChansAfter, Unanswered;
  }

  lemma WsBehind(s: State, u: State, id: nat, me: Sender, a: WT.LoopAct)
    requires Behind(s, u, id, me)
    ensures WsEnabled(u, a) == WsEnabled(s, a) && Behind(WsStep(s, a), WsStep(u, a), id, me)
  {
    hide WT.Enabled, WT.LoopNext, WT.LoopEffect, FramesAfter, ChansAfter, Unanswered;
  }

  lemma StopBehind(s: State, u: State, id: nat, me: Sender, via: TransportName, pc: PT.StopPc)
    requires Behind(s, u, id, me)
    ensures StopNext(u, via, pc) == StopNext(s, via, pc)
    ensures Behind(StopTransport(s, via, pc), StopTransport(u, via, pc), id, me)
  {
    hide PT.StopStep, Unanswered;
  }

  /** One step of stopping `c.transport`, which may be nil. */
  lemma CheckedStopBehind(s: State, u: State, id: nat, me: Sender, pc: PT.StopPc)
    requires Behind(s, u, id, me)
    ensures StopNext(u, Via(u), pc) == StopNext(s, Via(s), pc)
    ensures Behind(StopTransport(s.(crash := NilCheck(s)), Via(s), pc),
                   StopTransport(u.(crash := NilCheck(u)), Via(u), pc), id, me)
  {
    hide Behind, StopTransport, StopNext, NilCheck, Via;
    SameReads(s, u, id, me);
    Checked(s, u, id, me);
    StopBehind(s.(crash := NilCheck(s)), u.(crash := NilCheck(u)), id, me, Via(s), pc);
    StopBehind(s, u, id, me, Via(s), pc);
  }

  lemma RunBehind(s: State, u: State, id: nat, me: Sender, via: TransportName, ok: bool)
    requires Behind(s, u, id, me)
    ensures Behind(RunTransport(s, via, ok), RunTransport(u, via, ok), id, me)
  {
    hide PT.Run, WT.Run, WT.RunFails, Unanswered;
  }

  lemma QueueBehind(s: State, u: State, id: nat, me: Sender)
    requires Behind(s, u, id, me)
    ensures Behind(CloseQueue(s), CloseQueue(u), id, me)
  {
    hide Unanswered;
  }

  // ------------------------------------------------------------------ Connect

  lemma OfferBehind(s: State, u: State, id: nat, me: Sender, f: Frame)
    requires Behind(s, u, id, me)
    ensures Behind(TakeOffer(s, f), TakeOffer(u, f), id, me)
  {
    hide FramesAfter, Unanswered;
  }

  lemma CleanupStopBehind(s: State, u: State, id: nat, me: Sender)
    requires Behind(s, u, id, me) && s.connect.CStop?
    ensures u.connect.CStop? && Behind(CleanupStep(s), CleanupStep(u), id, me)
  {
    hide StopTransport, StopNext, NilCheck, Via, Unanswered;
    CheckedStopBehind(s, u, id, me, s.connect.stop);
  }

  lemma CleanupWaitBehind(s: State, u: State, id: nat, me: Sender)
    requires Behind(s, u, id, me) && s.connect.CWait? && CanReceiveClose(s)
    ensures u.connect.CWait? && CanReceiveClose(u) && Behind(CleanupStep(s), CleanupStep(u), id, me)
  {
    hide Received, Unanswered;
  }

  lemma CleanupCloseBehind(s: State, u: State, id: nat, me: Sender)
    requires Behind(s, u, id, me) && s.connect.CClose?
    ensures u.connect.CClose? && Behind(CleanupStep(s), CleanupStep(u), id, me)
  {
    hide CloseQueue, Unanswered;
    QueueBehind(s, u, id, me);
  }

  lemma CleanupJoinBehind(s: State, u: State, id: nat, me: Sender)
    requires Behind(s, u, id, me) && s.connect.CJoin? && s.msg.MExited?
    ensures u.connect.CJoin? && u.msg.MExited? && Behind(CleanupStep(s), CleanupStep(u), id, me)
  {
    hide Unanswered;
  }

  lemma CleanupEnabledBehind(s: State, u: State, id: nat, me: Sender)
    requires Behind(s, u, id, me) && ConnectEnabled(s, Cleanup)
    ensures ConnectEnabled(u, Cleanup) && u.connect == s.connect
  {
    hide Unanswered;
  }

  lemma CleanupBehind(s: State, u: State, id: nat, me: Sender)
    requires Behind(s, u, id, me) && ConnectEnabled(s, Cleanup)
    ensures ConnectEnabled(u, Cleanup) && Behind(CleanupStep(s), CleanupStep(u), id, me)
  {
    hide Behind, CleanupStep;
    CleanupEnabledBehind(s, u, id, me);
    match s.connect
    case CStop(_) => CleanupStopBehind(s, u, id, me);
    case CWait => CleanupWaitBehind(s, u, id, me);
    case CClose => CleanupCloseBehind(s, u, id, me);
    case CJoin => CleanupJoinBehind(s, u, id, me);
    case _ =>
  }

  lemma RunItBehind(s: State, u: State, id: nat, me: Sender, ok: bool)
    requires Behind(s, u, id, me) && ConnectEnabled(s, RunIt(ok))
    ensures ConnectEnabled(u, RunIt(ok))
    ensures Behind(ConnectStep(s, RunIt(ok)), ConnectStep(u, RunIt(ok)), id, me)
  {
    hide RunTransport, Unanswered;
    RunBehind(s, u, id, me, First(s.supported), ok);
  }

  lemma SetupBehind(s: State, u: State, id: nat, me: Sender, a: ConnectAct)
    requires Behind(s, u, id, me) && ConnectEnabled(s, a) && (a.Launch? || a.Install? || a.Request?)
    ensures ConnectEnabled(u, a) && Behind(ConnectStep(s, a), ConnectStep(u, a), id, me)
  {
    hide RunTransport, TakeOffer, CleanupStep, Unanswered;
  }

  lemma GetBehind(s: State, u: State, id: nat, me: Sender, a: ConnectAct)
    requires Behind(s, u, id, me) && ConnectEnabled(s, a)
    requires a.GetReturns? || a.GetFails? || a.OfferCancels? || a.OfferStops?
    ensures ConnectEnabled(u, a) && Behind(ConnectStep(s, a), ConnectStep(u, a), id, me)
  {
    hide RunTransport, TakeOffer, CleanupStep, CanSend, Via, NilCheck, Unanswered;
  }

  lemma OfferSentBehind(s: State, u: State, id: nat, me: Sender)
    requires Behind(s, u, id, me) && ConnectEnabled(s, OfferSent)
    ensures ConnectEnabled(u, OfferSent)
    ensures Behind(ConnectStep(s, OfferSent), ConnectStep(u, OfferSent), id, me)
  {
    hide TakeOffer, CanSend, Unanswered;
    SameReads(s, u, id, me);
    OfferBehind(s, u, id, me, s.connect.frame);
  }

  lemma ConnectBehind(s: State, u: State, id: nat, me: Sender, a: ConnectAct)
    requires Behind(s, u, id, me) && ConnectEnabled(s, a)
    ensures ConnectEnabled(u, a) && Behind(ConnectStep(s, a), ConnectStep(u, a), id, me)
  {
    hide Behind, ConnectEnabled, ConnectStep, CleanupStep;
    match a
    case RunIt(ok) => RunItBehind(s, u, id, me, ok);
    case Cleanup =>
      CleanupBehind(s, u, id, me);
      DelegatedSteps(s);
      DelegatedSteps(u);
    case OfferSent => OfferSentBehind(s, u, id, me);
    case _ =>
      if a.Launch? || a.Install? || a.Request? {
        SetupBehind(s, u, id, me, a);
      } else {
        GetBehind(s, u, id, me, a);
      }
  }

  // ------------------------------------------------------------------ Close

  lemma BeginBehind(s: State, u: State, id: nat, me: Sender, x: nat)
    requires Behind(s, u, id, me) && CloseEnabled(s, x, Begin)
    ensures CloseEnabled(u, x, Begin) && Behind(CloseStep(s, x, Begin), CloseStep(u, x, Begin), id, me)
  {
    hide Unanswered;
  }

  lemma ProceedStopBehind(s: State, u: State, id: nat, me: Sender, x: nat, pc: ClosePc)
    requires Behind(s, u, id, me) && pc.KStop?
    ensures Behind(ProceedClose(s, x, pc), ProceedClose(u, x, pc), id, me)
  {
    hide StopTransport, StopNext, Unanswered;
    StopBehind(s, u, id, me, pc.via, pc.stop);
  }

  lemma ProceedRestBehind(s: State, u: State, id: nat, me: Sender, x: nat, pc: ClosePc)
    requires Behind(s, u, id, me) && (pc.KWait? || pc.KClose? || pc.KJoin?)
    ensures Behind(ProceedClose(s, x, pc), ProceedClose(u, x, pc), id, me)
  {
    hide StopTransport, StopNext, Received, CloseQueue, Unanswered;
    QueueBehind(s, u, id, me);
  }

  lemma ProceedEnabledBehind(s: State, u: State, id: nat, me: Sender, x: nat)
    requires Behind(s, u, id, me) && CloseEnabled(s, x, Proceed)
    ensures CloseEnabled(u, x, Proceed) && u.closers == s.closers
  {
    hide Unanswered;
  }

  lemma CloseBehind(s: State, u: State, id: nat, me: Sender, x: nat, a: CloseAct)
    requires Behind(s, u, id, me) && CloseEnabled(s, x, a)
    ensures CloseEnabled(u, x, a) && Behind(CloseStep(s, x, a), CloseStep(u, x, a), id, me)
  {
    hide Behind, ProceedClose;
    match a
    case Begin => BeginBehind(s, u, id, me, x);
    case Proceed =>
      ProceedEnabledBehind(s, u, id, me, x);
      if s.closers[x].KStop? {
        ProceedStopBehind(s, u, id, me, x, s.closers[x]);
      } else {
        ProceedRestBehind(s, u, id, me, x, s.closers[x]);
      }
  }

  // ------------------------------------------------------------------ the message loop

  lemma DispatchRecord(s: State, f: Frame)
    ensures Dispatch(s, f).sent == s.sent + (if Reply(f).Some? then [Sent(Via(s), Reply(f).value)] else [])
    ensures Dispatch(s, f).senders == s.senders && Dispatch(s, f).crash == FrameCrash(s, f)
  {
    hide PT.SetHandshake, KnownAfter, Via, FrameCrash, Reply, AfterDispatch;
  }

  /** But for packet and panic, dispatch does not look at the callers or at the record. */
  lemma DispatchBesides(s: State, u: State, id: nat, me: Sender, f: Frame)
    requires Behind(s, u, id, me)
    ensures
      var t, v := Dispatch(s, f), Dispatch(u, f);
      v == t.(senders := u.senders, sent := v.sent, made := u.made, crash := v.crash)
  {
    hide PT.SetHandshake, KnownAfter, Unanswered, Via, FrameCrash, Reply, AfterDispatch;
    assert u.delivered == s.delivered;
  }

  lemma DispatchBehind(s: State, u: State, id: nat, me: Sender, f: Frame)
    requires Behind(s, u, id, me)
    ensures Behind(Dispatch(s, f), Dispatch(u, f), id, me)
  {
    hide Dispatch, Unanswered, Via, FrameCrash;
    SameReads(s, u, id, me);
    SameFrameCrash(s, u, id, me, f);
    DispatchBesides(s, u, id, me, f);
    DispatchRecord(s, f);
    DispatchRecord(u, f);
    AnswersAlike(s.sent, u.sent, if Reply(f).Some? then [Sent(Via(s), Reply(f).value)] else []);
  }

  lemma DecideBehind(s: State, u: State, id: nat, me: Sender, upgrades: seq<Offer>)
    requires Behind(s, u, id, me)
    ensures Behind(Decide(s, upgrades), Decide(u, upgrades), id, me)
  {
    hide UpgradeTarget, Via, NilCheck, Unanswered;
    SameReads(s, u, id, me);
  }

  lemma LockBehind(s: State, u: State, id: nat, me: Sender, target: TransportName)
    requires Behind(s, u, id, me)
    ensures Behind(LockForUpgrade(s, target), LockForUpgrade(u, target), id, me)
  {
    hide NilCheck, Unanswered;
    SameReads(s, u, id, me);
  }

  lemma StopOldBehind(s: State, u: State, id: nat, me: Sender, target: TransportName, pc: PT.StopPc)
    requires Behind(s, u, id, me)
    ensures Behind(StopOld(s, target, pc), StopOld(u, target, pc), id, me)
  {
    hide NilCheck, Via, StopTransport, StopNext, Unanswered;
    CheckedStopBehind(s, u, id, me, pc);
  }

  lemma WaitBehind(s: State, u: State, id: nat, me: Sender, target: TransportName)
    requires Behind(s, u, id, me)
    ensures Behind(s.(chans := Received(s.chans), msg := MRun(target)),
                   u.(chans := Received(u.chans), msg := MRun(target)), id, me)
  {
    hide Received, Unanswered;
  }

  lemma RunNewBehind(s: State, u: State, id: nat, me: Sender, target: TransportName, ok: bool)
    requires Behind(s, u, id, me)
    ensures Behind(RunNew(s, target, ok), RunNew(u, target, ok), id, me)
  {
    hide GatesAfter, UpgradeGateCrash, PT.Run, WT.Run, WT.RunFails, Unanswered;
    SameGates(s, u, id, me);
  }

  lemma ProbeBehind(s: State, u: State, id: nat, me: Sender, target: TransportName, ok: bool)
    requires Behind(s, u, id, me)
    ensures Behind(SendProbe(s, target, ok), SendProbe(u, target, ok), id, me)
  {
    hide Via, NilCheck, Unanswered;
    SameReads(s, u, id, me);
    AnswersAlike(s.sent, u.sent, [Sent(Via(s), ProbePacket)]);
  }

  lemma CloseGateBehind(s: State, u: State, id: nat, me: Sender, m: MsgPc)
    requires Behind(s, u, id, me)
    ensures Behind(CloseUpgradeGate(s).(msg := m), CloseUpgradeGate(u).(msg := m), id, me)
  {
    hide GatesAfter, UpgradeGateCrash, Unanswered;
    SameGates(s, u, id, me);
  }

  lemma OpenGateBehind(s: State, u: State, id: nat, me: Sender, good: bool, hook: nat)
    requires Behind(s, u, id, me) && hook !in s.senders
    ensures Behind(OpenHandshakeGate(s, good, hook), OpenHandshakeGate(u, good, hook), id, me)
  {
    hide Unanswered;
    var x := Sender(Hook, None, SNew);
    assert s.senders[id := me][hook := x] == s.senders[hook := x][id := me];
  }

  lemma HandleEnabledBehind(s: State, u: State, id: nat, me: Sender, ok: bool, hook: nat)
    requires Behind(s, u, id, me) && MsgEnabled(s, Handle(ok, hook))
    ensures MsgEnabled(u, Handle(ok, hook)) && u.msg == s.msg
  {
    hide Unanswered;
  }

  lemma HandleBehind(s: State, u: State, id: nat, me: Sender, ok: bool, hook: nat)
    requires Behind(s, u, id, me) && MsgEnabled(s, Handle(ok, hook))
    ensures MsgEnabled(u, Handle(ok, hook)) && Behind(HandleStep(s, ok, hook), HandleStep(u, ok, hook), id, me)
  {
    hide Behind, Dispatch, Decide, LockForUpgrade, StopOld, RunNew, SendProbe, CloseUpgradeGate, OpenHandshakeGate,
         Received;
    HandleEnabledBehind(s, u, id, me, ok, hook);
    match s.msg
    case MDispatch(f) => DispatchBehind(s, u, id, me, f);
    case MDecide(upgrades) => DecideBehind(s, u, id, me, upgrades);
    case MLock(target) => LockBehind(s, u, id, me, target);
    case MStop(target, pc) => StopOldBehind(s, u, id, me, target, pc);
    case MWait(target) => WaitBehind(s, u, id, me, target);
    case MRun(target) => RunNewBehind(s, u, id, me, target, ok);
    case MProbe(target) => ProbeBehind(s, u, id, me, target, ok);
    case MProbeFailed(_) => CloseGateBehind(s, u, id, me, MOpenGate(false, None));
    case MOpenGate(good, _) => OpenGateBehind(s, u, id, me, good, hook);
    case MUpgradeSent => CloseGateBehind(s, u, id, me, MIdle);
    case _ =>
  }

  lemma MsgBehind(s: State, u: State, id: nat, me: Sender, a: MsgAct)
    requires Behind(s, u, id, me) && MsgEnabled(s, a)
    ensures MsgEnabled(u, a) && Behind(MsgStep(s, a), MsgStep(u, a), id, me)
  {
    hide HandleStep, Unanswered;
    if a.Handle? {
      HandleBehind(s, u, id, me, a.ok, a.hook);
    }
  }

  // ------------------------------------------------------------------ callers of Send

  lemma StartBehind(s: State, u: State, id: nat, me: Sender, x: nat, caller: Caller)
    requires Behind(s, u, id, me) && SendEnabled(s, x, Start(caller))
    ensures SendEnabled(u, x, Start(caller))
    ensures Behind(SendStep(s, x, Start(caller)), SendStep(u, x, Start(caller)), id, me)
  {
    hide Unanswered;
    var you := Sender(caller, None, SNew);
    assert s.senders[id := me][x := you] == s.senders[x := you][id := me];
  }

  lemma SameCaller(s: State, u: State, id: nat, me: Sender, x: nat)
    requires Behind(s, u, id, me) && SendEnabled(s, x, Step) && x != id
    ensures SendEnabled(u, x, Step) && u.senders[x] == s.senders[x]
    ensures NextSender(u, s.senders[x]) == NextSender(s, s.senders[x])
    ensures HandCrash(u, s.senders[x].pc) == HandCrash(s, s.senders[x].pc)
  {
    hide Unanswered;
  }

  lemma OtherSendsBehind(s: State, u: State, id: nat, me: Sender, x: nat)
    requires Behind(s, u, id, me) && SendEnabled(s, x, Step) && x != id
    ensures SendEnabled(u, x, Step) && Behind(SendStep(s, x, Step), SendStep(u, x, Step), id, me)
  {
    hide Unanswered, NextSender, Handed, HandCrash;
    SameCaller(s, u, id, me, x);
    var you := NextSender(s, s.senders[x]);
    assert s.senders[id := me][x := you] == s.senders[x := you][id := me];
    MessagesAnswerNothing(s.sent, s.senders[x]);
    MessagesAnswerNothing(u.sent, s.senders[x]);
  }

  lemma SendBehind(s: State, u: State, id: nat, me: Sender, x: nat, a: SendAct)
    requires Behind(s, u, id, me) && SendEnabled(s, x, a) && (x != id || a != Step)
    ensures SendEnabled(u, x, a) && Behind(SendStep(s, x, a), SendStep(u, x, a), id, me)
  {
    hide Behind, SendEnabled, SendStep;
    match a
    case Start(caller) => StartBehind(s, u, id, me, x, caller);
    case Step => OtherSendsBehind(s, u, id, me, x);
  }

  /** What the caller itself does is undone. */
  lemma OwnStepUndone(s: State, u: State, id: nat, me: Sender)
    requires Behind(s, u, id, me) && SendEnabled(s, id, Step) && HandCrash(s, s.senders[id].pc) == s.crash
    ensures Behind(SendStep(s, id, Step), u, id, me)
  {
    hide Unanswered, NextSender, Handed, HandCrash;
    MessagesAnswerNothing(s.sent, s.senders[id]);
    var you := NextSender(s, s.senders[id]);
    assert s.senders[id := you][id := me] == s.senders[id := me];
  }

  lemma CancelBehind(s: State, u: State, id: nat, me: Sender)
    requires Behind(s, u, id, me)
    ensures Behind(s.(ctxDone := true), u.(ctxDone := true), id, me)
  {
    hide Unanswered;
  }

  // ------------------------------------------------------------------ whole continuations

  lemma SameCrash(s: State, u: State, id: nat, me: Sender)
    requires Behind(s, u, id, me)
    ensures u.crash == s.crash
  {
  }

  /** Whatever anybody else does can be done while the caller is behind. */
  lemma StepBehind(s: State, u: State, id: nat, me: Sender, a: Action)
    requires Behind(s, u, id, me) && Enabled(s, a) && a != BySend(id, Step)
    ensures Enabled(u, a) && Behind(Next(s, a), Next(u, a), id, me)
  {
    hide Behind, ConnectStep, MsgStep, SendStep, CloseStep, PollStep, WsStep,
         ConnectEnabled, MsgEnabled, SendEnabled, CloseEnabled, PollEnabled, WsEnabled;
    SameCrash(s, u, id, me);
    match a
    case ByConnect(c) => ConnectBehind(s, u, id, me, c);
    case ByMsg(m) => MsgBehind(s, u, id, me, m);
    case BySend(x, b) => SendBehind(s, u, id, me, x, b);
    case ByClose(x, k) => CloseBehind(s, u, id, me, x, k);
    case ByPoll(p) => PollBehind(s, u, id, me, p);
    case ByWs(w) => WsBehind(s, u, id, me, w);
    case CancelContext => CancelBehind(s, u, id, me);
  }

  /**
   Any continuation can be had with the caller not having moved: the same steps but its own, and on the record
   all but its own MESSAGE.
   */
  lemma {:induction false} Delayed(s: State, id: nat, ss: seq<State>, acts: seq<Action>, n: nat) returns (u: State)
    requires id in s.senders && RunFrom(s, ss, acts) && n < |ss| && ss[n].crash.None?
    ensures ReachableFrom(s, u) && Behind(ss[n], u, id, s.senders[id])
  {
    hide Enabled, Next, ReachableFrom, Behind;
    if n == 0 {
      StaysReachable(s);
      SelfBehind(s, id);
      u := s;
    } else {
      var t, a := ss[n - 1], acts[n - 1];
      assert Enabled(t, a) && ss[n] == Next(t, a);
      EnabledMeansRunning(t, a);
      u := Delayed(s, id, ss, acts, n - 1);
      if a == BySend(id, Step) {
        OwnIsSend(t, id);
        OwnStepUndone(t, u, id, s.senders[id]);
      } else {
        StepBehind(t, u, id, s.senders[id], a);
        NextReachableFrom(s, u, a);
        u := Next(u, a);
      }
    }
  }

  lemma SelfBehind(s: State, id: nat)
    requires id in s.senders
    ensures Behind(s, s, id, s.senders[id])
  {
    assert s.senders[id := s.senders[id]] == s.senders;
  }

  lemma OwnIsSend(s: State, id: nat)
    requires Enabled(s, BySend(id, Step)) && Next(s, BySend(id, Step)).crash.None?
    ensures SendEnabled(s, id, Step) && Next(s, BySend(id, Step)) == SendStep(s, id, Step)
    ensures HandCrash(s, s.senders[id].pc) == s.crash
  {
    hide NextSender, Handed;
  }
}
