/**
 What the client has made of the frames that it has handled: the answers it gave, the namespaces it knows, the
 session id, the connect hooks it launched.  Each is fixed by the frames alone, over all runs.
 */
module EngineHistory {
  import opened Options
  import opened Bytes
  import opened GoInt
  import opened Frames
  import opened TransportContract
  import opened EngineClient
  import opened EngineInvariant
  import opened EngineProof
  import opened EngineGrowth
  import PT = PollingTransport
  import WT = WebsocketTransport

  // ------------------------------------------------------------------ what one step hands over

  /** What the message loop hands over: an answer to a frame, or the probe of an upgrade. */
  predicate LoopHandsOver(m: MsgPc, p: Packet) {
    match m
    case MDispatch(f) => (f.Ping? && p.PongPacket?) || (f == Pong(true) && p.UpgradePacket?)
    case MProbe(_) => p.ProbePacket?
    case _ => false
  }

  /**
   The packet of a step, and its transport: a caller of Send hands its MESSAGE to the transport that it picked,
   the message loop its packets to the current one.
   */
  predicate HandsOver(s: State, a: Action, x: Sent) {
    || (a.BySend? && a.s.Step? && a.id in s.senders && s.senders[a.id].pc == SHand(x.via)
        && x.packet == MessagePacket(s.senders[a.id].caller, s.senders[a.id].saw))
    || (a.ByMsg? && a.m.Handle? && s.transport == Some(x.via) && LoopHandsOver(s.msg, x.packet))
  }

  /** The step adds its packet to the record, if it has one, and nothing else. */
  ghost predicate Recorded(s: State, a: Action, t: State) {
    || (t.sent == s.sent && forall x :: !HandsOver(s, a, x))
    || exists x :: t.sent == s.sent + [x] && HandsOver(s, a, x)
  }

  lemma HandleHandsOver(s: State, ok: bool, hook: nat)
    requires MsgEnabled(s, Handle(ok, hook)) && (s.msg.MDispatch? || s.msg.MProbe?)
    requires s.crash.None? && HandleStep(s, ok, hook).crash.None?
    ensures Recorded(s, ByMsg(Handle(ok, hook)), HandleStep(s, ok, hook))
  {
    hide PT.SetHandshake, KnownAfter, TickerPanics;
    var t := HandleStep(s, ok, hook);
    if t.sent != s.sent {
      var x := t.sent[|s.sent|];
      assert t.sent == s.sent + [x] && HandsOver(s, ByMsg(Handle(ok, hook)), x);
    }
  }

  lemma LeavesHandNothing(s: State, upgrades: seq<Offer>, target: TransportName, pc: PT.StopPc, ok: bool, hook: nat)
    ensures Decide(s, upgrades).sent == LockForUpgrade(s, target).sent == StopOld(s, target, pc).sent == s.sent
    ensures RunNew(s, target, ok).sent == CloseUpgradeGate(s).sent == OpenHandshakeGate(s, ok, hook).sent == s.sent
  {
    hide UpgradeTarget, NilCheck, Via, PT.StopStep, PT.Run, WT.Run, GatesAfter, UpgradeGateCrash;
  }

  lemma UpgradeHandsNothing(s: State, ok: bool, hook: nat)
    requires MsgEnabled(s, Handle(ok, hook))
    requires s.msg.MDecide? || s.msg.MLock? || s.msg.MStop? || s.msg.MWait? || s.msg.MRun?
    ensures HandleStep(s, ok, hook).sent == s.sent
  {
    hide Decide, LockForUpgrade, StopOld, RunNew, Received;
    match s.msg
    case MDecide(upgrades) => LeavesHandNothing(s, upgrades, Polling, PT.StopCas, ok, hook);
    case MStop(target, pc) => LeavesHandNothing(s, [], target, pc, ok, hook);
    case MLock(target) => LeavesHandNothing(s, [], target, PT.StopCas, ok, hook);
    case MRun(target) => LeavesHandNothing(s, [], target, PT.StopCas, ok, hook);
    case _ =>
  }

  lemma GateClosesQuietly(s: State, ok: bool, hook: nat)
    requires MsgEnabled(s, Handle(ok, hook)) && (s.msg.MProbeFailed? || s.msg.MUpgradeSent?)
    ensures HandleStep(s, ok, hook).sent == s.sent
  {
    hide CloseUpgradeGate;
    LeavesHandNothing(s, [], Polling, PT.StopCas, ok, hook);
  }

  lemma GateOpensQuietly(s: State, ok: bool, hook: nat)
    requires MsgEnabled(s, Handle(ok, hook)) && s.msg.MOpenGate?
    ensures HandleStep(s, ok, hook).sent == s.sent
  {
    hide OpenHandshakeGate;
    LeavesHandNothing(s, [], Polling, PT.StopCas, s.msg.ok, hook);
  }

  lemma MsgHandsOver(s: State, a: MsgAct)
    requires MsgEnabled(s, a) && s.crash.None? && MsgStep(s, a).crash.None?
    ensures Recorded(s, ByMsg(a), MsgStep(s, a))
  {
    hide HandleStep;
    if a.Handle? {
      if s.msg.MDispatch? || s.msg.MProbe? {
        HandleHandsOver(s, a.ok, a.hook);
      } else if s.msg.MProbeFailed? || s.msg.MUpgradeSent? {
        GateClosesQuietly(s, a.ok, a.hook);
      } else if s.msg.MOpenGate? {
        GateOpensQuietly(s, a.ok, a.hook);
      } else {
        UpgradeHandsNothing(s, a.ok, a.hook);
      }
    }
  }

  lemma SendIsQuiet(s: State, id: nat, a: SendAct)
    requires SendEnabled(s, id, a) && !(a.Step? && s.senders[id].pc.SHand?)
    ensures SendStep(s, id, a).sent == s.sent
  {
    hide NextSender, HandCrash;
    assert s.sent + [] == s.sent;
  }

  lemma MessageIsHanded(s: State, id: nat)
    requires SendEnabled(s, id, Step) && s.senders[id].pc.SHand?
    ensures
      var me := s.senders[id];
      SendStep(s, id, Step).sent == s.sent + [Sent(me.pc.via, MessagePacket(me.caller, me.saw))]
  {
    hide NextSender, HandCrash;
  }

  lemma SendHandsOver(s: State, id: nat, a: SendAct)
    requires SendEnabled(s, id, a)
    ensures Recorded(s, BySend(id, a), SendStep(s, id, a))
  {
    hide SendStep, SendEnabled;
    if a.Step? && id in s.senders && s.senders[id].pc.SHand? {
      var me := s.senders[id];
      MessageIsHanded(s, id);
      assert HandsOver(s, BySend(id, a), Sent(me.pc.via, MessagePacket(me.caller, me.saw)));
    } else {
      CallerIsKnown(s, id, a);
      SendIsQuiet(s, id, a);
    }
  }

  lemma CallerIsKnown(s: State, id: nat, a: SendAct)
    requires SendEnabled(s, id, a)
    ensures a.Step? ==> id in s.senders
  {
  }

  /** Every step of everybody hands over exactly its packet. */
  lemma StepHandsOver(s: State, a: Action)
    requires Enabled(s, a) && Next(s, a).crash.None?
    ensures Recorded(s, a, Next(s, a))
  {
    EnabledMeansRunning(s, a);
    StepGrows(s, a);
    hide ConnectStep, MsgStep, SendStep, CloseStep, PollStep, WsStep,
         ConnectEnabled, MsgEnabled, SendEnabled, CloseEnabled, PollEnabled, WsEnabled;
    match a
    case ByMsg(m) => MsgHandsOver(s, m);
    case BySend(id, x) => SendHandsOver(s, id, x);
    case _ =>
  }

  /**
   Over all runs: every packet on the record was handed over by one step, an answer by the step that handles the
   PING or the probe's PONG that it answers, to the transport that is current then.
   */
  lemma EveryPacket(ss: seq<State>, acts: seq<Action>, k: nat)
    requires ClientRun(ss, acts) && k < |acts| && ss[k + 1].crash.None?
    ensures Recorded(ss[k], acts[k], ss[k + 1])
  {
    hide Enabled, Next, Recorded;
    assert Enabled(ss[k], acts[k]) && ss[k + 1] == Next(ss[k], acts[k]);
    StepHandsOver(ss[k], acts[k]);
  }

  // ------------------------------------------------------------------ what the handled frames decide

  /** The frames whose handling by handlePacket has taken effect. */
  function HandledFrames(s: State): seq<Frame>
    requires 0 <= Handled(s.queue, s.enq, s.msg) <= |s.enq|
  {
    s.enq[..Handled(s.queue, s.enq, s.msg)]
  }

  /** One PONG for each PING and one UPGRADE for each answer to a probe, in order. */
  function AnswersTo(fs: seq<Frame>): seq<Packet> {
    if fs == [] then []
    else
      AnswersTo(fs[..|fs| - 1]) + (match fs[|fs| - 1]
                                   case Ping => [PongPacket]
                                   case Pong(probe) => if probe then [UpgradePacket] else []
                                   case _ => [])
  }

  /** The answers on the record. */
  function AnswersIn(sent: seq<Sent>): seq<Packet> {
    if sent == [] then []
    else
      var p := sent[|sent| - 1].packet;
      AnswersIn(sent[..|sent| - 1]) + (if p.PongPacket? || p.UpgradePacket? then [p] else [])
  }

  ghost predicate WasConnected(fs: seq<Frame>, ns: Bytes) {
    exists i :: 0 <= i < |fs| && fs[i].Message? && fs[i].packet == Connects(ns)
  }

  ghost predicate WasOpened(fs: seq<Frame>) {
    exists i :: 0 <= i < |fs| && fs[i].Open? && fs[i].valid
  }

  /** What the client knows is what the frames said, and it has answered each of them. */
  ghost predicate Decided(
    fs: seq<Frame>, defaultNs: Bytes, nsOpen: bool, known: set<Bytes>, sid: bool, sent: seq<Sent>)
  {
    && (nsOpen <==> WasConnected(fs, defaultNs))
    && (forall ns :: ns in known <==> ns == defaultNs || WasConnected(fs, ns))
    && (sid <==> WasOpened(fs))
    && AnswersIn(sent) == AnswersTo(fs)
  }

  lemma ConnectedSnoc(fs: seq<Frame>, f: Frame, ns: Bytes)
    ensures WasConnected(fs + [f], ns) <==> WasConnected(fs, ns) || (f.Message? && f.packet == Connects(ns))
    ensures WasOpened(fs + [f]) <==> WasOpened(fs) || (f.Open? && f.valid)
  {
    var gs := fs + [f];
    assert gs[|fs|] == f;
    if WasConnected(fs, ns) {
      var i :| 0 <= i < |fs| && fs[i].Message? && fs[i].packet == Connects(ns);
      assert gs[i] == fs[i];
    }
    if WasOpened(fs) {
      var i :| 0 <= i < |fs| && fs[i].Open? && fs[i].valid;
      assert gs[i] == fs[i];
    }
  }

  lemma AnswersSnoc(fs: seq<Frame>, f: Frame, sent: seq<Sent>, x: Sent)
    ensures AnswersTo(fs + [f]) == AnswersTo(fs) + AnswersTo([f])
    ensures AnswersIn(sent + [x]) == AnswersIn(sent) + AnswersIn([x])
  {
    assert [f][..0] == [] && [x][..0] == [];
    assert (fs + [f])[..|fs|] == fs && (sent + [x])[..|sent|] == sent;
  }

  lemma SingleAnswers(f: Frame, x: Sent)
    ensures AnswersTo([f]) == if f.Ping? then [PongPacket] else if f == Pong(true) then [UpgradePacket] else []
    ensures AnswersIn([x]) == if x.packet.PongPacket? || x.packet.UpgradePacket? then [x.packet] else []
  {
    assert [f][..0] == [] && [x][..0] == [];
  }

  /** A frame is dispatched. */
  lemma DispatchFields(s: State, f: Frame, ok: bool, hook: nat)
    requires Enabled(s, ByMsg(Handle(ok, hook))) && s.msg == MDispatch(f)
    ensures
      var t := Next(s, ByMsg(Handle(ok, hook)));
      && t.nsOpen == (s.nsOpen || (f.Message? && f.packet == Connects(s.defaultNs)))
      && t.known == s.known + (if f.Message? && f.packet.Connects? then {f.packet.ns} else {})
      && t.sid == (s.sid || (f.Open? && f.valid))
      && t.defaultNs == s.defaultNs && t.enq == s.enq && t.queue == s.queue && !t.msg.MDispatch?
  {
    hide PT.SetHandshake, FrameCrash, Reply, Via;
  }

  lemma DecidedSnoc(
    fs: seq<Frame>, f: Frame, defaultNs: Bytes, nsOpen: bool, known: set<Bytes>, sid: bool, sent: seq<Sent>,
    sent': seq<Sent>)
    requires Decided(fs, defaultNs, nsOpen, known, sid, sent) && AnswersIn(sent') == AnswersTo(fs + [f])
    ensures Decided(fs + [f], defaultNs, nsOpen || (f.Message? && f.packet == Connects(defaultNs)),
                    known + (if f.Message? && f.packet.Connects? then {f.packet.ns} else {}),
                    sid || (f.Open? && f.valid), sent')
  {
    hide WasConnected, WasOpened, AnswersTo, AnswersIn;
    forall ns
      ensures WasConnected(fs + [f], ns) <==> WasConnected(fs, ns) || (f.Message? && f.packet == Connects(ns))
      ensures WasOpened(fs + [f]) <==> WasOpened(fs) || (f.Open? && f.valid)
    {
      ConnectedSnoc(fs, f, ns);
    }
  }

  lemma DispatchDecides(s: State, f: Frame, ok: bool, hook: nat)
    requires Inv(s) && Enabled(s, ByMsg(Handle(ok, hook))) && s.msg == MDispatch(f)
    requires Next(s, ByMsg(Handle(ok, hook))).crash.None? && History(s)
    ensures History(Next(s, ByMsg(Handle(ok, hook))))
  {
    hide Inv, Next, Enabled, Decided, AnswersTo, AnswersIn, Recorded;
    var a := ByMsg(Handle(ok, hook));
    var t := Next(s, a);
    EnabledMeansRunning(s, a);
    StepKeeps(s, a);
    DispatchFields(s, f, ok, hook);
    StepHandsOver(s, a);
    HandlingPosition(s);
    var fs := HandledFrames(s);
    assert HandledFrames(t) == fs + [f];
    DecidedAnswers(s);
    AnswerIsRecorded(s, f, a, t, fs);
    DecidedSnoc(fs, f, s.defaultNs, s.nsOpen, s.known, s.sid, s.sent, t.sent);
  }

  lemma DecidedAnswers(s: State)
    requires History(s)
    ensures AnswersIn(s.sent) == AnswersTo(HandledFrames(s))
  {
  }

  lemma AnswerIsRecorded(s: State, f: Frame, a: Action, t: State, fs: seq<Frame>)
    requires s.msg == MDispatch(f) && a.ByMsg? && a.m.Handle? && Recorded(s, a, t) && AnswersIn(s.sent) == AnswersTo(fs)
    requires f.Ping? || f == Pong(true) ==> s.transport.Some?
    ensures AnswersIn(t.sent) == AnswersTo(fs + [f])
  {
    hide AnswersTo, AnswersIn;
    var y := Sent(Via(s), if f.Ping? then PongPacket else UpgradePacket);
    AnswersSnoc(fs, f, s.sent, y);
    SingleAnswers(f, y);
    if x :| t.sent == s.sent + [x] && HandsOver(s, a, x) {
      AnswersSnoc(fs, f, s.sent, x);
      SingleAnswers(f, x);
    } else {
      assert (f.Ping? || f == Pong(true)) ==> HandsOver(s, a, y);
      assert AnswersTo(fs) + [] == AnswersTo(fs);
    }
  }

  lemma HandlingPosition(s: State)
    requires Inv(s)
    ensures 0 <= Handled(s.queue, s.enq, s.msg) <= |s.enq| && |s.queue| <= |s.enq|
    ensures s.msg.MDispatch? ==>
              && Handled(s.queue, s.enq, s.msg) < |s.enq|
              && s.enq[Handled(s.queue, s.enq, s.msg)] == s.msg.frame
    ensures s.connect.CLaunch? ==> s.msg.MOff?
  {
  }

  /** The history of a state is what its handled frames decide. */
  ghost predicate History(s: State) {
    && 0 <= Handled(s.queue, s.enq, s.msg) <= |s.enq|
    && Decided(HandledFrames(s), s.defaultNs, s.nsOpen, s.known, s.sid, s.sent)
  }

  // ------------------------------------------------------------------ all other steps

  /** No frame's handling has taken effect, and no answer was given. */
  predicate NothingHandled(s: State, t: State) {
    && t.defaultNs == s.defaultNs && t.nsOpen == s.nsOpen && t.known == s.known && t.sid == s.sid
    && Handled(t.queue, t.enq, t.msg) == Handled(s.queue, s.enq, s.msg) && s.enq <= t.enq
    && AnswersIn(t.sent) == AnswersIn(s.sent)
  }

  lemma HistoryStays(s: State, t: State)
    requires History(s) && NothingHandled(s, t)
    ensures History(t)
  {
    hide Decided, AnswersIn;
    assert HandledFrames(t) == HandledFrames(s);
    DecidedSame(HandledFrames(s), s.defaultNs, s.nsOpen, s.known, s.sid, s.sent, t.sent);
  }

  lemma DecidedSame(
    fs: seq<Frame>, defaultNs: Bytes, nsOpen: bool, known: set<Bytes>, sid: bool, sent: seq<Sent>, sent': seq<Sent>)
    requires Decided(fs, defaultNs, nsOpen, known, sid, sent) && AnswersIn(sent') == AnswersIn(sent)
    ensures Decided(fs, defaultNs, nsOpen, known, sid, sent')
  {
  }

  lemma ElsewhereHandlesNothing(s: State, a: Action)
    requires Inv(s) && Enabled(s, a) && !a.ByMsg? && !a.BySend?
    ensures NothingHandled(s, Next(s, a))
  {
    hide Inv, Enabled, Next, AnswersIn, Handled, Onward;
    StepGrows(s, a);
    HandlingPosition(s);
    NothingElse(s, Next(s, a));
  }

  lemma NothingElse(s: State, t: State)
    requires Elsewhere(s, t) && Steady(s, t) && s.enq <= t.enq && (s.connect.CLaunch? ==> s.msg.MOff?)
    ensures NothingHandled(s, t)
  {
  }

  lemma SendHandlesNothing(s: State, id: nat, a: SendAct)
    requires Enabled(s, BySend(id, a)) && Next(s, BySend(id, a)).crash.None?
    ensures NothingHandled(s, Next(s, BySend(id, a)))
  {
    hide Enabled, Next, AnswersIn;
    StepGrows(s, BySend(id, a));
    StepHandsOver(s, BySend(id, a));
    var t := Next(s, BySend(id, a));
    if x :| t.sent == s.sent + [x] && HandsOver(s, BySend(id, a), x) {
      AnswersSnoc([], Close, s.sent, x);
      SingleAnswers(Close, x);
      assert AnswersIn(s.sent) + [] == AnswersIn(s.sent);
    }
  }

  /** Where a step of handlePacket, handleHandshake or transportUpgrade leads. */
  predicate LeadsTo(m: MsgPc, ok: bool, next: MsgPc) {
    match m
    case MDispatch(f) =>
      if f.Open? && f.valid then next == MDecide(f.upgrades)
      else next == if f == Pong(true) then MUpgradeSent else MIdle
    case MDecide(_) => next == MOpenGate(true, None) || next.MLock?
    case MLock(target) => next == MStop(target, PT.StopCas)
    case MStop(target, _) => next == MWait(target) || (next.MStop? && next.target == target)
    case MWait(target) => next == MRun(target)
    case MRun(target) => next == if ok || target.Polling? then MProbe(target) else MOpenGate(false, None)
    case MProbe(target) => next == if ok then MOpenGate(true, Some(target)) else MProbeFailed(target)
    case MProbeFailed(_) => next == MOpenGate(false, None)
    case MOpenGate(_, _) => next.MIdle?
    case MUpgradeSent => next.MIdle?
    case _ => true
  }

  lemma DispatchLeads(s: State, f: Frame)
    ensures LeadsTo(MDispatch(f), true, Dispatch(s, f).msg)
  {
    hide PT.SetHandshake, KnownAfter, FrameCrash, Via, Reply;
  }

  lemma DecideLeads(s: State, upgrades: seq<Offer>)
    ensures LeadsTo(MDecide(upgrades), true, Decide(s, upgrades).msg)
  {
    hide UpgradeTarget, Via, NilCheck;
  }

  lemma UpgradeLeads(s: State, target: TransportName, pc: PT.StopPc, ok: bool)
    ensures LeadsTo(MLock(target), ok, LockForUpgrade(s, target).msg)
    ensures LeadsTo(MStop(target, pc), ok, StopOld(s, target, pc).msg)
  {
    hide NilCheck, Via, StopTransport, StopNext;
  }

  lemma RunLeads(s: State, target: TransportName, ok: bool)
    ensures LeadsTo(MRun(target), ok, RunNew(s, target, ok).msg)
    ensures LeadsTo(MProbe(target), ok, SendProbe(s, target, ok).msg)
  {
    hide NilCheck, Via, RunTransport, GatesAfter, UpgradeGateCrash;
  }

  lemma GateLeads(s: State, ok: bool, hook: nat)
    ensures OpenHandshakeGate(s, ok, hook).msg.MIdle?
  {
  }

  lemma HandleLeads(s: State, ok: bool, hook: nat)
    requires MsgEnabled(s, Handle(ok, hook))
    ensures LeadsTo(s.msg, ok, HandleStep(s, ok, hook).msg)
  {
    hide Dispatch, Decide, LockForUpgrade, SendProbe, StopOld, RunNew, Received, CloseUpgradeGate, OpenHandshakeGate;
    match s.msg
    case MDispatch(f) => DispatchLeads(s, f);
    case MDecide(upgrades) => DecideLeads(s, upgrades);
    case MLock(target) => UpgradeLeads(s, target, PT.StopCas, ok);
    case MStop(target, pc) => UpgradeLeads(s, target, pc, ok);
    case MRun(target) => RunLeads(s, target, ok);
    case MProbe(target) => RunLeads(s, target, ok);
    case MOpenGate(good, _) => GateLeads(s, good, hook);
    case _ =>
  }

  lemma HandleLeavesDispatch(s: State, ok: bool, hook: nat)
    requires MsgEnabled(s, Handle(ok, hook)) && !s.msg.MDispatch?
    ensures !HandleStep(s, ok, hook).msg.MDispatch?
  {
    hide HandleStep;
    HandleLeads(s, ok, hook);
  }

  lemma HandleHandlesNothing(s: State, ok: bool, hook: nat)
    requires Inv(s) && Enabled(s, ByMsg(Handle(ok, hook))) && !s.msg.MDispatch?
    requires Next(s, ByMsg(Handle(ok, hook))).crash.None?
    ensures NothingHandled(s, Next(s, ByMsg(Handle(ok, hook))))
  {
    var a := ByMsg(Handle(ok, hook));
    var t := Next(s, a);
    assert t == HandleStep(s, ok, hook) && MsgEnabled(s, Handle(ok, hook));
    hide Inv, Next, Enabled, HandleStep, AnswersIn;
    StepGrows(s, a);
    HandleLeavesDispatch(s, ok, hook);
    StepHandsOver(s, a);
    if x :| t.sent == s.sent + [x] && HandsOver(s, a, x) {
      AnswersSnoc([], Close, s.sent, x);
      SingleAnswers(Close, x);
      assert AnswersIn(s.sent) + [] == AnswersIn(s.sent);
    }
  }

  lemma LoopHandlesNothing(s: State, a: MsgAct)
    requires Inv(s) && Enabled(s, ByMsg(a)) && Next(s, ByMsg(a)).crash.None? && !(a.Handle? && s.msg.MDispatch?)
    ensures NothingHandled(s, Next(s, ByMsg(a)))
  {
    if a.Handle? {
      HandleHandlesNothing(s, a.ok, a.hook);
    } else {
      hide Inv, HandleStep, AnswersIn;
    }
  }

  lemma StepKeepsHistory(s: State, a: Action)
    requires Inv(s) && History(s) && Enabled(s, a) && Next(s, a).crash.None?
    ensures History(Next(s, a))
  {
    hide Inv, History, Enabled, Next, NothingHandled;
    if a.ByMsg? && a.m.Handle? && s.msg.MDispatch? {
      DispatchDecides(s, s.msg.frame, a.m.ok, a.m.hook);
    } else {
      if a.ByMsg? {
        LoopHandlesNothing(s, a.m);
      } else if a.BySend? {
        SendHandlesNothing(s, a.id, a.s);
      } else {
        ElsewhereHandlesNothing(s, a);
      }
      HistoryStays(s, Next(s, a));
    }
  }

  lemma FreshHistory(s: State)
    requires IsFreshClient(s)
    ensures History(s)
  {
  }

  /**
   Over all runs, the frames handled so far decide what the client has learned and said: the default namespace's
   gate is open exactly when one of them connected it, exactly the default and the connected namespaces exist,
   there is a session id exactly when one was a valid OPEN, and the answers on the record are one PONG for each
   PING and one UPGRADE for each answer to a probe, in order.
   */
  lemma {:induction false} FramesDecide(ss: seq<State>, acts: seq<Action>, k: nat)
    requires ClientRun(ss, acts) && k < |ss| && ss[k].crash.None?
    ensures 0 <= Handled(ss[k].queue, ss[k].enq, ss[k].msg) <= |ss[k].enq|
    ensures
      var fs := HandledFrames(ss[k]);
      && (ss[k].nsOpen <==> WasConnected(fs, ss[k].defaultNs))
      && (forall ns :: ns in ss[k].known <==> ns == ss[k].defaultNs || WasConnected(fs, ns))
      && (ss[k].sid <==> WasOpened(fs))
      && AnswersIn(ss[k].sent) == AnswersTo(fs)
  {
    HistoryHolds(ss, acts, k);
  }

  lemma {:induction false} HistoryHolds(ss: seq<State>, acts: seq<Action>, k: nat)
    requires ClientRun(ss, acts) && k < |ss| && ss[k].crash.None?
    ensures History(ss[k])
  {
    hide Inv, History, Next, Enabled, IsFreshClient;
    if k == 0 {
      FreshHistory(ss[0]);
    } else {
      assert Enabled(ss[k - 1], acts[k - 1]) && ss[k] == Next(ss[k - 1], acts[k - 1]);
      EnabledMeansRunning(ss[k - 1], acts[k - 1]);
      HistoryHolds(ss, acts, k - 1);
      RunKeeps(ss, acts, k - 1);
      StepKeepsHistory(ss[k - 1], acts[k - 1]);
    }
  }
}
