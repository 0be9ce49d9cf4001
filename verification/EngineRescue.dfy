/** A gate that is releasable can be released: from every such state some continuation opens it. */
module EngineRescue {
  import opened Options
  import opened Bytes
  import opened GoInt
  import opened Frames
  import opened TransportContract
  import opened EngineClient
  import opened EngineInvariant
  import opened EngineProof
  import opened EngineTheorems
  import opened EngineReach
  import opened EngineRelease
  import opened EngineStranded
  import PT = PollingTransport
  import WT = WebsocketTransport

  /** Some continuation opens the gate. */
  ghost predicate CanOpen(s: State, k: Gating) {
    exists t :: ReachableFrom(s, t) && t.crash.None? && IsOpened(t, k)
  }

  lemma OpenedCanOpen(s: State, k: Gating)
    requires s.crash.None? && IsOpened(s, k)
    ensures CanOpen(s, k)
  {
    hide ReachableFrom;
    StaysReachable(s);
  }

  lemma StepCanOpen(s: State, a: Action, k: Gating)
    requires Enabled(s, a) && CanOpen(Next(s, a), k)
    ensures CanOpen(s, k)
  {
    hide Enabled, Next, ReachableFrom, IsOpened;
    var t :| ReachableFrom(Next(s, a), t) && t.crash.None? && IsOpened(t, k);
    StaysReachable(s);
    NextReachableFrom(s, s, a);
    ReachesOn(s, Next(s, a), t);
  }

  // ------------------------------------------------------------------ an upgrade under way

  /** The steps of transportUpgrade that are left, and then those that open the handshake gate. */
  function ChainRank(s: State): nat {
    match s.msg
    case MStop(_, pc) => 400 + StopRank(pc)
    case MWait(_) => 10 + WaitRank(s)
    case MRun(_) => 9
    case MProbe(_) => 8
    case MProbeFailed(_) => 7
    case MOpenGate(_, _) => 6
    case _ => 0
  }

  /** A state from which finishing the upgrade opens the gate. */
  predicate OnChain(s: State, k: Gating) {
    && IsShut(s, k) && s.crash.None? && (k.AtUpgrade? ==> k.gate == |s.gates| - 1)
    && match s.msg
       case MStop(_, pc) => !pc.StopReturned?
       case MWait(_) => true
       case MRun(_) => true
       case MProbe(_) => s.transport.Some?
       case MProbeFailed(_) => true
       case MOpenGate(_, _) => k.AtHandshake?
       case _ => false
  }

  /** One step along the chain. */
  ghost predicate ChainStep(s: State, t: State, k: Gating) {
    t.crash.None? && (IsOpened(t, k) || (OnChain(t, k) && ChainRank(t) < ChainRank(s)))
  }

  lemma ChainFacts(s: State, k: Gating)
    requires Inv(s) && OnChain(s, k)
    ensures s.msg.MStop? || s.msg.MWait? || s.msg.MRun? || s.msg.MProbeFailed? ==>
              s.gates != [] && s.wu == Some(|s.gates| - 1)
    ensures s.msg.MStop? || s.msg.MWait? || s.msg.MRun? || s.msg.MProbeFailed? ==> !s.wuSpent
    ensures s.msg.MStop? || s.msg.MWait? || s.msg.MRun? ==> s.transport == Some(s.owner)
    ensures s.msg.MProbeFailed? ==> !s.locked
    ensures s.msg.MOpenGate? ==> !s.whSpent
  {
  }

  function StopRank(pc: PT.StopPc): nat {
    match pc
    case StopCas => 4
    case StopCancel => 3
    case StopBroadcast => 2
    case StopToken => 1
    case StopReturned => 0
  }

  lemma StopOldGoesOn(s: State, target: TransportName, pc: PT.StopPc)
    requires !pc.StopReturned?
    ensures
      var t := StopOld(s, target, pc);
      || t.msg == MWait(target)
      || (t.msg.MStop? && !t.msg.stop.StopReturned? && StopRank(t.msg.stop) < StopRank(pc))
  {
  }

  lemma StopIsHandled(s: State, hook: nat)
    requires s.msg.MStop? && s.crash.None?
    ensures Enabled(s, ByMsg(Handle(false, hook)))
    ensures Next(s, ByMsg(Handle(false, hook))) == StopOld(s, s.msg.target, s.msg.stop)
  {
    hide StopOld;
  }

  lemma StopOn(s: State, k: Gating)
    requires Inv(s) && OnChain(s, k) && s.msg.MStop?
    ensures Enabled(s, ByMsg(Handle(false, 0))) && ChainStep(s, Next(s, ByMsg(Handle(false, 0))), k)
  {
    hide Inv, StopOld, WaitRank, StopRank, Enabled, Next;
    StopOldKeeps(s, s.msg.target, s.msg.stop);
    StopOldGates(s, s.msg.target, s.msg.stop);
    StopOldGoesOn(s, s.msg.target, s.msg.stop);
    StopIsHandled(s, 0);
    RankBounds(StopOld(s, s.msg.target, s.msg.stop));
  }

  lemma WaitOn(s: State, k: Gating) returns (a: Action)
    requires Inv(s) && OnChain(s, k) && s.msg.MWait?
    ensures Enabled(s, a) && ChainStep(s, Next(s, a), k)
  {
    hide Inv, Enabled, Next, CanReceiveClose, OwnerLive, OwnerEscape, WaitRank, PT.Notified, WT.Notified, Releasable;
    WaitingAwaits(s);
    NeverStuck(s);
    if OwnerLive(s) {
      LiveOwner(s);
      a := OwnerEscape(s);
      EscapeIsOutside(s, a);
      WaitStep(s, a);
      ShutMeansInstalled(s, k);
      OutsideStep(s, a);
      StepKeeps(s, a);
      OutsideOnChain(s, Next(s, a), k);
    } else {
      a := ByMsg(Handle(false, 0));
      WaitedOn(s, k);
    }
  }

  lemma EscapeIsOutside(s: State, a: Action)
    requires OwnerAct(s, a)
    ensures !a.ByMsg? && CrashOf(s, a).None?
  {
  }

  lemma OutsideOnChain(s: State, t: State, k: Gating)
    requires OnChain(s, k) && s.msg.MWait? && Outside(s, t) && t.crash.None?
    ensures OnChain(t, k)
  {
  }

  lemma WaitedOn(s: State, k: Gating)
    requires OnChain(s, k) && s.msg.MWait? && CanReceiveClose(s)
    ensures Enabled(s, ByMsg(Handle(false, 0))) && ChainStep(s, Next(s, ByMsg(Handle(false, 0))), k)
  {
    hide WaitRank, Received;
  }

  lemma RunOn(s: State, k: Gating)
    requires Inv(s) && OnChain(s, k) && s.msg.MRun?
    ensures Enabled(s, ByMsg(Handle(false, 0))) && ChainStep(s, Next(s, ByMsg(Handle(false, 0))), k)
  {
    ChainFacts(s, k);
    RunNewKeeps(s, s.msg.target, false);
    hide Inv, WaitRank, PT.Run, WT.Run, WT.RunFails, UpgradeGateCrash;
  }

  lemma ProbeOn(s: State, k: Gating)
    requires OnChain(s, k) && s.msg.MProbe?
    ensures Enabled(s, ByMsg(Handle(false, 0))) && ChainStep(s, Next(s, ByMsg(Handle(false, 0))), k)
  {
    hide WaitRank, Via;
  }

  lemma ProbeFailedOn(s: State, k: Gating)
    requires Inv(s) && OnChain(s, k) && s.msg.MProbeFailed?
    ensures Enabled(s, ByMsg(Handle(false, 0))) && ChainStep(s, Next(s, ByMsg(Handle(false, 0))), k)
  {
    ChainFacts(s, k);
    GateIsOpenable(s);
    hide Inv, WaitRank, UpgradeGateCrash;
  }

  lemma OpenGateOn(s: State, k: Gating, hook: nat)
    requires Inv(s) && OnChain(s, k) && s.msg.MOpenGate? && hook !in s.senders
    ensures Enabled(s, ByMsg(Handle(false, hook))) && ChainStep(s, Next(s, ByMsg(Handle(false, hook))), k)
  {
    ChainFacts(s, k);
    hide Inv, WaitRank;
  }

  lemma ChainMove(s: State, k: Gating) returns (a: Action)
    requires Inv(s) && OnChain(s, k)
    ensures Enabled(s, a) && ChainStep(s, Next(s, a), k)
  {
    hide Inv, Enabled, Next, ChainStep;
    a := ByMsg(Handle(false, 0));
    match s.msg
    case MStop(_, _) => StopOn(s, k);
    case MWait(_) => a := WaitOn(s, k);
    case MRun(_) => RunOn(s, k);
    case MProbe(_) => ProbeOn(s, k);
    case MProbeFailed(_) => ProbeFailedOn(s, k);
    case MOpenGate(_, _) =>
      var hook := FreshId(s.senders);
      a := ByMsg(Handle(false, hook));
      OpenGateOn(s, k, hook);
    case _ =>
  }

  /** An upgrade under way can always be finished, and failing is enough to release its waiters. */
  lemma {:induction false} ChainOpens(s: State, k: Gating)
    requires Inv(s) && OnChain(s, k)
    ensures CanOpen(s, k)
    decreases ChainRank(s)
  {
    hide Inv, Enabled, Next, OnChain, ChainRank, IsOpened, CanOpen;
    var a := ChainMove(s, k);
    var t := Next(s, a);
    if IsOpened(t, k) {
      OpenedCanOpen(t, k);
    } else {
      ChainRunning(s, k);
      StepKeeps(s, a);
      ChainOpens(t, k);
    }
    StepCanOpen(s, a, k);
  }

  lemma ChainRunning(s: State, k: Gating)
    requires OnChain(s, k)
    ensures s.crash.None? && IsShut(s, k)
  {
  }

  // ------------------------------------------------------------------ bringing the frame that opens

  /** A frame that opens the gate whatever else there is. */
  function Opener(k: Gating): Frame {
    if k.AtHandshake? then Frame.Open(true, 0, []) else Pong(true)
  }

  lemma OpenerClears(k: Gating, more: bool, e: Env, root: bool)
    requires Openable(k, e) && (k.AtUpgrade? ==> e.begun)
    ensures Clears(k, [Opener(k)], more, e, root)
  {
  }

  /** The polling loop's way to its next frame. */
  function PollSupply(p: PT.Transport, f: Frame): PT.LoopAct {
    match p.loop
    case AwaitGate => PT.GatePasses
    case LoopTop => PT.TopPolls
    case InGet => PT.GetReturns(f)
    case Offering(_) => PT.OfferSent
    case PollFailed => PT.CheckRetries
    case BackingOff => PT.BackoffElapses
    case _ => PT.PutClose
  }

  function PollDistance(p: PT.Transport): nat {
    match p.loop
    case AwaitGate => 6
    case PollFailed => 6
    case BackingOff => 5
    case LoopTop => 4
    case InGet => 3
    case Offering(_) => 2
    case _ => 0
  }

  lemma PollSupplies(p: PT.Transport, f: Frame, ctxDone: bool)
    requires PT.GateRespected(p) && (p.loop.Offering? || PollBrings(p, ctxDone))
    ensures
      var a := PollSupply(p, f);
      var q := PT.LoopNext(p, a);
      && PT.Enabled(p, a, ctxDone, true) && !a.PutClose?
      && (p.loop.Offering? ==>
            && PT.LoopEffect(p, a) == Enqueue(p.loop.frame)
            && HeldByPoll(q) == [] && PollBrings(q, ctxDone) == PollBrings(p, ctxDone))
      && (!p.loop.Offering? ==>
            && PT.LoopEffect(p, a).Silent? && HeldByPoll(p) == []
            && (|| HeldByPoll(q) == [f]
                || (HeldByPoll(q) == [] && PollBrings(q, ctxDone) && PollDistance(q) < PollDistance(p))))
  {
  }

  /** The websocket loop's way to its next frame. */
  function WsSupply(w: WT.Transport, f: Frame): WT.LoopAct {
    match w.loop
    case Spawning => WT.Spawn
    case Forwarding(_) => WT.ForwardSent
    case _ =>
      if w.inbox != [] then WT.SelectTakes
      else if w.holding != [] then WT.ReaderDelivers(0)
      else if w.receiving > 0 then WT.ReaderGets(f)
      else WT.ReaderCalls
  }

  function WsDistance(w: WT.Transport): nat {
    match w.loop
    case Spawning => 6
    case Forwarding(_) => 1
    case _ => if w.inbox != [] then 2 else if w.holding != [] then 3 else if w.receiving > 0 then 4 else 5
  }

  /** One step of the loop or of its reader brings the frame nearer. */
  ghost predicate WsNearer(w: WT.Transport, v: WT.Transport, f: Frame) {
    || (HeldByWs(w) == [] && HeldByWs(v) == [f])
    || (HeldByWs(v) == HeldByWs(w) && WsBrings(v) == WsBrings(w) && WsDistance(v) < WsDistance(w))
  }

  lemma ForwardingSupplies(w: WT.Transport, f: Frame, ctxDone: bool)
    requires InvReaders(w) && w.loop.Forwarding?
    ensures
      var v := WT.LoopNext(w, WT.ForwardSent);
      && WsSupply(w, f) == WT.ForwardSent && WT.Enabled(w, WT.ForwardSent, ctxDone, true)
      && WT.LoopEffect(w, WT.ForwardSent) == Enqueue(w.loop.frame) && HeldByWs(w) == [w.loop.frame]
      && HeldByWs(v) == [] && WsBrings(v) && WsBrings(w)
  {
  }

  lemma SpawningSupplies(w: WT.Transport, f: Frame, ctxDone: bool)
    requires InvReaders(w) && w.loop.Spawning?
    ensures
      && WsSupply(w, f) == WT.Spawn && WT.Enabled(w, WT.Spawn, ctxDone, true)
      && WT.LoopEffect(w, WT.Spawn).Silent? && WsNearer(w, WT.LoopNext(w, WT.Spawn), f)
  {
  }

  lemma HeldSupplies(w: WT.Transport, f: Frame, ctxDone: bool)
    requires InvReaders(w) && w.loop.Selecting? && (w.inbox != [] || w.holding != [])
    ensures
      var a := WsSupply(w, f);
      WT.Enabled(w, a, ctxDone, true) && WT.LoopEffect(w, a).Silent? && WsNearer(w, WT.LoopNext(w, a), f)
  {
    if w.inbox != [] {
      assert w.inbox == [w.inbox[0]] && w.inbox[1..] == [] && w.holding == [];
    } else {
      assert w.holding == [w.holding[0]];
    }
  }

  lemma ReaderSupplies(w: WT.Transport, f: Frame, ctxDone: bool)
    requires InvReaders(w) && w.loop.Selecting? && w.inbox == [] && w.holding == [] && WsBrings(w)
    ensures
      var a := WsSupply(w, f);
      WT.Enabled(w, a, ctxDone, true) && WT.LoopEffect(w, a).Silent? && WsNearer(w, WT.LoopNext(w, a), f)
  {
  }

  lemma WsSupplies(w: WT.Transport, f: Frame, ctxDone: bool)
    requires InvReaders(w) && (HeldByWs(w) != [] || WsBrings(w))
    ensures
      var a := WsSupply(w, f);
      && WT.Enabled(w, a, ctxDone, true)
      && (if w.loop.Forwarding?
          then && WT.LoopEffect(w, a) == Enqueue(w.loop.frame) && HeldByWs(w) == [w.loop.frame]
               && HeldByWs(WT.LoopNext(w, a)) == [] && WsBrings(WT.LoopNext(w, a)) == WsBrings(w)
          else WT.LoopEffect(w, a).Silent? && WsNearer(w, WT.LoopNext(w, a), f))
  {
    SelectingHolds(w);
    hide InvReaders, WT.Enabled, WT.LoopNext, WT.LoopEffect, WsNearer, WsSupply, HeldByWs, WsBrings;
    match w.loop
    case Spawning => SpawningSupplies(w, f, ctxDone);
    case Forwarding(_) => ForwardingSupplies(w, f, ctxDone);
    case _ =>
      if w.inbox != [] || w.holding != [] {
        HeldSupplies(w, f, ctxDone);
      } else {
        ReaderSupplies(w, f, ctxDone);
      }
  }

  lemma SelectingHolds(w: WT.Transport)
    requires HeldByWs(w) != [] || WsBrings(w)
    ensures w.loop.Spawning? || w.loop.Forwarding? || w.loop.Selecting?
    ensures w.loop.Selecting? && w.inbox == [] && w.holding == [] ==> WsBrings(w)
  {
  }

  /** The step that brings the next frame into `messages`, or nearer to it. */
  function Supply(s: State, k: Gating): Action {
    if s.connect.COffer? then ByConnect(OfferSent)
    else if s.owner.Polling? && s.connect.CGet? then ByConnect(GetReturns(Opener(k)))
    else if s.owner.Polling? && s.connect.CRequest? then ByConnect(Request)
    else if s.owner.Polling? then ByPoll(PollSupply(s.poll, Opener(k)))
    else ByWs(WsSupply(s.ws, Opener(k)))
  }

  function Distance(s: State): nat {
    if s.connect.COffer? then 2
    else if s.owner.Polling? && s.connect.CGet? then 3
    else if s.owner.Polling? && s.connect.CRequest? then 4
    else if s.owner.Polling? then PollDistance(s.poll)
    else WsDistance(s.ws)
  }

  /** The same frames are on their way, nearer than before, or the opener is. */
  ghost predicate Supplied(s: State, t: State, k: Gating) {
    || (Line(t) == Line(s) && More(t) == More(s) && (t.queue != [] || Distance(t) < Distance(s)))
    || (Line(s) == [] && Line(t) == [Opener(k)])
  }

  lemma OfferSupplies(s: State, k: Gating)
    requires Inv(s) && s.crash.None? && s.queue == [] && s.connect.COffer?
    ensures Enabled(s, Supply(s, k)) && Next(s, Supply(s, k)).transport == s.transport
    ensures Supplied(s, Next(s, Supply(s, k)), k)
  {
    RequestMeansPolling(s);
    ConnectingPollIsIdle(s);
    hide Inv, HeldByPoll, PollBrings, HeldByWs, WsBrings;
  }

  lemma RequestSupplies(s: State, k: Gating)
    requires Inv(s) && s.crash.None? && s.queue == [] && s.owner.Polling? && (s.connect.CGet? || s.connect.CRequest?)
    ensures Enabled(s, Supply(s, k)) && Next(s, Supply(s, k)).transport == s.transport
    ensures Supplied(s, Next(s, Supply(s, k)), k)
  {
    TransportWhileConnecting(s);
    ConnectingMeansPolling(s);
    ConnectingPollIsIdle(s);
    hide Inv, HeldByPoll, PollBrings, HeldByWs, WsBrings;
  }

  lemma ConnectingMeansPolling(s: State)
    requires Inv(s) && s.owner.Polling?
    ensures Polling in s.supported
  {
  }

  lemma PollStepLine(s: State, a: PT.LoopAct)
    requires s.crash.None? && s.queue == [] && !s.queueClosed && s.owner.Polling? && s.connect.COk?
    requires PT.Enabled(s.poll, a, s.ctxDone, true) && !a.PutClose?
    ensures
      var t := Next(s, ByPoll(a));
      var e, q := PT.LoopEffect(s.poll, a), PT.LoopNext(s.poll, a);
      && Enabled(s, ByPoll(a)) && t.transport == s.transport
      && t.queue == (if e.Enqueue? then [e.frame] else []) && Line(t) == t.queue + HeldByPoll(q)
      && More(t) == PollBrings(q, s.ctxDone) && Distance(t) == PollDistance(q)
      && Line(s) == HeldByPoll(s.poll) && More(s) == PollBrings(s.poll, s.ctxDone)
      && Distance(s) == PollDistance(s.poll)
  {
    hide HeldByPoll, PollBrings, PollDistance, PT.LoopNext, PT.LoopEffect, PT.Enabled;
  }

  lemma LoopSupply(s: State, k: Gating)
    requires !s.connect.COffer? && !s.connect.CGet? && !s.connect.CRequest?
    ensures s.owner.Polling? ==> Supply(s, k) == ByPoll(PollSupply(s.poll, Opener(k)))
  {
  }

  lemma PollStepSupplies(s: State, k: Gating)
    requires Inv(s) && s.crash.None? && s.queue == [] && s.owner.Polling? && s.connect.COk?
    requires s.poll.loop.Offering? || PollBrings(s.poll, s.ctxDone)
    ensures Enabled(s, Supply(s, k)) && Next(s, Supply(s, k)).transport == s.transport
    ensures Supplied(s, Next(s, Supply(s, k)), k)
  {
    PollIsRespected(s);
    PollSupplies(s.poll, Opener(k), s.ctxDone);
    PollBringsAlive(s.poll, s.ctxDone);
    LiveMeansOpen(s);
    HeldFrame(s.poll);
    LoopSupply(s, k);
    hide Inv, Enabled, Next, Supply, Line, More, Distance, HeldByPoll, PollBrings, PollDistance, PollSupply,
         PT.Live, PT.GateRespected, PT.LoopNext, PT.LoopEffect, PT.Enabled, Opener;
    PollStepLine(s, PollSupply(s.poll, Opener(k)));
  }

  lemma HeldFrame(p: PT.Transport)
    ensures HeldByPoll(p) == if p.loop.Offering? then [p.loop.frame] else []
  {
  }

  lemma PollIsRespected(s: State)
    requires Inv(s)
    ensures PT.GateRespected(s.poll)
  {
  }

  lemma PollBringsAlive(p: PT.Transport, ctxDone: bool)
    ensures p.loop.Offering? || PollBrings(p, ctxDone) ==> PT.Live(p)
  {
  }

  lemma WsStepLine(s: State, a: WT.LoopAct)
    requires s.crash.None? && s.queue == [] && !s.queueClosed && s.owner.Websocket? && !s.connect.COffer?
    requires WT.Enabled(s.ws, a, s.ctxDone, true)
    ensures
      var t := Next(s, ByWs(a));
      var e, v := WT.LoopEffect(s.ws, a), WT.LoopNext(s.ws, a);
      && Enabled(s, ByWs(a)) && t.transport == s.transport
      && t.queue == (if e.Enqueue? then [e.frame] else []) && Line(t) == t.queue + HeldByWs(v)
      && More(t) == WsBrings(v) && Distance(t) == WsDistance(v)
      && Line(s) == HeldByWs(s.ws) && More(s) == WsBrings(s.ws) && Distance(s) == WsDistance(s.ws)
  {
    hide HeldByWs, WsBrings, WsDistance, WT.LoopNext, WT.LoopEffect, WT.Enabled;
  }

  lemma WsStepSupplies(s: State, k: Gating)
    requires Inv(s) && s.crash.None? && s.queue == [] && s.owner.Websocket?
    requires HeldByWs(s.ws) != [] || WsBrings(s.ws)
    ensures Enabled(s, Supply(s, k)) && Next(s, Supply(s, k)).transport == s.transport
    ensures Supplied(s, Next(s, Supply(s, k)), k)
  {
    ReadersHold(s);
    WsConnectHasNoOffer(s);
    WsSupplies(s.ws, Opener(k), s.ctxDone);
    WsBringsAlive(s.ws);
    LiveMeansOpen(s);
    hide Inv, Enabled, Next, Line, More, Distance, HeldByWs, WsBrings, WsDistance, WsSupply,
         WT.Live, WT.LoopNext, WT.LoopEffect, WT.Enabled, Opener, InvReaders;
    WsStepLine(s, WsSupply(s.ws, Opener(k)));
  }

  lemma ReadersHold(s: State)
    requires Inv(s)
    ensures InvReaders(s.ws)
  {
  }

  lemma WsBringsAlive(w: WT.Transport)
    ensures HeldByWs(w) != [] || WsBrings(w) ==> WT.Live(w)
  {
  }

  /** With nothing queued, a line that can still clear is brought nearer. */
  lemma SupplyStep(s: State, k: Gating)
    requires Inv(s) && s.crash.None? && s.queue == [] && (Line(s) != [] || More(s))
    ensures Enabled(s, Supply(s, k)) && Next(s, Supply(s, k)).transport == s.transport
    ensures Supplied(s, Next(s, Supply(s, k)), k) && !Supply(s, k).ByMsg? && !Supply(s, k).BySend?
  {
    hide Inv, Enabled, Next, Supplied, HeldByPoll, PollBrings, HeldByWs, WsBrings;
    HeldByPollFacts(s.poll);
    if s.connect.COffer? {
      OfferSupplies(s, k);
    } else if s.owner.Websocket? {
      WsStepSupplies(s, k);
    } else if s.connect.CGet? || s.connect.CRequest? {
      RequestSupplies(s, k);
    } else {
      if !s.connect.COk? {
        ConnectingMeansPolling(s);
        ConnectingPollIsIdle(s);
      }
      PollStepSupplies(s, k);
    }
  }

  lemma HeldByPollFacts(p: PT.Transport)
    ensures HeldByPoll(p) != [] <==> p.loop.Offering?
  {
  }

  // ------------------------------------------------------------------ handling the line

  /** The frames to be handled, the one in hand included. */
  function Ahead(s: State): seq<Frame> {
    (if s.msg.MDispatch? then [s.msg.frame] else []) + Line(s)
  }

  predicate AheadClears(s: State, k: Gating, more: bool) {
    Clears(k, Ahead(s), more, EnvOf(s), ROOT in s.known)
  }

  /** Between frames, or at one, or about to decide that an OPEN begins no upgrade. */
  predicate AtLine(s: State, k: Gating) {
    s.msg.MIdle? || s.msg.MDispatch? || (k.AtUpgrade? && (s.msg.MDecide? || s.msg.MOpenGate?))
  }

  function LineRank(s: State): nat {
    match s.msg
    case MDecide(_) => 30
    case MOpenGate(_, _) => 20
    case MIdle => if s.queue == [] then 2 + Distance(s) else 1
    case _ => 0
  }

  /** One step of a line that clears: the gate opens, or is certain to, or the line is shorter, or its frames nearer. */
  ghost predicate LineStep(s: State, t: State, k: Gating) {
    && t.crash.None?
    && (IsOpened(t, k) || OnChain(t, k) || Deciding(t, k) || Closing(t, k)
        || (IsShut(t, k) && Releasable(t, k) && AtLine(t, k) && Nearer(s, t, k)))
  }

  ghost predicate Nearer(s: State, t: State, k: Gating) {
    || (AheadClears(t, k, false) && !AheadClears(s, k, false))
    || (AheadClears(t, k, false) == AheadClears(s, k, false)
        && (|Ahead(t)| < |Ahead(s)| || (|Ahead(t)| == |Ahead(s)| && LineRank(t) < LineRank(s))))
  }

  /** A handshake is being handled, and a transport is there if one is needed. */
  predicate Deciding(s: State, k: Gating) {
    && k.AtHandshake? && IsShut(s, k) && s.crash.None?
    && match s.msg
       case MDecide(upgrades) => upgrades == [] || s.transport.Some?
       case MLock(_) => s.transport.Some?
       case _ => false
  }

  /** The probe's PONG is being handled. */
  predicate Closing(s: State, k: Gating) {
    k.AtUpgrade? && k.gate == |s.gates| - 1 && IsShut(s, k) && s.crash.None? && s.msg.MUpgradeSent?
  }

  lemma LockOn(s: State, k: Gating)
    requires Inv(s) && Deciding(s, k) && s.msg.MLock?
    ensures Enabled(s, ByMsg(Handle(false, 0))) && OnChain(Next(s, ByMsg(Handle(false, 0))), k)
  {
    NotLocked(s);
    hide Inv, Held, Brings;
  }

  lemma NotLocked(s: State)
    requires Inv(s) && !Holding(s.msg)
    ensures !s.locked
  {
  }

  lemma DecideOn(s: State, k: Gating)
    requires Inv(s) && Deciding(s, k) && s.msg.MDecide?
    ensures Enabled(s, ByMsg(Handle(false, 0)))
    ensures
      var t := Next(s, ByMsg(Handle(false, 0)));
      OnChain(t, k) || (Deciding(t, k) && t.msg.MLock?)
  {
    NoOfferNoTarget(Via(s), s.supported);
    hide Inv, Held, Brings, UpgradeTarget;
  }

  lemma DecidingOpens(s: State, k: Gating)
    requires Inv(s) && Deciding(s, k)
    ensures CanOpen(s, k)
  {
    hide Inv, Enabled, Next, OnChain, Deciding, CanOpen;
    DecidingRuns(s, k);
    var a := ByMsg(Handle(false, 0));
    if s.msg.MDecide? {
      DecideOn(s, k);
      OnOrDeciding(Next(s, a), k);
      StepKeeps(s, a);
      if OnChain(Next(s, a), k) {
        ChainOpens(Next(s, a), k);
      } else {
        LockOpens(Next(s, a), k);
      }
      StepCanOpen(s, a, k);
    } else {
      LockOpens(s, k);
    }
  }

  lemma DecidingRuns(s: State, k: Gating)
    requires Deciding(s, k)
    ensures s.crash.None? && (s.msg.MDecide? || s.msg.MLock?)
  {
  }

  lemma OnOrDeciding(s: State, k: Gating)
    ensures OnChain(s, k) || Deciding(s, k) ==> s.crash.None?
  {
  }

  lemma LockOpens(s: State, k: Gating)
    requires Inv(s) && Deciding(s, k) && s.msg.MLock?
    ensures CanOpen(s, k)
  {
    hide Inv, Enabled, Next, OnChain, Deciding, CanOpen;
    var a := ByMsg(Handle(false, 0));
    LockOn(s, k);
    OnOrDeciding(Next(s, a), k);
    StepKeeps(s, a);
    ChainOpens(Next(s, a), k);
    StepCanOpen(s, a, k);
  }

  lemma ClosingOn(s: State, k: Gating)
    requires Inv(s) && Closing(s, k)
    ensures Enabled(s, ByMsg(Handle(false, 0)))
    ensures Next(s, ByMsg(Handle(false, 0))).crash.None? && IsOpened(Next(s, ByMsg(Handle(false, 0))), k)
  {
    GateIsOpenable(s);
    LatestGate(s);
    hide Inv, Held, Brings, UpgradeGateCrash;
  }

  lemma ClosingOpens(s: State, k: Gating)
    requires Inv(s) && Closing(s, k)
    ensures CanOpen(s, k)
  {
    hide Inv, Enabled, Next, IsOpened, Closing, CanOpen;
    ClosingOn(s, k);
    OpenedCanOpen(Next(s, ByMsg(Handle(false, 0))), k);
    StepCanOpen(s, ByMsg(Handle(false, 0)), k);
  }

  // the steps

  lemma ReceiveLine(s: State, t: State, k: Gating)
    requires s.msg.MIdle? && s.queue != [] && t == s.(queue := s.queue[1..], msg := MDispatch(s.queue[0]))
    ensures [t.msg.frame] + Line(t) == Line(s) == [] + Line(s)
    ensures More(t) == More(s) && EnvOf(t) == EnvOf(s) && t.known == s.known && t.crash == s.crash
    ensures IsShut(s, k) ==> IsShut(t, k)
  {
    hide Held, Brings;
    assert [t.msg.frame] + Line(t) == Line(s) == [] + Line(s);
  }

  lemma ReceiveIsEnabled(s: State)
    requires s.crash.None? && s.msg.MIdle? && s.queue != []
    ensures Enabled(s, ByMsg(Receive))
    ensures Next(s, ByMsg(Receive)) == s.(queue := s.queue[1..], msg := MDispatch(s.queue[0]))
  {
  }

  lemma ReceiveOn(s: State, k: Gating)
    requires s.crash.None? && s.msg.MIdle? && s.queue != [] && IsShut(s, k) && Releasable(s, k)
    ensures Enabled(s, ByMsg(Receive)) && LineStep(s, Next(s, ByMsg(Receive)), k)
  {
    ReceiveIsEnabled(s);
    hide Enabled, Next, IsOpened, IsShut, OnChain, Deciding, Closing, Clears, Line, More, Distance, EnvOf;
    var t := Next(s, ByMsg(Receive));
    ReceiveLine(s, t, k);
  }

  lemma IdleClears(s: State, k: Gating)
    requires s.msg.MIdle? && Releasable(s, k)
    ensures AheadClears(s, k, More(s)) && (Line(s) != [] || (More(s) && Openable(k, EnvOf(s))))
    ensures Ahead(s) == Line(s)
  {
    hide Held, Brings;
    assert [] + Line(s) == Line(s);
  }

  lemma SupplyOn(s: State, k: Gating)
    requires Inv(s) && s.crash.None? && s.msg.MIdle? && s.queue == [] && IsShut(s, k) && Releasable(s, k)
    ensures Enabled(s, Supply(s, k)) && LineStep(s, Next(s, Supply(s, k)), k)
  {
    hide Inv, Enabled, Next, Supply, Clears, Line, More, Supplied, OnChain, Deciding;
    IdleClears(s, k);
    SupplyStep(s, k);
    ShutMeansInstalled(s, k);
    OutsideStep(s, Supply(s, k));
    StepKeeps(s, Supply(s, k));
    SuppliedOn(s, Next(s, Supply(s, k)), k);
  }

  /** The message loop, the gates and the environment of the line are as before. */
  predicate SameScene(s: State, t: State) {
    && s.msg.MIdle? && t.msg.MIdle? && t.gates == s.gates && t.wh == s.wh && t.known == s.known
    && EnvOf(t) == EnvOf(s) && t.crash.None? && s.queue == []
  }

  lemma OutsideIsSameScene(s: State, t: State)
    requires s.msg.MIdle? && s.queue == [] && Outside(s, t) && t.transport == s.transport && t.crash.None?
    ensures SameScene(s, t)
  {
    hide Flows, Line, More;
  }

  lemma SameLineOn(s: State, t: State, k: Gating)
    requires SameScene(s, t) && IsShut(s, k) && Releasable(s, k)
    requires Line(t) == Line(s) && More(t) == More(s) && (t.queue != [] || Distance(t) < Distance(s))
    ensures IsShut(t, k) && Releasable(t, k) && AtLine(t, k) && Nearer(s, t, k)
  {
    hide Clears, Line, More;
  }

  lemma OpenerLineOn(s: State, t: State, k: Gating)
    requires SameScene(s, t) && IsShut(s, k) && Releasable(s, k) && (k.AtUpgrade? ==> s.gates != [])
    requires Line(s) == [] && Line(t) == [Opener(k)]
    ensures IsShut(t, k) && Releasable(t, k) && AtLine(t, k) && Nearer(s, t, k)
  {
    EmptyLine(s, k);
    OpenerClears(k, More(t), EnvOf(t), ROOT in t.known);
    OpenerClears(k, false, EnvOf(t), ROOT in t.known);
    hide Clears, Line, More, Opener, EnvOf;
    assert [] + Line(t) == Line(t) && Ahead(t) == [Opener(k)];
    assert AheadClears(t, k, false) && !AheadClears(s, k, false);
    assert Nearer(s, t, k);
  }

  lemma SuppliedOn(s: State, t: State, k: Gating)
    requires Inv(s) && s.msg.MIdle? && s.queue == [] && IsShut(s, k) && Releasable(s, k)
    requires Outside(s, t) && t.transport == s.transport && t.crash.None? && Supplied(s, t, k)
    ensures LineStep(s, t, k)
  {
    hide Inv, Outside, SameScene, IsShut, Releasable, AtLine, Nearer, Line, More, Distance, OnChain, Deciding, Closing;
    ShutMeansInstalled(s, k);
    OutsideIsSameScene(s, t);
    if Line(s) == [] && Line(t) == [Opener(k)] {
      OpenerLineOn(s, t, k);
    } else {
      SameLineOn(s, t, k);
    }
  }

  /** With no frame on its way, the gate is releasable only by one to come. */
  lemma EmptyLine(s: State, k: Gating)
    requires s.msg.MIdle? && Line(s) == [] && Releasable(s, k)
    ensures Openable(k, EnvOf(s)) && !AheadClears(s, k, false)
  {
    hide Held, Brings;
  }

  lemma OpenGatePasses(s: State, k: Gating, hook: nat)
    requires Inv(s) && s.crash.None? && s.msg.MOpenGate? && k.AtUpgrade? && IsShut(s, k) && Releasable(s, k)
    requires hook !in s.senders
    ensures Enabled(s, ByMsg(Handle(false, hook))) && LineStep(s, Next(s, ByMsg(Handle(false, hook))), k)
  {
    ShutMeansInstalled(s, k);
    OpenGateFacts(s);
    hide Inv, Clears, Held, Brings, OnChain, Deciding;
    DistanceBound(Next(s, ByMsg(Handle(false, hook))));
    hide Distance;
  }

  lemma OpenGateFacts(s: State)
    requires Inv(s)
    ensures s.whSpent <==> s.wh.Opened?
  {
  }

  lemma DistanceBound(s: State)
    ensures Distance(s) <= 6
  {
    hide Held, Brings;
  }

  lemma DecidePasses(s: State, k: Gating)
    requires Inv(s) && s.crash.None? && s.msg.MDecide? && k.AtUpgrade? && IsShut(s, k) && Releasable(s, k)
    ensures Enabled(s, ByMsg(Handle(false, 0))) && LineStep(s, Next(s, ByMsg(Handle(false, 0))), k)
  {
    TransportIsOwner(s);
    NoOfferNoTarget(Via(s), s.supported);
    hide Inv, Clears, Held, Brings, UpgradeTarget, OnChain, Deciding, Distance;
  }

  /** A frame at the head of a line that clears does not panic. */
  lemma HeadClears(s: State, f: Frame, k: Gating)
    requires s.msg == MDispatch(f) && Releasable(s, k)
    ensures !Panics(f, EnvOf(s), ROOT in s.known) && !Replaces(k, f, EnvOf(s))
    ensures Opens(k, f) || Clears(k, Line(s), More(s), EnvOf(s), RootAfter(ROOT in s.known, f))
  {
    hide Clears, Line, More, Panics, Replaces, Opens;
    ClearsTail(k, f, Line(s), More(s), EnvOf(s), ROOT in s.known);
  }

  lemma HeadIsHandled(s: State, f: Frame)
    requires s.crash.None? && s.msg == MDispatch(f)
    ensures Enabled(s, ByMsg(Handle(false, 0))) && Next(s, ByMsg(Handle(false, 0))) == Dispatch(s, f)
  {
    hide Dispatch;
  }

  lemma HeadIsSafe(s: State, f: Frame)
    requires s.crash.None? && s.msg == MDispatch(f) && !Panics(f, EnvOf(s), ROOT in s.known)
    ensures Dispatch(s, f).crash.None?
  {
    hide TickerPanics, PT.SetHandshake, KnownAfter;
  }

  lemma OpenerDispatched(s: State, f: Frame, k: Gating)
    requires Inv(s) && s.crash.None? && s.msg == MDispatch(f) && IsShut(s, k) && Releasable(s, k) && Opens(k, f)
    requires !Panics(f, EnvOf(s), ROOT in s.known) && Dispatch(s, f).crash.None?
    ensures Deciding(Dispatch(s, f), k) || Closing(Dispatch(s, f), k)
  {
    hide Inv, Clears, Held, Brings, PT.SetHandshake, TickerPanics, FrameCrash, KnownAfter;
  }

  lemma PasserGoesOn(s: State, f: Frame, k: Gating)
    requires Inv(s) && s.msg == MDispatch(f) && IsShut(s, k) && !Opens(k, f) && Dispatch(s, f).crash.None?
    requires !Panics(f, EnvOf(s), ROOT in s.known)
    ensures
      var t := Dispatch(s, f);
      && IsShut(t, k) && t.gates == s.gates && (ROOT in t.known <==> RootAfter(ROOT in s.known, f))
      && (t.msg.MIdle? || (k.AtUpgrade? && f.Open? && f.valid && t.msg == MDecide(f.upgrades)))
      && Line(t) == Line(s) && More(t) == More(s) && EnvOf(t) == EnvOf(s)
  {
    ShutMeansInstalled(s, k);
    DispatchKeepsLine(s, f);
    hide Inv, Line, More, PT.SetHandshake, TickerPanics, FrameCrash;
  }

  lemma PasserClears(s: State, t: State, f: Frame, k: Gating)
    requires s.msg == MDispatch(f) && !Opens(k, f) && !Replaces(k, f, EnvOf(s)) && Releasable(s, k)
    requires !Panics(f, EnvOf(s), ROOT in s.known) && IsShut(t, k) && t.crash.None?
    requires t.gates == s.gates && (ROOT in t.known <==> RootAfter(ROOT in s.known, f))
    requires t.msg.MIdle? || (k.AtUpgrade? && f.Open? && f.valid && t.msg == MDecide(f.upgrades))
    requires Line(t) == Line(s) && More(t) == More(s) && EnvOf(t) == EnvOf(s)
    requires Clears(k, Line(s), More(s), EnvOf(s), RootAfter(ROOT in s.known, f))
    ensures Releasable(t, k) && AtLine(t, k) && Nearer(s, t, k)
  {
    ClearsTail(k, f, Line(s), false, EnvOf(s), ROOT in s.known);
    hide Clears, Line, More, Distance, TickerPanics, UpgradeTarget, RootAfter;
    assert [] + Line(t) == Line(t);
  }

  lemma PasserDispatched(s: State, f: Frame, k: Gating)
    requires Inv(s) && s.crash.None? && s.msg == MDispatch(f) && IsShut(s, k) && Releasable(s, k) && !Opens(k, f)
    requires !Panics(f, EnvOf(s), ROOT in s.known) && !Replaces(k, f, EnvOf(s)) && Dispatch(s, f).crash.None?
    requires Clears(k, Line(s), More(s), EnvOf(s), RootAfter(ROOT in s.known, f))
    ensures LineStep(s, Dispatch(s, f), k)
  {
    hide Inv, IsShut, Releasable, AtLine, Nearer, Opens, Panics, Replaces, Dispatch, Clears, Line, More, OnChain,
         Deciding, Closing, EnvOf, RootAfter;
    PasserGoesOn(s, f, k);
    PasserClears(s, Dispatch(s, f), f, k);
  }

  lemma DispatchOn(s: State, f: Frame, k: Gating)
    requires Inv(s) && s.crash.None? && s.msg == MDispatch(f) && IsShut(s, k) && Releasable(s, k)
    ensures Enabled(s, ByMsg(Handle(false, 0))) && LineStep(s, Next(s, ByMsg(Handle(false, 0))), k)
  {
    hide Inv, Enabled, Next, Dispatch, Clears, Panics, Replaces, Releasable, OnChain, Deciding, Closing, Opens;
    HeadClears(s, f, k);
    HeadIsHandled(s, f);
    HeadIsSafe(s, f);
    if Opens(k, f) {
      OpenerDispatched(s, f, k);
    } else {
      PasserDispatched(s, f, k);
    }
  }

  lemma LineMove(s: State, k: Gating) returns (a: Action)
    requires Inv(s) && s.crash.None? && IsShut(s, k) && Releasable(s, k) && AtLine(s, k)
    ensures Enabled(s, a) && LineStep(s, Next(s, a), k)
  {
    hide Inv, Enabled, Next, LineStep, Releasable, Supply;
    a := ByMsg(Handle(false, 0));
    match s.msg
    case MIdle =>
      if s.queue == [] {
        a := Supply(s, k);
        SupplyOn(s, k);
      } else {
        a := ByMsg(Receive);
        ReceiveOn(s, k);
      }
    case MDispatch(f) => DispatchOn(s, f, k);
    case MDecide(_) => DecidePasses(s, k);
    case _ =>
      var hook := FreshId(s.senders);
      a := ByMsg(Handle(false, hook));
      OpenGatePasses(s, k, hook);
  }

  /** A line that clears is handled, frame by frame, until the gate opens. */
  lemma {:induction false} LineOpens(s: State, k: Gating)
    requires Inv(s) && s.crash.None? && IsShut(s, k) && Releasable(s, k) && AtLine(s, k)
    ensures CanOpen(s, k)
    decreases !AheadClears(s, k, false), |Ahead(s)|, LineRank(s)
  {
    hide Inv, Enabled, Next, IsShut, IsOpened, Releasable, AtLine, AheadClears, Ahead, LineRank, OnChain,
         Deciding, Closing, CanOpen;
    var a := LineMove(s, k);
    var t := Next(s, a);
    StepKeeps(s, a);
    if IsOpened(t, k) {
      OpenedCanOpen(t, k);
    } else if OnChain(t, k) {
      ChainOpens(t, k);
    } else if Deciding(t, k) {
      DecidingOpens(t, k);
    } else if Closing(t, k) {
      ClosingOpens(t, k);
    } else {
      LineOpens(t, k);
    }
    StepCanOpen(s, a, k);
  }

  /** Where a releasable gate's message loop is. */
  lemma ReleasableCases(s: State, k: Gating)
    requires s.crash.None? && IsShut(s, k) && Releasable(s, k) && Inv(s)
    ensures AtLine(s, k) || OnChain(s, k) || Deciding(s, k) || Closing(s, k)
  {
    StopGoesOn(s);
    hide Inv, Clears, Held, Brings;
  }

  lemma StopGoesOn(s: State)
    requires Inv(s)
    ensures s.msg.MStop? ==> !s.msg.stop.StopReturned?
  {
  }

  lemma ReleasableOpens(s: State, k: Gating)
    requires Inv(s) && s.crash.None? && IsShut(s, k) && Releasable(s, k)
    ensures CanOpen(s, k)
  {
    hide Inv, Releasable, AtLine, OnChain, Deciding, Closing, CanOpen;
    ReleasableCases(s, k);
    if AtLine(s, k) {
      LineOpens(s, k);
    } else if OnChain(s, k) {
      ChainOpens(s, k);
    } else if Deciding(s, k) {
      DecidingOpens(s, k);
    } else {
      ClosingOpens(s, k);
    }
  }
}
