/** What the invariant means for the users of the Engine.IO client, over all runs. */
module EngineTheorems {
  import opened Options
  import opened Bytes
  import opened GoInt
  import opened Frames
  import opened TransportContract
  import opened EngineClient
  import opened EngineInvariant
  import opened EngineProof
  import PT = PollingTransport
  import WT = WebsocketTransport

  // ------------------------------------------------------------------ hand-over and shutdown

  lemma HandOverFacts(s: State)
    requires Inv(s)
    ensures !(PT.Live(s.poll) && WT.Live(s.ws))
    ensures PT.Live(s.poll) ==> s.poll.onClose == |s.chans| - 1 && s.chans[s.poll.onClose].Fresh?
    ensures WT.Live(s.ws) ==> s.ws.onClose == |s.chans| - 1 && s.chans[s.ws.onClose].Fresh?
    ensures s.msg.MRun? ==> LastQuiet(s.chans) && !PT.Live(s.poll) && !WT.Live(s.ws)
    ensures s.queueClosed ==> !PT.Live(s.poll) && !WT.Live(s.ws) && !s.connect.CGet? && !s.connect.COffer?
  {
  }

  /**
   Sequential hand-over.  At most one loop can feed `messages`; a loop that is to put its close signal
   finds the current, empty channel, so the put neither blocks nor is skipped; a new Run starts only when
   the previous channel is drained (or was closed by a failed Run) and no loop is left; `messages` is
   closed only when no loop and no handshake request is left that could send on it.
   */
  lemma SequentialHandOver(ss: seq<State>, acts: seq<Action>, k: nat)
    requires ClientRun(ss, acts) && k < |ss| && ss[k].crash.None?
    ensures !(PT.Live(ss[k].poll) && WT.Live(ss[k].ws))
    ensures PT.Live(ss[k].poll) ==> ss[k].poll.onClose == |ss[k].chans| - 1 && ss[k].chans[ss[k].poll.onClose].Fresh?
    ensures WT.Live(ss[k].ws) ==> ss[k].ws.onClose == |ss[k].chans| - 1 && ss[k].chans[ss[k].ws.onClose].Fresh?
    ensures ss[k].msg.MRun? ==> LastQuiet(ss[k].chans) && !PT.Live(ss[k].poll) && !WT.Live(ss[k].ws)
    ensures ss[k].queueClosed ==>
              !PT.Live(ss[k].poll) && !WT.Live(ss[k].ws) && !ss[k].connect.CGet? && !ss[k].connect.COffer?
  {
    hide Inv;
    RunKeeps(ss, acts, k);
    HandOverFacts(ss[k]);
  }

  lemma CrashFacts(s: State)
    requires Inv(s)
    ensures s.transport.None? <==> s.winner.Some?
    ensures s.msg.MOpenGate? && s.wh.Absent? ==> Polling !in s.supported && !s.connect.COk?
    ensures s.wu.None? <==> s.gates == []
  {
  }

  /** The message loop is about to use the transport. */
  predicate UsesTransport(m: MsgPc) {
    match m
    case MDispatch(f) => f.Ping? || f == Pong(true)
    case MDecide(upgrades) => upgrades != []
    case MLock(_) => true
    case MProbe(_) => true
    case _ => false
  }

  /** The frame that the message loop is about to handle, if it is. */
  function Handling(m: MsgPc): Option<Frame> {
    if m.MDispatch? then Some(m.frame) else None
  }

  lemma CrashCauses(s: State, a: Action)
    requires s.crash.None?
    ensures CrashOf(s, a) == Some(NilTransport) <==>
              a.ByMsg? && a.m.Handle? && UsesTransport(s.msg) && s.transport.None?
    ensures CrashOf(s, a) == Some(NilGate) <==>
              a.ByMsg? && a.m.Handle? && ((s.msg.MOpenGate? && s.wh.Absent?) || (s.msg.MUpgradeSent? && s.wu.None?))
    ensures CrashOf(s, a) == Some(BadTicker) <==>
              && a.ByMsg? && a.m.Handle? && Handling(s.msg).Some?
              && var f := Handling(s.msg).value; f.Open? && f.valid && TickerPanics(f.interval)
    ensures CrashOf(s, a) == Some(NilPacket) <==>
              && a.ByMsg? && a.m.Handle? && Handling(s.msg).Some? && ROOT in s.known
              && var f := Handling(s.msg).value; f.Message? && f.packet.Incomplete?
    ensures CrashOf(s, a) == Some(NilUrl) <==>
              && a.BySend? && a.s.Step? && a.id in s.senders
              && s.senders[a.id].pc == SHand(Polling) && PT.NeverRun(s.poll)
    ensures CrashOf(s, a) != Some(DoubleClose) && CrashOf(s, a) != Some(SendOnClosed)
  {
    hide TickerPanics, PT.NeverRun;
  }

  /** A caller has picked the polling transport, which has never been run, only if Connect has not begun. */
  lemma PickedBeforeRun(s: State, id: nat)
    requires Inv(s) && id in s.senders && s.senders[id].pc == SHand(Polling)
    ensures PT.NeverRun(s.poll) <==> s.connect.CStart?
  {
    assert s.senders[id].pc.via in s.supported;
  }

  /**
   The engine client panics exactly when a caller of Send hands its MESSAGE to the polling transport before
   Connect has run it, or when the message loop
   - uses the transport (PING, the probe's PONG, a handshake that offers or performs an upgrade) after a
     Close has taken it;
   - finishes a handshake before Connect has made waitHandshake, which needs a websocket-only client, or gets
     the probe's PONG when no upgrade was ever begun;
   - handles an OPEN whose ping interval is no positive duration; or
   - handles a MESSAGE that lacks what the Socket.IO client dereferences, for a namespace that exists.
   In particular no run closes a channel twice, and none sends on a closed channel.
   */
  lemma PanicsExactly(ss: seq<State>, acts: seq<Action>, k: nat)
    requires ClientRun(ss, acts) && k < |acts|
    ensures ss[k + 1].crash == CrashOf(ss[k], acts[k])
    ensures ss[k + 1].crash == Some(NilTransport) <==>
              acts[k].ByMsg? && acts[k].m.Handle? && UsesTransport(ss[k].msg) && ss[k].winner.Some?
    ensures ss[k + 1].crash == Some(NilGate) <==>
              && acts[k].ByMsg? && acts[k].m.Handle?
              && ((ss[k].msg.MOpenGate? && ss[k].wh.Absent?) || (ss[k].msg.MUpgradeSent? && ss[k].gates == []))
    ensures ss[k + 1].crash == Some(NilGate) && ss[k].msg.MOpenGate? ==>
              Polling !in ss[k].supported && !ss[k].connect.COk?
    ensures ss[k + 1].crash == Some(BadTicker) <==>
              && acts[k].ByMsg? && acts[k].m.Handle? && Handling(ss[k].msg).Some?
              && var f := Handling(ss[k].msg).value; f.Open? && f.valid && TickerPanics(f.interval)
    ensures ss[k + 1].crash == Some(NilPacket) <==>
              && acts[k].ByMsg? && acts[k].m.Handle? && Handling(ss[k].msg).Some? && ROOT in ss[k].known
              && var f := Handling(ss[k].msg).value; f.Message? && f.packet.Incomplete?
    ensures ss[k + 1].crash == Some(NilUrl) <==>
              && acts[k].BySend? && acts[k].s.Step? && acts[k].id in ss[k].senders
              && ss[k].senders[acts[k].id].pc == SHand(Polling) && ss[k].connect.CStart?
    ensures ss[k + 1].crash != Some(DoubleClose) && ss[k + 1].crash != Some(SendOnClosed)
  {
    hide Inv, Next, Enabled, CrashOf, UsesTransport, Handling, TickerPanics, PT.NeverRun;
    assert Enabled(ss[k], acts[k]) && ss[k + 1] == Next(ss[k], acts[k]);
    EnabledMeansRunning(ss[k], acts[k]);
    RunKeeps(ss, acts, k);
    StepKeeps(ss[k], acts[k]);
    CrashFacts(ss[k]);
    CrashCauses(ss[k], acts[k]);
    if acts[k].BySend? && acts[k].id in ss[k].senders && ss[k].senders[acts[k].id].pc == SHand(Polling) {
      PickedBeforeRun(ss[k], acts[k].id);
    }
  }

  // ------------------------------------------------------------------ gates

  lemma GateFacts(s: State)
    requires Inv(s)
    ensures s.whSpent <==> s.wh.Opened?
    ensures s.wuSpent <==> s.gates != [] && s.gates[|s.gates| - 1]
    ensures s.wu == if s.gates == [] then None else Some(|s.gates| - 1)
    ensures |s.made| == |s.gates|
    ensures s.msg.MOpenGate? && !s.msg.ok ==> s.gates != [] && s.gates[|s.gates| - 1]
    ensures s.msg.MOpenGate? && s.msg.upgraded.Some? ==>
              && s.gates != [] && !s.gates[|s.gates| - 1]
              && ProbedSince(s.sent, s.made[|s.gates| - 1], s.msg.upgraded.value)
  {
  }

  /**
   Gate integrity.  For both gates the Once is spent exactly when the current channel is closed; when
   transportUpgrade has returned an error, its gate is closed; when it has returned nil, its gate is still
   shut and the probe was handed to the new transport after the gate was made.
   */
  lemma GateIntegrity(ss: seq<State>, acts: seq<Action>, k: nat)
    requires ClientRun(ss, acts) && k < |ss| && ss[k].crash.None?
    ensures ss[k].whSpent <==> ss[k].wh.Opened?
    ensures ss[k].wuSpent <==> ss[k].gates != [] && ss[k].gates[|ss[k].gates| - 1]
    ensures ss[k].wu == if ss[k].gates == [] then None else Some(|ss[k].gates| - 1)
    ensures |ss[k].made| == |ss[k].gates|
    ensures ss[k].msg.MOpenGate? && !ss[k].msg.ok ==> ss[k].gates != [] && ss[k].gates[|ss[k].gates| - 1]
    ensures ss[k].msg.MOpenGate? && ss[k].msg.upgraded.Some? ==>
              && ss[k].gates != [] && !ss[k].gates[|ss[k].gates| - 1]
              && ProbedSince(ss[k].sent, ss[k].made[|ss[k].gates| - 1], ss[k].msg.upgraded.value)
  {
    hide Inv, ProbedSince;
    RunKeeps(ss, acts, k);
    GateFacts(ss[k]);
  }

  lemma ReleaseFacts(s: State, id: nat)
    requires Inv(s) && id in s.senders
    ensures |s.made| == |s.gates|
    ensures s.senders[id].pc.SAwaitHandshake? && OpenTaken(s.enq, Finished(Taken(s.queue, s.enq), s.msg)) ==>
              s.wh.Opened?
    ensures s.senders[id].pc.SAwaitUpgrade? ==> s.senders[id].saw.Some? && s.senders[id].saw.value < |s.gates|
    ensures s.gates != [] && !s.gates[|s.gates| - 1] ==>
              || Upgrading(s.msg) || s.msg.MUpgradeSent?
              || (ProbedSince(s.sent, s.made[|s.gates| - 1], s.owner) && Unanswered(s.sent, s.made[|s.gates| - 1]))
  {
    assert SenderOk(s.senders[id], s.gates);
  }

  /**
   What a caller of Send waits for.  Once the handling of an OPEN is over, whatever became of its upgrade, a
   caller at the handshake gate can go on.  A caller at the latest upgrade gate can go on, or that upgrade is
   under way, or its gate is about to be closed, or a probe was handed to the current transport after the
   gate was made and has not been answered since.
   */
  lemma WhatWaitersAwait(ss: seq<State>, acts: seq<Action>, k: nat, id: nat)
    requires ClientRun(ss, acts) && k < |ss| && ss[k].crash.None? && id in ss[k].senders
    ensures |ss[k].made| == |ss[k].gates|
    ensures ss[k].senders[id].pc.SAwaitHandshake?
            && OpenTaken(ss[k].enq, Finished(Taken(ss[k].queue, ss[k].enq), ss[k].msg)) ==>
              Enabled(ss[k], BySend(id, Step))
    ensures ss[k].senders[id].pc.SAwaitUpgrade? && ss[k].senders[id].saw == Some(|ss[k].gates| - 1) ==>
              || Enabled(ss[k], BySend(id, Step))
              || Upgrading(ss[k].msg) || ss[k].msg.MUpgradeSent?
              || (ProbedSince(ss[k].sent, ss[k].made[|ss[k].gates| - 1], ss[k].owner)
                  && Unanswered(ss[k].sent, ss[k].made[|ss[k].gates| - 1]))
  {
    hide Inv, ClientRun, OpenTaken, ProbedSince, Unanswered;
    RunKeeps(ss, acts, k);
    ReleaseFacts(ss[k], id);
  }

  // ------------------------------------------------------------------ delivery

  lemma DeliveryFacts(s: State)
    requires Inv(s)
    ensures 0 <= Handled(s.queue, s.enq, s.msg) <= |s.enq|
    ensures s.delivered == Payloads(s.enq[..Handled(s.queue, s.enq, s.msg)])
    ensures WinnerPc(s.winner, s.closers) == KReturned(true) && !s.ctxDone ==> s.queue == [] && s.msg.MExited?
    ensures forall id :: id in s.closers && s.closers[id] == KReturned(true) ==>
              WinnerPc(s.winner, s.closers) == KReturned(true)
  {
  }

  /**
   FIFO conservation.  The message handler has got exactly the payloads of a prefix of everything that all
   loops enqueued, in order; and when the Close that took the transport has returned and the context is
   live, that prefix is everything.
   */
  lemma FifoConservation(ss: seq<State>, acts: seq<Action>, k: nat)
    requires ClientRun(ss, acts) && k < |ss| && ss[k].crash.None?
    ensures exists n :: 0 <= n <= |ss[k].enq| && ss[k].delivered == Payloads(ss[k].enq[..n])
    ensures (exists id :: id in ss[k].closers && ss[k].closers[id] == KReturned(true)) && !ss[k].ctxDone ==>
              ss[k].delivered == Payloads(ss[k].enq)
  {
    hide Inv, Payloads;
    var s := ss[k];
    RunKeeps(ss, acts, k);
    DeliveryFacts(s);
    var n := Handled(s.queue, s.enq, s.msg);
    assert s.delivered == Payloads(s.enq[..n]);
    if n == |s.enq| {
      assert s.enq[..n] == s.enq;
    }
  }

  // ------------------------------------------------------------------ one GET at a time

  lemma PollingFacts(s: State)
    requires Inv(s) && PT.PastGate(s.poll)
    ensures OpenTaken(s.enq, Taken(s.queue, s.enq))
    ensures !s.connect.CGet? && !s.connect.COffer?
  {
  }

  /**
   One GET at a time.  Whenever the polling loop is past its handshake gate (in particular whenever it has
   a GET in flight or a body to offer), the handshake request is over, and an OPEN with a sid has been
   enqueued and taken from `messages`.
   */
  lemma SingleGet(ss: seq<State>, acts: seq<Action>, k: nat)
    requires ClientRun(ss, acts) && k < |ss| && ss[k].crash.None?
    ensures !(ss[k].connect.CGet? && ss[k].poll.loop.InGet?)
    ensures PT.PastGate(ss[k].poll) ==>
              && !ss[k].connect.CGet? && !ss[k].connect.COffer?
              && OpenTaken(ss[k].enq, Taken(ss[k].queue, ss[k].enq))
  {
    hide Inv;
    RunKeeps(ss, acts, k);
    if PT.PastGate(ss[k].poll) {
      PollingFacts(ss[k]);
    }
  }

  // ------------------------------------------------------------------ reuse

  lemma RunsOnSid(s: State)
    requires Inv(s) && s.msg.MRun?
    ensures s.sid && !PT.Live(s.poll) && !WT.Live(s.ws)
  {
  }

  /**
   Reuse equals fresh.  Whenever the client runs the polling transport again, the object becomes what Run
   makes of a new one, and no loop of an earlier run is left that could still write its fields.
   */
  lemma PollingReuseIsFresh(ss: seq<State>, acts: seq<Action>, k: nat)
    requires ClientRun(ss, acts) && k < |acts| && ss[k].msg == MRun(Polling) && acts[k].ByMsg?
    ensures !PT.Live(ss[k].poll)
    ensures ss[k + 1].poll == PT.Run(PT.NEW, true, |ss[k].chans|)
  {
    hide Inv;
    assert Enabled(ss[k], acts[k]) && ss[k + 1] == Next(ss[k], acts[k]);
    RunKeeps(ss, acts, k);
    RunsOnSid(ss[k]);
    PT.RunForgets(ss[k].poll, PT.NEW, true, |ss[k].chans|);
  }

  // ------------------------------------------------------------------ waiting for a stopped transport ends

  /** Somebody has stopped the transport and waits for its close signal: transportUpgrade, Connect or Close. */
  predicate AwaitsSignal(s: State) {
    s.msg.MWait? || s.connect.CWait? || WinnerPc(s.winner, s.closers).KWait?
  }

  /** The waits that are bounded: all but that of a Close for the websocket transport. */
  predicate Waiting(s: State) {
    s.msg.MWait? || (s.owner.Polling? && (s.connect.CWait? || WinnerPc(s.winner, s.closers).KWait?))
  }

  /** Steps left for the loop that is waited for. */
  function WaitRank(s: State): nat {
    if s.owner.Polling? then PT.Rank(s.poll) else WT.Rank(s.ws, Room(s.queue))
  }

  function Room(queue: seq<Frame>): nat {
    if |queue| <= CAPACITY then CAPACITY - |queue| else 0
  }

  /** How many more frames that loop can enqueue. */
  function WaitBudget(s: State): nat {
    if s.owner.Polling? then PT.Budget(s.poll) else Room(s.queue)
  }

  predicate OwnerAct(s: State, a: Action) {
    if s.owner.Polling? then a.ByPoll? else a.ByWs? && !WT.IsSideAct(a.w)
  }

  lemma WaitingAwaits(s: State)
    requires Waiting(s)
    ensures AwaitsSignal(s)
  {
  }

  lemma WaitFacts(s: State)
    requires Inv(s) && AwaitsSignal(s)
    ensures s.owner.Polling? ==> PT.Notified(s.poll) && !WT.Live(s.ws)
    ensures s.owner.Websocket? ==> !PT.Live(s.poll) && (WT.Live(s.ws) ==> WT.Notified(s.ws))
    ensures Waiting(s) && s.owner.Websocket? ==> s.msg.MWait?
    ensures !PT.Live(s.poll) && !WT.Live(s.ws) ==> CanReceiveClose(s)
    ensures !s.queueClosed && |s.queue| <= CAPACITY
    ensures PT.Live(s.poll) ==> s.poll.onClose < |s.chans| && s.chans[s.poll.onClose].Fresh?
  {
  }

  /** The step with which the loop that is waited for can go on. */
  function OwnerEscape(s: State): (a: Action)
    requires s.owner.Polling? ==> PT.Live(s.poll) && PT.Notified(s.poll)
    requires s.owner.Websocket? ==> WT.Live(s.ws) && WT.Notified(s.ws)
    ensures OwnerAct(s, a)
  {
    if s.owner.Polling? then ByPoll(PT.Escape(s.poll)) else ByWs(WT.Escape(s.ws))
  }

  predicate OwnerLive(s: State) {
    if s.owner.Polling? then PT.Live(s.poll) else WT.Live(s.ws)
  }

  /** The wait can always go on: the signal is there, or the loop has a step that needs nobody else. */
  lemma NeverStuck(s: State)
    requires Inv(s) && s.crash.None? && AwaitsSignal(s)
    ensures s.owner.Polling? ==> PT.Notified(s.poll)
    ensures s.owner.Websocket? && WT.Live(s.ws) ==> WT.Notified(s.ws)
    ensures if OwnerLive(s) then Enabled(s, OwnerEscape(s)) else CanReceiveClose(s)
  {
    hide Inv, AwaitsSignal, CanReceiveClose, PT.Notified, WT.Notified, PT.Enabled, WT.Enabled, PT.Escape, WT.Escape;
    WaitFacts(s);
    if PT.Live(s.poll) {
      EscapeNeedsNoRoom(s.poll, PT.Escape(s.poll), s.ctxDone, CanSend(s));
    } else if WT.Live(s.ws) {
      WsEscapeNeedsNoRoom(s.ws, WT.Escape(s.ws), s.ctxDone, CanSend(s));
    }
  }

  /** Over all runs: whoever waits for a close signal can receive it, or the loop has a step of its own to take. */
  lemma WaitNeverStuck(ss: seq<State>, acts: seq<Action>, k: nat)
    requires ClientRun(ss, acts) && k < |ss| && ss[k].crash.None? && AwaitsSignal(ss[k])
    ensures CanReceiveClose(ss[k]) || exists a :: OwnerAct(ss[k], a) && Enabled(ss[k], a)
  {
    hide Inv, ClientRun, AwaitsSignal, CanReceiveClose, OwnerLive, OwnerAct, OwnerEscape, Enabled,
         PT.Live, WT.Live, PT.Notified, WT.Notified;
    RunKeeps(ss, acts, k);
    NeverStuck(ss[k]);
    if OwnerLive(ss[k]) {
      LiveOwner(ss[k]);
      assert OwnerAct(ss[k], OwnerEscape(ss[k]));
    }
  }

  lemma EscapeNeedsNoRoom(p: PT.Transport, a: PT.LoopAct, ctxDone: bool, room: bool)
    requires PT.Enabled(p, a, ctxDone, false)
    ensures PT.Enabled(p, a, ctxDone, room)
  {
  }

  lemma WsEscapeNeedsNoRoom(w: WT.Transport, a: WT.LoopAct, ctxDone: bool, room: bool)
    requires WT.Enabled(w, a, ctxDone, false)
    ensures WT.Enabled(w, a, ctxDone, room)
  {
  }

  lemma PollWaitStep(s: State, p: PT.LoopAct)
    requires s.owner.Polling? && PT.Notified(s.poll) && PollEnabled(s, p)
    ensures WaitRank(PollStep(s, p)) < WaitRank(s)
    ensures |PollStep(s, p).enq| + WaitBudget(PollStep(s, p)) <= |s.enq| + WaitBudget(s)
  {
  }

  lemma WsWaitStep(s: State, w: WT.LoopAct)
    requires s.owner.Websocket? && WT.Notified(s.ws) && WsEnabled(s, w) && !s.queueClosed && |s.queue| <= CAPACITY
    ensures if WT.IsSideAct(w) then WaitRank(WsStep(s, w)) == WaitRank(s) else WaitRank(WsStep(s, w)) < WaitRank(s)
    ensures |WsStep(s, w).enq| + WaitBudget(WsStep(s, w)) == |s.enq| + WaitBudget(s)
    ensures WsStep(s, w).owner == s.owner
  {
  }

  /** With no live loop, only readers of the websocket object are left, and they hand over nothing. */
  lemma IdleWsStep(s: State, w: WT.LoopAct)
    requires WsEnabled(s, w) && !WT.Live(s.ws)
    ensures WT.IsSideAct(w) && WsStep(s, w).ws.loop == s.ws.loop
    ensures WsStep(s, w).enq == s.enq && WsStep(s, w).queue == s.queue
    ensures WsStep(s, w).owner == s.owner && WsStep(s, w).poll == s.poll
  {
  }

  /** What the steps of everybody else leave alone while the transport is waited for. */
  predicate LoopsUntouched(s: State, t: State) {
    && t.owner == s.owner && t.poll.loop == s.poll.loop && t.ws.loop == s.ws.loop && t.enq == s.enq
    && (s.msg.MWait? ==> t.queue == s.queue)
  }

  /** While somebody waits, Connect itself can only be the one that waits. */
  lemma ConnectWhileWaiting(s: State, a: ConnectAct)
    requires Inv(s) && Waiting(s) && ConnectEnabled(s, a)
    ensures a.Cleanup? && s.connect.CWait? && CanReceiveClose(s)
    ensures !s.msg.MWait?
  {
    hide InvFlow, InvGating;
  }

  lemma ConnectLeavesLoops(s: State)
    requires s.connect.CWait? && CanReceiveClose(s) && !s.msg.MWait?
    ensures LoopsUntouched(s, CleanupStep(s))
  {
    hide Received;
  }

  lemma DispatchLeavesLoops(s: State, f: Frame)
    requires !s.msg.MWait?
    ensures LoopsUntouched(s, Dispatch(s, f))
  {
  }

  /** While somebody waits the message loop does not run a transport. */
  lemma NoRunWhileWaiting(s: State)
    requires Inv(s) && Waiting(s)
    ensures !s.msg.MStop? && !s.msg.MRun?
  {
  }

  lemma GatesLeaveLoops(s: State, m: MsgPc, ok: bool, hook: nat)
    requires !s.msg.MWait?
    ensures LoopsUntouched(s, CloseUpgradeGate(s).(msg := m)) && LoopsUntouched(s, OpenHandshakeGate(s, ok, hook))
  {
    hide GatesAfter, UpgradeGateCrash;
  }

  lemma UpgradeLeavesLoops(s: State, upgrades: seq<Offer>, target: TransportName, ok: bool)
    requires !s.msg.MWait?
    ensures LoopsUntouched(s, Decide(s, upgrades)) && LoopsUntouched(s, LockForUpgrade(s, target))
    ensures LoopsUntouched(s, SendProbe(s, target, ok))
  {
    hide UpgradeTarget, Via, NilCheck;
  }

  lemma HandleLeavesLoops(s: State, ok: bool, hook: nat)
    requires Inv(s) && Waiting(s) && MsgEnabled(s, Handle(ok, hook)) && !s.msg.MWait?
    ensures LoopsUntouched(s, HandleStep(s, ok, hook))
  {
    hide Inv, Waiting, LoopsUntouched, Dispatch, Decide, LockForUpgrade, SendProbe, StopOld, RunNew, Received,
         CloseUpgradeGate, OpenHandshakeGate;
    NoRunWhileWaiting(s);
    match s.msg
    case MDispatch(f) => DispatchLeavesLoops(s, f);
    case MDecide(upgrades) => UpgradeLeavesLoops(s, upgrades, Polling, ok);
    case MLock(target) => UpgradeLeavesLoops(s, [], target, ok);
    case MProbe(target) => UpgradeLeavesLoops(s, [], target, ok);
    case MProbeFailed(_) => GatesLeaveLoops(s, MOpenGate(false, None), ok, hook);
    case MOpenGate(good, _) => GatesLeaveLoops(s, MIdle, good, hook);
    case MUpgradeSent => GatesLeaveLoops(s, MIdle, ok, hook);
    case _ =>
  }

  lemma MsgLeavesLoops(s: State, a: MsgAct)
    requires Inv(s) && Waiting(s) && MsgEnabled(s, a)
    ensures LoopsUntouched(s, MsgStep(s, a))
  {
    hide Inv, Waiting, HandleStep, Received;
    if a.Handle? {
      if s.msg.MWait? {
        WaitedLeavesLoops(s, a.ok, a.hook);
      } else {
        HandleLeavesLoops(s, a.ok, a.hook);
      }
    }
  }

  lemma WaitedLeavesLoops(s: State, ok: bool, hook: nat)
    requires s.msg.MWait? && MsgEnabled(s, Handle(ok, hook))
    ensures LoopsUntouched(s, HandleStep(s, ok, hook))
  {
  }

  lemma CloseLeavesLoops(s: State, id: nat, a: CloseAct)
    requires Inv(s) && Waiting(s) && CloseEnabled(s, id, a)
    ensures LoopsUntouched(s, CloseStep(s, id, a))
  {
    hide InvFlow, InvGating;
    if a.Proceed? {
      OnlyWinnerMoves(s, id);
    }
  }

  /**
   One step during a wait: the loop's own steps use up its rank, its frames use up its budget, nothing gives
   any back.
   */
  lemma WaitStep(s: State, a: Action)
    requires Inv(s) && Waiting(s) && Enabled(s, a)
    ensures WaitRank(Next(s, a)) + (if OwnerAct(s, a) then 1 else 0) <= WaitRank(s)
    ensures |Next(s, a).enq| + WaitBudget(Next(s, a)) <= |s.enq| + WaitBudget(s)
    ensures Next(s, a).owner == s.owner
  {
    hide Inv, Waiting, AwaitsSignal, PT.Notified, WT.Notified, WT.Live, PT.Live, WaitRank, WaitBudget, LoopsUntouched,
         ConnectStep, CleanupStep, TakeOffer, CanReceiveClose, MsgStep, SendStep, CloseStep, PollStep, WsStep,
         ConnectEnabled, MsgEnabled, SendEnabled, CloseEnabled, PollEnabled, WsEnabled;
    WaitingAwaits(s);
    WaitFacts(s);
    match a
    case ByPoll(p) => PollWaits(s, p);
    case ByWs(w) => WsWaits(s, w);
    case ByConnect(c) =>
      ConnectWhileWaiting(s, c);
      DelegatedSteps(s);
      ConnectLeavesLoops(s);
      QuietWaits(s, ConnectStep(s, c));
    case ByMsg(m) =>
      MsgLeavesLoops(s, m);
      QuietWaits(s, MsgStep(s, m));
    case BySend(id, x) =>
      SendLeavesLoops(s, id, x);
      QuietWaits(s, SendStep(s, id, x));
    case ByClose(id, k) =>
      CloseLeavesLoops(s, id, k);
      QuietWaits(s, CloseStep(s, id, k));
    case CancelContext =>
      CancelLeavesLoops(s);
      QuietWaits(s, s.(ctxDone := true));
  }

  lemma SendLeavesLoops(s: State, id: nat, a: SendAct)
    requires SendEnabled(s, id, a)
    ensures LoopsUntouched(s, SendStep(s, id, a))
  {
  }

  lemma CancelLeavesLoops(s: State)
    ensures LoopsUntouched(s, s.(ctxDone := true))
  {
  }

  lemma QuietWaits(s: State, t: State)
    requires LoopsUntouched(s, t) && (s.owner.Websocket? ==> s.msg.MWait?)
    ensures WaitRank(t) == WaitRank(s) && |t.enq| + WaitBudget(t) == |s.enq| + WaitBudget(s) && t.owner == s.owner
  {
  }

  lemma PollWaits(s: State, p: PT.LoopAct)
    requires Inv(s) && Waiting(s) && PollEnabled(s, p)
    ensures WaitRank(PollStep(s, p)) + 1 <= WaitRank(s)
    ensures |PollStep(s, p).enq| + WaitBudget(PollStep(s, p)) <= |s.enq| + WaitBudget(s)
    ensures PollStep(s, p).owner == s.owner && s.owner.Polling?
  {
    hide Inv, Waiting, AwaitsSignal, PT.Notified, WT.Notified, WT.Live, PT.Live, WaitRank, WaitBudget, PollEnabled;
    WaitingAwaits(s);
    WaitFacts(s);
    PollFacts(s, p);
    PollWaitStep(s, p);
  }

  lemma LiveWsWaits(s: State, w: WT.LoopAct)
    requires Inv(s) && Waiting(s) && WsEnabled(s, w) && WT.Live(s.ws)
    ensures if WT.IsSideAct(w) then WaitRank(WsStep(s, w)) == WaitRank(s) else WaitRank(WsStep(s, w)) < WaitRank(s)
    ensures |WsStep(s, w).enq| + WaitBudget(WsStep(s, w)) == |s.enq| + WaitBudget(s)
    ensures WsStep(s, w).owner == s.owner && s.owner.Websocket?
  {
    hide Inv, Waiting, AwaitsSignal, PT.Notified, WT.Notified, PT.Live, WaitRank, WaitBudget, WsEnabled, WsStep;
    WaitingAwaits(s);
    WaitFacts(s);
    WsWaitStep(s, w);
  }

  lemma WsWaits(s: State, w: WT.LoopAct)
    requires Inv(s) && Waiting(s) && WsEnabled(s, w)
    ensures WaitRank(WsStep(s, w)) + (if OwnerAct(s, ByWs(w)) then 1 else 0) <= WaitRank(s)
    ensures |WsStep(s, w).enq| + WaitBudget(WsStep(s, w)) <= |s.enq| + WaitBudget(s)
    ensures WsStep(s, w).owner == s.owner
  {
    hide Inv, Waiting, WT.Live, WT.IsSideAct, WaitRank, WaitBudget, WsEnabled, WsStep;
    if WT.Live(s.ws) {
      LiveWsWaits(s, w);
    } else {
      IdleWsStep(s, w);
      IdleRank(s, WsStep(s, w));
    }
  }

  lemma IdleRank(s: State, t: State)
    requires t.owner == s.owner && t.poll == s.poll && t.ws.loop == s.ws.loop && t.queue == s.queue
    ensures WaitRank(t) == WaitRank(s) && WaitBudget(t) == WaitBudget(s)
  {
  }

  /** How many of the steps `i` to `j` are steps of the loop that is waited for. */
  ghost function OwnerSteps(ss: seq<State>, acts: seq<Action>, i: nat, j: nat): nat
    requires i <= j <= |acts| && |ss| == |acts| + 1
    decreases j
  {
    if i == j then 0 else OwnerSteps(ss, acts, i, j - 1) + (if OwnerAct(ss[j - 1], acts[j - 1]) then 1 else 0)
  }

  lemma {:induction false} WaitUses(ss: seq<State>, acts: seq<Action>, i: nat, j: nat)
    requires ClientRun(ss, acts) && i <= j < |ss| && ss[j].crash.None?
    requires forall k :: i <= k < j ==> Waiting(ss[k])
    ensures OwnerSteps(ss, acts, i, j) + WaitRank(ss[j]) <= WaitRank(ss[i])
    ensures |ss[j].enq| + WaitBudget(ss[j]) <= |ss[i].enq| + WaitBudget(ss[i])
    ensures ss[j].owner == ss[i].owner
    decreases j
  {
    hide Inv, Next, Enabled, Waiting, OwnerAct, WaitRank, WaitBudget;
    if i < j {
      assert Enabled(ss[j - 1], acts[j - 1]) && ss[j] == Next(ss[j - 1], acts[j - 1]);
      EnabledMeansRunning(ss[j - 1], acts[j - 1]);
      WaitUses(ss, acts, i, j - 1);
      RunKeeps(ss, acts, j - 1);
      assert Waiting(ss[j - 1]);
      WaitStep(ss[j - 1], acts[j - 1]);
    }
  }

  /**
   Stopping always makes progress.  During a wait, whatever the server, the senders and other callers of
   Close do, the loop that is waited for takes at most WaitRank steps of its own and enqueues at most
   WaitBudget frames.  For polling that is five steps and one frame; for the websocket transport it is one
   frame per free slot of `messages`, since the waiter is the only consumer.
   */
  lemma WaitBounded(ss: seq<State>, acts: seq<Action>, i: nat, j: nat)
    requires ClientRun(ss, acts) && i <= j < |ss| && ss[j].crash.None?
    requires forall k :: i <= k < j ==> Waiting(ss[k])
    ensures OwnerSteps(ss, acts, i, j) <= if ss[i].owner.Polling? then 5 else 3 * Room(ss[i].queue) + 4
    ensures |ss[j].enq| - |ss[i].enq| <= if ss[i].owner.Polling? then 1 else Room(ss[i].queue)
  {
    hide ClientRun, OwnerSteps, Waiting, WaitRank, WaitBudget;
    WaitUses(ss, acts, i, j);
    RankBounds(ss[i]);
  }

  lemma RankBounds(s: State)
    ensures WaitRank(s) <= if s.owner.Polling? then 5 else 3 * Room(s.queue) + 4
    ensures WaitBudget(s) <= if s.owner.Polling? then 1 else Room(s.queue)
  {
  }

  // ------------------------------------------------------------------ Close is never stuck

  /** A sender's number that is not in use. */
  lemma FreshId(senders: map<nat, Sender>) returns (id: nat)
    ensures id !in senders
  {
    id := Bound(senders.Keys);
    if id in senders {
      BoundIsAbove(senders.Keys, id);
    }
  }

  ghost function Bound(ids: set<nat>): nat {
    if ids == {} then 0
    else
      var id :| id in ids;
      var rest := Bound(ids - {id});
      if id < rest then rest else id + 1
  }

  lemma {:induction false} BoundIsAbove(ids: set<nat>, x: nat)
    requires x in ids
    ensures x < Bound(ids)
  {
    var id :| id in ids && Bound(ids) == (if id < Bound(ids - {id}) then Bound(ids - {id}) else id + 1);
    if x != id {
      BoundIsAbove(ids - {id}, x);
    }
  }

  /** Where the message loop is while the winning Close joins it. */
  lemma JoinFacts(s: State, id: nat)
    requires Inv(s) && id in s.closers && s.closers[id].KJoin? && !s.msg.MExited?
    ensures s.queueClosed && !s.locked && !s.msg.MOff? && !s.msg.MWait?
  {
    OnlyWinnerMoves(s, id);
  }

  lemma JoinNeverStuck(s: State, id: nat) returns (m: MsgAct)
    requires Inv(s) && s.crash.None? && id in s.closers && s.closers[id].KJoin? && !s.msg.MExited?
    ensures Enabled(s, ByMsg(m))
  {
    hide Inv;
    JoinFacts(s, id);
    if s.msg.MIdle? {
      m := if s.queue == [] then ReceiveEnd else Receive;
    } else {
      var hook := FreshId(s.senders);
      m := Handle(true, hook);
    }
  }

  lemma CloserWaits(s: State, id: nat)
    requires Inv(s) && id in s.closers && s.closers[id].KWait?
    ensures AwaitsSignal(s)
  {
    OnlyWinnerMoves(s, id);
  }

  /**
   A Close that has begun is never stuck, at any of its waits: it can take its next step, or the loop of the
   transport that it has stopped can, or the message loop that it joins can.
   */
  lemma CloseNeverStuck(ss: seq<State>, acts: seq<Action>, k: nat, id: nat) returns (a: Action)
    requires ClientRun(ss, acts) && k < |ss| && ss[k].crash.None?
    requires id in ss[k].closers && !ss[k].closers[id].KReturned?
    ensures Enabled(ss[k], a)
    ensures || a == ByClose(id, Proceed)
            || (ss[k].closers[id].KWait? && OwnerAct(ss[k], a))
            || (ss[k].closers[id].KJoin? && a.ByMsg?)
  {
    hide Inv, AwaitsSignal, OwnerLive, OwnerAct, OwnerEscape, PT.Notified, WT.Notified, PT.Live, WT.Live;
    var s := ss[k];
    RunKeeps(ss, acts, k);
    a := ByClose(id, Proceed);
    if s.closers[id].KWait? && !CanReceiveClose(s) {
      CloserWaits(s, id);
      NeverStuck(s);
      LiveOwner(s);
      a := OwnerEscape(s);
    } else if s.closers[id].KJoin? && !s.msg.MExited? {
      var m := JoinNeverStuck(s, id);
      a := ByMsg(m);
    }
  }

  lemma LiveOwner(s: State)
    requires OwnerLive(s)
    ensures s.owner.Polling? ==> PT.Live(s.poll)
    ensures s.owner.Websocket? ==> WT.Live(s.ws)
  {
  }
}
