/** What the calls of the engine's API come to, over all runs: Connect, the upgrade that an OPEN asks for, Send. */
module EngineOutcomes {
  import opened Options
  import opened Bytes
  import opened Frames
  import opened EngineClient
  import opened EngineInvariant
  import opened EngineProof
  import opened EngineGrowth
  import opened EngineHistory
  import PT = PollingTransport
  import WT = WebsocketTransport

  // ------------------------------------------------------------------ Connect

  lemma OutcomeFacts(s: State)
    requires Inv(s)
    ensures Polling in s.supported && s.connect.COk? ==> s.enq != []
    ensures s.connect.CFailed? ==> !PT.Live(s.poll) && !WT.Live(s.ws) && (s.msg.MOff? || s.msg.MExited?)
    ensures s.connect.CFailed? && Polling in s.supported ==> s.queueClosed
    ensures s.connect.COk? ==> !s.msg.MOff? && !s.wh.Absent?
  {
  }

  /**
   What Connect leaves behind.  When it has returned nil the message loop was started, the handshake gate made,
   and a polling client has had its first frame.  When it has returned an error no loop runs, not even the
   message loop, and a polling client has closed `messages`.
   */
  lemma ConnectOutcome(ss: seq<State>, acts: seq<Action>, k: nat)
    requires ClientRun(ss, acts) && k < |ss| && ss[k].crash.None?
    ensures ss[k].connect.COk? ==>
              !ss[k].msg.MOff? && !ss[k].wh.Absent? && (Polling in ss[k].supported ==> ss[k].enq != [])
    ensures ss[k].connect.CFailed? ==>
              && !PT.Live(ss[k].poll) && !WT.Live(ss[k].ws) && (ss[k].msg.MOff? || ss[k].msg.MExited?)
              && (Polling in ss[k].supported ==> ss[k].queueClosed)
  {
    hide Inv;
    RunKeeps(ss, acts, k);
    OutcomeFacts(ss[k]);
  }

  /** The Close that took the transport leaves nothing running, and `messages` closed and, in a live context, empty. */
  lemma CloseOutcome(ss: seq<State>, acts: seq<Action>, k: nat, id: nat)
    requires ClientRun(ss, acts) && k < |ss| && ss[k].crash.None?
    requires id in ss[k].closers && ss[k].closers[id] == KReturned(true)
    ensures ss[k].transport.None? && ss[k].winner == Some(id)
    ensures !PT.Live(ss[k].poll) && !WT.Live(ss[k].ws) && ss[k].msg.MExited? && ss[k].queueClosed
    ensures !ss[k].ctxDone ==> ss[k].queue == []
  {
    hide Inv;
    RunKeeps(ss, acts, k);
    ClosedFacts(ss[k], id);
  }

  lemma ClosedFacts(s: State, id: nat)
    requires Inv(s) && id in s.closers && s.closers[id] == KReturned(true)
    ensures s.transport.None? && s.winner == Some(id)
    ensures !PT.Live(s.poll) && !WT.Live(s.ws) && s.msg.MExited? && s.queueClosed
    ensures !s.ctxDone ==> s.queue == []
  {
  }

  // ------------------------------------------------------------------ the message loop

  /** What a step of the message loop takes, and where it leads. */
  predicate LoopStep(s: State, a: MsgAct, t: State) {
    match a
    case Receive => s.msg.MIdle? && s.queue != [] && t.msg == MDispatch(s.queue[0]) && t.queue == s.queue[1..]
    case ReceiveEnd => s.msg.MIdle? && s.queue == [] && s.queueClosed && t.msg.MExited? && t.queue == []
    case Cancel => s.msg.MIdle? && s.ctxDone && t.msg.MExited? && t.queue == s.queue
    case Handle(ok, _) => LeadsTo(s.msg, ok, t.msg)
  }

  lemma LoopSteps(s: State, a: MsgAct)
    requires MsgEnabled(s, a)
    ensures LoopStep(s, a, MsgStep(s, a))
  {
    hide HandleStep, LeadsTo;
    if a.Handle? {
      HandleLeads(s, a.ok, a.hook);
    }
  }

  /**
   Over all runs: the message loop takes the frames in order, and handles each the way that `LeadsTo` lists; it ends
   when `messages` is closed and empty, or the context is done, and only between frames.
   */
  lemma EveryLoopStep(ss: seq<State>, acts: seq<Action>, k: nat)
    requires ClientRun(ss, acts) && k < |acts| && acts[k].ByMsg?
    ensures LoopStep(ss[k], acts[k].m, ss[k + 1])
  {
    assert Enabled(ss[k], acts[k]) && ss[k + 1] == Next(ss[k], acts[k]);
    hide MsgEnabled, MsgStep, LoopStep, IsFreshClient;
    LoopSteps(ss[k], acts[k].m);
  }

  lemma QueueFacts(s: State)
    requires Inv(s)
    ensures |s.queue| <= 100
    ensures CanSend(s) <==> s.queueClosed || |s.queue| < 100
  {
  }

  /** `messages` has room for a hundred frames: a live loop with a body to offer can hand it over exactly below that. */
  lemma QueueBound(ss: seq<State>, acts: seq<Action>, k: nat)
    requires ClientRun(ss, acts) && k < |ss| && ss[k].crash.None?
    ensures |ss[k].queue| <= 100
    ensures ss[k].poll.loop.Offering? ==> (Enabled(ss[k], ByPoll(PT.OfferSent)) <==> |ss[k].queue| < 100)
    ensures ss[k].ws.loop.Forwarding? ==> (Enabled(ss[k], ByWs(WT.ForwardSent)) <==> |ss[k].queue| < 100)
  {
    RunKeeps(ss, acts, k);
    QueueFacts(ss[k]);
    OpenWhileLive(ss[k]);
    hide Inv;
  }

  lemma OpenWhileLive(s: State)
    requires Inv(s)
    ensures PT.Live(s.poll) || WT.Live(s.ws) ==> !s.queueClosed
  {
  }

  // ------------------------------------------------------------------ the upgrade of an OPEN

  lemma DecisionFacts(s: State, upgrades: seq<Offer>)
    requires Inv(s) && s.msg == MDecide(upgrades)
    ensures
      var n := Taken(s.queue, s.enq);
      0 < n <= |s.enq| && s.enq[n - 1].Open? && s.enq[n - 1].upgrades == upgrades
    ensures s.transport.Some? ==> s.transport.value == s.owner
  {
  }

  lemma DecideIs(s: State, upgrades: seq<Offer>, ok: bool, hook: nat)
    requires Enabled(s, ByMsg(Handle(ok, hook))) && s.msg == MDecide(upgrades)
    ensures
      var target := UpgradeTarget(Via(s), s.supported, upgrades);
      Next(s, ByMsg(Handle(ok, hook))).msg == if target.None? then MOpenGate(true, None) else MLock(target.value)
    ensures upgrades != [] && Next(s, ByMsg(Handle(ok, hook))).crash.None? ==> s.transport.Some?
  {
    hide UpgradeTarget;
  }

  /**
   Which upgrade is attempted: the list of the OPEN being handled is read up to the first entry that names the
   current or a supported transport.  The current one, or none, means no upgrade; a supported other one is it.
   */
  lemma UpgradeDecision(ss: seq<State>, acts: seq<Action>, k: nat) returns (i: nat)
    requires ClientRun(ss, acts) && k < |acts| && ss[k + 1].crash.None?
    requires ss[k].msg.MDecide? && acts[k].ByMsg?
    ensures 0 < Taken(ss[k].queue, ss[k].enq) <= |ss[k].enq| && ss[k].enq[Taken(ss[k].queue, ss[k].enq) - 1].Open?
    ensures
      var list := ss[k].enq[Taken(ss[k].queue, ss[k].enq) - 1].upgrades;
      && i <= |list| && (list != [] ==> ss[k].transport.Some?)
      && (forall j :: 0 <= j < i ==>
            list[j] != Named(ss[k].transport.value) && (list[j].Named? ==> list[j].name !in ss[k].supported))
      && if i == |list| || list[i] == Named(ss[k].transport.value)
         then ss[k + 1].msg == MOpenGate(true, None)
         else list[i].Named? && list[i].name in ss[k].supported && ss[k + 1].msg == MLock(list[i].name)
  {
    hide Inv, UpgradeTarget, Enabled, Next;
    var s, a := ss[k], acts[k];
    assert Enabled(s, a) && ss[k + 1] == Next(s, a);
    DecidingOnly(s, a);
    EnabledMeansRunning(s, a);
    RunKeeps(ss, acts, k);
    DecisionFacts(s, s.msg.upgrades);
    DecideIs(s, s.msg.upgrades, a.m.ok, a.m.hook);
    i := FirstSettles(Via(s), s.supported, s.msg.upgrades);
  }

  lemma DecidingOnly(s: State, a: Action)
    requires Enabled(s, a) && s.msg.MDecide? && a.ByMsg?
    ensures a.m.Handle?
  {
  }

  // ------------------------------------------------------------------ Send

  /** The gates that a snapshot of `from` found are open in `s`. */
  predicate HandshakePassed(from: State, s: State) {
    !from.wh.Absent? ==> s.wh.Opened?
  }

  predicate UpgradePassed(from: State, s: State) {
    from.wu.Some? ==> from.wu.value < |s.gates| && s.gates[from.wu.value]
  }

  /** Where a caller is that took its snapshot in `from`. */
  predicate SinceSnapshot(from: State, s: State, me: Sender) {
    && me.saw == from.wu && !me.pc.SNew? && (!from.wh.Absent? ==> !s.wh.Absent?)
    && (!me.pc.SAwaitHandshake? ==> HandshakePassed(from, s))
    && (!me.pc.SAwaitHandshake? && !me.pc.SAwaitUpgrade? ==> UpgradePassed(from, s))
  }

  lemma SnapshotTaken(s: State, id: nat)
    requires Inv(s) && Enabled(s, BySend(id, Step)) && id in s.senders && s.senders[id].pc.SNew?
    ensures
      var t := Next(s, BySend(id, Step));
      && id in t.senders && t.senders[id].caller == s.senders[id].caller
      && SinceSnapshot(s, t, t.senders[id])
  {
    hide Inv;
  }

  /** A step of the caller itself. */
  lemma CallerGoesOn(from: State, s: State, id: nat)
    requires Enabled(s, BySend(id, Step)) && id in s.senders && SinceSnapshot(from, s, s.senders[id])
    ensures
      var t := Next(s, BySend(id, Step));
      && id in t.senders && t.senders[id].caller == s.senders[id].caller
      && SinceSnapshot(from, t, t.senders[id])
  {
  }

  lemma GatesLast(from: State, s: State, t: State, me: Sender)
    requires SinceSnapshot(from, s, me) && Onward(s, t) && (s.connect.CInstall? ==> s.wh.Absent?)
    ensures SinceSnapshot(from, t, me)
  {
  }

  lemma InstallFinds(s: State)
    requires Inv(s)
    ensures s.connect.CInstall? ==> s.wh.Absent?
  {
  }

  /** The caller picks the transport once its waits are over. */
  ghost predicate Picked(ss: seq<State>, acts: seq<Action>, i: nat, k: nat, id: nat, via: TransportName)
    requires |ss| == |acts| + 1 && k <= |acts|
  {
    exists m :: i < m < k && acts[m] == BySend(id, Step) && ss[m].transport == Some(via) && !ss[m].locked
                && HandshakePassed(ss[i], ss[m]) && UpgradePassed(ss[i], ss[m])
  }

  lemma PickFacts(from: State, s: State, id: nat)
    requires Enabled(s, BySend(id, Step)) && id in s.senders && SinceSnapshot(from, s, s.senders[id])
    requires
      var t := Next(s, BySend(id, Step));
      id in t.senders && t.senders[id].pc.SHand?
    ensures s.senders[id].pc.SPick? && !s.locked && s.transport == Some(Next(s, BySend(id, Step)).senders[id].pc.via)
    ensures HandshakePassed(from, s) && UpgradePassed(from, s)
  {
  }

  /** Where a caller is from its snapshot on, in every continuation. */
  lemma {:induction false} SnapshotLasts(ss: seq<State>, acts: seq<Action>, i: nat, k: nat, id: nat)
    requires ClientRun(ss, acts) && i < k < |ss| && ss[k].crash.None?
    requires acts[i] == BySend(id, Step) && id in ss[i].senders && ss[i].senders[id].pc.SNew?
    ensures id in ss[k].senders && ss[k].senders[id].caller == ss[i].senders[id].caller
    ensures SinceSnapshot(ss[i], ss[k], ss[k].senders[id])
    ensures ss[k].senders[id].pc.SHand? ==> Picked(ss, acts, i, k, id, ss[k].senders[id].pc.via)
    decreases k
  {
    hide Inv, Enabled, Next, SinceSnapshot, Onward, IsFreshClient, HandshakePassed, UpgradePassed;
    var s, a := ss[k - 1], acts[k - 1];
    assert Enabled(s, a) && ss[k] == Next(s, a);
    EnabledMeansRunning(s, a);
    RunKeeps(ss, acts, k - 1);
    if k - 1 == i {
      SnapshotTaken(s, id);
      SnapshotWaits(s, id);
    } else {
      SnapshotLasts(ss, acts, i, k - 1, id);
      if a == BySend(id, Step) {
        CallerGoesOn(ss[i], s, id);
        if ss[k].senders[id].pc.SHand? {
          PickFacts(ss[i], s, id);
        }
      } else {
        StepGrows(s, a);
        InstallFinds(s);
        CallerIsThere(s, id, a);
        GatesLast(ss[i], s, ss[k], s.senders[id]);
      }
    }
  }

  lemma SnapshotWaits(s: State, id: nat)
    requires Enabled(s, BySend(id, Step)) && id in s.senders && s.senders[id].pc.SNew?
    ensures
      var t := Next(s, BySend(id, Step));
      id in t.senders && !t.senders[id].pc.SHand?
  {
  }

  lemma CallerIsThere(s: State, id: nat, a: Action)
    requires Enabled(s, a) && id in s.senders && a != BySend(id, Step)
    ensures id in Next(s, a).senders && Next(s, a).senders[id] == s.senders[id]
  {
    StepGrows(s, a);
  }

  lemma HandFacts(s: State, id: nat)
    requires Enabled(s, BySend(id, Step)) && id in s.senders && s.senders[id].pc.SHand?
    ensures
      var me := s.senders[id];
      Next(s, BySend(id, Step)).sent == s.sent + [Sent(me.pc.via, MessagePacket(me.caller, me.saw))]
  {
    hide NextSender, HandCrash;
  }

  /**
   What Send does, over all runs.  A call that takes its snapshot at step `i` hands its MESSAGE over, at step `k`,
   only when both gates that the snapshot found are open, and to the transport that was current at a step in
   between at which they were open already.
   */
  lemma SendIsGated(ss: seq<State>, acts: seq<Action>, i: nat, k: nat, id: nat)
    requires ClientRun(ss, acts) && i < k < |acts| && acts[i] == acts[k] == BySend(id, Step)
    requires id in ss[i].senders && ss[i].senders[id].pc.SNew? && id in ss[k].senders && ss[k].senders[id].pc.SHand?
    ensures HandshakePassed(ss[i], ss[k]) && UpgradePassed(ss[i], ss[k])
    ensures Picked(ss, acts, i, k, id, ss[k].senders[id].pc.via)
    ensures ss[k + 1].sent ==
            ss[k].sent + [Sent(ss[k].senders[id].pc.via, MessagePacket(ss[i].senders[id].caller, ss[i].wu))]
  {
    hide Enabled, Next, IsFreshClient, HandshakePassed, UpgradePassed;
    assert Enabled(ss[k], acts[k]) && ss[k + 1] == Next(ss[k], acts[k]);
    EnabledMeansRunning(ss[k], acts[k]);
    SnapshotLasts(ss, acts, i, k, id);
    HandFacts(ss[k], id);
  }
}
