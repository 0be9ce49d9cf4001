/**
 Callers of Send that the upgrade ordering does not cover: those outside the Socket.IO stack whose snapshot
 found no upgrade gate.  Whenever the client can still upgrade, such a caller can have its MESSAGE on the new
 transport ahead of UPGRADE.  Nothing makes it wait, so that it can be as slow as that takes.
 */
module EngineOvertake {
  import opened Options
  import opened Bytes
  import opened GoInt
  import opened Frames
  import opened EngineClient
  import opened EngineInvariant
  import opened EngineProof
  import opened EngineGrowth
  import opened EngineOrdering
  import opened EngineReach
  import opened EngineTheorems
  import opened EngineBehind
  import PT = PollingTransport
  import WT = WebsocketTransport

  /** The client is on websocket after a successful probe, callers are let through, and UPGRADE is still to come. */
  predicate Between(s: State) {
    && s.upgraded && s.transport == Some(Websocket) && s.wh.Opened? && !s.locked
    && Unanswered(s.sent, 0)
  }

  /** A caller outside the stack that found no upgrade gate, and that has not picked its transport yet. */
  predicate Uncovered(s: State, id: nat) {
    && id in s.senders && s.senders[id].caller.Bare? && s.senders[id].saw.None?
    && (s.senders[id].pc.SAwaitHandshake? || s.senders[id].pc.SPick?)
  }

  /** Some continuation brings the client there. */
  ghost predicate CanUpgrade(s: State) {
    exists t :: ReachableFrom(s, t) && t.crash.None? && Between(t)
  }

  /** And in some continuation the caller is about to hand its MESSAGE to websocket there. */
  ghost predicate CanOvertake(s: State, id: nat) {
    exists t :: ReachableFrom(s, t) && t.crash.None? && Between(t)
                && id in t.senders && t.senders[id] == Sender(Bare, None, SHand(Websocket))
  }

  // ------------------------------------------------------------------ the MESSAGE ahead of UPGRADE

  lemma BehindBetween(s: State, u: State, id: nat, me: Sender)
    requires Behind(s, u, id, me) && Between(s) && s.crash.None?
    ensures Between(u) && u.crash.None? && id in u.senders && u.senders[id] == me
  {
    hide Unanswered;
  }

  /** Between probe and UPGRADE nothing holds the caller up. */
  lemma PicksWebsocket(s: State, u: State, id: nat) returns (t: State)
    requires ReachableFrom(s, u) && u.crash.None? && Between(u)
    requires id in u.senders && u.senders[id] == Sender(Bare, None, SPick)
    ensures ReachableFrom(s, t) && t.crash.None? && Between(t)
    ensures id in t.senders && t.senders[id] == Sender(Bare, None, SHand(Websocket))
  {
    hide ReachableFrom, Unanswered;
    NextReachableFrom(s, u, BySend(id, Step));
    t := Next(u, BySend(id, Step));
    assert u.sent + [] == u.sent;
  }

  lemma GoesOn(s: State, u: State, id: nat) returns (t: State)
    requires ReachableFrom(s, u) && u.crash.None? && Between(u) && Uncovered(u, id)
    ensures ReachableFrom(s, t) && t.crash.None? && Between(t)
    ensures id in t.senders && t.senders[id] == Sender(Bare, None, SPick)
  {
    hide ReachableFrom, Unanswered;
    t := u;
    if u.senders[id].pc.SAwaitHandshake? {
      NextReachableFrom(s, u, BySend(id, Step));
      t := Next(u, BySend(id, Step));
      assert u.sent + [] == u.sent;
    }
  }

  /**
   Exactly when an uncovered caller can overtake: from every state, some continuation takes its MESSAGE to
   websocket ahead of UPGRADE exactly when some continuation comes between probe and UPGRADE at all.
   */
  lemma OvertakesIff(s: State, id: nat)
    requires s.crash.None? && Uncovered(s, id)
    ensures CanUpgrade(s) <==> CanOvertake(s, id)
  {
    hide Enabled, Next, Between, Unanswered;
    if CanUpgrade(s) {
      var t :| ReachableFrom(s, t) && t.crash.None? && Between(t);
      var ss: seq<State>, acts: seq<Action> :| RunFrom(s, ss, acts) && ss[|acts|] == t;
      var u := Delayed(s, id, ss, acts, |acts|);
      BehindBetween(t, u, id, s.senders[id]);
      var v := GoesOn(s, u, id);
      var w := PicksWebsocket(s, v, id);
    }
  }

  /** What that caller's next step does: its MESSAGE is handed to websocket, and UPGRADE is still to come. */
  lemma HandsAhead(s: State, id: nat)
    requires s.crash.None? && Between(s) && id in s.senders && s.senders[id] == Sender(Bare, None, SHand(Websocket))
    ensures Enabled(s, BySend(id, Step)) && Next(s, BySend(id, Step)).crash.None?
    ensures Next(s, BySend(id, Step)).sent == s.sent + [Sent(Websocket, MessagePacket(Bare, None))]
    ensures Between(Next(s, BySend(id, Step)))
  {
    MessagesAnswerNothing(s.sent, s.senders[id]);
  }

  // ------------------------------------------------------------------ with one OPEN first

  lemma ProbeIsNext(s: State, ok: bool, hook: nat)
    requires Enabled(s, ByMsg(Handle(ok, hook))) && s.msg.MProbe?
    ensures Next(s, ByMsg(Handle(ok, hook))) == SendProbe(s, s.msg.target, ok)
  {
  }

  lemma ProbedIsUpgraded(s: State, ok: bool)
    requires Inv(s) && Order(s) && OneOpenFirst(s.enq) && s.msg.MProbe?
    requires !s.upgraded && SendProbe(s, s.msg.target, ok).upgraded && SendProbe(s, s.msg.target, ok).crash.None?
    ensures
      var t := SendProbe(s, s.msg.target, ok);
      Unanswered(t.sent, 0) && t.transport.Some?
  {
    FirstIsOpen(s);
  }

  /** An upgrade that succeeds does so with UPGRADE still to come and the transport in place. */
  lemma SuccessIsUnanswered(s: State, a: Action)
    requires Inv(s) && Order(s) && OneOpenFirst(s.enq) && Enabled(s, a) && !s.upgraded
    requires Next(s, a).upgraded && Next(s, a).crash.None?
    ensures Unanswered(Next(s, a).sent, 0) && Next(s, a).transport.Some?
  {
    hide Inv, Order, OneOpenFirst, Next, Enabled, Unanswered, SendProbe;
    StepGrows(s, a);
    ProbeIsNext(s, a.m.ok, a.m.hook);
    ProbedIsUpgraded(s, a.m.ok);
  }

  /** From then on the client is between probe and UPGRADE, or one step ahead of it. */
  lemma UpgradedFacts(s: State)
    requires Inv(s) && Order(s) && s.upgraded && s.transport.Some?
    ensures s.transport == Some(Websocket) && !s.locked
    ensures s.wh.Opened? || (s.msg.MOpenGate? && s.wh.Waiting? && !s.whSpent)
  {
  }

  lemma GateOpens(s: State, hook: nat)
    requires s.crash.None? && s.msg.MOpenGate? && s.wh.Waiting? && !s.whSpent && hook !in s.senders
    ensures Enabled(s, ByMsg(Handle(true, hook)))
    ensures
      var t := Next(s, ByMsg(Handle(true, hook)));
      && t.crash.None? && t.wh.Opened? && t.enq == s.enq
      && t.upgraded == s.upgraded && t.transport == s.transport && t.locked == s.locked && t.sent == s.sent
  {
  }

  lemma UpgradedReaches(s: State)
    requires Inv(s) && Order(s) && s.crash.None? && s.upgraded && s.transport.Some? && Unanswered(s.sent, 0)
    ensures CanUpgrade(s)
  {
    hide Inv, Order, Enabled, Next, ReachableFrom, Unanswered;
    UpgradedFacts(s);
    StaysReachable(s);
    if s.wh.Opened? {
      assert Between(s);
    } else {
      var hook := FreshId(s.senders);
      GateOpens(s, hook);
      NextReachableFrom(s, s, ByMsg(Handle(true, hook)));
      assert Between(Next(s, ByMsg(Handle(true, hook))));
    }
  }

  lemma ReachesFurther(s: State, t: State)
    requires ReachableFrom(s, t) && CanUpgrade(t)
    ensures CanUpgrade(s)
  {
    hide ReachableFrom, Between;
    var u :| ReachableFrom(t, u) && u.crash.None? && Between(u);
    ReachesOn(s, t, u);
  }

  /** A continuation that upgrades passes, or could have passed, between probe and UPGRADE. */
  lemma {:induction false} UpgradeMeansCan(s: State, ss: seq<State>, acts: seq<Action>, n: nat)
    requires Inv(s) && Order(s) && RunFrom(s, ss, acts) && n < |ss| && ss[n].crash.None?
    requires OneOpenFirst(ss[n].enq) && ss[n].upgraded
    requires s.upgraded ==> s.transport.Some? && Unanswered(s.sent, 0)
    ensures CanUpgrade(s)
  {
    hide Inv, Order, OneOpenFirst, Enabled, Next, ReachableFrom, Unanswered, CanUpgrade;
    if s.upgraded {
      FirstRuns(s, ss, acts, n);
      UpgradedReaches(s);
    } else {
      var t, a := ss[n - 1], acts[n - 1];
      assert Enabled(t, a) && ss[n] == Next(t, a);
      EnabledMeansRunning(t, a);
      StepGrows(t, a);
      PrefixOneOpen(t.enq, ss[n].enq);
      if t.upgraded {
        UpgradeMeansCan(s, ss, acts, n - 1);
      } else {
        OrderLasts(s, ss, acts, n - 1);
        SuccessIsUnanswered(t, a);
        OrderLasts(s, ss, acts, n);
        UpgradedReaches(ss[n]);
        RunReaches(s, ss, acts, n);
        ReachesFurther(s, ss[n]);
      }
    }
  }

  lemma {:induction false} FirstRuns(s: State, ss: seq<State>, acts: seq<Action>, n: nat)
    requires RunFrom(s, ss, acts) && n < |ss| && ss[n].crash.None?
    ensures s.crash.None?
  {
    hide Enabled, Next;
    if n > 0 {
      assert Enabled(ss[n - 1], acts[n - 1]);
      EnabledMeansRunning(ss[n - 1], acts[n - 1]);
      FirstRuns(s, ss, acts, n - 1);
    }
  }

  lemma RunReaches(s: State, ss: seq<State>, acts: seq<Action>, n: nat)
    requires RunFrom(s, ss, acts) && n < |ss|
    ensures ReachableFrom(s, ss[n])
  {
    StaysReachable(s);
    ReachesAlong(s, s, ss, acts, n);
  }

  /** The invariants last in every continuation with one OPEN. */
  lemma {:induction false} OrderLasts(s: State, ss: seq<State>, acts: seq<Action>, n: nat)
    requires Inv(s) && Order(s) && RunFrom(s, ss, acts) && n < |ss| && ss[n].crash.None? && OneOpenFirst(ss[n].enq)
    ensures Inv(ss[n]) && Order(ss[n])
  {
    hide Inv, Order, OneOpenFirst, Next, Enabled;
    if n > 0 {
      var t, a := ss[n - 1], acts[n - 1];
      assert Enabled(t, a) && ss[n] == Next(t, a);
      EnabledMeansRunning(t, a);
      StepGrows(t, a);
      PrefixOneOpen(t.enq, ss[n].enq);
      OrderLasts(s, ss, acts, n - 1);
      StepKeeps(t, a);
      StepKeepsOrder(t, a);
    }
  }

  // ------------------------------------------------------------------ too late

  lemma RunHasTransport(s: State)
    requires Inv(s) && s.msg.MRun?
    ensures s.transport.Some?
  {
  }

  lemma AnsweredStays(xs: seq<Sent>, ys: seq<Sent>)
    requires xs <= ys && Unanswered(ys, 0)
    ensures Unanswered(xs, 0)
  {
  }

  /** What has been answered, or taken, stays so in every continuation. */
  lemma {:induction false} TooLate(s: State, ss: seq<State>, acts: seq<Action>, n: nat)
    requires Inv(s) && RunFrom(s, ss, acts) && n < |ss| && ss[n].crash.None?
    ensures Inv(ss[n])
    ensures Unanswered(ss[n].sent, 0) ==> Unanswered(s.sent, 0)
    ensures ss[n].transport.Some? ==> s.transport.Some?
  {
    hide Inv, Enabled, Next, Unanswered;
    if n > 0 {
      var t, a := ss[n - 1], acts[n - 1];
      assert Enabled(t, a) && ss[n] == Next(t, a);
      EnabledMeansRunning(t, a);
      TooLate(s, ss, acts, n - 1);
      StepKeeps(t, a);
      StepGrows(t, a);
      if t.msg.MRun? {
        RunHasTransport(t);
      }
      if Unanswered(ss[n].sent, 0) {
        AnsweredStays(t.sent, ss[n].sent);
      }
    }
  }

  lemma CanMeansNotTooLate(s: State)
    requires Inv(s) && CanUpgrade(s)
    ensures Unanswered(s.sent, 0) && s.transport.Some?
  {
    hide Inv, Enabled, Next, Unanswered;
    var t :| ReachableFrom(s, t) && t.crash.None? && Between(t);
    var ss: seq<State>, acts: seq<Action> :| RunFrom(s, ss, acts) && ss[|acts|] == t;
    TooLate(s, ss, acts, |acts|);
  }

  lemma {:induction false} StartsOneOpen(s: State, ss: seq<State>, acts: seq<Action>, n: nat)
    requires RunFrom(s, ss, acts) && n < |ss| && OneOpenFirst(ss[n].enq)
    ensures OneOpenFirst(s.enq)
  {
    hide OneOpenFirst, Enabled, Next;
    if n > 0 {
      assert Enabled(ss[n - 1], acts[n - 1]) && ss[n] == Next(ss[n - 1], acts[n - 1]);
      StepGrows(ss[n - 1], acts[n - 1]);
      PrefixOneOpen(ss[n - 1].enq, ss[n].enq);
      StartsOneOpen(s, ss, acts, n - 1);
    }
  }

  /**
   The other half of the upgrade ordering, over all runs that have a continuation which upgrades with one OPEN,
   the first frame: a caller outside the stack that found no upgrade gate can still have its MESSAGE on
   websocket ahead of UPGRADE exactly when UPGRADE has not been handed over, and Close has not taken the
   transport.
   */
  lemma UncoveredOvertakesIff(ss: seq<State>, acts: seq<Action>, k: nat, id: nat, t: State)
    requires ClientRun(ss, acts) && k < |ss| && ss[k].crash.None? && Uncovered(ss[k], id)
    requires ReachableFrom(ss[k], t) && t.crash.None? && t.upgraded && OneOpenFirst(t.enq)
    ensures CanOvertake(ss[k], id) <==> Unanswered(ss[k].sent, 0) && ss[k].transport.Some?
  {
    hide Inv, Order, OneOpenFirst, Next, Enabled, Unanswered, CanUpgrade, CanOvertake, Uncovered, IsFreshClient;
    var s := ss[k];
    RunKeeps(ss, acts, k);
    OvertakesIff(s, id);
    if CanUpgrade(s) {
      CanMeansNotTooLate(s);
    } else if Unanswered(s.sent, 0) && s.transport.Some? {
      var ts: seq<State>, more: seq<Action> :| RunFrom(s, ts, more) && ts[|more|] == t;
      StartsOneOpen(s, ts, more, |more|);
      RunKeepsOrder(ss, acts, k);
      UpgradeMeansCan(s, ts, more, |more|);
    }
  }
}
