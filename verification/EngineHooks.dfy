/**
 Who calls Send: callers of their own accord, and one connect hook for every OPEN whose handling did not end in
 an upgrade error.
 */
module EngineHooks {
  import opened Options
  import opened Bytes
  import opened Frames
  import opened EngineClient
  import opened EngineInvariant
  import opened EngineProof
  import opened EngineGrowth
  import opened EngineHistory
  import PT = PollingTransport
  import WT = WebsocketTransport

  // ------------------------------------------------------------------ new callers

  /** handleHandshake is about to return. */
  predicate EndsHandshake(s: State, a: Action) {
    s.msg.MOpenGate? && a.ByMsg? && a.m.Handle?
  }

  /**
   The callers after a step: a call of Send adds its caller, by Emit only when the default namespace is connected;
   the end of a handshake without an upgrade error adds one hook; and otherwise nobody comes.
   */
  ghost predicate CallersAfter(s: State, a: Action, t: State) {
    if EndsHandshake(s, a) then
      if s.msg.ok
      then a.m.hook !in s.senders && t.senders == s.senders[a.m.hook := Sender(Hook, None, SNew)]
      else t.senders == s.senders
    else if !a.BySend? then t.senders == s.senders
    else if a.s.Start? then
      && a.id !in s.senders && t.senders == s.senders[a.id := Sender(a.s.caller, None, SNew)]
      && (a.s.caller.Bare? || (a.s.caller.Emit? && s.nsOpen))
    else
      && a.id in s.senders && t.senders.Keys == s.senders.Keys && t.senders[a.id].caller == s.senders[a.id].caller
      && forall id :: id in s.senders && id != a.id ==> t.senders[id] == s.senders[id]
  }

  lemma GateAddsHook(s: State, ok: bool, hook: nat)
    requires MsgEnabled(s, Handle(ok, hook)) && s.msg.MOpenGate?
    ensures hook !in s.senders
    ensures HandleStep(s, ok, hook).senders ==
            if s.msg.ok then s.senders[hook := Sender(Hook, None, SNew)] else s.senders
  {
  }

  lemma SendKeepsCallers(s: State, id: nat, a: SendAct)
    requires SendEnabled(s, id, a)
    ensures CallersAfter(s, BySend(id, a), SendStep(s, id, a))
  {
    hide Handed, HandCrash;
  }

  lemma StepCallers(s: State, a: Action)
    requires Enabled(s, a)
    ensures CallersAfter(s, a, Next(s, a))
  {
    StepGrows(s, a);
    if EndsHandshake(s, a) {
      GateAddsHook(s, a.m.ok, a.m.hook);
      hide HandleStep;
    } else if a.BySend? {
      SendKeepsCallers(s, a.id, a.s);
      hide SendStep, SendEnabled, CallersAfter;
    } else {
      hide Enabled, Next;
    }
  }

  /** Over all runs, step by step: who is there to call Send. */
  lemma EveryCaller(ss: seq<State>, acts: seq<Action>, k: nat)
    requires ClientRun(ss, acts) && k < |acts|
    ensures CallersAfter(ss[k], acts[k], ss[k + 1])
  {
    hide Enabled, Next, CallersAfter;
    assert Enabled(ss[k], acts[k]) && ss[k + 1] == Next(ss[k], acts[k]);
    StepCallers(ss[k], acts[k]);
  }

  // ------------------------------------------------------------------ one hook for each good handshake

  ghost function HookIds(senders: map<nat, Sender>): set<nat> {
    set id | id in senders && senders[id].caller.Hook?
  }

  /** How many of the frames are a valid OPEN. */
  function Opens(fs: seq<Frame>): nat {
    if fs == [] then 0 else Opens(fs[..|fs| - 1]) + (if IsOpen(fs[|fs| - 1]) then 1 else 0)
  }

  /** The step at which an upgrade goes wrong: the new transport cannot be run, or the probe cannot be sent. */
  predicate Fails(s: State, a: Action) {
    a.ByMsg? && a.m.Handle? && !a.m.ok && (s.msg == MRun(Websocket) || s.msg.MProbe?)
  }

  function Failures(ss: seq<State>, acts: seq<Action>, n: nat): nat
    requires n <= |acts| && |ss| == |acts| + 1
  {
    if n == 0 then 0 else Failures(ss, acts, n - 1) + (if Fails(ss[n - 1], acts[n - 1]) then 1 else 0)
  }

  /** An upgrade has gone wrong, and its handshake is not over. */
  predicate Failing(m: MsgPc) {
    m.MProbeFailed? || (m.MOpenGate? && !m.ok)
  }

  /** The frames whose handling is over. */
  function FinishedFrames(s: State): seq<Frame>
    requires 0 <= Finished(Taken(s.queue, s.enq), s.msg) <= |s.enq|
  {
    s.enq[..Finished(Taken(s.queue, s.enq), s.msg)]
  }

  ghost predicate Balanced(s: State, failures: nat) {
    && 0 <= Finished(Taken(s.queue, s.enq), s.msg) <= |s.enq|
    && |HookIds(s.senders)| + failures == Opens(FinishedFrames(s)) + (if Failing(s.msg) then 1 else 0)
  }

  lemma HookComes(senders: map<nat, Sender>, id: nat, me: Sender)
    requires id !in senders
    ensures |HookIds(senders[id := me])| == |HookIds(senders)| + (if me.caller.Hook? then 1 else 0)
  {
    assert HookIds(senders[id := me]) == HookIds(senders) + (if me.caller.Hook? then {id} else {});
  }

  lemma SameHooks(senders: map<nat, Sender>, after: map<nat, Sender>)
    requires after.Keys == senders.Keys && forall id :: id in senders ==> after[id].caller == senders[id].caller
    ensures HookIds(after) == HookIds(senders)
  {
    assert forall id :: id in after <==> id in senders;
  }

  lemma HooksAfter(s: State, a: Action, t: State)
    requires CallersAfter(s, a, t)
    ensures |HookIds(t.senders)| == |HookIds(s.senders)| + (if EndsHandshake(s, a) && s.msg.ok then 1 else 0)
  {
    hide HookIds;
    if EndsHandshake(s, a) {
      if s.msg.ok {
        HookComes(s.senders, a.m.hook, Sender(Hook, None, SNew));
      }
    } else if a.BySend? {
      if a.s.Start? {
        HookComes(s.senders, a.id, Sender(a.s.caller, None, SNew));
      } else {
        SameHooks(s.senders, t.senders);
      }
    }
  }

  lemma FinishedPosition(s: State)
    requires Inv(s)
    ensures |s.queue| <= |s.enq| && (s.connect.CLaunch? ==> s.msg.MOff?)
  {
  }

  lemma OpensSnoc(fs: seq<Frame>, f: Frame)
    ensures Opens(fs + [f]) == Opens(fs) + (if IsOpen(f) then 1 else 0)
  {
    assert (fs + [f])[..|fs|] == fs;
  }

  /** The frames whose handling ends with this step. */
  predicate EndsFrame(s: State, a: Action) {
    a.ByMsg? && a.m.Handle? && ((s.msg.MDispatch? && !IsOpen(s.msg.frame)) || s.msg.MOpenGate?)
  }

  /** How the step moves the message loop along. */
  predicate Moves(s: State, a: Action, t: State) {
    && s.enq <= t.enq
    && Finished(Taken(t.queue, t.enq), t.msg) ==
       Finished(Taken(s.queue, s.enq), s.msg) + (if EndsFrame(s, a) then 1 else 0)
    && (Failing(t.msg) <==> Fails(s, a) || (Failing(s.msg) && !EndsHandshake(s, a)))
  }

  lemma HandlingMoves(s: State, ok: bool, hook: nat, t: State)
    requires !s.msg.MOff? && !s.msg.MIdle? && !s.msg.MExited?
    requires Steady(s, t) && s.enq <= t.enq && LeadsTo(s.msg, ok, t.msg)
    ensures Moves(s, ByMsg(Handle(ok, hook)), t)
  {
  }

  lemma HandleMoves(s: State, ok: bool, hook: nat)
    requires Inv(s) && Enabled(s, ByMsg(Handle(ok, hook)))
    ensures Moves(s, ByMsg(Handle(ok, hook)), Next(s, ByMsg(Handle(ok, hook))))
  {
    hide Inv, HandleStep, Steady, LeadsTo, Moves, Onward, Elsewhere, SendersKept, TouchesWebsocket;
    StepGrows(s, ByMsg(Handle(ok, hook)));
    HandleLeads(s, ok, hook);
    HandlingMoves(s, ok, hook, Next(s, ByMsg(Handle(ok, hook))));
  }

  lemma TakingMoves(s: State, a: MsgAct)
    requires MsgEnabled(s, a) && !a.Handle? && |s.queue| <= |s.enq|
    ensures Moves(s, ByMsg(a), MsgStep(s, a))
  {
    hide HandleStep;
  }

  lemma AsideMoves(s: State, a: Action, t: State)
    requires !a.ByMsg? && Steady(s, t) && s.enq <= t.enq
    requires t.msg == s.msg || (s.msg.MOff? && t.msg.MIdle?)
    ensures Moves(s, a, t)
  {
  }

  lemma StepMoves(s: State, a: Action)
    requires Inv(s) && Enabled(s, a)
    ensures Moves(s, a, Next(s, a))
  {
    FinishedPosition(s);
    if a.ByMsg? {
      if a.m.Handle? {
        hide *;
        HandleMoves(s, a.m.ok, a.m.hook);
      } else {
        hide Inv, MsgEnabled, MsgStep, Moves, Finished;
        TakingMoves(s, a.m);
      }
    } else {
      hide Inv, Enabled, Next, Moves, Steady, Onward, TouchesWebsocket, Finished, IsOpen, OpenPath;
      StepGrows(s, a);
      AsideMoves(s, a, Next(s, a));
    }
  }

  /** Where the last frame taken is. */
  predicate Positioned(s: State) {
    && |s.queue| <= |s.enq| && 0 <= Finished(Taken(s.queue, s.enq), s.msg) <= |s.enq|
    && (s.msg.MDispatch? ==> Taken(s.queue, s.enq) >= 1 && s.enq[Taken(s.queue, s.enq) - 1] == s.msg.frame)
    && (OpenPath(s.msg) ==> Taken(s.queue, s.enq) >= 1 && IsOpen(s.enq[Taken(s.queue, s.enq) - 1]))
  }

  lemma InvPositions(s: State)
    requires Inv(s)
    ensures Positioned(s)
  {
  }

  lemma FinishedAfter(s: State, a: Action, t: State)
    requires Positioned(s) && Moves(s, a, t)
    ensures 0 <= Finished(Taken(t.queue, t.enq), t.msg) <= |t.enq|
    ensures Opens(FinishedFrames(t)) == Opens(FinishedFrames(s)) + (if EndsHandshake(s, a) then 1 else 0)
  {
    hide Opens;
    if EndsFrame(s, a) {
      var f := s.enq[Taken(s.queue, s.enq) - 1];
      assert FinishedFrames(t) == FinishedFrames(s) + [f];
      OpensSnoc(FinishedFrames(s), f);
    } else {
      assert FinishedFrames(t) == FinishedFrames(s);
    }
  }

  lemma BalanceStep(s: State, a: Action, failures: nat)
    requires Inv(s) && Enabled(s, a) && Balanced(s, failures)
    ensures Balanced(Next(s, a), failures + (if Fails(s, a) then 1 else 0))
  {
    hide Inv, Enabled, Next, CallersAfter, HookIds, FinishedFrames, Opens, Positioned, Finished;
    var t := Next(s, a);
    StepCallers(s, a);
    StepMoves(s, a);
    InvPositions(s);
    HooksAfter(s, a, t);
    FinishedAfter(s, a, t);
  }

  lemma FreshBalance(s: State)
    requires IsFreshClient(s)
    ensures Balanced(s, 0)
  {
  }

  lemma {:induction false} BalanceHolds(ss: seq<State>, acts: seq<Action>, k: nat)
    requires ClientRun(ss, acts) && k < |ss| && ss[k].crash.None?
    ensures Balanced(ss[k], Failures(ss, acts, k))
  {
    hide Inv, Balanced, Next, Enabled, IsFreshClient;
    if k == 0 {
      FreshBalance(ss[0]);
    } else {
      assert Enabled(ss[k - 1], acts[k - 1]) && ss[k] == Next(ss[k - 1], acts[k - 1]);
      EnabledMeansRunning(ss[k - 1], acts[k - 1]);
      BalanceHolds(ss, acts, k - 1);
      RunKeeps(ss, acts, k - 1);
      BalanceStep(ss[k - 1], acts[k - 1], Failures(ss, acts, k - 1));
    }
  }

  /**
   Over all runs: as many connect hooks have been launched as valid OPENs have been handled to the end, less the
   upgrades that went wrong on the way.
   */
  lemma OneHookPerHandshake(ss: seq<State>, acts: seq<Action>, k: nat)
    requires ClientRun(ss, acts) && k < |ss| && ss[k].crash.None?
    ensures 0 <= Finished(Taken(ss[k].queue, ss[k].enq), ss[k].msg) <= |ss[k].enq|
    ensures |HookIds(ss[k].senders)| ==
            Opens(FinishedFrames(ss[k])) + (if Failing(ss[k].msg) then 1 else 0) - Failures(ss, acts, k)
  {
    BalanceHolds(ss, acts, k);
  }
}
