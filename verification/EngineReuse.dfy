/**
 Running the websocket transport again.  A client does so when the server offers polling, and then
 websocket, after an upgrade; what the earlier run has left decides whether the new one is like a first one.
 */
module EngineReuse {
  import opened Options
  import opened Bytes
  import opened Frames
  import opened TransportContract
  import opened EngineClient
  import opened EngineInvariant
  import opened EngineProof
  import opened EngineGrowth
  import opened EngineReach
  import W = EngineWitness
  import PT = PollingTransport
  import WT = WebsocketTransport

  // ------------------------------------------------------------------ the exact condition

  /** Nobody stops the websocket transport or runs it again. */
  ghost predicate WebsocketLeftAlone(ss: seq<State>, acts: seq<Action>)
    requires |ss| == |acts| + 1
  {
    forall i :: 0 <= i < |acts| ==> !TouchesWebsocket(ss[i], acts[i])
  }

  /** However the client goes on, as long as the websocket transport is left alone, its run is undisturbed. */
  ghost predicate NeverDisturbed(s: State) {
    forall ss: seq<State>, acts: seq<Action> ::
      RunFrom(s, ss, acts) && WebsocketLeftAlone(ss, acts) ==> WT.Undisturbed(ss[|acts|].ws)
  }

  lemma WsStepIsMove(s: State, a: WT.LoopAct)
    requires s.crash.None? && WsEnabled(s, a)
    ensures Enabled(s, ByWs(a)) && Next(s, ByWs(a)).ws == WT.LoopNext(s.ws, a)
    ensures WT.Enabled(s.ws, a, s.ctxDone, CanSend(s))
  {
    hide WT.LoopNext, WT.LoopEffect, WT.Enabled;
  }

  lemma {:induction false} CleanRunLasts(s: State, ss: seq<State>, acts: seq<Action>, k: nat)
    requires RunFrom(s, ss, acts) && WebsocketLeftAlone(ss, acts) && WT.CleanRun(s.ws) && k < |ss|
    ensures WT.CleanRun(ss[k].ws)
  {
    hide Enabled, Next, TouchesWebsocket, WT.CleanRun;
    if k > 0 {
      CleanRunLasts(s, ss, acts, k - 1);
      assert Enabled(ss[k - 1], acts[k - 1]) && ss[k] == Next(ss[k - 1], acts[k - 1]);
      assert !TouchesWebsocket(ss[k - 1], acts[k - 1]);
      StepGrows(ss[k - 1], acts[k - 1]);
      if acts[k - 1].ByWs? {
        EnabledWs(ss[k - 1], acts[k - 1].w);
        WsStepIsMove(ss[k - 1], acts[k - 1].w);
        WT.CleanRunKept(ss[k - 1].ws, acts[k - 1].w, ss[k - 1].ctxDone, CanSend(ss[k - 1]));
      }
    }
  }

  lemma EnabledWs(s: State, a: WT.LoopAct)
    requires Enabled(s, ByWs(a))
    ensures s.crash.None? && WsEnabled(s, a)
  {
  }

  lemma CleanRunIsUndisturbed(w: WT.Transport)
    requires WT.CleanRun(w)
    ensures WT.Undisturbed(w)
  {
  }

  /** A step of a goroutine beside the loop, or one that stops it, does not make the client panic. */
  lemma SilentStep(s: State, a: WT.LoopAct) returns (t: State)
    requires s.crash.None? && WsEnabled(s, a) && WT.LoopEffect(s.ws, a).Silent?
    ensures Enabled(s, ByWs(a)) && t == Next(s, ByWs(a))
    ensures t == s.(ws := WT.LoopNext(s.ws, a))
  {
    hide WT.LoopNext, WT.LoopEffect, WT.Enabled;
    SilentChangesNothing(s, s.ws.onClose);
    t := Next(s, ByWs(a));
  }

  lemma LeftoversDisturb(s: State, w: WT.Transport, chan: nat)
      returns (ss: seq<State>, acts: seq<Action>)
    requires s.crash.None? && s.ws == WT.Run(w, chan) && !WT.Clean(w)
    ensures RunFrom(s, ss, acts) && WebsocketLeftAlone(ss, acts) && !WT.Undisturbed(ss[|acts|].ws)
  {
    WT.DisturbanceWorks(w, chan, s.ctxDone, CanSend(s));
    hide Next, Enabled, WT.Run, WT.Disturbance, WT.Clean, WT.Undisturbed, WT.LoopNext, WT.LoopEffect, WT.Enabled;
    var moves := WT.Disturbance(w);
    var s1 := SilentStep(s, moves[0]);
    if |moves| == 1 {
      ss, acts := [s, s1], [ByWs(moves[0])];
    } else {
      var s2 := SilentStep(s1, moves[1]);
      ss, acts := [s, s1, s2], [ByWs(moves[0]), ByWs(moves[1])];
    }
  }

  lemma RunsWebsocket(s: State, hook: nat)
    requires Inv(s) && s.crash.None? && s.msg == MRun(Websocket)
    ensures Enabled(s, ByMsg(Handle(true, hook)))
    ensures Next(s, ByMsg(Handle(true, hook))).ws == WT.Run(s.ws, |s.chans|)
    ensures Next(s, ByMsg(Handle(true, hook))).crash.None?
  {
    RunNewWs(s);
    hide WT.Run, Inv;
  }

  /**
   Reuse equals fresh, over all runs: whenever the client runs the websocket transport and the dial
   succeeds, the new run is undisturbed in every continuation exactly when nothing is left of earlier ones.
   */
  lemma WebsocketReuseIff(ss: seq<State>, acts: seq<Action>, k: nat, hook: nat)
    requires ClientRun(ss, acts) && k < |acts|
    requires ss[k].msg == MRun(Websocket) && acts[k] == ByMsg(Handle(true, hook))
    ensures NeverDisturbed(ss[k + 1]) <==> WT.Clean(ss[k].ws)
  {
    hide Inv, Enabled, Next, WT.Clean, WT.CleanRun, WT.Undisturbed, WT.Run;
    assert Enabled(ss[k], acts[k]) && ss[k + 1] == Next(ss[k], acts[k]);
    EnabledMeansRunning(ss[k], acts[k]);
    RunKeeps(ss, acts, k);
    RunsWebsocket(ss[k], hook);
    var s := ss[k + 1];
    if WT.Clean(ss[k].ws) {
      WT.RunIsClean(ss[k].ws, |ss[k].chans|);
      forall ts: seq<State>, more: seq<Action> | RunFrom(s, ts, more) && WebsocketLeftAlone(ts, more)
        ensures WT.Undisturbed(ts[|more|].ws)
      {
        CleanRunLasts(s, ts, more, |more|);
        CleanRunIsUndisturbed(ts[|more|].ws);
      }
    } else {
      var ts, more := LeftoversDisturb(s, ss[k].ws, |ss[k].chans|);
      assert !WT.Undisturbed(ts[|more|].ws);
    }
  }

  // ------------------------------------------------------------------ the first run

  lemma PollingTouchesNothing(s: State, a: Action)
    requires Inv(s) && Enabled(s, a) && s.owner.Polling? && Next(s, a).owner.Polling?
    ensures !TouchesWebsocket(s, a)
  {
    if TouchesWebsocket(s, a) {
      TransportIsOwner(s);
      match a
      case ByConnect(RunIt(ok)) => FirstIsWebsocket(s, ok);
      case ByMsg(Handle(ok, hook)) => RunsWebsocketNext(s, ok, hook);
      case ByClose(id, _) => StoppingOwner(s, id);
      case _ =>
    }
  }

  lemma FirstIsWebsocket(s: State, ok: bool)
    requires s.connect.CStart? && First(s.supported).Websocket?
    ensures ConnectStep(s, RunIt(ok)).owner.Websocket?
  {
  }

  lemma RunsWebsocketNext(s: State, ok: bool, hook: nat)
    requires s.msg == MRun(Websocket) && MsgEnabled(s, Handle(ok, hook))
    ensures HandleStep(s, ok, hook).owner.Websocket?
  {
    hide WT.Run, WT.RunFails, GatesAfter, UpgradeGateCrash;
  }

  lemma NewIsIdle(s: State, a: WT.LoopAct)
    requires s.ws == WT.NEW
    ensures !WsEnabled(s, a)
  {
  }

  /** A client that has never run the websocket transport runs it on an object as good as new. */
  lemma {:induction false} FirstRunIsClean(ss: seq<State>, acts: seq<Action>, k: nat)
    requires ClientRun(ss, acts) && k < |ss| && ss[k].crash.None?
    requires forall i :: 0 <= i <= k ==> ss[i].owner.Polling?
    ensures ss[k].ws == WT.NEW && WT.Clean(ss[k].ws)
  {
    hide Inv, Enabled, Next, TouchesWebsocket;
    if k > 0 {
      assert Enabled(ss[k - 1], acts[k - 1]) && ss[k] == Next(ss[k - 1], acts[k - 1]);
      EnabledMeansRunning(ss[k - 1], acts[k - 1]);
      FirstRunIsClean(ss, acts, k - 1);
      RunKeeps(ss, acts, k - 1);
      PollingTouchesNothing(ss[k - 1], acts[k - 1]);
      StepGrows(ss[k - 1], acts[k - 1]);
      if acts[k - 1].ByWs? {
        EnabledWs(ss[k - 1], acts[k - 1].w);
        NewIsIdle(ss[k - 1], acts[k - 1].w);
      }
    }
  }
}
