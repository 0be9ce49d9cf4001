/** Exactly which callers of Send wait for ever. */
module EngineWaiters {
  import opened Options
  import opened Bytes
  import opened GoInt
  import opened Frames
  import opened EngineClient
  import opened EngineInvariant
  import opened EngineProof
  import opened EngineGrowth
  import opened EngineReach
  import opened EngineRelease
  import opened EngineStranded
  import opened EngineRescue
  import W = EngineWitness
  import R = EngineReuseWitness
  import PT = PollingTransport
  import WT = WebsocketTransport

  predicate WaitsAt(s: State, id: nat, k: Gating) {
    && id in s.senders
    && match k
       case AtHandshake => s.senders[id].pc.SAwaitHandshake?
       case AtUpgrade(g) => s.senders[id].pc.SAwaitUpgrade? && s.senders[id].saw == Some(g)
  }

  /** In every continuation the caller still waits, and cannot go on. */
  ghost predicate Stranded(s: State, id: nat, k: Gating) {
    forall t :: ReachableFrom(s, t) && t.crash.None? ==> WaitsAt(t, id, k) && !Enabled(t, BySend(id, Step))
  }

  lemma GateLetsGo(s: State, id: nat, k: Gating)
    requires s.crash.None? && WaitsAt(s, id, k)
    ensures Enabled(s, BySend(id, Step)) <==> IsOpened(s, k)
  {
  }

  lemma {:induction false} StillWaits(s: State, id: nat, k: Gating, ss: seq<State>, acts: seq<Action>, n: nat)
    requires Inv(s) && s.crash.None? && IsShut(s, k) && !Releasable(s, k) && WaitsAt(s, id, k)
    requires RunFrom(s, ss, acts) && n < |ss| && ss[n].crash.None?
    ensures WaitsAt(ss[n], id, k) && !Enabled(ss[n], BySend(id, Step))
  {
    hide Inv, Enabled, Next, IsShut, IsOpened, Releasable;
    if n > 0 {
      var t := ss[n - 1];
      assert Enabled(t, acts[n - 1]) && ss[n] == Next(t, acts[n - 1]);
      EnabledMeansRunning(t, acts[n - 1]);
      StillWaits(s, id, k, ss, acts, n - 1);
      StepGrows(t, acts[n - 1]);
    }
    StaysStranded(s, k, ss, acts, n);
    GateLetsGo(ss[n], id, k);
  }

  /**
   Exactly which waiters are stranded.  In every uncrashed state of every run, a caller of Send that waits at
   a shut gate waits there in every continuation, whatever the server sends, exactly when its gate is not
   releasable: when the gate has been replaced by a later upgrade's, when the message loop has exited, or
   when the frames on their way, and the transport's ability to bring another one, leave no way to open it.
   */
  lemma StrandedIff(ss: seq<State>, acts: seq<Action>, n: nat, id: nat, k: Gating)
    requires ClientRun(ss, acts) && n < |ss| && ss[n].crash.None?
    requires WaitsAt(ss[n], id, k) && IsShut(ss[n], k)
    ensures Stranded(ss[n], id, k) <==> !Releasable(ss[n], k)
  {
    hide Inv;
    RunKeeps(ss, acts, n);
    StrandedHereIff(ss[n], id, k);
  }

  lemma StrandedHereIff(s: State, id: nat, k: Gating)
    requires Inv(s) && s.crash.None? && WaitsAt(s, id, k) && IsShut(s, k)
    ensures Stranded(s, id, k) <==> !Releasable(s, k)
  {
    hide Inv, Enabled, Next, IsShut, IsOpened, Releasable, WaitsAt;
    if Releasable(s, k) {
      ReleasableOpens(s, k);
      var t :| ReachableFrom(s, t) && t.crash.None? && IsOpened(t, k);
      if WaitsAt(t, id, k) {
        GateLetsGo(t, id, k);
      }
    } else {
      forall t | ReachableFrom(s, t) && t.crash.None?
        ensures WaitsAt(t, id, k) && !Enabled(t, BySend(id, Step))
      {
        var ss: seq<State>, acts: seq<Action> :| RunFrom(s, ss, acts) && ss[|acts|] == t;
        StillWaits(s, id, k, ss, acts, |acts|);
      }
    }
  }

  // ------------------------------------------------------------------ some that are

  /** The server's first body is no OPEN: nothing can ever open the handshake gate. */
  lemma NoOpenStrands() returns (s: State)
    ensures Reachable(s) && s.crash.None? && !s.ctxDone && s.closers == map[]
    ensures IsShut(s, AtHandshake) && WaitsAt(s, 0, AtHandshake) && Stranded(s, 0, AtHandshake)
  {
    hide Inv, Reachable, Stranded;
    s := W.SendsEarly(Other);
    OtherPasses(s);
    ReachableKeeps(s);
    StrandedHereIff(s, 0, AtHandshake);
  }

  lemma OtherPasses(s: State)
    requires s == W.EarlySend(Other)
    ensures !Releasable(s, AtHandshake)
  {
    assert Line(s) == [Other] && Line(s)[1..] == [];
  }

  /** Close has taken the transport before an OPEN that offers an upgrade is handled. */
  lemma CloseStrands() returns (s: State)
    ensures Reachable(s) && s.crash.None? && !s.ctxDone && s.queue == [W.OPEN]
    ensures IsShut(s, AtHandshake) && WaitsAt(s, 0, AtHandshake) && Stranded(s, 0, AtHandshake)
  {
    hide Inv, Reachable, Stranded;
    var s0 := W.SendsEarly(W.OPEN);
    s := W.CloseBegins(s0);
    ColdOpenPanics(s);
    ReachableKeeps(s);
    StrandedHereIff(s, 0, AtHandshake);
  }

  lemma ColdOpenPanics(s: State)
    requires s.msg.MIdle? && s.queue == [W.OPEN] && s.transport.None?
    ensures !Releasable(s, AtHandshake)
  {
    hide Held, Brings;
    assert Line(s)[0] == W.OPEN;
  }

  /** A second OPEN has begun another upgrade while a caller waited for the first one's answer. */
  lemma ReplacedGateStrands() returns (s: State)
    ensures Reachable(s) && s.crash.None? && s.transport.Some? && s.closers == map[]
    ensures IsShut(s, AtUpgrade(0)) && WaitsAt(s, 1, AtUpgrade(0)) && Stranded(s, 1, AtUpgrade(0))
  {
    hide Inv, Reachable, Stranded;
    s := R.GateIsReplaced();
    ReachableKeeps(s);
    StrandedHereIff(s, 1, AtUpgrade(0));
  }
}
