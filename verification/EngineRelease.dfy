/**
 Which callers of Send can still be released from the gate at which they wait, and which are stranded for
 good.  What decides is the line of frames that the message loop has still to handle, whether the transport
 can bring one more, and whether Close has taken the transport.
 */
module EngineRelease {
  import opened Options
  import opened Bytes
  import opened GoInt
  import opened Frames
  import opened TransportContract
  import opened EngineClient
  import opened EngineInvariant
  import opened EngineProof
  import PT = PollingTransport
  import WT = WebsocketTransport

  /** A gate of Send: the handshake gate, or one of the upgrade gates. */
  datatype Gating = AtHandshake | AtUpgrade(gate: nat)

  predicate IsShut(s: State, k: Gating) {
    match k
    case AtHandshake => s.wh.Waiting?
    case AtUpgrade(g) => g < |s.gates| && !s.gates[g]
  }

  predicate IsOpened(s: State, k: Gating) {
    match k
    case AtHandshake => s.wh.Opened?
    case AtUpgrade(g) => g < |s.gates| && s.gates[g]
  }

  // ------------------------------------------------------------------ frames on their way

  /** What decides how a frame fares, apart from the frame: is there a transport, was an upgrade ever begun. */
  datatype Env = Env(hot: bool, begun: bool, via: TransportName, supported: set<TransportName>)

  /** Handling the frame ends in a panic. */
  predicate Panics(f: Frame, e: Env, root: bool) {
    match f
    case Ping => !e.hot
    case Pong(probe) => probe && (!e.hot || !e.begun)
    case Open(valid, interval, upgrades) => valid && (TickerPanics(interval) || (upgrades != [] && !e.hot))
    case Message(_, packet) => packet.Incomplete? && root
    case _ => false
  }

  /** Handling the frame opens the gate. */
  predicate Opens(k: Gating, f: Frame) {
    if k.AtHandshake? then f.Open? && f.valid else f == Pong(true)
  }

  /** Handling the frame begins another upgrade, so that the gate is never touched again. */
  predicate Replaces(k: Gating, f: Frame, e: Env) {
    k.AtUpgrade? && f.Open? && f.valid && UpgradeTarget(e.via, e.supported, f.upgrades).Some?
  }

  predicate RootAfter(root: bool, f: Frame) {
    root || (f.Message? && f.packet == Connects(ROOT))
  }

  /** A frame of the server's choice can open the gate. */
  predicate Openable(k: Gating, e: Env) {
    k.AtHandshake? || e.hot
  }

  /** The frames of `line`, handled in order, open the gate, or let a later frame do so. */
  predicate Clears(k: Gating, line: seq<Frame>, more: bool, e: Env, root: bool)
    decreases |line|
  {
    if line == [] then more && Openable(k, e)
    else if Panics(line[0], e, root) || Replaces(k, line[0], e) then false
    else Opens(k, line[0]) || Clears(k, line[1..], more, e, RootAfter(root, line[0]))
  }

  /** How the line and its supply can change without the message loop. */
  predicate Flows(line: seq<Frame>, more: bool, line': seq<Frame>, more': bool) {
    || (line' == line && (more' ==> more))
    || (more && |line'| == |line| + 1 && line'[..|line|] == line)
    || (line' <= line && !more')
  }

  lemma {:induction false} HotClears(k: Gating, line: seq<Frame>, more: bool, e: Env, root: bool)
    requires Clears(k, line, more, e, root)
    ensures Clears(k, line, more, e.(hot := true), root)
  {
    if line != [] && !Opens(k, line[0]) {
      HotClears(k, line[1..], more, e, RootAfter(root, line[0]));
    }
  }

  lemma {:induction false} LongerClears(k: Gating, line: seq<Frame>, n: nat, more: bool, e: Env, root: bool)
    requires n <= |line| && Clears(k, line[..n], false, e, root)
    ensures Clears(k, line, more, e, root)
  {
    if n > 0 && !Opens(k, line[0]) {
      assert line[..n][1..] == line[1..][..n - 1];
      LongerClears(k, line[1..], n - 1, more, e, RootAfter(root, line[0]));
    }
  }

  lemma {:induction false} SuppliedClears(k: Gating, line: seq<Frame>, line': seq<Frame>, more': bool, e: Env,
                                          root: bool)
    requires |line'| == |line| + 1 && line'[..|line|] == line && Clears(k, line', more', e, root)
    ensures Clears(k, line, true, e, root)
  {
    if line != [] {
      assert line'[0] == line[0];
      if !Opens(k, line[0]) {
        assert line'[1..][..|line| - 1] == line[1..];
        SuppliedClears(k, line[1..], line'[1..], more', e, RootAfter(root, line[0]));
      }
    } else {
      assert line'[1..] == [];
    }
  }

  lemma {:induction false} MoreClears(k: Gating, line: seq<Frame>, e: Env, root: bool)
    requires Clears(k, line, false, e, root)
    ensures Clears(k, line, true, e, root)
  {
    assert line[..|line|] == line;
    LongerClears(k, line, |line|, true, e, root);
  }

  lemma SameEnvClears(k: Gating, line: seq<Frame>, more: bool, line': seq<Frame>, more': bool, e: Env, root: bool)
    requires Flows(line, more, line', more') && Clears(k, line', more', e, root)
    ensures Clears(k, line, more, e, root)
  {
    hide Clears;
    if line' == line && (more' ==> more) {
      if more && !more' {
        MoreClears(k, line, e, root);
      }
    } else if more && |line'| == |line| + 1 && line'[..|line|] == line {
      SuppliedClears(k, line, line', more', e, root);
    } else {
      assert line[..|line'|] == line';
      LongerClears(k, line, |line'|, more, e, root);
    }
  }

  /** What flows cannot clear a line that was not clear. */
  lemma FlowClears(k: Gating, line: seq<Frame>, more: bool, line': seq<Frame>, more': bool, e: Env, e': Env, root: bool)
    requires Flows(line, more, line', more') && Clears(k, line', more', e', root)
    requires e'.begun == e.begun && e'.via == e.via && e'.supported == e.supported && (e'.hot ==> e.hot)
    ensures Clears(k, line, more, e, root)
  {
    hide Clears, Flows;
    if e.hot {
      HotClears(k, line', more', e', root);
      assert Env(true, e'.begun, e'.via, e'.supported) == e;
    }
    SameEnvClears(k, line, more, line', more', e, root);
  }

  // ------------------------------------------------------------------ the client's line

  /** The frame in the polling loop. */
  function HeldByPoll(p: PT.Transport): seq<Frame> {
    if p.loop.Offering? then [p.loop.frame] else []
  }

  /** The polling loop can still bring a frame, after the one that it holds. */
  predicate PollBrings(p: PT.Transport, ctxDone: bool) {
    match p.loop
    case AwaitGate => p.gate.GateOpen? && !p.token && !ctxDone
    case LoopTop => !p.token && !ctxDone
    case InGet => true
    case Offering(_) => !p.token && !ctxDone
    case PollFailed => !p.stopped && !p.token && !ctxDone
    case BackingOff => !p.token && !ctxDone
    case _ => false
  }

  /** The frames in the websocket loop, while it still forwards. */
  function HeldByWs(w: WT.Transport): seq<Frame> {
    if w.loop.Spawning? || w.loop.Selecting? || w.loop.Forwarding? then WT.Pending(w) else []
  }

  predicate WsBrings(w: WT.Transport) {
    match w.loop
    case Spawning => true
    case Selecting => w.failing == 0 && w.errors == 0
    case Forwarding(_) => true
    case _ => false
  }

  function Held(connect: ConnectPc, owner: TransportName, p: PT.Transport, w: WT.Transport): seq<Frame> {
    if connect.COffer? then [connect.frame]
    else if owner.Polling? then HeldByPoll(p)
    else HeldByWs(w)
  }

  predicate Brings(connect: ConnectPc, owner: TransportName, p: PT.Transport, w: WT.Transport, ctxDone: bool) {
    if owner.Polling? then connect.CRequest? || connect.CGet? || (connect.COk? && PollBrings(p, ctxDone))
    else WsBrings(w)
  }

  /** Frames that the message loop has not taken, oldest first. */
  function Line(s: State): seq<Frame> {
    s.queue + Held(s.connect, s.owner, s.poll, s.ws)
  }

  predicate More(s: State) {
    Brings(s.connect, s.owner, s.poll, s.ws, s.ctxDone)
  }

  function EnvOf(s: State): Env {
    Env(s.transport.Some?, s.gates != [], s.owner, s.supported)
  }

  predicate LineClears(s: State, k: Gating, line: seq<Frame>) {
    Clears(k, line, More(s), EnvOf(s), ROOT in s.known)
  }

  /** A caller at the handshake gate can be released. */
  predicate HandshakeReleasable(s: State) {
    match s.msg
    case MOff => false
    case MExited => false
    case MIdle => LineClears(s, AtHandshake, Line(s))
    case MDispatch(f) => LineClears(s, AtHandshake, [f] + Line(s))
    case MDecide(upgrades) => upgrades == [] || s.transport.Some?
    case MLock(_) => s.transport.Some?
    case MProbe(_) => s.transport.Some?
    case MUpgradeSent => false
    case _ => true
  }

  /** A caller at the latest upgrade gate can be released. */
  predicate UpgradeReleasable(s: State, k: Gating) {
    match s.msg
    case MOff => false
    case MExited => false
    case MIdle => LineClears(s, k, Line(s))
    case MDispatch(f) => LineClears(s, k, [f] + Line(s))
    case MDecide(upgrades) =>
      && (upgrades == [] || (s.transport.Some? && UpgradeTarget(s.owner, s.supported, upgrades).None?))
      && LineClears(s, k, Line(s))
    case MLock(_) => false
    case MProbe(_) => s.transport.Some?
    case MOpenGate(_, _) => LineClears(s, k, Line(s))
    case _ => true
  }

  /** The exact condition for a release, which the theorems below justify. */
  predicate Releasable(s: State, k: Gating) {
    match k
    case AtHandshake => HandshakeReleasable(s)
    case AtUpgrade(g) => g == |s.gates| - 1 && UpgradeReleasable(s, k)
  }

  // ------------------------------------------------------------------ steps beside the message loop

  lemma PollFlows(p: PT.Transport, a: PT.LoopAct, ctxDone: bool, room: bool)
    requires PT.Enabled(p, a, ctxDone, room) && PT.GateRespected(p)
    ensures
      var q := PT.LoopNext(p, a);
      if PT.LoopEffect(p, a).Enqueue?
      then
        && HeldByPoll(p) == [PT.LoopEffect(p, a).frame] && HeldByPoll(q) == []
        && (PollBrings(q, ctxDone) ==> PollBrings(p, ctxDone))
      else Flows(HeldByPoll(p), PollBrings(p, ctxDone), HeldByPoll(q), PollBrings(q, ctxDone))
  {
  }

  lemma SameRunFlows(w: WT.Transport, v: WT.Transport)
    requires WT.SameRun(w, v)
    ensures HeldByWs(v) == HeldByWs(w) && WsBrings(v) == WsBrings(w)
  {
  }

  lemma ReaderFlows(w: WT.Transport, a: WT.LoopAct, ctxDone: bool, room: bool)
    requires WT.Enabled(w, a, ctxDone, room) && WT.IsSideAct(a) && !WT.IsStaleAct(a)
    requires w.loop.Selecting? && WT.Outstanding(w) == 1 && w.conn.Some?
    ensures
      var v := WT.LoopNext(w, a);
      && WT.LoopEffect(w, a).Silent?
      && Flows(HeldByWs(w), WsBrings(w), HeldByWs(v), WsBrings(v))
  {
    if a.ReaderDelivers? {
      assert w.holding == [w.holding[a.i]] && w.inbox == [];
    }
  }

  /** After the loop has returned nothing more is forwarded. */
  lemma IdleReaderFlows(w: WT.Transport, a: WT.LoopAct)
    requires WT.IsSideAct(a) && !w.loop.Spawning? && !w.loop.Selecting? && !w.loop.Forwarding?
    ensures
      var v := WT.LoopNext(w, a);
      WT.LoopEffect(w, a).Silent? && Flows(HeldByWs(w), WsBrings(w), HeldByWs(v), WsBrings(v))
  {
    WT.SideKeepsLoop(w, a);
    hide WT.LoopNext;
  }

  lemma LoopFlows(w: WT.Transport, a: WT.LoopAct, ctxDone: bool, room: bool)
    requires WT.Enabled(w, a, ctxDone, room) && InvReaders(w) && !WT.IsSideAct(a)
    ensures
      var v := WT.LoopNext(w, a);
      if WT.LoopEffect(w, a).Enqueue?
      then HeldByWs(w) == [WT.LoopEffect(w, a).frame] && HeldByWs(v) == [] && (WsBrings(v) ==> WsBrings(w))
      else Flows(HeldByWs(w), WsBrings(w), HeldByWs(v), WsBrings(v))
  {
  }

  /** With nothing outstanding no reader can move. */
  lemma ReadersOnlySelecting(w: WT.Transport, a: WT.LoopAct, ctxDone: bool, room: bool)
    requires WT.Enabled(w, a, ctxDone, room) && InvReaders(w) && WT.IsSideAct(a) && !WT.IsStaleAct(a)
    ensures !w.loop.Spawning? && !w.loop.Forwarding?
    ensures w.loop.Selecting? ==> WT.Outstanding(w) == 1 && w.conn.Some?
  {
  }

  lemma WsFlows(w: WT.Transport, a: WT.LoopAct, ctxDone: bool, room: bool)
    requires WT.Enabled(w, a, ctxDone, room) && InvReaders(w)
    ensures
      var v := WT.LoopNext(w, a);
      if WT.LoopEffect(w, a).Enqueue?
      then HeldByWs(w) == [WT.LoopEffect(w, a).frame] && HeldByWs(v) == [] && (WsBrings(v) ==> WsBrings(w))
      else Flows(HeldByWs(w), WsBrings(w), HeldByWs(v), WsBrings(v))
  {
    hide InvReaders, WT.Enabled, WT.LoopNext, WT.LoopEffect, HeldByWs, WsBrings, WT.Outstanding;
    if !WT.IsSideAct(a) {
      LoopFlows(w, a, ctxDone, room);
    } else {
      SideIsSilent(w, a);
      if WT.IsStaleAct(a) {
        WT.StaleIsOutside(w, a);
        SameRunFlows(w, WT.LoopNext(w, a));
      } else {
        ReadersOnlySelecting(w, a, ctxDone, room);
        if w.loop.Selecting? {
          ReaderFlows(w, a, ctxDone, room);
        } else {
          IdleReaderFlows(w, a);
        }
      }
    }
  }

  lemma SideIsSilent(w: WT.Transport, a: WT.LoopAct)
    requires WT.IsSideAct(a)
    ensures WT.LoopEffect(w, a).Silent?
  {
  }
}
