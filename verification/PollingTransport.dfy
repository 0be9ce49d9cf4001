/**
 The HTTP long-polling transport: its shared fields, its stop protocol and its polling loop, one atomic
 step at a time.  HTTP itself is the environment: a GET in flight may return a body or fail at any time.
 */
module PollingTransport {
  import opened Frames
  import opened TransportContract

  /** `handshakeDone`: not made yet, made and not closed, closed. */
  datatype Gate = NoGate | GateShut | GateOpen

  datatype LoopPc =
    | NotRunning
    | AwaitGate               // select on handshakeDone / stopPooling / ctx
    | LoopTop                 // non-blocking select before the next GET
    | InGet                   // poll(): request in flight, or its body being read
    | Offering(frame: Frame)  // poll(): select on messages / ctx / stopCh
    | PollFailed              // poll() returned an error
    | BackingOff              // select on timer / stopPooling / ctx
    | Finishing               // finishPolling, before stopped := 1
    | Signalling              // finishPolling, before onClose <-
    | Exited

  /** Program counter of one call of Stop. */
  datatype StopPc = StopCas | StopCancel | StopBroadcast | StopToken | StopReturned

  /**
   The transport object.  `token` is the value buffered in stopPooling, `broadcast` says that stopCh is
   closed, `once` that stopOnce is spent, `cancelled` that reqCtx is cancelled.  `onClose` numbers the
   channel given to the latest Run.  `fed` and `closes` record what that Run has done so far.
   */
  datatype Transport = Transport(
    sid: bool,
    gate: Gate,
    stopped: bool,
    token: bool,
    broadcast: bool,
    once: bool,
    cancelled: bool,
    onClose: nat,
    loop: LoopPc,
    fed: seq<Frame>,
    closes: nat)

  /** Run, which makes the gate and stores the url, has not been called. */
  predicate NeverRun(p: Transport) {
    p.gate.NoGate?
  }

  const NEW := Transport(false, NoGate, false, false, false, false, false, 0, NotRunning, [], 0)

  predicate Live(p: Transport) {
    !p.loop.NotRunning? && !p.loop.Exited?
  }

  /** markHandshakeDoneLocked */
  function MarkHandshakeDone(p: Transport): Transport {
    if p.gate.GateShut? then p.(gate := GateOpen) else p
  }

  function SetHandshake(p: Transport): Transport {
    MarkHandshakeDone(p.(sid := true))
  }

  function Run(p: Transport, sid: bool, onClose: nat): Transport {
    var q := p.(sid := sid, gate := GateShut);
    var r := if sid then MarkHandshakeDone(q) else q;
    r.(stopped := false, token := false, broadcast := false, once := false, cancelled := false,
       onClose := onClose, loop := AwaitGate, fed := [], closes := 0)
  }

  /** One step of Stop, and where it goes next. */
  function StopStep(p: Transport, pc: StopPc): (Transport, StopPc) {
    match pc
    case StopCas => if p.stopped then (p, StopReturned) else (p.(stopped := true), StopCancel)
    case StopCancel => if p.once then (p, StopToken) else (p.(once := true, cancelled := true), StopBroadcast)
    case StopBroadcast => (p.(broadcast := true), StopToken)
    case StopToken => (p.(token := true), StopReturned)
    case StopReturned => (p, StopReturned)
  }

  datatype LoopAct =
    | GatePasses | GateStops | GateCancels
    | TopStops | TopCancels | TopPolls
    | GetReturns(frame: Frame) | GetFails
    | OfferSent | OfferCancels | OfferStops
    | CheckStopped | CheckCancelled | CheckRetries
    | BackoffElapses | BackoffStops | BackoffCancels
    | StoreStopped | PutClose

  /** Which loop steps the select statements, the flags and the environment permit. */
  predicate Enabled(p: Transport, a: LoopAct, ctxDone: bool, room: bool) {
    match a
    case GatePasses => p.loop.AwaitGate? && p.gate.GateOpen?
    case GateStops => p.loop.AwaitGate? && p.token
    case GateCancels => p.loop.AwaitGate? && ctxDone
    case TopStops => p.loop.LoopTop? && p.token
    case TopCancels => p.loop.LoopTop? && ctxDone
    case TopPolls => p.loop.LoopTop? && !p.token && !ctxDone
    case GetReturns(_) => p.loop.InGet?
    case GetFails => p.loop.InGet?
    case OfferSent => p.loop.Offering? && room
    case OfferCancels => p.loop.Offering? && ctxDone
    case OfferStops => p.loop.Offering? && p.broadcast
    case CheckStopped => p.loop.PollFailed? && p.stopped
    case CheckCancelled => p.loop.PollFailed? && !p.stopped && ctxDone
    case CheckRetries => p.loop.PollFailed? && !p.stopped && !ctxDone
    case BackoffElapses => p.loop.BackingOff?
    case BackoffStops => p.loop.BackingOff? && p.token
    case BackoffCancels => p.loop.BackingOff? && ctxDone
    case StoreStopped => p.loop.Finishing?
    case PutClose => p.loop.Signalling?
  }

  function LoopNext(p: Transport, a: LoopAct): Transport {
    match a
    case GatePasses => p.(loop := LoopTop)
    case GateStops => p.(token := false, loop := Finishing)
    case GateCancels => p.(loop := Finishing)
    case TopStops => p.(token := false, loop := Finishing)
    case TopCancels => p.(loop := Finishing)
    case TopPolls => p.(loop := InGet)
    case GetReturns(f) => p.(loop := Offering(f))
    case GetFails => p.(loop := PollFailed)
    case OfferSent =>
      if p.loop.Offering? then p.(loop := LoopTop, fed := p.fed + [p.loop.frame]) else p
    case OfferCancels => p.(loop := PollFailed)
    case OfferStops => p.(loop := Finishing)
    case CheckStopped => p.(loop := Finishing)
    case CheckCancelled => p.(loop := Finishing)
    case CheckRetries => p.(loop := BackingOff)
    case BackoffElapses => p.(loop := LoopTop)
    case BackoffStops => p.(token := false, loop := Finishing)
    case BackoffCancels => p.(loop := Finishing)
    case StoreStopped => p.(stopped := true, loop := Signalling)
    case PutClose => p.(loop := Exited, closes := p.closes + 1)
  }

  function LoopEffect(p: Transport, a: LoopAct): Effect {
    match a
    case OfferSent => if p.loop.Offering? then Enqueue(p.loop.frame) else Silent
    case PutClose => Signal
    case _ => Silent
  }

  // ------------------------------------------------------------------ refinement of the contract

  /** Past the handshake gate means that the gate is open. */
  predicate PastGate(p: Transport) {
    p.loop.LoopTop? || p.loop.InGet? || p.loop.Offering? || p.loop.PollFailed? || p.loop.BackingOff?
  }

  predicate GateRespected(p: Transport) {
    PastGate(p) ==> p.gate.GateOpen?
  }

  function Abstract(p: Transport): Session {
    Session(!p.gate.GateOpen?, Live(p), p.fed, p.closes)
  }

  /** Everything that can happen to the object during one Run. */
  datatype Move = ByLoop(act: LoopAct, ctxDone: bool, room: bool) | ByStop(pc: StopPc) | ByHandshake

  ghost predicate MoveStep(p: Transport, m: Move, q: Transport) {
    match m
    case ByLoop(a, ctxDone, room) => Enabled(p, a, ctxDone, room) && q == LoopNext(p, a)
    case ByStop(pc) => q == StopStep(p, pc).0
    case ByHandshake => q == SetHandshake(p)
  }

  function MoveEffect(p: Transport, m: Move): Effect {
    if m.ByLoop? then LoopEffect(p, m.act) else Silent
  }

  lemma LoopRefines(p: Transport, a: LoopAct, ctxDone: bool, room: bool)
    requires GateRespected(p) && Enabled(p, a, ctxDone, room)
    ensures GateRespected(LoopNext(p, a))
    ensures Allows(Abstract(p), LoopEffect(p, a), Abstract(LoopNext(p, a)))
  {
  }

  lemma StopRefines(p: Transport, pc: StopPc)
    requires GateRespected(p)
    ensures GateRespected(StopStep(p, pc).0)
    ensures Allows(Abstract(p), Silent, Abstract(StopStep(p, pc).0))
  {
  }

  lemma HandshakeRefines(p: Transport)
    requires GateRespected(p)
    ensures GateRespected(SetHandshake(p))
    ensures Allows(Abstract(p), Silent, Abstract(SetHandshake(p)))
  {
  }

  lemma MoveRefines(p: Transport, m: Move, q: Transport)
    requires GateRespected(p) && MoveStep(p, m, q)
    ensures GateRespected(q)
    ensures Allows(Abstract(p), MoveEffect(p, m), Abstract(q))
  {
    match m
    case ByLoop(a, ctxDone, room) =>
      LoopRefines(p, a, ctxDone, room);
    case ByStop(pc) =>
      StopRefines(p, pc);
    case ByHandshake =>
      HandshakeRefines(p);
  }

  ghost predicate MoveRun(ps: seq<Transport>, ms: seq<Move>) {
    && |ps| == |ms| + 1
    && forall i :: 0 <= i < |ms| ==> MoveStep(ps[i], ms[i], ps[i + 1])
  }

  function Effects(ps: seq<Transport>, ms: seq<Move>): seq<Effect>
    requires |ps| == |ms| + 1
  {
    seq(|ms|, i requires 0 <= i < |ms| => MoveEffect(ps[i], ms[i]))
  }

  function Abstracts(ps: seq<Transport>): seq<Session> {
    seq(|ps|, i requires 0 <= i < |ps| => Abstract(ps[i]))
  }

  lemma {:induction false} GateRespectedThroughout(ps: seq<Transport>, ms: seq<Move>, k: nat)
    requires MoveRun(ps, ms) && GateRespected(ps[0]) && k < |ps|
    ensures GateRespected(ps[k])
  {
    if k > 0 {
      GateRespectedThroughout(ps, ms, k - 1);
      MoveRefines(ps[k - 1], ms[k - 1], ps[k]);
    }
  }

  /** Whatever the object was before, every execution after Run is a session of the contract. */
  lemma RunIsSession(old': Transport, sid: bool, onClose: nat, ps: seq<Transport>, ms: seq<Move>)
    requires MoveRun(ps, ms) && ps[0] == Run(old', sid, onClose)
    ensures SessionRun(Abstracts(ps), Effects(ps, ms))
  {
    forall i | 0 <= i < |ms|
      ensures Allows(Abstracts(ps)[i], Effects(ps, ms)[i], Abstracts(ps)[i + 1])
    {
      GateRespectedThroughout(ps, ms, i);
      MoveRefines(ps[i], ms[i], ps[i + 1]);
    }
  }

  /**
   Every execution after Run puts one close signal if its loop has exited and none before, hands over just
   the frames recorded in `fed`, and does nothing after the signal.
   */
  lemma OneSignal(old': Transport, sid: bool, onClose: nat, ps: seq<Transport>, ms: seq<Move>)
    requires MoveRun(ps, ms) && ps[0] == Run(old', sid, onClose)
    ensures Signals(Effects(ps, ms)) == if Live(ps[|ms|]) then 0 else 1
    ensures Fed(Effects(ps, ms)) == ps[|ms|].fed
    ensures forall i, j :: 0 <= i < j < |ms| && Effects(ps, ms)[i].Signal? ==> Effects(ps, ms)[j].Silent?
  {
    RunIsSession(old', sid, onClose, ps, ms);
    ContractHolds(Abstracts(ps), Effects(ps, ms));
  }

  // ------------------------------------------------------------------ the order of the loop's steps

  /**
   Which step of the loop can come after which.  After a body was handed over, or a pause is over, the loop looks
   for a stop and then issues the next GET; after a failure it looks whether it was stopped or cancelled, and only
   otherwise pauses; every way out stores the flag and puts the signal.
   */
  predicate MayFollow(a: LoopAct, b: LoopAct) {
    match a
    case GatePasses => b.TopStops? || b.TopCancels? || b.TopPolls?
    case TopPolls => b.GetReturns? || b.GetFails?
    case GetReturns(_) => b.OfferSent? || b.OfferCancels? || b.OfferStops?
    case GetFails => b.CheckStopped? || b.CheckCancelled? || b.CheckRetries?
    case OfferSent => b.TopStops? || b.TopCancels? || b.TopPolls?
    case OfferCancels => b.CheckStopped? || b.CheckCancelled? || b.CheckRetries?
    case CheckRetries => b.BackoffElapses? || b.BackoffStops? || b.BackoffCancels?
    case BackoffElapses => b.TopStops? || b.TopCancels? || b.TopPolls?
    case StoreStopped => b.PutClose?
    case PutClose => false
    case _ => b.StoreStopped?
  }

  /** No step of the loop between `i` and `j`. */
  ghost predicate LoopPauses(ms: seq<Move>, i: nat, j: nat) {
    forall k :: i <= k < j && k < |ms| ==> !ms[k].ByLoop?
  }

  lemma {:induction false} LoopStays(ps: seq<Transport>, ms: seq<Move>, i: nat, j: nat)
    requires MoveRun(ps, ms) && i <= j < |ps| && LoopPauses(ms, i, j)
    ensures ps[j].loop == ps[i].loop
    decreases j
  {
    if i < j {
      LoopStays(ps, ms, i, j - 1);
      assert MoveStep(ps[j - 1], ms[j - 1], ps[j]);
    }
  }

  lemma StepOrder(p: Transport, a: LoopAct, q: Transport, b: LoopAct, ctxDone: bool, room: bool)
    requires (exists c, r :: Enabled(p, a, c, r)) && q.loop == LoopNext(p, a).loop && Enabled(q, b, ctxDone, room)
    ensures MayFollow(a, b)
    ensures a.GetReturns? && b.OfferSent? ==> LoopEffect(q, b) == Enqueue(a.frame)
  {
  }

  /** Over every execution: two steps of the loop with none in between; a body that is handed over is the GET's. */
  lemma LoopOrder(ps: seq<Transport>, ms: seq<Move>, i: nat, j: nat)
    requires MoveRun(ps, ms) && i < j < |ms| && ms[i].ByLoop? && ms[j].ByLoop? && LoopPauses(ms, i + 1, j)
    ensures MayFollow(ms[i].act, ms[j].act)
    ensures ms[i].act.GetReturns? && ms[j].act.OfferSent? ==> MoveEffect(ps[j], ms[j]) == Enqueue(ms[i].act.frame)
  {
    hide Enabled, LoopNext, LoopEffect, MayFollow;
    assert MoveStep(ps[i], ms[i], ps[i + 1]) && MoveStep(ps[j], ms[j], ps[j + 1]);
    LoopStays(ps, ms, i + 1, j);
    StepOrder(ps[i], ms[i].act, ps[j], ms[j].act, ms[j].ctxDone, ms[j].room);
  }

  /** And the first one waits for the handshake gate, a stop or the context. */
  lemma LoopStarts(old': Transport, sid: bool, onClose: nat, ps: seq<Transport>, ms: seq<Move>, j: nat)
    requires MoveRun(ps, ms) && ps[0] == Run(old', sid, onClose) && j < |ms| && ms[j].ByLoop? && LoopPauses(ms, 0, j)
    ensures ms[j].act.GatePasses? || ms[j].act.GateStops? || ms[j].act.GateCancels?
    ensures ms[j].act.GatePasses? ==> sid || exists k :: 0 <= k < j && ms[k].ByHandshake?
  {
    assert MoveStep(ps[j], ms[j], ps[j + 1]);
    LoopStays(ps, ms, 0, j);
    if forall k :: 0 <= k < j ==> !ms[k].ByHandshake? {
      GateStays(ps, ms, j);
    }
  }

  lemma {:induction false} GateStays(ps: seq<Transport>, ms: seq<Move>, j: nat)
    requires MoveRun(ps, ms) && j < |ps| && LoopPauses(ms, 0, j) && forall k :: 0 <= k < j ==> !ms[k].ByHandshake?
    ensures ps[j].gate == ps[0].gate
  {
    if j > 0 {
      GateStays(ps, ms, j - 1);
      assert MoveStep(ps[j - 1], ms[j - 1], ps[j]);
    }
  }

  // ------------------------------------------------------------------ stopping

  /** Nobody has called Stop since Run; the flag is set only by a loop that is already finishing. */
  predicate Unstopped(p: Transport) {
    && !p.token && !p.broadcast && !p.once && !p.cancelled
    && (p.stopped ==> p.loop.Signalling? || p.loop.Exited?)
  }

  /** A call of Stop has returned: the loop is finishing, or every stop signal is in place. */
  predicate Notified(p: Transport) {
    && p.stopped
    && (p.loop.Finishing? || p.loop.Signalling? || p.loop.Exited?
        || (p.once && p.cancelled && p.broadcast && p.token))
  }

  /** What holds of the object while a call of Stop is at `pc`. */
  predicate StopStage(p: Transport, pc: StopPc) {
    match pc
    case StopCas => Unstopped(p)
    case StopCancel => p.stopped && !p.once && !p.cancelled && !p.broadcast && !p.token
    case StopBroadcast => p.stopped && p.once && p.cancelled && !p.broadcast && !p.token
    case StopToken => p.stopped && p.once && p.cancelled && p.broadcast && !p.token
    case StopReturned => Notified(p)
  }

  /** Each step of Stop reaches the next stage, and stopCh is never closed twice. */
  lemma StopAdvances(p: Transport, pc: StopPc)
    requires StopStage(p, pc)
    ensures StopStage(StopStep(p, pc).0, StopStep(p, pc).1)
    ensures pc.StopBroadcast? ==> !p.broadcast
  {
  }

  /** The loop cannot disturb a Stop in progress. */
  lemma LoopKeepsStopStage(p: Transport, pc: StopPc, a: LoopAct, ctxDone: bool, room: bool)
    requires StopStage(p, pc) && Enabled(p, a, ctxDone, room)
    ensures StopStage(LoopNext(p, a), pc)
  {
  }

  /** How many more steps the loop can take once Stop has returned. */
  function Rank(p: Transport): nat {
    match p.loop
    case InGet => 5
    case Offering(_) => 4
    case AwaitGate => 4
    case BackingOff => 4
    case LoopTop => 3
    case PollFailed => 3
    case Finishing => 2
    case Signalling => 1
    case _ => 0
  }

  /** How many more frames the loop can hand over once Stop has returned. */
  function Budget(p: Transport): nat {
    if p.loop.InGet? || p.loop.Offering? then 1 else 0
  }

  lemma StopProgress(p: Transport, a: LoopAct, ctxDone: bool, room: bool)
    requires Notified(p) && Enabled(p, a, ctxDone, room)
    ensures Notified(LoopNext(p, a))
    ensures Rank(LoopNext(p, a)) < Rank(p)
    ensures Budget(LoopNext(p, a)) + FrameCount(LoopEffect(p, a)) <= Budget(p)
  {
  }

  /**
   The step by which a stopped loop can always move on.  It needs no room in `messages`, whatever the
   context does; a GET in flight fails because its request context is cancelled.
   */
  function Escape(p: Transport): (a: LoopAct)
    requires Notified(p) && Live(p)
    ensures forall ctxDone: bool :: Enabled(p, a, ctxDone, false)
    ensures a.GetFails? ==> p.cancelled
  {
    match p.loop
    case AwaitGate => GateStops
    case LoopTop => TopStops
    case InGet => GetFails
    case Offering(_) => OfferStops
    case PollFailed => CheckStopped
    case BackingOff => BackoffStops
    case Finishing => StoreStopped
    case _ => PutClose
  }

  function LoopMoves(ms: seq<Move>): nat {
    if ms == [] then 0 else LoopMoves(ms[1..]) + (if ms[0].ByLoop? then 1 else 0)
  }

  /**
   Over every execution that follows a returned Stop, whatever else is called on the object, the loop
   takes at most five more steps and hands over at most one more frame.
   */
  lemma {:induction false} StopEnds(ps: seq<Transport>, ms: seq<Move>)
    requires MoveRun(ps, ms) && Notified(ps[0])
    requires forall i :: 0 <= i < |ms| ==> ms[i].ByStop? ==> ms[i].pc.StopCas?
    ensures Notified(ps[|ms|])
    ensures LoopMoves(ms) + Rank(ps[|ms|]) <= Rank(ps[0]) <= 5
    ensures |ps[|ms|].fed| + Budget(ps[|ms|]) <= |ps[0].fed| + Budget(ps[0]) <= |ps[0].fed| + 1
  {
    if ms != [] {
      assert MoveStep(ps[0], ms[0], ps[1]);
      if ms[0].ByLoop? {
        StopProgress(ps[0], ms[0].act, ms[0].ctxDone, ms[0].room);
        FedByLoop(ps[0], ms[0].act);
      } else {
        QuietMove(ps[0], ms[0], ps[1]);
      }
      assert MoveRun(ps[1..], ms[1..]) by {
        forall i | 0 <= i < |ms[1..]|
          ensures MoveStep(ps[1..][i], ms[1..][i], ps[1..][i + 1])
        {
          assert MoveStep(ps[i + 1], ms[i + 1], ps[i + 2]);
        }
      }
      StopEnds(ps[1..], ms[1..]);
    }
  }

  lemma FedByLoop(p: Transport, a: LoopAct)
    ensures |LoopNext(p, a).fed| == |p.fed| + FrameCount(LoopEffect(p, a))
  {
    match a
    case OfferSent =>
    case PutClose =>
    case _ =>
      assert LoopEffect(p, a) == Silent;
  }

  lemma QuietMove(p: Transport, m: Move, q: Transport)
    requires Notified(p) && MoveStep(p, m, q) && !m.ByLoop?
    requires m.ByStop? ==> m.pc.StopCas?
    ensures Notified(q) && q.loop == p.loop && q.fed == p.fed
  {
  }

  // ------------------------------------------------------------------ reuse

  /** Run leaves nothing of the object's past, provided that no loop and no Stop of the past is still running. */
  lemma RunForgets(p: Transport, q: Transport, sid: bool, onClose: nat)
    ensures Run(p, sid, onClose) == Run(q, sid, onClose)
    ensures Unstopped(Run(p, sid, onClose)) && GateRespected(Run(p, sid, onClose))
  {
  }

}
