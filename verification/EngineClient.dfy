/**
 The Engine.IO client as a transition system: Connect, the message loop with its transport upgrade, any
 number of Send and Close calls, and the loops of both transports, interleaved step by step.  A step is
 one critical section, one channel operation or one call into a transport.

 Where the program would panic, the model records the crash and stops; the other fields of a crashed
 state mean nothing.  The client is one that NewClient builds without WithTransport, so it starts on
 polling whenever polling is supported.
 */
module EngineClient {
  import opened Options
  import opened Bytes
  import opened GoInt
  import opened Frames
  import opened TransportContract
  import PT = PollingTransport
  import WT = WebsocketTransport

  /** Capacity of the `messages` channel. */
  const CAPACITY := 100

  /** One `transportClosed` channel: empty, holding the loop's signal, emptied by a receiver, closed. */
  datatype CloseChan = Fresh | Signalled | Drained | Shut

  /** `waitHandshake`: nil, made, closed. */
  datatype Gate = Absent | Waiting | Opened

  datatype Crash = NilTransport | NilUrl | NilGate | NilPacket | BadTicker | DoubleClose | SendOnClosed

  datatype ConnectPc =
    | CStart                     // before transport.Run
    | CLaunch                    // before `go messageLoop`
    | CInstall                   // before waitHandshake is made
    | CRequest                   // before RequestHandshake
    | CGet                       // polling: the handshake GET is in flight
    | COffer(frame: Frame)       // polling: its body is offered to `messages`
    | CStop(stop: PT.StopPc)     // the request failed: stopping the transport
    | CWait | CClose | CJoin     // receiving transportClosed, closing messages, joining the message loop
    | COk | CFailed

  datatype MsgPc =
    | MOff | MIdle | MExited
    | MDispatch(frame: Frame)
    | MDecide(upgrades: seq<Offer>)                      // every transport knows the sid
    | MLock(target: TransportName)                       // before transportMu.Lock in transportUpgrade
    | MStop(target: TransportName, stop: PT.StopPc)
    | MWait(target: TransportName)                       // receiving transportClosed
    | MRun(target: TransportName)
    | MProbe(target: TransportName)
    | MProbeFailed(target: TransportName)
    | MOpenGate(ok: bool, upgraded: Option<TransportName>) // before waitHandshake is closed
    | MUpgradeSent                                       // UPGRADE attempted, waitUpgrade not yet closed

  /** Who calls Send: the Socket.IO connect hook, a Socket.IO Emit, or any other user of the engine. */
  datatype Caller = Hook | Emit | Bare

  datatype SendPc = SNew | SAwaitHandshake | SAwaitUpgrade | SPick | SHand(via: TransportName) | SDone

  /** `saw` is the waitUpgrade channel that the snapshot at the start of Send found. */
  datatype Sender = Sender(caller: Caller, saw: Option<nat>, pc: SendPc)

  datatype ClosePc =
    | KStop(via: TransportName, stop: PT.StopPc)
    | KWait | KClose | KJoin
    | KReturned(waited: bool)

  datatype Packet = ProbePacket | UpgradePacket | PongPacket | MessagePacket(caller: Caller, saw: Option<nat>)

  /** A packet handed to a transport's SendMessage. */
  datatype Sent = Sent(via: TransportName, packet: Packet)

  /**
   `owner` is the transport of the latest Run.  `gates` lists every waitUpgrade channel made, true when
   closed, and `made` how many packets had been handed over when it was made; `wu` is the current one.
   `chans` lists every transportClosed channel made, the last one current.  `winner` is the Close call that
   took the transport.  `defaultNs` is the default Socket.IO namespace, `nsOpen` its connect gate, `known`
   the namespaces that exist.  `enq`, `delivered`, `sent` and `upgraded` record the run.
   */
  datatype State = State(
    supported: set<TransportName>,
    transport: Option<TransportName>,
    owner: TransportName,
    locked: bool,
    sid: bool,
    wh: Gate,
    whSpent: bool,
    gates: seq<bool>,
    made: seq<nat>,
    wu: Option<nat>,
    wuSpent: bool,
    queue: seq<Frame>,
    queueClosed: bool,
    chans: seq<CloseChan>,
    poll: PT.Transport,
    ws: WT.Transport,
    connect: ConnectPc,
    msg: MsgPc,
    senders: map<nat, Sender>,
    closers: map<nat, ClosePc>,
    winner: Option<nat>,
    defaultNs: Bytes,
    nsOpen: bool,
    known: set<Bytes>,
    ctxDone: bool,
    enq: seq<Frame>,
    delivered: seq<Bytes>,
    sent: seq<Sent>,
    upgraded: bool,
    crash: Option<Crash>)

  function First(supported: set<TransportName>): TransportName {
    if Polling in supported then Polling else Websocket
  }

  /** A client before Connect; `sid` says that it knows a session id already. */
  function InitialState(supported: set<TransportName>, sid: bool, defaultNs: Bytes): State {
    State(supported, Some(First(supported)), First(supported), false, sid, Absent, false, [], [], None, false,
          [], false, [], PT.NEW, WT.NEW, CStart, MOff, map[], map[], None,
          defaultNs, false, {defaultNs}, false, [], [], [], false, None)
  }

  /** The transport that a use of `c.transport` reaches; using it when it is nil is a crash. */
  function Via(s: State): TransportName {
    if s.transport.Some? then s.transport.value else s.owner
  }

  function NilCheck(s: State): Option<Crash> {
    if s.transport.None? then Some(NilTransport) else s.crash
  }

  // ------------------------------------------------------------------ choosing the upgrade

  /** The upgrade that handleHandshake attempts: the list is read up to the first entry that settles it. */
  function UpgradeTarget(current: TransportName, supported: set<TransportName>,
                         upgrades: seq<Offer>): (t: Option<TransportName>)
    ensures t.Some? ==> t.value in supported && t.value != current && Named(t.value) in upgrades
  {
    if upgrades == [] then None
    else if upgrades[0] == Named(current) then None
    else if upgrades[0].Named? && upgrades[0].name in supported then Some(upgrades[0].name)
    else UpgradeTarget(current, supported, upgrades[1..])
  }

  /** An entry that ends the search: the transport in use, or one that is supported. */
  predicate Settles(o: Offer, current: TransportName, supported: set<TransportName>) {
    o == Named(current) || (o.Named? && o.name in supported)
  }

  /** The first entry that settles the search decides; without one there is no upgrade. */
  lemma {:induction false} FirstSettles(current: TransportName, supported: set<TransportName>, upgrades: seq<Offer>)
      returns (i: nat)
    ensures i <= |upgrades| && (i < |upgrades| ==> Settles(upgrades[i], current, supported))
    ensures forall j :: 0 <= j < i ==> !Settles(upgrades[j], current, supported)
    ensures UpgradeTarget(current, supported, upgrades) ==
            if i == |upgrades| || upgrades[i] == Named(current) then None else Some(upgrades[i].name)
  {
    if upgrades == [] || Settles(upgrades[0], current, supported) {
      i := 0;
    } else {
      var rest := FirstSettles(current, supported, upgrades[1..]);
      i := rest + 1;
      assert forall j :: 0 < j < i ==> upgrades[j] == upgrades[1..][j - 1];
    }
  }

  /** The loop of handleHandshake over the upgrade list. */
  method ChooseUpgrade(current: TransportName, supported: set<TransportName>, upgrades: seq<Offer>)
    returns (t: Option<TransportName>)
    ensures t == UpgradeTarget(current, supported, upgrades)
  {
    t := None;
    var i := 0;
    while i < |upgrades|
      invariant 0 <= i <= |upgrades|
      invariant t.None?
      invariant UpgradeTarget(current, supported, upgrades[i..]) == UpgradeTarget(current, supported, upgrades)
    {
      if upgrades[i] == Named(current) {
        break;
      }
      if upgrades[i].Named? && upgrades[i].name in supported {
        t := Some(upgrades[i].name);
        break;
      }
      assert upgrades[i..][1..] == upgrades[i + 1..];
      i := i + 1;
    }
  }

  // ------------------------------------------------------------------ transport loops

  /** A send on `messages` proceeds when there is room; on a closed channel it does not block, it panics. */
  predicate CanSend(s: State) {
    s.queueClosed || |s.queue| < CAPACITY
  }

  /** The put on onClose; only the websocket loop reaches it with a full channel without blocking. */
  function ChansAfter(chans: seq<CloseChan>, e: Effect, chan: nat): seq<CloseChan> {
    if e.Signal? && chan < |chans| && chans[chan].Fresh? then chans[chan := Signalled] else chans
  }

  /** `messages` and its history after an effect. */
  function FramesAfter(fs: seq<Frame>, e: Effect, closed: bool): seq<Frame> {
    if e.Enqueue? && !closed then fs + [e.frame] else fs
  }

  /** A send on a closed channel panics. */
  function EffectCrash(s: State, e: Effect, chan: nat): Option<Crash> {
    if e.Enqueue? && s.queueClosed then Some(SendOnClosed)
    else if e.Signal? && chan < |s.chans| && s.chans[chan].Shut? then Some(SendOnClosed)
    else s.crash
  }

  predicate PollEnabled(s: State, a: PT.LoopAct) {
    && PT.Enabled(s.poll, a, s.ctxDone, CanSend(s))
    && (a.PutClose? ==> s.poll.onClose < |s.chans| && (s.chans[s.poll.onClose].Fresh? || s.chans[s.poll.onClose].Shut?))
  }

  function PollStep(s: State, a: PT.LoopAct): State {
    var e := PT.LoopEffect(s.poll, a);
    s.(poll := PT.LoopNext(s.poll, a),
       queue := FramesAfter(s.queue, e, s.queueClosed),
       enq := FramesAfter(s.enq, e, s.queueClosed),
       chans := ChansAfter(s.chans, e, s.poll.onClose),
       crash := EffectCrash(s, e, s.poll.onClose))
  }

  predicate WsEnabled(s: State, a: WT.LoopAct) {
    WT.Enabled(s.ws, a, s.ctxDone, CanSend(s))
  }

  function WsStep(s: State, a: WT.LoopAct): State {
    var e := WT.LoopEffect(s.ws, a);
    s.(ws := WT.LoopNext(s.ws, a),
       queue := FramesAfter(s.queue, e, s.queueClosed),
       enq := FramesAfter(s.enq, e, s.queueClosed),
       chans := ChansAfter(s.chans, e, s.ws.onClose),
       crash := EffectCrash(s, e, s.ws.onClose))
  }

  /** One step of transport.Stop; closing stopCh twice panics. */
  function StopTransport(s: State, via: TransportName, pc: PT.StopPc): State {
    s.(poll := if via.Polling? then PT.StopStep(s.poll, pc).0 else s.poll,
       ws := if via.Websocket? then WT.Stop(s.ws) else s.ws,
       crash := if via.Polling? && pc.StopBroadcast? && s.poll.broadcast then Some(DoubleClose) else s.crash)
  }

  /** Where that call of Stop is afterwards. */
  function StopNext(s: State, via: TransportName, pc: PT.StopPc): PT.StopPc {
    if via.Polling? then PT.StopStep(s.poll, pc).1 else PT.StopReturned
  }

  /** Dial may fail; polling's Run cannot. */
  predicate RunSucceeds(via: TransportName, ok: bool) {
    via.Polling? || ok
  }

  /** transport.Run on a transportClosed channel that has just been made, and that is closed if Run fails. */
  function RunTransport(s: State, via: TransportName, ok: bool): State {
    s.(owner := via,
       chans := s.chans + [if RunSucceeds(via, ok) then Fresh else Shut],
       poll := if via.Polling? then PT.Run(s.poll, s.sid, |s.chans|) else s.poll,
       ws := if via.Polling? then s.ws else if ok then WT.Run(s.ws, |s.chans|) else WT.RunFails(s.ws))
  }

  predicate CanReceiveClose(s: State) {
    |s.chans| > 0 && (s.chans[|s.chans| - 1].Signalled? || s.chans[|s.chans| - 1].Shut?)
  }

  /** The channels after a receive from the current one. */
  function Received(chans: seq<CloseChan>): seq<CloseChan> {
    if |chans| > 0 && chans[|chans| - 1].Signalled? then chans[|chans| - 1 := Drained] else chans
  }

  function CloseQueue(s: State): State {
    s.(queueClosed := true, crash := if s.queueClosed then Some(DoubleClose) else s.crash)
  }

  // ------------------------------------------------------------------ Connect

  datatype ConnectAct =
    | RunIt(ok: bool) | Launch | Install | Request
    | GetReturns(frame: Frame) | GetFails
    | OfferSent | OfferCancels | OfferStops
    | Cleanup

  predicate ConnectEnabled(s: State, a: ConnectAct) {
    match a
    case RunIt(_) => s.connect.CStart?
    case Launch => s.connect.CLaunch?
    case Install => s.connect.CInstall? && !s.locked
    case Request => s.connect.CRequest?
    case GetReturns(_) => s.connect.CGet?
    case GetFails => s.connect.CGet?
    case OfferSent => s.connect.COffer? && CanSend(s)
    case OfferCancels => s.connect.COffer? && s.ctxDone
    case OfferStops => s.connect.COffer? && s.poll.broadcast
    case Cleanup =>
      || s.connect.CStop?
      || (s.connect.CWait? && CanReceiveClose(s))
      || s.connect.CClose?
      || (s.connect.CJoin? && s.msg.MExited?)
  }

  function ConnectStep(s: State, a: ConnectAct): State
    requires ConnectEnabled(s, a)
  {
    match a
    case RunIt(ok) =>
      RunTransport(s, First(s.supported), ok).(
        connect := if RunSucceeds(First(s.supported), ok) then CLaunch else CFailed)
    case Launch => s.(msg := MIdle, connect := CInstall)
    case Install => s.(wh := Waiting, whSpent := false, connect := CRequest)
    case Request => s.(connect := if Via(s).Polling? then CGet else COk, crash := NilCheck(s))
    case GetReturns(f) => s.(connect := COffer(f))
    case GetFails => s.(connect := CStop(PT.StopCas))
    case OfferSent => TakeOffer(s, s.connect.frame)
    case OfferCancels => s.(connect := CStop(PT.StopCas))
    case OfferStops => s.(connect := CStop(PT.StopCas))
    case Cleanup => CleanupStep(s)
  }

  function TakeOffer(s: State, f: Frame): State {
    s.(queue := FramesAfter(s.queue, Enqueue(f), s.queueClosed),
       enq := FramesAfter(s.enq, Enqueue(f), s.queueClosed),
       crash := EffectCrash(s, Enqueue(f), 0),
       connect := COk)
  }

  function CleanupStep(s: State): State
    requires ConnectEnabled(s, Cleanup)
  {
    match s.connect
    case CStop(pc) =>
      var next := StopNext(s, Via(s), pc);
      StopTransport(s.(crash := NilCheck(s)), Via(s), pc).(connect := if next.StopReturned? then CWait else CStop(next))
    case CWait => s.(chans := Received(s.chans), connect := CClose)
    case CClose => CloseQueue(s).(connect := CJoin)
    case CJoin => s.(connect := CFailed)
  }

  // ------------------------------------------------------------------ the message loop

  datatype MsgAct = Receive | ReceiveEnd | Cancel | Handle(ok: bool, hook: nat)

  predicate MsgEnabled(s: State, a: MsgAct) {
    match a
    case Receive => s.msg.MIdle? && s.queue != []
    case ReceiveEnd => s.msg.MIdle? && s.queue == [] && s.queueClosed
    case Cancel => s.msg.MIdle? && s.ctxDone
    case Handle(_, hook) =>
      && !s.msg.MOff? && !s.msg.MIdle? && !s.msg.MExited?
      && (s.msg.MLock? || s.msg.MProbeFailed? ==> !s.locked)
      && (s.msg.MWait? ==> CanReceiveClose(s))
      && (s.msg.MOpenGate? ==> hook !in s.senders)
  }

  function MsgStep(s: State, a: MsgAct): State
    requires MsgEnabled(s, a)
  {
    match a
    case Receive => s.(queue := s.queue[1..], msg := MDispatch(s.queue[0]))
    case ReceiveEnd => s.(msg := MExited)
    case Cancel => s.(msg := MExited)
    case Handle(ok, hook) => HandleStep(s, ok, hook)
  }

  function HandleStep(s: State, ok: bool, hook: nat): State
    requires MsgEnabled(s, Handle(ok, hook))
  {
    match s.msg
    case MDispatch(f) => Dispatch(s, f)
    case MDecide(upgrades) => Decide(s, upgrades)
    case MLock(target) => LockForUpgrade(s, target)
    case MStop(target, pc) => StopOld(s, target, pc)
    case MWait(target) => s.(chans := Received(s.chans), msg := MRun(target))
    case MRun(target) => RunNew(s, target, ok)
    case MProbe(target) => SendProbe(s, target, ok)
    case MProbeFailed(_) => CloseUpgradeGate(s).(msg := MOpenGate(false, None))
    case MOpenGate(good, _) => OpenHandshakeGate(s, good, hook)
    case MUpgradeSent => CloseUpgradeGate(s).(msg := MIdle)
  }

  /** Where handlePacket goes: into handleHandshake, to the upgrade gate, or back to the loop. */
  function AfterDispatch(f: Frame): MsgPc {
    match f
    case Open(valid, _, upgrades) => if valid then MDecide(upgrades) else MIdle
    case Pong(probe) => if probe then MUpgradeSent else MIdle
    case _ => MIdle
  }

  /** The packet that handlePacket answers with: PONG to PING, UPGRADE to the probe's PONG. */
  function Reply(f: Frame): Option<Packet> {
    match f
    case Ping => Some(PongPacket)
    case Pong(probe) => if probe then Some(UpgradePacket) else None
    case _ => None
  }

  /**
   The panic that handlePacket runs into right away: an answer on a nil transport, a ticker reset to an
   interval that is not positive, or a dereference of what an incomplete packet lacks.
   */
  function FrameCrash(s: State, f: Frame): Option<Crash> {
    if Reply(f).Some? then NilCheck(s)
    else if f.Open? && f.valid && TickerPanics(f.interval) then Some(BadTicker)
    else if f.Message? && f.packet.Incomplete? && ROOT in s.known then Some(NilPacket)
    else s.crash
  }

  /** A CONNECT creates its namespace if need be. */
  function KnownAfter(known: set<Bytes>, f: Frame): set<Bytes> {
    if f.Message? && f.packet.Connects? then known + {f.packet.ns} else known
  }

  /**
   handlePacket up to the first point where other goroutines matter: a valid OPEN gives the sid to every
   transport, a MESSAGE goes to the Socket.IO client, and some frames are answered on `c.transport`.
   */
  function Dispatch(s: State, f: Frame): State {
    var open := f.Open? && f.valid;
    s.(sid := s.sid || open,
       poll := if open && Polling in s.supported then PT.SetHandshake(s.poll) else s.poll,
       sent := s.sent + (if Reply(f).Some? then [Sent(Via(s), Reply(f).value)] else []),
       crash := FrameCrash(s, f),
       delivered := s.delivered + (if f.Message? then [f.data] else []),
       nsOpen := s.nsOpen || (f.Message? && f.packet == Connects(s.defaultNs)),
       known := KnownAfter(s.known, f),
       msg := AfterDispatch(f))
  }

  /** handleHandshake reads `c.transport` only if the upgrade list has an entry. */
  function Decide(s: State, upgrades: seq<Offer>): State {
    var t := UpgradeTarget(Via(s), s.supported, upgrades);
    s.(msg := if t.None? then MOpenGate(true, None) else MLock(t.value),
       crash := if upgrades == [] then s.crash else NilCheck(s))
  }

  function LockForUpgrade(s: State, target: TransportName): State {
    s.(locked := true, gates := s.gates + [false], made := s.made + [|s.sent|], wu := Some(|s.gates|), wuSpent := false,
       msg := MStop(target, PT.StopCas), crash := NilCheck(s))
  }

  function StopOld(s: State, target: TransportName, pc: PT.StopPc): State {
    var next := StopNext(s, Via(s), pc);
    StopTransport(s.(crash := NilCheck(s)), Via(s), pc).(
      msg := if next.StopReturned? then MWait(target) else MStop(target, next))
  }

  /** Run on the new transport; when it fails, failUpgrade closes the upgrade gate. */
  function RunNew(s: State, target: TransportName, ok: bool): State {
    var good := RunSucceeds(target, ok);
    RunTransport(s, target, ok).(
      transport := Some(target), locked := false,
      wuSpent := !good || s.wuSpent,
      gates := if good then s.gates else GatesAfter(s),
      crash := if good then s.crash else UpgradeGateCrash(s),
      msg := if good then MProbe(target) else MOpenGate(false, None))
  }

  function SendProbe(s: State, target: TransportName, ok: bool): State {
    s.(sent := s.sent + [Sent(Via(s), ProbePacket)], upgraded := s.upgraded || ok,
       msg := if ok then MOpenGate(true, Some(target)) else MProbeFailed(target), crash := NilCheck(s))
  }

  /** hadUpgrade.Do(close(waitUpgrade)) */
  function CloseUpgradeGate(s: State): State {
    s.(wuSpent := true, gates := GatesAfter(s), crash := UpgradeGateCrash(s))
  }

  function GatesAfter(s: State): seq<bool> {
    if !s.wuSpent && s.wu.Some? && s.wu.value < |s.gates| then s.gates[s.wu.value := true] else s.gates
  }

  function UpgradeGateCrash(s: State): Option<Crash> {
    if s.wuSpent then s.crash
    else if s.wu.None? || s.wu.value >= |s.gates| then Some(NilGate)
    else if s.gates[s.wu.value] then Some(DoubleClose)
    else s.crash
  }

  /** hadHandshake.Do(close(waitHandshake)), then the connect hook in its own goroutine. */
  function OpenHandshakeGate(s: State, good: bool, hook: nat): State {
    s.(whSpent := true, wh := Opened,
       crash := if s.whSpent then s.crash
                else match s.wh
                  case Absent => Some(NilGate)
                  case Opened => Some(DoubleClose)
                  case Waiting => s.crash,
       senders := if good then s.senders[hook := Sender(Hook, None, SNew)] else s.senders,
       msg := MIdle)
  }

  // ------------------------------------------------------------------ Send

  datatype SendAct = Start(caller: Caller) | Step

  predicate SendEnabled(s: State, id: nat, a: SendAct) {
    match a
    case Start(caller) =>
      && id !in s.senders
      && (caller.Bare? || (caller.Emit? && s.nsOpen))
    case Step =>
      && id in s.senders
      && match s.senders[id].pc
         case SNew => !s.locked
         case SAwaitHandshake => s.wh.Opened?
         case SAwaitUpgrade =>
           && s.senders[id].saw.Some?
           && s.senders[id].saw.value < |s.gates| && s.gates[s.senders[id].saw.value]
         case SPick => !s.locked
         case SHand(_) => true
         case SDone => false
  }

  function SendStep(s: State, id: nat, a: SendAct): State
    requires SendEnabled(s, id, a)
  {
    match a
    case Start(caller) => s.(senders := s.senders[id := Sender(caller, None, SNew)])
    case Step =>
      s.(senders := s.senders[id := NextSender(s, s.senders[id])],
         sent := s.sent + Handed(s.senders[id]),
         crash := HandCrash(s, s.senders[id].pc))
  }

  /** The polling transport's url is nil until its first Run; building a request from it panics. */
  function HandCrash(s: State, pc: SendPc): Option<Crash> {
    if pc == SHand(Polling) && PT.NeverRun(s.poll) then Some(NilUrl) else s.crash
  }

  /** The MESSAGE that a caller at its last step hands to the transport it picked. */
  function Handed(me: Sender): seq<Sent> {
    if me.pc.SHand? then [Sent(me.pc.via, MessagePacket(me.caller, me.saw))] else []
  }

  /** The snapshot of both gates, the two waits, and the choice of the transport. */
  function NextSender(s: State, me: Sender): Sender {
    match me.pc
    case SNew =>
      me.(saw := s.wu, pc := if !s.wh.Absent? then SAwaitHandshake else if s.wu.Some? then SAwaitUpgrade else SPick)
    case SAwaitHandshake => me.(pc := if me.saw.Some? then SAwaitUpgrade else SPick)
    case SAwaitUpgrade => me.(pc := SPick)
    case SPick => me.(pc := if s.transport.None? then SDone else SHand(s.transport.value))
    case _ => me.(pc := SDone)
  }

  // ------------------------------------------------------------------ Close

  datatype CloseAct = Begin | Proceed

  /** Close is called only after a Connect that returned nil. */
  predicate CloseEnabled(s: State, id: nat, a: CloseAct) {
    match a
    case Begin => id !in s.closers && s.connect.COk? && !s.locked
    case Proceed =>
      && id in s.closers
      && match s.closers[id]
         case KStop(_, _) => true
         case KWait => CanReceiveClose(s)
         case KClose => true
         case KJoin => s.msg.MExited?
         case KReturned(_) => false
  }

  function CloseStep(s: State, id: nat, a: CloseAct): State
    requires CloseEnabled(s, id, a)
  {
    match a
    case Begin =>
      s.(transport := None,
         winner := if s.transport.None? then s.winner else Some(id),
         closers := s.closers[id := if s.transport.None? then KReturned(false)
                                    else KStop(s.transport.value, PT.StopCas)])
    case Proceed => ProceedClose(s, id, s.closers[id])
  }

  function ProceedClose(s: State, id: nat, pc: ClosePc): State
    requires !pc.KReturned?
  {
    match pc
    case KStop(via, stop) =>
      var next := StopNext(s, via, stop);
      StopTransport(s, via, stop).(closers := s.closers[id := if next.StopReturned? then KWait else KStop(via, next)])
    case KWait => s.(chans := Received(s.chans), closers := s.closers[id := KClose])
    case KClose => CloseQueue(s).(closers := s.closers[id := KJoin])
    case KJoin => s.(closers := s.closers[id := KReturned(true)])
  }

  // ------------------------------------------------------------------ runs

  datatype Action =
    | ByConnect(c: ConnectAct)
    | ByMsg(m: MsgAct)
    | BySend(id: nat, s: SendAct)
    | ByClose(id: nat, k: CloseAct)
    | ByPoll(p: PT.LoopAct)
    | ByWs(w: WT.LoopAct)
    | CancelContext

  predicate Enabled(s: State, a: Action) {
    && s.crash.None?
    && match a
       case ByConnect(c) => ConnectEnabled(s, c)
       case ByMsg(m) => MsgEnabled(s, m)
       case BySend(id, x) => SendEnabled(s, id, x)
       case ByClose(id, k) => CloseEnabled(s, id, k)
       case ByPoll(p) => PollEnabled(s, p)
       case ByWs(w) => WsEnabled(s, w)
       case CancelContext => true
  }

  function Next(s: State, a: Action): State
    requires Enabled(s, a)
  {
    match a
    case ByConnect(c) => ConnectStep(s, c)
    case ByMsg(m) => MsgStep(s, m)
    case BySend(id, x) => SendStep(s, id, x)
    case ByClose(id, k) => CloseStep(s, id, k)
    case ByPoll(p) => PollStep(s, p)
    case ByWs(w) => WsStep(s, w)
    case CancelContext => s.(ctxDone := true)
  }

  /** A run from a given start: the actions `acts` lead through the states `ss`, in any order the guards allow. */
  ghost predicate RunFrom(start: State, ss: seq<State>, acts: seq<Action>) {
    && |ss| == |acts| + 1
    && ss[0] == start
    && forall i :: 0 <= i < |acts| ==> Enabled(ss[i], acts[i]) && ss[i + 1] == Next(ss[i], acts[i])
  }

  ghost predicate IsFreshClient(s: State) {
    exists supported: set<TransportName>, defaultNs: Bytes ::
      supported != {} && s == InitialState(supported, false, defaultNs)
  }

  /** A run of a client that knows no session id yet. */
  ghost predicate ClientRun(ss: seq<State>, acts: seq<Action>) {
    && |ss| == |acts| + 1
    && IsFreshClient(ss[0])
    && RunFrom(ss[0], ss, acts)
  }
}
