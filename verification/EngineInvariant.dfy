/**
 What every reachable state of the Engine.IO client that has not crashed satisfies.  The invariant is
 split into groups, each over the few fields that it is about.
 */
module EngineInvariant {
  import opened Options
  import opened Bytes
  import opened Frames
  import opened EngineClient
  import PT = PollingTransport
  import WT = WebsocketTransport

  predicate IsOpen(f: Frame) {
    f.Open? && f.valid
  }

  ghost predicate OpenTaken(enq: seq<Frame>, taken: int) {
    exists i :: 0 <= i < taken && i < |enq| && IsOpen(enq[i])
  }

  predicate Quiet(c: CloseChan) {
    c.Drained? || c.Shut?
  }

  predicate LastQuiet(chans: seq<CloseChan>) {
    chans != [] && Quiet(chans[|chans| - 1])
  }

  /** The message loop is inside handleHandshake. */
  predicate OpenPath(m: MsgPc) {
    || m.MDecide? || m.MLock? || m.MStop? || m.MWait? || m.MRun?
    || m.MProbe? || m.MProbeFailed? || m.MOpenGate?
  }

  /** transportUpgrade holds transportMu. */
  predicate Holding(m: MsgPc) {
    m.MStop? || m.MWait? || m.MRun?
  }

  function Taken(queue: seq<Frame>, enq: seq<Frame>): int {
    |enq| - |queue|
  }

  /** Frames whose handling by handlePacket has taken effect. */
  function Handled(queue: seq<Frame>, enq: seq<Frame>, m: MsgPc): int {
    if m.MDispatch? then Taken(queue, enq) - 1 else Taken(queue, enq)
  }

  /** `messages` holds exactly the frames enqueued and not yet taken. */
  predicate InvQueue(queue: seq<Frame>, enq: seq<Frame>) {
    && |queue| <= |enq|
    && |queue| <= CAPACITY
    && (forall i :: 0 <= i < |queue| ==> queue[i] == enq[|enq| - |queue| + i])
  }

  /** What the message handler got is the payloads of the frames handled so far. */
  predicate InvDelivery(delivered: seq<Bytes>, queue: seq<Frame>, enq: seq<Frame>, m: MsgPc) {
    && 0 <= Handled(queue, enq, m) <= |enq|
    && delivered == Payloads(enq[..Handled(queue, enq, m)])
  }

  /** The frame that the message loop took last, in terms of where the loop is. */
  predicate InvPosition(m: MsgPc, taken: int, enq: seq<Frame>, sid: bool) {
    && (m.MDispatch? ==> 0 < taken <= |enq| && enq[taken - 1] == m.frame)
    && (OpenPath(m) ==> 0 < taken <= |enq| && IsOpen(enq[taken - 1]) && sid)
    && (m.MUpgradeSent? ==> 0 < taken <= |enq| && enq[taken - 1] == Pong(true))
    && (m.MDecide? ==> 0 < taken <= |enq| && enq[taken - 1].Open? && enq[taken - 1].upgrades == m.upgrades)
  }

  /** Frames whose handling is over, the handshake's included. */
  function Finished(taken: int, m: MsgPc): int {
    if m.MDispatch? || OpenPath(m) then taken - 1 else taken
  }

  /** Once the handling of an OPEN is over, whatever became of its upgrade, the handshake gate is open. */
  predicate InvOpened(m: MsgPc, taken: int, enq: seq<Frame>, wh: Gate) {
    forall i :: 0 <= i < Finished(taken, m) && i < |enq| && IsOpen(enq[i]) ==> wh.Opened?
  }

  predicate InvEnd(m: MsgPc, ctxDone: bool, queueClosed: bool, queue: seq<Frame>) {
    m.MExited? && !ctxDone ==> queueClosed && queue == []
  }

  predicate InvTarget(m: MsgPc, supported: set<TransportName>, owner: TransportName) {
    && (m.MLock? || m.MStop? || m.MWait? || m.MRun? ==> m.target in supported && m.target != owner)
    && (m.MProbe? || m.MProbeFailed? ==> m.target == owner)
    && (m.MOpenGate? && m.upgraded.Some? ==> m.upgraded.value == owner)
    && (m.MStop? ==> !m.stop.StopReturned?)
  }

  /** A gate's Once is spent exactly when its current channel is closed. */
  predicate InvGates(wh: Gate, whSpent: bool, gates: seq<bool>, wu: Option<nat>, wuSpent: bool) {
    && (whSpent <==> wh.Opened?)
    && (wu.Some? <==> gates != [])
    && (wu.Some? ==> wu.value == |gates| - 1)
    && (wuSpent <==> gates != [] && gates[|gates| - 1])
  }

  /** What transportUpgrade has done to the upgrade gate. */
  predicate InvUpgrade(m: MsgPc, wu: Option<nat>, wuSpent: bool) {
    && (m.MStop? || m.MWait? || m.MRun? || m.MProbe? || m.MProbeFailed? ==> wu.Some? && !wuSpent)
    && (m.MOpenGate? && !m.ok ==> wu.Some? && wuSpent && m.upgraded.None?)
    && (m.MOpenGate? && m.upgraded.Some? ==>
          wu.Some? && !wuSpent)
  }

  /** transportUpgrade is at work on the gate that it has made. */
  predicate Upgrading(m: MsgPc) {
    Holding(m) || m.MProbe? || m.MProbeFailed?
  }

  /** A probe was handed to `via` after the first `from` packets. */
  ghost predicate ProbedSince(sent: seq<Sent>, from: nat, via: TransportName) {
    exists i :: from <= i < |sent| && sent[i] == Sent(via, ProbePacket)
  }

  /** And no probe has been answered since. */
  predicate Unanswered(sent: seq<Sent>, from: nat) {
    forall i :: from <= i < |sent| ==> sent[i].packet != UpgradePacket
  }

  /** The latest gate, while it is shut, belongs to an upgrade at work or to a probe still unanswered. */
  ghost predicate InvProbed(m: MsgPc, owner: TransportName, gates: seq<bool>, made: seq<nat>, sent: seq<Sent>) {
    && |made| == |gates|
    && (gates != [] ==> made[|gates| - 1] <= |sent|)
    && (gates != [] && !gates[|gates| - 1] ==>
          && (Upgrading(m) || ProbedSince(sent, made[|gates| - 1], owner))
          && (m.MUpgradeSent? || Unanswered(sent, made[|gates| - 1])))
  }

  /** An upgrade gate is made while an OPEN is handled, so that once it is not, the handshake gate is open. */
  predicate InvMade(m: MsgPc, gates: seq<bool>, wh: Gate, sid: bool) {
    gates != [] ==> sid && !wh.Absent? && (Upgrading(m) || m.MOpenGate? || wh.Opened?)
  }

  /** One live loop at most, tied to the one transportClosed channel that is still empty. */
  predicate InvChans(chans: seq<CloseChan>, owner: TransportName, pollLive: bool, pollChan: nat, wsLive: bool,
                     wsChan: nat) {
    && (forall i :: 0 <= i < |chans| - 1 ==> Quiet(chans[i]))
    && (pollLive ==> owner.Polling? && chans != [] && pollChan == |chans| - 1)
    && (wsLive ==> owner.Websocket? && chans != [] && wsChan == |chans| - 1)
    && (chans != [] ==> (chans[|chans| - 1].Fresh? <==> pollLive || wsLive))
  }

  predicate InvOwner(owner: TransportName, supported: set<TransportName>, transport: Option<TransportName>,
                     locked: bool, m: MsgPc) {
    && owner in supported
    && (transport.Some? ==> transport.value == owner)
    && (locked <==> Holding(m))
    && (locked ==> transport.Some?)
  }

  predicate InvRun(m: MsgPc, chans: seq<CloseChan>) {
    m.MRun? ==> LastQuiet(chans)
  }

  /** The Close that took the transport is the only one that does anything. */
  predicate InvWinner(winner: Option<nat>, transport: Option<TransportName>, closers: map<nat, ClosePc>,
                      connect: ConnectPc) {
    && (winner.Some? <==> transport.None?)
    && (winner.Some? ==> winner.value in closers && connect.COk?)
    && (forall id :: id in closers && winner != Some(id) ==> closers[id] == KReturned(false))
  }

  /** Where the winning Close is; KReturned(false) when there is none. */
  function WinnerPc(winner: Option<nat>, closers: map<nat, ClosePc>): ClosePc {
    if winner.Some? && winner.value in closers then closers[winner.value] else KReturned(false)
  }

  predicate InvClosing(pc: ClosePc, owner: TransportName, queueClosed: bool, chans: seq<CloseChan>, m: MsgPc) {
    match pc
    case KStop(via, _) => via == owner && !queueClosed
    case KWait => !queueClosed
    case KClose => !queueClosed && LastQuiet(chans)
    case KJoin => queueClosed
    case KReturned(waited) => waited ==> queueClosed && m.MExited?
  }

  /** `messages` is closed only after the last loop has signalled, by the winning Close or by a failed Connect. */
  predicate InvQueueClosed(queueClosed: bool, chans: seq<CloseChan>, connect: ConnectPc, winner: Option<nat>) {
    queueClosed ==>
      && LastQuiet(chans)
      && (connect.COk? || connect.CJoin? || connect.CFailed?)
      && (connect.COk? ==> winner.Some?)
  }

  /** A signal that was received was received by whoever goes on from there. */
  predicate InvDrained(chans: seq<CloseChan>, m: MsgPc, connect: ConnectPc, closing: ClosePc) {
    chans != [] && chans[|chans| - 1].Drained? ==>
      || m.MRun?
      || connect.CClose? || connect.CJoin? || connect.CFailed?
      || closing.KClose? || closing.KJoin? || closing == KReturned(true)
  }

  predicate BeforeInstall(c: ConnectPc) {
    c.CStart? || c.CLaunch? || c.CInstall?
  }

  predicate Cleaning(c: ConnectPc) {
    c.CStop? || c.CWait? || c.CClose? || c.CJoin?
  }

  /** How far Connect has come. */
  predicate InvConnect(connect: ConnectPc, wh: Gate, m: MsgPc, chans: seq<CloseChan>, queueClosed: bool) {
    && (connect.CStart? <==> chans == [])
    && (BeforeInstall(connect) ==> wh.Absent?)
    && (wh.Absent? ==> BeforeInstall(connect) || connect.CFailed?)
    && (connect.CStart? || connect.CLaunch? ==> m.MOff?)
    && (m.MOff? ==> connect.CStart? || connect.CLaunch? || connect.CFailed?)
    && (connect.CClose? ==> LastQuiet(chans))
    && (connect.CJoin? ==> queueClosed)
  }

  /** Until Connect has returned nil on a polling client, no frame was enqueued and the polling gate is shut. */
  predicate InvFirstPoll(connect: ConnectPc, enq: seq<Frame>, sid: bool, gate: PT.Gate, m: MsgPc,
                         transport: Option<TransportName>) {
    !connect.COk? ==>
      && enq == [] && !sid && !gate.GateOpen?
      && (m.MOff? || m.MIdle? || m.MExited?)
      && transport == Some(Polling)
  }

  /**
   Connect returns nil on a polling client only with a first frame, and returns an error only when nothing that it
   started is left.
   */
  predicate InvOutcome(connect: ConnectPc, polling: bool, enq: seq<Frame>, queueClosed: bool, m: MsgPc,
                       chans: seq<CloseChan>) {
    && (polling && connect.COk? ==> enq != [])
    && (connect.CFailed? ==> if polling then queueClosed && m.MExited? else m.MOff? && LastQuiet(chans))
  }

  /** The polling gate is made by Connect's Run, and open once there is a session id. */
  predicate InvPollGate(connect: ConnectPc, sid: bool, gate: PT.Gate) {
    (connect.CStart? <==> gate.NoGate?) && (sid ==> gate.GateOpen?)
  }

  /** Without polling nothing is requested, and the polling object is never touched. */
  predicate InvNoPoll(connect: ConnectPc, poll: PT.Transport) {
    poll == PT.NEW && !connect.CGet? && !connect.COffer? && !Cleaning(connect)
  }

  /** A session id, and an open polling gate, come from an OPEN whose handling has begun. */
  ghost predicate InvSession(sid: bool, poll: PT.Transport, handled: int, enq: seq<Frame>) {
    && (sid || poll.gate.GateOpen? ==> OpenTaken(enq, handled))
    && PT.GateRespected(poll)
  }

  /** Where the one call of Stop that can be in progress is. */
  function StopperPc(m: MsgPc, connect: ConnectPc, closing: ClosePc): PT.StopPc {
    if m.MStop? then m.stop
    else if m.MWait? || m.MRun? then PT.StopReturned
    else if connect.CStop? then connect.stop
    else if Cleaning(connect) || connect.CFailed? then PT.StopReturned
    else match closing
      case KStop(_, stop) => stop
      case KReturned(waited) => if waited then PT.StopReturned else PT.StopCas
      case _ => PT.StopReturned
  }

  predicate InvStop(owner: TransportName, poll: PT.Transport, ws: WT.Transport, stop: PT.StopPc) {
    && (owner.Polling? ==> PT.StopStage(poll, stop))
    && (owner.Websocket? && stop.StopReturned? && WT.Live(ws) ==> WT.Notified(ws))
  }

  /** A transport that a caller of Send has picked is one of the client's. */
  predicate InvPicked(senders: map<nat, Sender>, supported: set<TransportName>) {
    forall id :: id in senders && senders[id].pc.SHand? ==> senders[id].pc.via in supported
  }

  /** The websocket loop's readers are within their bound, and a live loop has its connection. */
  predicate InvReaders(ws: WT.Transport) {
    WT.ReaderBound(ws) && (WT.Live(ws) ==> ws.conn.Some?)
  }

  /** A sender past the upgrade gate that it saw finds that gate closed. */
  predicate InvSenders(senders: map<nat, Sender>, gates: seq<bool>) {
    forall id :: id in senders ==> SenderOk(senders[id], gates)
  }

  predicate SenderOk(me: Sender, gates: seq<bool>) {
    && (me.saw.Some? ==> me.saw.value < |gates|)
    && (me.saw.Some? && (me.pc.SPick? || me.pc.SHand?) ==> gates[me.saw.value])
    && (me.pc.SAwaitUpgrade? ==> me.saw.Some?)
    && (me.pc.SNew? ==> me.saw.None?)
  }

  predicate InvSent(sent: seq<Sent>, gates: seq<bool>) {
    forall i :: 0 <= i < |sent| ==> PacketOk(sent[i].packet, gates)
  }

  predicate PacketOk(p: Packet, gates: seq<bool>) {
    p.MessagePacket? && p.saw.Some? ==> p.saw.value < |gates| && gates[p.saw.value]
  }

  /** Frames and their dispatch. */
  ghost predicate InvFlow(s: State) {
    && InvQueue(s.queue, s.enq)
    && InvDelivery(s.delivered, s.queue, s.enq, s.msg)
    && InvPosition(s.msg, Taken(s.queue, s.enq), s.enq, s.sid)
    && InvOpened(s.msg, Taken(s.queue, s.enq), s.enq, s.wh)
    && InvEnd(s.msg, s.ctxDone, s.queueClosed, s.queue)
    && InvSession(s.sid, s.poll, Handled(s.queue, s.enq, s.msg), s.enq)
  }

  /** Gates and senders. */
  ghost predicate InvGating(s: State) {
    && InvGates(s.wh, s.whSpent, s.gates, s.wu, s.wuSpent)
    && InvUpgrade(s.msg, s.wu, s.wuSpent)
    && InvProbed(s.msg, s.owner, s.gates, s.made, s.sent)
    && InvMade(s.msg, s.gates, s.wh, s.sid)
    && InvSenders(s.senders, s.gates)
    && InvSent(s.sent, s.gates)
  }

  /** Transports, their hand-over and shutdown. */
  ghost predicate InvHandOver(s: State) {
    && InvTarget(s.msg, s.supported, s.owner)
    && InvChans(s.chans, s.owner, PT.Live(s.poll), s.poll.onClose, WT.Live(s.ws), s.ws.onClose)
    && InvOwner(s.owner, s.supported, s.transport, s.locked, s.msg)
    && InvRun(s.msg, s.chans)
    && InvPicked(s.senders, s.supported)
    && InvReaders(s.ws)
    && InvStop(s.owner, s.poll, s.ws, StopperPc(s.msg, s.connect, WinnerPc(s.winner, s.closers)))
  }

  ghost predicate InvShutdown(s: State) {
    && InvWinner(s.winner, s.transport, s.closers, s.connect)
    && InvClosing(WinnerPc(s.winner, s.closers), s.owner, s.queueClosed, s.chans, s.msg)
    && InvQueueClosed(s.queueClosed, s.chans, s.connect, s.winner)
    && InvDrained(s.chans, s.msg, s.connect, WinnerPc(s.winner, s.closers))
    && InvConnect(s.connect, s.wh, s.msg, s.chans, s.queueClosed)
    && InvOutcome(s.connect, Polling in s.supported, s.enq, s.queueClosed, s.msg, s.chans)
    && (if Polling in s.supported
        then InvFirstPoll(s.connect, s.enq, s.sid, s.poll.gate, s.msg, s.transport)
             && InvPollGate(s.connect, s.sid, s.poll.gate)
        else InvNoPoll(s.connect, s.poll))
  }

  ghost predicate Inv(s: State) {
    InvFlow(s) && InvGating(s) && InvHandOver(s) && InvShutdown(s)
  }
}
