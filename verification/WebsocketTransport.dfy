/**
 The websocket transport: its stop token, its read loop, the reader goroutine that each iteration of the
 loop starts, and the connection object that all runs share.  The network is the environment: a reader that
 waits for a connection may get a message or an error at any time.  Dialling, starting to receive and
 closing read or write the object's connection in one step each.
 */
module WebsocketTransport {
  import opened Options
  import opened Frames
  import opened TransportContract

  datatype LoopPc =
    | NotRunning
    | Spawning                  // about to start this iteration's reader
    | Selecting                 // outer select
    | Forwarding(frame: Frame)  // inner select, holding a received message
    | Closing                   // about to do the non-blocking put on onClose
    | Exited

  /**
   `token` is the value buffered in stopPooling; unlike the polling transport, Run does not replace it.

   Connections are numbered: `conn` is the one that the object holds, `dialed` how many there have been, and
   `connClosed` says that the current one has been closed.  A loop that has returned closes whatever
   connection the object holds by then: `closing` if the current run's loop has still to do so,
   `staleClosing` counts the loops of earlier runs that have.

   The readers of the current run are `calling` until they have read the object's connection, then
   `receiving`, then `holding` a message they have not delivered or `failing` with an error.  A reader of an
   earlier run that was still calling reads the connection of the current one: `staleCalling` before,
   `thieves` after.  `inbox` and `errors` are the contents of messageCh and errorCh, both of capacity one.

   `arrived` records what the connection has yielded to anybody, `received` what it has yielded to the
   run's own readers, `fed` what the loop has forwarded; `tokenTaken` says that the loop took a token.
   */
  datatype Transport = Transport(
    token: bool,
    onClose: nat,
    loop: LoopPc,
    conn: Option<nat>,
    dialed: nat,
    connClosed: bool,
    closing: bool,
    staleClosing: nat,
    calling: nat,
    receiving: nat,
    holding: seq<Frame>,
    failing: nat,
    staleCalling: nat,
    thieves: nat,
    inbox: seq<Frame>,
    errors: nat,
    arrived: seq<Frame>,
    received: seq<Frame>,
    fed: seq<Frame>,
    closes: nat,
    tokenTaken: bool)

  const NEW :=
    Transport(false, 0, NotRunning, None, 0, false, false, 0, 0, 0, [], 0, 0, 0, [], 0, [], [], [], 0, false)

  predicate Live(w: Transport) {
    !w.loop.NotRunning? && !w.loop.Exited?
  }

  /** A successful Run: Dial, then the read loop with fresh local channels. */
  function Run(w: Transport, onClose: nat): Transport {
    Transport(w.token, onClose, Spawning, Some(w.dialed), w.dialed + 1, false,
              false, w.staleClosing + (if w.closing then 1 else 0),
              0, 0, [], 0, w.staleCalling + w.calling, 0, [], 0, [], [], [], 0, false)
  }

  /** A Run whose Dial fails leaves the object without a connection, and starts no loop. */
  function RunFails(w: Transport): Transport {
    w.(conn := None, connClosed := false, thieves := 0)
  }

  /** Non-blocking send on stopPooling. */
  function Stop(w: Transport): Transport {
    w.(token := true)
  }

  datatype LoopAct =
    | Spawn
    | SelectStops | SelectCancels | SelectTakes | SelectFails
    | ForwardSent | ForwardStops | ForwardCancels
    | PutClose
    | ReaderCalls | ReaderGets(frame: Frame) | ReaderFails
    | ReaderDelivers(i: nat) | ReaderReports
    | StaleCalls | StaleGets(frame: Frame) | StaleFails
    | CloseConn | StaleCloses

  /** Steps of goroutines other than the read loop itself. */
  predicate IsSideAct(a: LoopAct) {
    || a.ReaderCalls? || a.ReaderGets? || a.ReaderFails? || a.ReaderDelivers? || a.ReaderReports?
    || a.StaleCalls? || a.StaleGets? || a.StaleFails? || a.CloseConn? || a.StaleCloses?
  }

  predicate Enabled(w: Transport, a: LoopAct, ctxDone: bool, room: bool) {
    match a
    case Spawn => w.loop.Spawning?
    case SelectStops => w.loop.Selecting? && w.token
    case SelectCancels => w.loop.Selecting? && ctxDone
    case SelectTakes => w.loop.Selecting? && |w.inbox| > 0
    case SelectFails => w.loop.Selecting? && w.errors > 0
    case ForwardSent => w.loop.Forwarding? && room
    case ForwardStops => w.loop.Forwarding? && w.token
    case ForwardCancels => w.loop.Forwarding? && ctxDone
    case PutClose => w.loop.Closing?
    case ReaderCalls => w.calling > 0
    case ReaderGets(_) => w.receiving > 0
    case ReaderFails => w.receiving > 0
    case ReaderDelivers(i) => i < |w.holding| && |w.inbox| < 1
    case ReaderReports => w.failing > 0 && w.errors < 1
    case StaleCalls => w.staleCalling > 0
    case StaleGets(_) => w.thieves > 0
    case StaleFails => w.thieves > 0
    case CloseConn => w.closing
    case StaleCloses => w.staleClosing > 0
  }

  function LoopNext(w: Transport, a: LoopAct): Transport {
    match a
    case Spawn => w.(calling := w.calling + 1, loop := Selecting)
    case SelectStops => w.(token := false, tokenTaken := true, loop := Closing)
    case SelectCancels => w.(loop := Closing)
    case SelectTakes => if |w.inbox| > 0 then w.(inbox := w.inbox[1..], loop := Forwarding(w.inbox[0])) else w
    case SelectFails => if w.errors > 0 then w.(errors := w.errors - 1, loop := Closing) else w
    case ForwardSent =>
      if w.loop.Forwarding? then w.(loop := Spawning, fed := w.fed + [w.loop.frame]) else w
    case ForwardStops => w.(token := false, tokenTaken := true, loop := Closing)
    case ForwardCancels => w.(loop := Closing)
    case PutClose => w.(loop := Exited, closes := w.closes + 1, closing := true)
    case ReaderCalls =>
      if w.calling == 0 then w
      else if w.conn.Some? then w.(calling := w.calling - 1, receiving := w.receiving + 1)
      else w.(calling := w.calling - 1, failing := w.failing + 1)
    case ReaderGets(f) =>
      if w.receiving > 0
      then w.(receiving := w.receiving - 1, holding := w.holding + [f],
              arrived := w.arrived + [f], received := w.received + [f])
      else w
    case ReaderFails => if w.receiving > 0 then w.(receiving := w.receiving - 1, failing := w.failing + 1) else w
    case ReaderDelivers(i) =>
      if i < |w.holding|
      then w.(holding := w.holding[..i] + w.holding[i + 1..], inbox := w.inbox + [w.holding[i]])
      else w
    case ReaderReports => if w.failing > 0 then w.(failing := w.failing - 1, errors := w.errors + 1) else w
    case StaleCalls =>
      if w.staleCalling > 0
      then w.(staleCalling := w.staleCalling - 1, thieves := w.thieves + (if w.conn.Some? then 1 else 0))
      else w
    case StaleGets(f) => if w.thieves > 0 then w.(thieves := w.thieves - 1, arrived := w.arrived + [f]) else w
    case StaleFails => if w.thieves > 0 then w.(thieves := w.thieves - 1) else w
    case CloseConn => w.(closing := false, connClosed := w.conn.Some?)
    case StaleCloses =>
      if w.staleClosing > 0 then w.(staleClosing := w.staleClosing - 1, connClosed := w.conn.Some?) else w
  }

  function LoopEffect(w: Transport, a: LoopAct): Effect {
    match a
    case ForwardSent => if w.loop.Forwarding? then Enqueue(w.loop.frame) else Silent
    case PutClose => Signal
    case _ => Silent
  }

  // ------------------------------------------------------------------ refinement of the contract

  function Abstract(w: Transport): Session {
    Session(false, Live(w), w.fed, w.closes)
  }

  datatype Move = ByLoop(act: LoopAct, ctxDone: bool, room: bool) | ByStop

  ghost predicate MoveStep(w: Transport, m: Move, v: Transport) {
    match m
    case ByLoop(a, ctxDone, room) => Enabled(w, a, ctxDone, room) && v == LoopNext(w, a)
    case ByStop => v == Stop(w)
  }

  function MoveEffect(w: Transport, m: Move): Effect {
    if m.ByLoop? then LoopEffect(w, m.act) else Silent
  }

  lemma LoopRefines(w: Transport, a: LoopAct, ctxDone: bool, room: bool)
    requires Enabled(w, a, ctxDone, room)
    ensures Allows(Abstract(w), LoopEffect(w, a), Abstract(LoopNext(w, a)))
  {
  }

  ghost predicate MoveRun(ws: seq<Transport>, ms: seq<Move>) {
    && |ws| == |ms| + 1
    && forall i :: 0 <= i < |ms| ==> MoveStep(ws[i], ms[i], ws[i + 1])
  }

  function Effects(ws: seq<Transport>, ms: seq<Move>): seq<Effect>
    requires |ws| == |ms| + 1
  {
    seq(|ms|, i requires 0 <= i < |ms| => MoveEffect(ws[i], ms[i]))
  }

  function Abstracts(ws: seq<Transport>): seq<Session> {
    seq(|ws|, i requires 0 <= i < |ws| => Abstract(ws[i]))
  }

  /** Whatever the object was before, every execution after Run is a session of the contract. */
  lemma RunIsSession(old': Transport, onClose: nat, ws: seq<Transport>, ms: seq<Move>)
    requires MoveRun(ws, ms) && ws[0] == Run(old', onClose)
    ensures SessionRun(Abstracts(ws), Effects(ws, ms))
  {
    hide LoopNext, LoopEffect, Enabled, Live;
    forall i | 0 <= i < |ms|
      ensures Allows(Abstracts(ws)[i], Effects(ws, ms)[i], Abstracts(ws)[i + 1])
    {
      assert MoveStep(ws[i], ms[i], ws[i + 1]);
      if ms[i].ByLoop? {
        LoopRefines(ws[i], ms[i].act, ms[i].ctxDone, ms[i].room);
      } else {
        StopRefines(ws[i]);
      }
    }
    RunIsFresh(old', onClose);
  }

  lemma StopRefines(w: Transport)
    ensures Allows(Abstract(w), Silent, Abstract(Stop(w)))
  {
  }

  lemma RunIsFresh(w: Transport, onClose: nat)
    ensures Fresh(Abstract(Run(w, onClose)))
  {
  }

  /**
   Every execution after Run puts one close signal if its loop has exited and none before, hands over just
   the frames recorded in `fed`, and does nothing after the signal.
   */
  lemma OneSignal(old': Transport, onClose: nat, ws: seq<Transport>, ms: seq<Move>)
    requires MoveRun(ws, ms) && ws[0] == Run(old', onClose)
    ensures Signals(Effects(ws, ms)) == if Live(ws[|ms|]) then 0 else 1
    ensures Fed(Effects(ws, ms)) == ws[|ms|].fed
    ensures forall i, j :: 0 <= i < j < |ms| && Effects(ws, ms)[i].Signal? ==> Effects(ws, ms)[j].Silent?
  {
    RunIsSession(old', onClose, ws, ms);
    ContractHolds(Abstracts(ws), Effects(ws, ms));
  }

  // ------------------------------------------------------------------ the order of the loop's steps

  /** A step of the read loop itself. */
  predicate OfLoop(m: Move) {
    m.ByLoop? && !IsSideAct(m.act)
  }

  /**
   Which step of the read loop can come after which: a reader is started, the select waits for a message, a failure,
   a stop or the context, a message is forwarded, and then the next reader is started; every way out puts the signal.
   */
  predicate MayFollow(a: LoopAct, b: LoopAct) {
    match a
    case Spawn => b.SelectStops? || b.SelectCancels? || b.SelectTakes? || b.SelectFails?
    case SelectTakes => b.ForwardSent? || b.ForwardStops? || b.ForwardCancels?
    case ForwardSent => b.Spawn?
    case PutClose => false
    case _ => b.PutClose?
  }

  ghost predicate LoopPauses(ms: seq<Move>, i: nat, j: nat) {
    forall k :: i <= k < j && k < |ms| ==> !OfLoop(ms[k])
  }

  lemma BesideLoop(w: Transport, m: Move, v: Transport)
    requires MoveStep(w, m, v) && !OfLoop(m)
    ensures v.loop == w.loop
  {
    if m.ByLoop? {
      SideKeepsLoop(w, m.act);
    }
  }

  lemma {:induction false} LoopStays(ws: seq<Transport>, ms: seq<Move>, i: nat, j: nat)
    requires MoveRun(ws, ms) && i <= j < |ws| && LoopPauses(ms, i, j)
    ensures ws[j].loop == ws[i].loop
    decreases j
  {
    hide LoopNext, Enabled;
    if i < j {
      LoopStays(ws, ms, i, j - 1);
      assert MoveStep(ws[j - 1], ms[j - 1], ws[j]);
      BesideLoop(ws[j - 1], ms[j - 1], ws[j]);
    }
  }

  lemma StepOrder(w: Transport, a: LoopAct, c: bool, r: bool, v: Transport, b: LoopAct, ctxDone: bool, room: bool)
    requires Enabled(w, a, c, r) && v.loop == LoopNext(w, a).loop && Enabled(v, b, ctxDone, room)
    requires !IsSideAct(a) && !IsSideAct(b)
    ensures MayFollow(a, b)
    ensures a.SelectTakes? && b.ForwardSent? ==> w.inbox != [] && LoopEffect(v, b) == Enqueue(w.inbox[0])
  {
  }

  /** Over every execution: two steps of the loop with none in between; what is forwarded is the message it took. */
  lemma LoopOrder(ws: seq<Transport>, ms: seq<Move>, i: nat, j: nat)
    requires MoveRun(ws, ms) && i < j < |ms| && OfLoop(ms[i]) && OfLoop(ms[j]) && LoopPauses(ms, i + 1, j)
    ensures MayFollow(ms[i].act, ms[j].act)
    ensures ms[i].act.SelectTakes? && ms[j].act.ForwardSent? ==>
              ws[i].inbox != [] && MoveEffect(ws[j], ms[j]) == Enqueue(ws[i].inbox[0])
  {
    hide Enabled, LoopNext, LoopEffect, MayFollow;
    assert MoveStep(ws[i], ms[i], ws[i + 1]) && MoveStep(ws[j], ms[j], ws[j + 1]);
    LoopStays(ws, ms, i + 1, j);
    StepOrder(ws[i], ms[i].act, ms[i].ctxDone, ms[i].room, ws[j], ms[j].act, ms[j].ctxDone, ms[j].room);
  }

  lemma LoopStarts(old': Transport, onClose: nat, ws: seq<Transport>, ms: seq<Move>, j: nat)
    requires MoveRun(ws, ms) && ws[0] == Run(old', onClose) && j < |ms| && OfLoop(ms[j]) && LoopPauses(ms, 0, j)
    ensures ms[j].act.Spawn?
  {
    assert MoveStep(ws[j], ms[j], ws[j + 1]);
    LoopStays(ws, ms, 0, j);
  }

  // ------------------------------------------------------------------ the reader bound

  /** The run's readers in flight plus buffered messages plus buffered errors. */
  function Outstanding(w: Transport): nat {
    w.calling + w.receiving + |w.holding| + w.failing + |w.inbox| + w.errors
  }

  /** Messages received and not yet handed over, oldest first. */
  function Pending(w: Transport): seq<Frame> {
    (if w.loop.Forwarding? then [w.loop.frame] else []) + w.inbox + w.holding
  }

  predicate ReaderBound(w: Transport) {
    match w.loop
    case NotRunning => Outstanding(w) == 0
    case Spawning => Outstanding(w) == 0
    case Selecting => Outstanding(w) == 1
    case Forwarding(_) => Outstanding(w) == 0
    case _ => Outstanding(w) <= 1
  }

  /** Nothing is forwarded out of order, and at most one received message is missing from what was forwarded. */
  predicate InOrder(w: Transport) {
    && w.fed <= w.received
    && |w.received| <= |w.fed| + 1
    && (w.loop.Spawning? || w.loop.Selecting? || w.loop.Forwarding? ==> w.received == w.fed + Pending(w))
    && (w.loop.Closing? || w.loop.Exited? ==> |w.received| + w.receiving + w.calling <= |w.fed| + 1)
  }

  /** No reader of an earlier run can get at the connection, and so far none has. */
  predicate NoThief(w: Transport) {
    w.staleCalling == 0 && w.thieves == 0 && w.arrived == w.received
  }

  /** Steps of what earlier runs have left, and of closing the connection. */
  predicate IsStaleAct(a: LoopAct) {
    a.StaleCalls? || a.StaleGets? || a.StaleFails? || a.CloseConn? || a.StaleCloses?
  }

  /** Nothing about the loop, its readers and its messages differs. */
  predicate SameRun(w: Transport, v: Transport) {
    && v.loop == w.loop && v.calling == w.calling && v.receiving == w.receiving && v.holding == w.holding
    && v.failing == w.failing && v.inbox == w.inbox && v.errors == w.errors
    && v.received == w.received && v.fed == w.fed
  }

  lemma StaleIsOutside(w: Transport, a: LoopAct)
    requires IsStaleAct(a)
    ensures SameRun(w, LoopNext(w, a))
  {
  }

  lemma SameRunKept(w: Transport, v: Transport)
    requires SameRun(w, v)
    ensures ReaderBound(w) ==> ReaderBound(v)
    ensures InOrder(w) ==> InOrder(v)
  {
  }

  lemma ReadersKeepBound(w: Transport, a: LoopAct, ctxDone: bool, room: bool)
    requires ReaderBound(w) && !w.loop.NotRunning? && Enabled(w, a, ctxDone, room) && IsSideAct(a) && !IsStaleAct(a)
    ensures ReaderBound(LoopNext(w, a)) && !LoopNext(w, a).loop.NotRunning?
  {
  }

  lemma LoopKeepsBound(w: Transport, a: LoopAct, ctxDone: bool, room: bool)
    requires ReaderBound(w) && !w.loop.NotRunning? && Enabled(w, a, ctxDone, room) && !IsSideAct(a)
    ensures ReaderBound(LoopNext(w, a)) && !LoopNext(w, a).loop.NotRunning?
  {
  }

  lemma NobodyReads(w: Transport, a: LoopAct, ctxDone: bool, room: bool)
    requires w.loop.NotRunning? && ReaderBound(w) && Enabled(w, a, ctxDone, room)
    ensures IsStaleAct(a)
  {
  }

  lemma BoundKept(w: Transport, a: LoopAct, ctxDone: bool, room: bool)
    requires ReaderBound(w) && !w.loop.NotRunning? && Enabled(w, a, ctxDone, room) && !IsStaleAct(a)
    ensures ReaderBound(LoopNext(w, a)) && !LoopNext(w, a).loop.NotRunning?
  {
    hide ReaderBound, LoopNext, Enabled;
    if IsSideAct(a) {
      ReadersKeepBound(w, a, ctxDone, room);
    } else {
      LoopKeepsBound(w, a, ctxDone, room);
    }
  }

  /** The readers stay within their bound, and the object keeps its connection. */
  lemma ReaderBoundKept(w: Transport, a: LoopAct, ctxDone: bool, room: bool)
    requires ReaderBound(w) && Enabled(w, a, ctxDone, room)
    ensures ReaderBound(LoopNext(w, a)) && LoopNext(w, a).conn == w.conn
  {
    LoopKeepsChannel(w, a);
    hide ReaderBound, LoopNext, Enabled;
    if w.loop.NotRunning? {
      NobodyReads(w, a, ctxDone, room);
    }
    if IsStaleAct(a) {
      StaleIsOutside(w, a);
      SameRunKept(w, LoopNext(w, a));
    } else {
      BoundKept(w, a, ctxDone, room);
    }
  }

  lemma DeliveryKeepsOrder(w: Transport, i: nat)
    requires ReaderBound(w) && InOrder(w) && !w.loop.NotRunning? && i < |w.holding| && |w.inbox| < 1
    ensures InOrder(LoopNext(w, ReaderDelivers(i)))
  {
    assert |w.holding| == 1 && w.holding == [w.holding[i]] && w.inbox == [];
    assert w.holding[..i] + w.holding[i + 1..] == [] && w.inbox + [w.holding[i]] == w.holding;
  }

  lemma ReaderKeepsOrder(w: Transport, a: LoopAct, ctxDone: bool, room: bool)
    requires ReaderBound(w) && InOrder(w) && !w.loop.NotRunning? && Enabled(w, a, ctxDone, room)
    requires a.ReaderCalls? || a.ReaderGets? || a.ReaderFails? || a.ReaderReports?
    ensures InOrder(LoopNext(w, a))
  {
  }

  lemma LoopKeepsOrder(w: Transport, a: LoopAct, ctxDone: bool, room: bool)
    requires ReaderBound(w) && InOrder(w) && !w.loop.NotRunning? && Enabled(w, a, ctxDone, room) && !IsSideAct(a)
    ensures InOrder(LoopNext(w, a))
  {
  }

  lemma RunKept(w: Transport, a: LoopAct, ctxDone: bool, room: bool)
    requires ReaderBound(w) && InOrder(w) && !w.loop.NotRunning? && Enabled(w, a, ctxDone, room)
    ensures ReaderBound(LoopNext(w, a)) && InOrder(LoopNext(w, a)) && !LoopNext(w, a).loop.NotRunning?
  {
    hide InOrder, ReaderBound, LoopNext;
    if IsStaleAct(a) {
      StaleIsOutside(w, a);
      SameRunKept(w, LoopNext(w, a));
    } else {
      BoundKept(w, a, ctxDone, room);
      if a.ReaderDelivers? {
        DeliveryKeepsOrder(w, a.i);
      } else if IsSideAct(a) {
        ReaderKeepsOrder(w, a, ctxDone, room);
      } else {
        LoopKeepsOrder(w, a, ctxDone, room);
      }
    }
  }

  /**
   In every state of every run: at the outer select exactly one of reader, message and error is
   outstanding; a reader that has something to deliver finds its channel empty, also after the loop has
   returned; what was forwarded is a prefix of what the run's readers received, short of it by at most one
   message.  If no reader of an earlier run had yet to start receiving, that is all that the connection has
   yielded.
   */
  lemma {:induction false} ReadersBounded(old': Transport, onClose: nat, ws: seq<Transport>, ms: seq<Move>, k: nat)
    requires MoveRun(ws, ms) && ws[0] == Run(old', onClose) && k < |ws|
    ensures ReaderBound(ws[k]) && InOrder(ws[k]) && !ws[k].loop.NotRunning?
    ensures ws[k].loop.Selecting? ==> Outstanding(ws[k]) == 1
    ensures forall i: nat :: i < |ws[k].holding| ==> Enabled(ws[k], ReaderDelivers(i), false, false)
    ensures ws[k].failing > 0 ==> Enabled(ws[k], ReaderReports, false, false)
    ensures ws[k].fed <= ws[k].received && |ws[k].received| - |ws[k].fed| <= 1
    ensures old'.calling == 0 && old'.staleCalling == 0 ==> NoThief(ws[k]) && ws[k].arrived == ws[k].received
  {
    hide ReaderBound, InOrder, Enabled, LoopNext;
    if k > 0 {
      ReadersBounded(old', onClose, ws, ms, k - 1);
      assert MoveStep(ws[k - 1], ms[k - 1], ws[k]);
      if ms[k - 1].ByLoop? {
        RunKept(ws[k - 1], ms[k - 1].act, ms[k - 1].ctxDone, ms[k - 1].room);
        if old'.calling == 0 && old'.staleCalling == 0 {
          ThiefKept(ws[k - 1], ms[k - 1].act, ms[k - 1].ctxDone, ms[k - 1].room);
        }
      } else {
        StopKeepsReaders(ws[k - 1]);
      }
    } else {
      RunStartsClean(old', onClose);
    }
    ReadersFit(ws[k]);
  }

  lemma ThiefKept(w: Transport, a: LoopAct, ctxDone: bool, room: bool)
    requires NoThief(w) && Enabled(w, a, ctxDone, room)
    ensures NoThief(LoopNext(w, a))
  {
  }

  lemma StopKeepsReaders(w: Transport)
    ensures ReaderBound(w) ==> ReaderBound(Stop(w))
    ensures InOrder(w) ==> InOrder(Stop(w))
    ensures NoThief(w) ==> NoThief(Stop(w))
  {
  }

  lemma RunStartsClean(w: Transport, onClose: nat)
    ensures ReaderBound(Run(w, onClose)) && InOrder(Run(w, onClose))
    ensures w.calling == 0 && w.staleCalling == 0 ==> NoThief(Run(w, onClose))
  {
  }

  lemma ReadersFit(w: Transport)
    requires ReaderBound(w) && InOrder(w) && !w.loop.NotRunning?
    ensures w.loop.Selecting? ==> Outstanding(w) == 1
    ensures forall i: nat :: i < |w.holding| ==> Enabled(w, ReaderDelivers(i), false, false)
    ensures w.failing > 0 ==> Enabled(w, ReaderReports, false, false)
    ensures w.fed <= w.received && |w.received| - |w.fed| <= 1
  {
  }

  // ------------------------------------------------------------------ stopping

  /** A call of Stop has returned: the loop is closing, or the token is there for it to take. */
  predicate Notified(w: Transport) {
    w.token || w.loop.Closing? || w.loop.Exited?
  }

  /** Steps left for a notified loop when `free` slots of `messages` are left and nobody consumes. */
  function Rank(w: Transport, free: nat): nat {
    match w.loop
    case Spawning => 3 * free + 4
    case Selecting => 3 * free + 3
    case Forwarding(_) => 3 * free + 2
    case Closing => 1
    case _ => 0
  }

  lemma StopProgress(w: Transport, a: LoopAct, ctxDone: bool, free: nat)
    requires Notified(w) && Enabled(w, a, ctxDone, free > 0)
    ensures Notified(LoopNext(w, a))
    ensures FrameCount(LoopEffect(w, a)) <= free
    ensures
      var left := free - FrameCount(LoopEffect(w, a));
      if IsSideAct(a) then Rank(LoopNext(w, a), left) == Rank(w, free)
      else Rank(LoopNext(w, a), left) < Rank(w, free)
  {
  }

  lemma LoopKeepsChannel(w: Transport, a: LoopAct)
    ensures LoopNext(w, a).onClose == w.onClose && LoopNext(w, a).conn == w.conn
  {
  }

  lemma SideKeepsLoop(w: Transport, a: LoopAct)
    requires IsSideAct(a)
    ensures LoopNext(w, a).loop == w.loop
  {
  }

  lemma ForwardsIntoRoom(w: Transport, a: LoopAct, ctxDone: bool, room: bool)
    requires Enabled(w, a, ctxDone, room) && LoopEffect(w, a).Enqueue?
    ensures Live(w) && room
  {
  }

  /** The step by which a notified loop can always move on: it needs no message, no room and no context. */
  function Escape(w: Transport): (a: LoopAct)
    requires Notified(w) && Live(w)
    ensures forall ctxDone: bool :: Enabled(w, a, ctxDone, false)
    ensures !IsSideAct(a)
  {
    match w.loop
    case Spawning => Spawn
    case Selecting => SelectStops
    case Forwarding(_) => ForwardStops
    case _ => PutClose
  }

  lemma CloseStep(w: Transport, a: LoopAct, ctxDone: bool, room: bool)
    requires Enabled(w, a, ctxDone, room) && w.conn.Some? && (w.loop.Exited? && !w.closing ==> w.connClosed)
    ensures
      var v := LoopNext(w, a);
      v.conn.Some? && (v.loop.Exited? && !v.closing ==> v.connClosed)
  {
  }

  /** When the loop has returned, and what follows it has been done, the connection is closed. */
  lemma {:induction false} ClosedBehindLoop(old': Transport, onClose: nat, ws: seq<Transport>, ms: seq<Move>, k: nat)
    requires MoveRun(ws, ms) && ws[0] == Run(old', onClose) && k < |ws|
    ensures ws[k].conn.Some? && (ws[k].loop.Exited? && !ws[k].closing ==> ws[k].connClosed)
  {
    if k > 0 {
      hide LoopNext, Enabled, Run;
      ClosedBehindLoop(old', onClose, ws, ms, k - 1);
      assert MoveStep(ws[k - 1], ms[k - 1], ws[k]);
      if ms[k - 1].ByLoop? {
        CloseStep(ws[k - 1], ms[k - 1].act, ms[k - 1].ctxDone, ms[k - 1].room);
      }
    }
  }

  // ------------------------------------------------------------------ reuse

  /** Nothing is left of earlier runs: no stop token, no close still to come, no reader that has yet to call. */
  predicate Clean(w: Transport) {
    !w.token && !w.closing && w.staleClosing == 0 && w.calling == 0 && w.staleCalling == 0
  }

  /** The run so far is one that a new object could have had, if nobody has stopped it. */
  predicate Undisturbed(w: Transport) {
    && !w.tokenTaken
    && (Live(w) ==> !w.connClosed)
    && w.arrived == w.received
  }

  ghost predicate NobodyStops(ms: seq<Move>) {
    forall i :: 0 <= i < |ms| ==> !ms[i].ByStop?
  }

  /** However the run after `w` goes on without a Stop, it takes no token, keeps its connection and its messages. */
  ghost predicate NeverDisturbed(w: Transport, onClose: nat) {
    forall ws: seq<Transport>, ms: seq<Move> ::
      MoveRun(ws, ms) && ws[0] == Run(w, onClose) && NobodyStops(ms) ==> Undisturbed(ws[|ms|])
  }

  predicate CleanRun(w: Transport) {
    && !w.token && !w.tokenTaken && w.staleClosing == 0
    && (w.closing || w.connClosed ==> w.loop.Exited?)
    && NoThief(w)
  }

  lemma RunIsClean(w: Transport, onClose: nat)
    requires Clean(w)
    ensures CleanRun(Run(w, onClose))
  {
  }

  lemma CleanRunKept(w: Transport, a: LoopAct, ctxDone: bool, room: bool)
    requires CleanRun(w) && Enabled(w, a, ctxDone, room)
    ensures CleanRun(LoopNext(w, a))
  {
  }

  lemma {:induction false} CleanRunLasts(w: Transport, onClose: nat, ws: seq<Transport>, ms: seq<Move>, k: nat)
    requires Clean(w) && MoveRun(ws, ms) && ws[0] == Run(w, onClose) && NobodyStops(ms) && k < |ws|
    ensures CleanRun(ws[k])
  {
    if k == 0 {
      RunIsClean(w, onClose);
    } else {
      hide CleanRun, Clean, LoopNext, Enabled, Run;
      CleanRunLasts(w, onClose, ws, ms, k - 1);
      assert MoveStep(ws[k - 1], ms[k - 1], ws[k]);
      CleanRunKept(ws[k - 1], ms[k - 1].act, ms[k - 1].ctxDone, ms[k - 1].room);
    }
  }

  /** One move after Run, or two, that show what is left of an earlier run. */
  function Disturbance(w: Transport): (acts: seq<LoopAct>)
    ensures acts != []
  {
    if w.token then [Spawn, SelectStops]
    else if w.closing || w.staleClosing > 0 then [StaleCloses]
    else [StaleCalls, StaleGets(Frame.Close)]
  }

  /** Those moves need nobody's help, and nobody beside the object notices them. */
  lemma DisturbanceWorks(w: Transport, onClose: nat, ctxDone: bool, room: bool)
    requires !Clean(w)
    ensures
      var acts, w0 := Disturbance(w), Run(w, onClose);
      var w1 := LoopNext(w0, acts[0]);
      && 1 <= |acts| <= 2
      && Enabled(w0, acts[0], ctxDone, room) && LoopEffect(w0, acts[0]).Silent?
      && (|acts| == 1 ==> !Undisturbed(w1))
      && (|acts| == 2 ==>
            && Enabled(w1, acts[1], ctxDone, room) && LoopEffect(w1, acts[1]).Silent?
            && !Undisturbed(LoopNext(w1, acts[1])))
  {
  }

  lemma DirtyRunDisturbed(w: Transport, onClose: nat) returns (ws: seq<Transport>, ms: seq<Move>)
    requires !Clean(w)
    ensures MoveRun(ws, ms) && ws[0] == Run(w, onClose) && NobodyStops(ms) && !Undisturbed(ws[|ms|])
  {
    DisturbanceWorks(w, onClose, false, false);
    hide Disturbance, Clean, Undisturbed, Enabled, LoopNext, LoopEffect, Run;
    var acts := Disturbance(w);
    var w0 := Run(w, onClose);
    var w1 := LoopNext(w0, acts[0]);
    if |acts| == 1 {
      ws, ms := [w0, w1], [ByLoop(acts[0], false, false)];
    } else {
      ws, ms := [w0, w1, LoopNext(w1, acts[1])], [ByLoop(acts[0], false, false), ByLoop(acts[1], false, false)];
    }
  }

  /**
   Reuse equals fresh exactly when nothing is left of earlier runs.  With a left-over token the new loop may
   stop before it forwards anything; with a close still to come the new connection may be closed under it;
   and a reader that has yet to call may take a message of the new connection.
   */
  lemma ReuseIsFreshIff(w: Transport, onClose: nat)
    ensures NeverDisturbed(w, onClose) <==> Clean(w)
  {
    if Clean(w) {
      forall ws: seq<Transport>, ms: seq<Move> |
        MoveRun(ws, ms) && ws[0] == Run(w, onClose) && NobodyStops(ms)
        ensures Undisturbed(ws[|ms|])
      {
        CleanRunLasts(w, onClose, ws, ms, |ms|);
      }
    } else {
      var ws, ms := DirtyRunDisturbed(w, onClose);
      assert !Undisturbed(ws[|ms|]);
    }
  }
}
