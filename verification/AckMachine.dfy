/**
 Acknowledgements as a transition system: any number of Emit calls, each timed one with a goroutine that
 waits for its timer, its context or its ack, the message loop that takes entries from the ack table as
 ACKs arrive in any order and with any ids, and one goroutine for every entry taken.
 */
module AckMachine {
  import opened Options
  import opened GoInt
  import opened AckTable

  type Payload = int

  datatype End = ByTimeout | ByContext | ByAck

  /** The waiting goroutine of a timed emit. */
  datatype Waiter =
    | NoWaiter
    | NotStarted             // registered, `go` not yet executed
    | Selecting
    | TimedOut               // the timer fired; before the entry is deleted
    | Expired                // before the timeout callback
    | Holding(payload: Payload)
    | Gone(how: End)

  /** Where the one ack that an emit can get has come to; a history variable, which no step reads. */
  datatype Place = InTable | InFlight(delivery: nat) | Buffered | Held | Called | Lost

  /**
   `id` is the ack id, `ordinal` says that it was the so-many-th to be given out; `done` is the content of the
   emit's channel of capacity one.
   */
  datatype Emit = Emit(
    id: int,
    ordinal: nat,
    timed: bool,
    userAck: bool,
    timeoutCb: bool,
    waiter: Waiter,
    done: Option<Payload>,
    place: Place)

  /** A goroutine that runs an entry taken from the table. */
  datatype Delivery = Delivery(entry: Entry, id: int, payload: Payload, finished: bool)

  datatype UserCall = AckCalled(emit: nat, id: int, payload: Payload) | TimeoutCalled(emit: nat)

  /**
   `issued` counts the ids given out; `acks` and `calls` record every ACK that arrived with an event and every
   user callback that ran.
   */
  datatype State = State(
    table: Table,
    issued: nat,
    emits: map<nat, Emit>,
    deliveries: map<nat, Delivery>,
    ctxDone: bool,
    acks: seq<(int, Payload)>,
    calls: seq<UserCall>)

  const INITIAL := State(Table(0, map[]), 0, map[], map[], false, [], [])

  datatype Action =
    | DoEmit(e: nat, timed: bool, userAck: bool, timeoutCb: bool)
    | StartWaiter(e: nat)
    | FireTimer(e: nat)
    | DeleteEntry(e: nat)
    | CallTimeout(e: nat)
    | SeeContext(e: nat)
    | ReceiveDone(e: nat)
    | CallAck(e: nat)
    | Arrive(id: int, payload: Payload, d: nat)
    | ArriveEmpty(id: int)
    | Deliver(d: nat)
    | CancelContext

  predicate At(s: State, e: nat, w: Waiter) {
    e in s.emits && s.emits[e].waiter == w
  }

  /** A pending delivery finds its emit, and, to put the payload on `done`, room there. */
  predicate CanDeliver(s: State, d: nat) {
    && d in s.deliveries && !s.deliveries[d].finished
    && (s.deliveries[d].entry.ToDone? ==>
          s.deliveries[d].entry.emit in s.emits && s.emits[s.deliveries[d].entry.emit].done.None?)
  }

  predicate Enabled(s: State, a: Action) {
    match a
    case DoEmit(e, timed, userAck, _) => e !in s.emits && (timed || userAck)
    case StartWaiter(e) => At(s, e, NotStarted)
    case FireTimer(e) => At(s, e, Selecting)
    case DeleteEntry(e) => At(s, e, TimedOut)
    case CallTimeout(e) => At(s, e, Expired)
    case SeeContext(e) => At(s, e, Selecting) && s.ctxDone
    case ReceiveDone(e) => At(s, e, Selecting) && s.emits[e].done.Some?
    case CallAck(e) => e in s.emits && s.emits[e].waiter.Holding?
    case Arrive(_, _, d) => d !in s.deliveries
    case ArriveEmpty(_) => true
    case Deliver(d) => CanDeliver(s, d)
    case CancelContext => true
  }

  function NewEmit(id: int, ordinal: nat, timed: bool, userAck: bool, timeoutCb: bool): Emit {
    Emit(id, ordinal, timed, userAck, timeoutCb, if timed then NotStarted else NoWaiter, None, InTable)
  }

  function Wait(s: State, e: nat, w: Waiter): State
    requires e in s.emits
  {
    s.(emits := s.emits[e := s.emits[e].(waiter := w)])
  }

  function Relocate(emits: map<nat, Emit>, e: nat, p: Place): map<nat, Emit> {
    if e in emits then emits[e := emits[e].(place := p)] else emits
  }

  function Next(s: State, a: Action): State
    requires Enabled(s, a)
  {
    match a
    case DoEmit(e, timed, userAck, timeoutCb) =>
      var (table, id) := Register(s.table, e, timed, userAck);
      s.(table := table,
         issued := s.issued + 1,
         emits := s.emits[e := NewEmit(id, s.issued + 1, timed, userAck, timeoutCb)])
    case StartWaiter(e) => Wait(s, e, Selecting)
    case FireTimer(e) => Wait(s, e, TimedOut)
    case DeleteEntry(e) =>
      var me := s.emits[e];
      s.(table := Take(s.table, me.id).0,
         emits := s.emits[e := me.(waiter := Expired, place := if me.place.InTable? then Lost else me.place)])
    case CallTimeout(e) =>
      Wait(s, e, Gone(ByTimeout)).(calls := s.calls + (if s.emits[e].timeoutCb then [TimeoutCalled(e)] else []))
    case SeeContext(e) => Wait(s, e, Gone(ByContext))
    case ReceiveDone(e) =>
      s.(emits := s.emits[e := s.emits[e].(waiter := Holding(s.emits[e].done.value), done := None, place := Held)])
    case CallAck(e) =>
      var me := s.emits[e];
      s.(emits := s.emits[e := me.(waiter := Gone(ByAck), place := Called)],
         calls := s.calls + (if me.userAck then [AckCalled(e, me.id, me.waiter.payload)] else []))
    case Arrive(id, payload, d) =>
      var (table, found) := Take(s.table, id);
      s.(table := table,
         acks := s.acks + [(id, payload)],
         deliveries := if found.Some? then s.deliveries[d := Delivery(found.value, id, payload, false)]
                       else s.deliveries,
         emits := if found.Some? then Relocate(s.emits, found.value.emit, InFlight(d)) else s.emits)
    case ArriveEmpty(id) =>
      var (table, found) := Take(s.table, id);
      s.(table := table, emits := if found.Some? then Relocate(s.emits, found.value.emit, Lost) else s.emits)
    case Deliver(d) => DeliverStep(s, d)
    case CancelContext => s.(ctxDone := true)
  }

  /** The entry runs: the user's callback itself, or the put on `done`. */
  function DeliverStep(s: State, d: nat): State
    requires CanDeliver(s, d)
  {
    var me := s.deliveries[d];
    var e := me.entry.emit;
    s.(deliveries := s.deliveries[d := me.(finished := true)],
       calls := if me.entry.Direct? then s.calls + [AckCalled(e, me.id, me.payload)] else s.calls,
       emits := if me.entry.Direct? then Relocate(s.emits, e, Called)
                else s.emits[e := s.emits[e].(done := Some(me.payload), place := Buffered)])
  }

  ghost predicate Run(ss: seq<State>, acts: seq<Action>) {
    && |ss| == |acts| + 1 && ss[0] == INITIAL
    && forall i :: 0 <= i < |acts| ==> Enabled(ss[i], acts[i]) && ss[i + 1] == Next(ss[i], acts[i])
  }

  // ------------------------------------------------------------------ the invariant

  /** Ids are the wrapped numbers of their emits. */
  ghost predicate InvIds(emits: map<nat, Emit>, issued: nat) {
    && (forall e :: e in emits ==> 1 <= emits[e].ordinal <= issued && emits[e].id == Wrap(emits[e].ordinal))
    && (forall e, f :: e in emits && f in emits && e != f ==> emits[e].ordinal != emits[f].ordinal)
  }

  /** An entry belongs to an emit of its id, whose ack is nowhere else. */
  ghost predicate InvTable(callbacks: map<int, Entry>, emits: map<nat, Emit>) {
    forall n :: n in callbacks ==> EntryOk(n, callbacks[n], emits)
  }

  /** As long as no id has been given out twice, an ack that is awaited has its entry. */
  ghost predicate InvPlaced(callbacks: map<int, Entry>, emits: map<nat, Emit>, issued: nat) {
    issued <= TWO_TO_64 ==>
      forall e :: e in emits && emits[e].place.InTable? ==>
        emits[e].id in callbacks && callbacks[emits[e].id].emit == e
  }

  predicate EntryOk(n: int, entry: Entry, emits: map<nat, Emit>) {
    && entry.emit in emits && emits[entry.emit].id == n && emits[entry.emit].place.InTable?
    && (entry.ToDone? <==> emits[entry.emit].timed)
  }

  /** A delivery is for an emit of its id, which awaits no other; a pending one is where that emit's ack is. */
  ghost predicate InvDeliveries(deliveries: map<nat, Delivery>, emits: map<nat, Emit>, acks: seq<(int, Payload)>) {
    && (forall d :: d in deliveries ==>
          && deliveries[d].entry.emit in emits && emits[deliveries[d].entry.emit].id == deliveries[d].id
          && !emits[deliveries[d].entry.emit].place.InTable?)
    && (forall d :: d in deliveries && !deliveries[d].finished ==> PendingOk(d, deliveries[d], emits, acks))
  }

  predicate PendingOk(d: nat, me: Delivery, emits: map<nat, Emit>, acks: seq<(int, Payload)>) {
    && me.entry.emit in emits && emits[me.entry.emit].place == InFlight(d) && emits[me.entry.emit].id == me.id
    && (me.entry.ToDone? <==> emits[me.entry.emit].timed)
    && (me.id, me.payload) in acks
  }

  predicate EmitOk(me: Emit, acks: seq<(int, Payload)>) {
    && (me.done.Some? <==> me.place.Buffered?)
    && (me.waiter.Holding? <==> me.place.Held?)
    && (me.timed <==> !me.waiter.NoWaiter?)
    && (me.timed && me.place.Called? <==> me.waiter == Gone(ByAck))
    && (!me.timed ==> me.userAck)
    && (me.waiter.Expired? || me.waiter == Gone(ByTimeout) ==> !me.place.InTable?)
    && (me.done.Some? ==> (me.id, me.done.value) in acks)
    && (me.waiter.Holding? ==> (me.id, me.waiter.payload) in acks)
  }

  ghost predicate InvEmits(emits: map<nat, Emit>, acks: seq<(int, Payload)>) {
    forall e :: e in emits ==> EmitOk(emits[e], acks)
  }

  predicate CallOk(c: UserCall, emits: map<nat, Emit>, acks: seq<(int, Payload)>) {
    && c.emit in emits
    && match c
       case AckCalled(e, id, payload) =>
         emits[e].id == id && emits[e].place.Called? && emits[e].userAck && (id, payload) in acks
       case TimeoutCalled(e) => emits[e].waiter == Gone(ByTimeout) && emits[e].timeoutCb
  }

  ghost predicate InvCalls(calls: seq<UserCall>, emits: map<nat, Emit>, acks: seq<(int, Payload)>) {
    && (forall i :: 0 <= i < |calls| ==> CallOk(calls[i], emits, acks))
    && (forall i, j :: 0 <= i < j < |calls| ==> calls[i].emit != calls[j].emit)
  }

  /** An emit whose ack or timeout has come through has had its callback called. */
  ghost predicate InvCalled(calls: seq<UserCall>, emits: map<nat, Emit>) {
    forall e :: e in emits ==> CalledOk(e, emits[e], calls)
  }

  ghost predicate CalledOk(e: nat, me: Emit, calls: seq<UserCall>) {
    && (me.place.Called? && me.userAck ==> exists i :: 0 <= i < |calls| && calls[i].AckCalled? && calls[i].emit == e)
    && (me.waiter == Gone(ByTimeout) && me.timeoutCb ==> TimeoutCalled(e) in calls)
  }

  ghost predicate Inv(s: State) {
    && s.table.counter == Wrap(s.issued)
    && InvIds(s.emits, s.issued)
    && InvTable(s.table.callbacks, s.emits)
    && InvPlaced(s.table.callbacks, s.emits, s.issued)
    && InvDeliveries(s.deliveries, s.emits, s.acks)
    && InvEmits(s.emits, s.acks)
    && InvCalls(s.calls, s.emits, s.acks)
    && InvCalled(s.calls, s.emits)
  }

  // ------------------------------------------------------------------ one emit changes

  /** What no step changes about an emit. */
  predicate SameEmit(me: Emit, you: Emit) {
    && me.id == you.id && me.ordinal == you.ordinal && me.timed == you.timed
    && me.userAck == you.userAck && me.timeoutCb == you.timeoutCb
  }

  lemma IdsMove(emits: map<nat, Emit>, issued: nat, e: nat, me: Emit)
    requires InvIds(emits, issued) && e in emits && SameEmit(me, emits[e])
    ensures InvIds(emits[e := me], issued)
  {
  }

  lemma TableMove(callbacks: map<int, Entry>, emits: map<nat, Emit>, e: nat, me: Emit)
    requires InvTable(callbacks, emits) && e in emits && SameEmit(me, emits[e])
    requires me.place.InTable? <==> emits[e].place.InTable?
    ensures InvTable(callbacks, emits[e := me])
  {
  }

  lemma PlacedMove(callbacks: map<int, Entry>, emits: map<nat, Emit>, issued: nat, e: nat, me: Emit)
    requires InvPlaced(callbacks, emits, issued) && e in emits && SameEmit(me, emits[e])
    requires me.place.InTable? ==> emits[e].place.InTable?
    ensures InvPlaced(callbacks, emits[e := me], issued)
  {
  }

  lemma DeliveriesMove(deliveries: map<nat, Delivery>, emits: map<nat, Emit>, acks: seq<(int, Payload)>, e: nat,
                       me: Emit)
    requires InvDeliveries(deliveries, emits, acks) && e in emits && SameEmit(me, emits[e])
    requires me.place.InTable? ==> emits[e].place.InTable?
    requires emits[e].place.InFlight? ==>
               me.place == emits[e].place
               || (emits[e].place.delivery in deliveries && deliveries[emits[e].place.delivery].finished)
    ensures InvDeliveries(deliveries, emits[e := me], acks)
  {
  }

  lemma CallsMove(calls: seq<UserCall>, emits: map<nat, Emit>, acks: seq<(int, Payload)>, e: nat, me: Emit)
    requires InvCalls(calls, emits, acks) && e in emits && SameEmit(me, emits[e])
    requires emits[e].place.Called? ==> me.place.Called?
    requires emits[e].waiter == Gone(ByTimeout) ==> me.waiter == Gone(ByTimeout)
    ensures InvCalls(calls, emits[e := me], acks)
  {
  }

  lemma CalledMove(calls: seq<UserCall>, emits: map<nat, Emit>, e: nat, me: Emit)
    requires InvCalled(calls, emits) && CalledOk(e, me, calls)
    ensures InvCalled(calls, emits[e := me])
  {
  }

  lemma EmitsMove(emits: map<nat, Emit>, acks: seq<(int, Payload)>, e: nat, me: Emit)
    requires InvEmits(emits, acks) && EmitOk(me, acks)
    ensures InvEmits(emits[e := me], acks)
  {
  }

  /** An emit moves on without entering or leaving the table, a delivery or a callback. */
  lemma QuietMove(s: State, e: nat, me: Emit)
    requires Inv(s) && e in s.emits && SameEmit(me, s.emits[e]) && EmitOk(me, s.acks)
    requires || me.place == s.emits[e].place
             || (!me.place.InTable? && !me.place.Called? && (s.emits[e].place.Buffered? || s.emits[e].place.Held?))
    requires me.waiter != Gone(ByTimeout) && s.emits[e].waiter != Gone(ByTimeout)
    ensures Inv(s.(emits := s.emits[e := me]))
  {
    hide InvIds, InvTable, InvDeliveries, InvEmits, InvCalls, InvCalled;
    IdsMove(s.emits, s.issued, e, me);
    TableMove(s.table.callbacks, s.emits, e, me);
    PlacedMove(s.table.callbacks, s.emits, s.issued, e, me);
    DeliveriesMove(s.deliveries, s.emits, s.acks, e, me);
    EmitsMove(s.emits, s.acks, e, me);
    CallsMove(s.calls, s.emits, s.acks, e, me);
    SameCalled(s, e, me);
    CalledMove(s.calls, s.emits, e, me);
  }

  lemma SameCalled(s: State, e: nat, me: Emit)
    requires InvCalled(s.calls, s.emits) && e in s.emits && SameEmit(me, s.emits[e])
    requires me.place.Called? ==> s.emits[e].place.Called?
    requires me.waiter == Gone(ByTimeout) ==> s.emits[e].waiter == Gone(ByTimeout)
    ensures CalledOk(e, me, s.calls)
  {
  }

  lemma EmitFacts(s: State, e: nat)
    requires Inv(s) && e in s.emits
    ensures EmitOk(s.emits[e], s.acks)
  {
  }

  lemma WaitKeeps(s: State, e: nat, w: Waiter)
    requires Inv(s) && (At(s, e, NotStarted) || At(s, e, Selecting))
    requires w.Selecting? || w.TimedOut? || w == Gone(ByContext)
    ensures Inv(Wait(s, e, w))
  {
    hide Inv;
    EmitFacts(s, e);
    QuietMove(s, e, s.emits[e].(waiter := w));
  }

  lemma ReceiveKeeps(s: State, e: nat)
    requires Inv(s) && Enabled(s, ReceiveDone(e))
    ensures Inv(Next(s, ReceiveDone(e)))
  {
    hide Inv;
    EmitFacts(s, e);
    QuietMove(s, e, s.emits[e].(waiter := Holding(s.emits[e].done.value), done := None, place := Held));
  }

  // ------------------------------------------------------------------ callbacks run

  /** A callback may run for an emit that none has run for. */
  lemma CallsGrow(calls: seq<UserCall>, emits: map<nat, Emit>, acks: seq<(int, Payload)>, c: UserCall)
    requires InvCalls(calls, emits, acks) && CallOk(c, emits, acks)
    requires forall i :: 0 <= i < |calls| ==> calls[i].emit != c.emit
    ensures InvCalls(calls + [c], emits, acks)
  {
  }

  lemma CalledGrow(calls: seq<UserCall>, emits: map<nat, Emit>, c: UserCall)
    requires InvCalled(calls, emits)
    ensures InvCalled(calls + [c], emits)
  {
    forall e | e in emits
      ensures CalledOk(e, emits[e], calls + [c])
    {
      assert CalledOk(e, emits[e], calls);
      if emits[e].place.Called? && emits[e].userAck {
        var i :| 0 <= i < |calls| && calls[i].AckCalled? && calls[i].emit == e;
        assert (calls + [c])[i] == calls[i];
      }
    }
  }

  /** Nothing has run yet for an emit whose ack and timeout are still open. */
  lemma NotCalledYet(s: State, e: nat)
    requires Inv(s) && e in s.emits && !s.emits[e].place.Called? && s.emits[e].waiter != Gone(ByTimeout)
    ensures forall i :: 0 <= i < |s.calls| ==> s.calls[i].emit != e
  {
  }

  /** An emit comes to its end, and its callback, if it has one, runs. */
  lemma FinalMove(s: State, e: nat, me: Emit, cs: seq<UserCall>, deliveries: map<nat, Delivery>)
    requires Inv(s) && e in s.emits && SameEmit(me, s.emits[e]) && EmitOk(me, s.acks)
    requires !s.emits[e].place.Called? && s.emits[e].waiter != Gone(ByTimeout)
    requires InvDeliveries(deliveries, s.emits[e := me], s.acks)
    requires me.place.InTable? <==> s.emits[e].place.InTable?
    requires |cs| <= 1 && (cs != [] ==> cs[0].emit == e && CallOk(cs[0], s.emits[e := me], s.acks))
    requires CalledOk(e, me, s.calls + cs)
    ensures Inv(s.(emits := s.emits[e := me], calls := s.calls + cs, deliveries := deliveries))
  {
    hide InvIds, InvTable, InvDeliveries, InvEmits, InvCalls, InvCalled, CallOk, CalledOk, EmitOk;
    NotCalledYet(s, e);
    IdsMove(s.emits, s.issued, e, me);
    TableMove(s.table.callbacks, s.emits, e, me);
    PlacedMove(s.table.callbacks, s.emits, s.issued, e, me);
    EmitsMove(s.emits, s.acks, e, me);
    CallsMove(s.calls, s.emits, s.acks, e, me);
    if cs == [] {
      assert s.calls + cs == s.calls;
    } else {
      assert cs == [cs[0]];
      CallsGrow(s.calls, s.emits[e := me], s.acks, cs[0]);
      CalledGrow(s.calls, s.emits, cs[0]);
    }
    CalledMove(s.calls + cs, s.emits, e, me);
  }

  lemma CallTimeoutKeeps(s: State, e: nat)
    requires Inv(s) && At(s, e, Expired)
    ensures Inv(Next(s, CallTimeout(e)))
  {
    hide InvIds, InvTable, InvDeliveries, InvEmits, InvCalls, InvCalled;
    EmitFacts(s, e);
    var me := s.emits[e].(waiter := Gone(ByTimeout));
    var cs := if me.timeoutCb then [TimeoutCalled(e)] else [];
    DeliveriesMove(s.deliveries, s.emits, s.acks, e, me);
    assert me.timeoutCb ==> (s.calls + cs)[|s.calls|] == TimeoutCalled(e);
    FinalMove(s, e, me, cs, s.deliveries);
  }

  lemma CallAckKeeps(s: State, e: nat)
    requires Inv(s) && Enabled(s, CallAck(e))
    ensures Inv(Next(s, CallAck(e)))
  {
    hide InvIds, InvTable, InvDeliveries, InvEmits, InvCalls, InvCalled;
    EmitFacts(s, e);
    var me := s.emits[e].(waiter := Gone(ByAck), place := Called);
    var cs := if me.userAck then [AckCalled(e, me.id, s.emits[e].waiter.payload)] else [];
    DeliveriesMove(s.deliveries, s.emits, s.acks, e, me);
    assert me.userAck ==> (s.calls + cs)[|s.calls|].AckCalled?;
    FinalMove(s, e, me, cs, s.deliveries);
  }

  // ------------------------------------------------------------------ deliveries

  lemma DeliveryFacts(s: State, d: nat)
    requires Inv(s) && d in s.deliveries && !s.deliveries[d].finished
    ensures PendingOk(d, s.deliveries[d], s.emits, s.acks)
    ensures EmitOk(s.emits[s.deliveries[d].entry.emit], s.acks)
    ensures CanDeliver(s, d)
  {
  }

  /** The delivery ends, and its emit moves on from it. */
  lemma DeliveryEnds(deliveries: map<nat, Delivery>, emits: map<nat, Emit>, acks: seq<(int, Payload)>, d: nat, me: Emit)
    requires InvDeliveries(deliveries, emits, acks) && d in deliveries && !deliveries[d].finished
    requires deliveries[d].entry.emit in emits && SameEmit(me, emits[deliveries[d].entry.emit]) && !me.place.InTable?
    ensures InvDeliveries(deliveries[d := deliveries[d].(finished := true)],
                          emits[deliveries[d].entry.emit := me], acks)
  {
    var e := deliveries[d].entry.emit;
    assert PendingOk(d, deliveries[d], emits, acks);
    var after := deliveries[d := deliveries[d].(finished := true)];
    forall x | x in after && !after[x].finished
      ensures PendingOk(x, after[x], emits[e := me], acks)
    {
      assert x != d && after[x] == deliveries[x];
      assert PendingOk(x, deliveries[x], emits, acks);
      assert deliveries[x].entry.emit != e;
    }
  }

  lemma DeliverDirectKeeps(s: State, d: nat)
    requires Inv(s) && CanDeliver(s, d) && s.deliveries[d].entry.Direct?
    ensures Inv(DeliverStep(s, d))
  {
    hide InvIds, InvTable, InvDeliveries, InvEmits, InvCalls, InvCalled;
    DeliveryFacts(s, d);
    var e := s.deliveries[d].entry.emit;
    var me := s.emits[e].(place := Called);
    var cs := [AckCalled(e, s.deliveries[d].id, s.deliveries[d].payload)];
    DeliveryEnds(s.deliveries, s.emits, s.acks, d, me);
    assert (s.calls + cs)[|s.calls|].AckCalled?;
    FinalMove(s, e, me, cs, s.deliveries[d := s.deliveries[d].(finished := true)]);
  }

  lemma DeliverToDoneKeeps(s: State, d: nat)
    requires Inv(s) && CanDeliver(s, d) && s.deliveries[d].entry.ToDone?
    ensures Inv(DeliverStep(s, d))
  {
    hide InvIds, InvTable, InvDeliveries, InvEmits, InvCalls, InvCalled;
    DeliveryFacts(s, d);
    var e := s.deliveries[d].entry.emit;
    var me := s.emits[e].(done := Some(s.deliveries[d].payload), place := Buffered);
    DeliveryEnds(s.deliveries, s.emits, s.acks, d, me);
    IdsMove(s.emits, s.issued, e, me);
    TableMove(s.table.callbacks, s.emits, e, me);
    PlacedMove(s.table.callbacks, s.emits, s.issued, e, me);
    EmitsMove(s.emits, s.acks, e, me);
    CallsMove(s.calls, s.emits, s.acks, e, me);
    SameCalled(s, e, me);
    CalledMove(s.calls, s.emits, e, me);
  }

  // ------------------------------------------------------------------ the table changes

  /** Taking an entry moves its emit out of the table. */
  lemma TableTake(callbacks: map<int, Entry>, emits: map<nat, Emit>, e: nat, me: Emit)
    requires InvTable(callbacks, emits) && e in emits && SameEmit(me, emits[e])
    ensures InvTable(callbacks - {me.id}, emits[e := me])
  {
    forall n | n in callbacks - {me.id}
      ensures EntryOk(n, callbacks[n], emits[e := me])
    {
      assert EntryOk(n, callbacks[n], emits);
    }
  }

  /** Two emits of the same id are more than 2 to the 64th apart. */
  lemma DistinctIds(emits: map<nat, Emit>, issued: nat, e: nat, f: nat)
    requires InvIds(emits, issued) && issued <= TWO_TO_64 && e in emits && f in emits && emits[e].id == emits[f].id
    ensures e == f
  {
    WrapsAlike(emits[e].ordinal, emits[f].ordinal);
  }

  lemma PlacedTake(callbacks: map<int, Entry>, emits: map<nat, Emit>, issued: nat, e: nat, me: Emit)
    requires InvPlaced(callbacks, emits, issued) && InvIds(emits, issued) && e in emits
    requires SameEmit(me, emits[e]) && !me.place.InTable?
    ensures InvPlaced(callbacks - {me.id}, emits[e := me], issued)
  {
    if issued <= TWO_TO_64 {
      forall f | f in emits && f != e && emits[f].place.InTable?
        ensures emits[f].id != me.id
      {
        if emits[f].id == me.id {
          DistinctIds(emits, issued, e, f);
        }
      }
    }
  }

  lemma DeleteKeeps(s: State, e: nat)
    requires Inv(s) && At(s, e, TimedOut)
    ensures Inv(Next(s, DeleteEntry(e)))
  {
    hide InvIds, InvTable, InvDeliveries, InvEmits, InvCalls, InvCalled;
    EmitFacts(s, e);
    var old' := s.emits[e];
    var me := old'.(waiter := Expired, place := if old'.place.InTable? then Lost else old'.place);
    IdsMove(s.emits, s.issued, e, me);
    TableTake(s.table.callbacks, s.emits, e, me);
    PlacedTake(s.table.callbacks, s.emits, s.issued, e, me);
    DeliveriesMove(s.deliveries, s.emits, s.acks, e, me);
    EmitsMove(s.emits, s.acks, e, me);
    CallsMove(s.calls, s.emits, s.acks, e, me);
    SameCalled(s, e, me);
    CalledMove(s.calls, s.emits, e, me);
  }

  lemma AcksGrow(s: State, x: (int, Payload))
    requires Inv(s)
    ensures Inv(s.(acks := s.acks + [x]))
  {
  }

  /** The entry of an id belongs to one emit, whose ack is there and nowhere else. */
  lemma EntryFacts(s: State, id: int)
    requires Inv(s) && id in s.table.callbacks
    ensures EntryOk(id, s.table.callbacks[id], s.emits)
    ensures EmitOk(s.emits[s.table.callbacks[id].emit], s.acks)
  {
  }

  lemma DeliveriesGrow(s: State, id: int, payload: Payload, d: nat)
    requires Inv(s) && id in s.table.callbacks && d !in s.deliveries && (id, payload) in s.acks
    ensures
      var entry := s.table.callbacks[id];
      entry.emit in s.emits &&
      InvDeliveries(s.deliveries[d := Delivery(entry, id, payload, false)],
                    s.emits[entry.emit := s.emits[entry.emit].(place := InFlight(d))], s.acks)
  {
    EntryFacts(s, id);
    var entry := s.table.callbacks[id];
    var me := s.emits[entry.emit].(place := InFlight(d));
    DeliveriesMove(s.deliveries, s.emits, s.acks, entry.emit, me);
  }

  /** An entry is taken, by an ACK with an event or by one without. */
  lemma TakeKeeps(s: State, id: int, place: Place, deliveries: map<nat, Delivery>)
    requires Inv(s) && id in s.table.callbacks && s.table.callbacks[id].emit in s.emits
    requires place.InFlight? || place.Lost?
    requires InvDeliveries(deliveries, Relocate(s.emits, s.table.callbacks[id].emit, place), s.acks)
    ensures Inv(s.(table := Take(s.table, id).0, deliveries := deliveries,
                   emits := Relocate(s.emits, s.table.callbacks[id].emit, place)))
  {
    hide InvIds, InvTable, InvDeliveries, InvEmits, InvCalls, InvCalled;
    EntryFacts(s, id);
    var e := s.table.callbacks[id].emit;
    var me := s.emits[e].(place := place);
    IdsMove(s.emits, s.issued, e, me);
    TableTake(s.table.callbacks, s.emits, e, me);
    PlacedTake(s.table.callbacks, s.emits, s.issued, e, me);
    EmitsMove(s.emits, s.acks, e, me);
    CallsMove(s.calls, s.emits, s.acks, e, me);
    SameCalled(s, e, me);
    CalledMove(s.calls, s.emits, e, me);
  }

  lemma ArriveKeeps(s: State, id: int, payload: Payload, d: nat)
    requires Inv(s) && Enabled(s, Arrive(id, payload, d))
    ensures Inv(Next(s, Arrive(id, payload, d)))
  {
    hide Inv, InvDeliveries;
    var t := s.(acks := s.acks + [(id, payload)]);
    AcksGrow(s, (id, payload));
    if id in s.table.callbacks {
      DeliveriesGrow(t, id, payload, d);
      var entry := s.table.callbacks[id];
      TakeKeeps(t, id, InFlight(d), s.deliveries[d := Delivery(entry, id, payload, false)]);
    } else {
      TakenOnce(s.table, id, id);
    }
  }

  lemma ArriveEmptyKeeps(s: State, id: int)
    requires Inv(s)
    ensures Inv(Next(s, ArriveEmpty(id)))
  {
    hide InvIds, InvTable, InvDeliveries, InvEmits, InvCalls, InvCalled;
    if id in s.table.callbacks {
      EntryFacts(s, id);
      var e := s.table.callbacks[id].emit;
      var me := s.emits[e].(place := Lost);
      DeliveriesMove(s.deliveries, s.emits, s.acks, e, me);
      TakeKeeps(s, id, Lost, s.deliveries);
    } else {
      TakenOnce(s.table, id, id);
    }
  }

  // ------------------------------------------------------------------ a new emit

  /** The emit that takes the next id. */
  ghost predicate IsNew(s: State, e: nat, me: Emit, table: Table) {
    && e !in s.emits && (me.timed || me.userAck) && me.place.InTable?
    && (table, me.id) == Register(s.table, e, me.timed, me.userAck) && me.ordinal == s.issued + 1
  }

  lemma NewIds(s: State, e: nat, me: Emit, table: Table)
    requires Inv(s) && IsNew(s, e, me, table)
    ensures table.counter == me.id == Wrap(s.issued + 1) && InvIds(s.emits[e := me], s.issued + 1)
  {
    WrapsAlike(s.table.counter + 1, s.issued + 1);
  }

  lemma NewEmitTable(s: State, e: nat, me: Emit, table: Table)
    requires Inv(s) && IsNew(s, e, me, table)
    ensures InvTable(table.callbacks, s.emits[e := me])
  {
    forall n | n in table.callbacks
      ensures EntryOk(n, table.callbacks[n], s.emits[e := me])
    {
      if n != me.id {
        EntryFacts(s, n);
      }
    }
  }

  lemma NewEmitPlaced(s: State, e: nat, me: Emit, table: Table)
    requires Inv(s) && IsNew(s, e, me, table)
    ensures InvPlaced(table.callbacks, s.emits[e := me], s.issued + 1)
  {
    NewIds(s, e, me, table);
    if s.issued + 1 <= TWO_TO_64 {
      forall f | f in s.emits && s.emits[f].place.InTable?
        ensures s.emits[f].id != me.id
      {
        if s.emits[f].id == me.id {
          DistinctIds(s.emits[e := me], s.issued + 1, e, f);
        }
      }
    }
  }

  lemma NewEmitDeliveries(s: State, e: nat, me: Emit)
    requires Inv(s) && e !in s.emits
    ensures InvDeliveries(s.deliveries, s.emits[e := me], s.acks)
  {
    forall d | d in s.deliveries && !s.deliveries[d].finished
      ensures PendingOk(d, s.deliveries[d], s.emits[e := me], s.acks)
    {
      DeliveryFacts(s, d);
    }
  }

  lemma NewEmitCalls(s: State, e: nat, me: Emit)
    requires Inv(s) && e !in s.emits && me.place.InTable? && me.waiter != Gone(ByTimeout)
    ensures InvCalls(s.calls, s.emits[e := me], s.acks) && InvCalled(s.calls, s.emits[e := me])
  {
  }

  lemma EmitKeeps(s: State, e: nat, timed: bool, userAck: bool, timeoutCb: bool)
    requires Inv(s) && Enabled(s, DoEmit(e, timed, userAck, timeoutCb))
    ensures Inv(Next(s, DoEmit(e, timed, userAck, timeoutCb)))
  {
    hide InvIds, InvTable, InvPlaced, InvDeliveries, InvEmits, InvCalls, InvCalled, Register;
    var (table, id) := Register(s.table, e, timed, userAck);
    var me := NewEmit(id, s.issued + 1, timed, userAck, timeoutCb);
    NewIds(s, e, me, table);
    NewEmitTable(s, e, me, table);
    NewEmitPlaced(s, e, me, table);
    NewEmitDeliveries(s, e, me);
    NewEmitCalls(s, e, me);
    EmitsMove(s.emits, s.acks, e, me);
  }

  // ------------------------------------------------------------------ runs

  lemma StepKeeps(s: State, a: Action)
    requires Inv(s) && Enabled(s, a)
    ensures Inv(Next(s, a))
  {
    hide Inv, DeliverStep;
    match a
    case DoEmit(e, timed, userAck, timeoutCb) => EmitKeeps(s, e, timed, userAck, timeoutCb);
    case StartWaiter(e) => WaitKeeps(s, e, Selecting);
    case FireTimer(e) => WaitKeeps(s, e, TimedOut);
    case DeleteEntry(e) => DeleteKeeps(s, e);
    case CallTimeout(e) => CallTimeoutKeeps(s, e);
    case SeeContext(e) => WaitKeeps(s, e, Gone(ByContext));
    case ReceiveDone(e) => ReceiveKeeps(s, e);
    case CallAck(e) => CallAckKeeps(s, e);
    case Arrive(id, payload, d) => ArriveKeeps(s, id, payload, d);
    case ArriveEmpty(id) => ArriveEmptyKeeps(s, id);
    case Deliver(d) =>
      if s.deliveries[d].entry.Direct? {
        DeliverDirectKeeps(s, d);
      } else {
        DeliverToDoneKeeps(s, d);
      }
    case CancelContext => CancelKeeps(s);
  }

  lemma CancelKeeps(s: State)
    requires Inv(s)
    ensures Inv(s.(ctxDone := true))
  {
  }

  lemma {:induction false} RunKeeps(ss: seq<State>, acts: seq<Action>, k: nat)
    requires Run(ss, acts) && k < |ss|
    ensures Inv(ss[k])
  {
    if k > 0 {
      hide Inv, Next, Enabled;
      RunKeeps(ss, acts, k - 1);
      assert Enabled(ss[k - 1], acts[k - 1]) && ss[k] == Next(ss[k - 1], acts[k - 1]);
      StepKeeps(ss[k - 1], acts[k - 1]);
    }
  }

  /**
   Ack ids repeat only when the counter has gone all the way round: two emits have the same id exactly when a
   multiple of 2 to the 64th emits lies between them.
   */
  lemma IdsDistinct(ss: seq<State>, acts: seq<Action>, k: nat, e: nat, f: nat)
    requires Run(ss, acts) && k < |ss| && e in ss[k].emits && f in ss[k].emits
    ensures ss[k].emits[e].ordinal == ss[k].emits[f].ordinal <==> e == f
    ensures 1 <= ss[k].emits[e].ordinal <= ss[k].issued
    ensures ss[k].emits[e].id == ss[k].emits[f].id <==>
              (ss[k].emits[e].ordinal - ss[k].emits[f].ordinal) % TWO_TO_64 == 0
    ensures ss[k].issued <= TWO_TO_64 ==> (ss[k].emits[e].id == ss[k].emits[f].id <==> e == f)
  {
    RunKeeps(ss, acts, k);
    WrapsAlike(ss[k].emits[e].ordinal, ss[k].emits[f].ordinal);
    if ss[k].issued <= TWO_TO_64 && ss[k].emits[e].id == ss[k].emits[f].id {
      DistinctIds(ss[k].emits, ss[k].issued, e, f);
    }
  }

  /**
   A user's ack callback runs only for an ACK that arrived with that emit's own id, and with its payload;
   a timeout callback runs only for an emit whose timer fired.
   */
  lemma CallsAreOwn(ss: seq<State>, acts: seq<Action>, k: nat, i: nat)
    requires Run(ss, acts) && k < |ss| && i < |ss[k].calls|
    ensures ss[k].calls[i].emit in ss[k].emits
    ensures
      var me := ss[k].emits[ss[k].calls[i].emit];
      match ss[k].calls[i]
      case AckCalled(_, id, payload) => id == me.id && me.userAck && (id, payload) in ss[k].acks
      case TimeoutCalled(_) => me.timed && me.timeoutCb && me.waiter == Gone(ByTimeout)
  {
    RunKeeps(ss, acts, k);
    assert CallOk(ss[k].calls[i], ss[k].emits, ss[k].acks);
    EmitFacts(ss[k], ss[k].calls[i].emit);
  }

  /** The ack and the timeout callback of one emit run at most once, both together. */
  lemma OneOutcome(ss: seq<State>, acts: seq<Action>, k: nat, i: nat, j: nat)
    requires Run(ss, acts) && k < |ss| && i < |ss[k].calls| && j < |ss[k].calls|
    ensures ss[k].calls[i].emit == ss[k].calls[j].emit <==> i == j
  {
    RunKeeps(ss, acts, k);
  }

  /** And they do run: for an emit that ended by its ack, or by its timer. */
  lemma OutcomeIsCalled(ss: seq<State>, acts: seq<Action>, k: nat, e: nat)
    requires Run(ss, acts) && k < |ss| && e in ss[k].emits
    ensures ss[k].emits[e].place.Called? && ss[k].emits[e].userAck <==>
              exists i :: 0 <= i < |ss[k].calls| && ss[k].calls[i].AckCalled? && ss[k].calls[i].emit == e
    ensures ss[k].emits[e].waiter == Gone(ByTimeout) && ss[k].emits[e].timeoutCb <==> TimeoutCalled(e) in ss[k].calls
    ensures ss[k].emits[e].waiter == Gone(ByAck) <==> ss[k].emits[e].timed && ss[k].emits[e].place.Called?
  {
    RunKeeps(ss, acts, k);
    EmitFacts(ss[k], e);
    assert CalledOk(e, ss[k].emits[e], ss[k].calls);
    if exists i :: 0 <= i < |ss[k].calls| && ss[k].calls[i].AckCalled? && ss[k].calls[i].emit == e {
      var i :| 0 <= i < |ss[k].calls| && ss[k].calls[i].AckCalled? && ss[k].calls[i].emit == e;
      assert CallOk(ss[k].calls[i], ss[k].emits, ss[k].acks);
    }
    if TimeoutCalled(e) in ss[k].calls {
      var i :| 0 <= i < |ss[k].calls| && ss[k].calls[i] == TimeoutCalled(e);
      assert CallOk(ss[k].calls[i], ss[k].emits, ss[k].acks);
    }
  }

  /** The goroutine that delivers an ack never blocks: whenever it has not finished, it can take its step. */
  lemma DeliveryNeverBlocks(ss: seq<State>, acts: seq<Action>, k: nat, d: nat)
    requires Run(ss, acts) && k < |ss| && d in ss[k].deliveries && !ss[k].deliveries[d].finished
    ensures Enabled(ss[k], Deliver(d))
  {
    RunKeeps(ss, acts, k);
    DeliveryFacts(ss[k], d);
  }

  /** An ACK that finds no entry is only recorded. */
  lemma NoEntry(s: State, id: int, payload: Payload, f: nat)
    requires id !in s.table.callbacks && f !in s.deliveries
    ensures Next(s, Arrive(id, payload, f)) == s.(acks := s.acks + [(id, payload)])
  {
  }

  /**
   An arriving ACK launches a delivery only if its id is that of an emit whose ack is still awaited; and always
   then, as long as no id has been given out twice.
   */
  lemma LaunchesIff(ss: seq<State>, acts: seq<Action>, k: nat, id: int, payload: Payload, f: nat)
    requires Run(ss, acts) && k < |ss| && f !in ss[k].deliveries
    ensures f in Next(ss[k], Arrive(id, payload, f)).deliveries ==>
              exists e :: e in ss[k].emits && ss[k].emits[e].id == id && ss[k].emits[e].place.InTable?
    ensures ss[k].issued <= TWO_TO_64
            && (exists e :: e in ss[k].emits && ss[k].emits[e].id == id && ss[k].emits[e].place.InTable?) ==>
              f in Next(ss[k], Arrive(id, payload, f)).deliveries
  {
    RunKeeps(ss, acts, k);
    if id in ss[k].table.callbacks {
      EntryFacts(ss[k], id);
    }
  }

  /** After an ACK, with an event or without one, no callback waits for its id; those of other ids are as before. */
  lemma AckEndsWait(s: State, id: int, payload: Payload, f: nat, other: int)
    requires f !in s.deliveries
    ensures id !in Next(s, Arrive(id, payload, f)).table.callbacks && id !in Next(s, ArriveEmpty(id)).table.callbacks
    ensures other != id && other in s.table.callbacks ==>
              && other in Next(s, Arrive(id, payload, f)).table.callbacks
              && other in Next(s, ArriveEmpty(id)).table.callbacks
  {
    TakenOnce(s.table, id, other);
  }

  /** Taken already, timed out, or never given out. */
  ghost predicate Stray(s: State, id: int) {
    || (exists d :: d in s.deliveries && s.deliveries[d].id == id)
    || (exists e :: e in s.emits && s.emits[e].id == id
                    && (s.emits[e].waiter.Expired? || s.emits[e].waiter == Gone(ByTimeout)))
    || (forall e :: e in s.emits ==> s.emits[e].id != id)
  }

  /**
   Duplicate, late and unknown ACKs call nothing: as long as no id has been given out twice, an ACK whose id
   was taken already, whose emit has timed out, or whose id was never given out is recorded, and nothing else
   happens.
   */
  lemma StrayAcksCallNothing(ss: seq<State>, acts: seq<Action>, k: nat, id: int, payload: Payload, f: nat)
    requires Run(ss, acts) && k < |ss| && f !in ss[k].deliveries && Stray(ss[k], id) && ss[k].issued <= TWO_TO_64
    ensures Next(ss[k], Arrive(id, payload, f)) == ss[k].(acks := ss[k].acks + [(id, payload)])
  {
    RunKeeps(ss, acts, k);
    StrayIsGone(ss[k], id);
    NoEntry(ss[k], id, payload, f);
  }

  lemma StrayIsGone(s: State, id: int)
    requires Inv(s) && Stray(s, id) && s.issued <= TWO_TO_64
    ensures id !in s.table.callbacks
  {
    if id in s.table.callbacks {
      EntryFacts(s, id);
      var f := s.table.callbacks[id].emit;
      if d :| d in s.deliveries && s.deliveries[d].id == id {
        DistinctIds(s.emits, s.issued, s.deliveries[d].entry.emit, f);
      } else if e :| e in s.emits && s.emits[e].id == id
                     && (s.emits[e].waiter.Expired? || s.emits[e].waiter == Gone(ByTimeout)) {
        DistinctIds(s.emits, s.issued, e, f);
      }
    }
  }
}
