/**
 The Socket.IO client's objects: its namespaces with their handlers and connect gates, and the dispatch of
 one message of the engine onto them.  A user callback is a number; what the client launches in goroutines
 of its own is returned as a list of calls, in launch order.
 */
module SocketClient {
  import opened Bytes
  import opened Options
  import opened GoInt
  import opened JsonCodec
  import opened PacketCodec
  import opened Dispatch
  import opened AckTable
  import NT = NamespaceTable

  /** The handler names that the client itself looks up: "connect", "disconnect" and "error". */
  const ON_CONNECT: Bytes := [0x63, 0x6F, 0x6E, 0x6E, 0x65, 0x63, 0x74]
  const ON_DISCONNECT: Bytes := [0x64, 0x69, 0x73, 0x63, 0x6F, 0x6E, 0x6E, 0x65, 0x63, 0x74]
  const ON_ERROR: Bytes := [0x65, 0x72, 0x72, 0x6F, 0x72]

  datatype Call<V> =
    | AnyCall(handler: nat, name: Bytes, payloads: seq<V>)
    | EventCall(handler: nat, payloads: seq<V>)
    | LifecycleCall(handler: nat)
    | AckCall(entry: Entry, payloads: seq<V>)

  function HandlersFor(handlers: map<Bytes, seq<nat>>, event: Bytes): seq<nat> {
    if event in handlers then handlers[event] else []
  }

  function LifecycleCalls<V>(hs: seq<nat>): (cs: seq<Call<V>>)
    ensures |cs| == |hs| && forall i :: 0 <= i < |hs| ==> cs[i] == LifecycleCall(hs[i])
  {
    seq(|hs|, i requires 0 <= i < |hs| => LifecycleCall(hs[i]))
  }

  /** Every any-handler, then every handler of the event's name, each in the order of registration. */
  function EventCalls<V>(any: seq<nat>, hs: seq<nat>, e: Event<V>): (cs: seq<Call<V>>)
    ensures |cs| == |any| + |hs|
    ensures forall i :: 0 <= i < |any| ==> cs[i] == AnyCall(any[i], e.name, e.payloads)
    ensures forall i :: 0 <= i < |hs| ==> cs[|any| + i] == EventCall(hs[i], e.payloads)
  {
    seq(|any|, i requires 0 <= i < |any| => AnyCall(any[i], e.name, e.payloads))
    + seq(|hs|, i requires 0 <= i < |hs| => EventCall(hs[i], e.payloads))
  }

  class Namespace {
    const name: Bytes
    var handlers: map<Bytes, seq<nat>>
    var anyHandlers: seq<nat>
    var waitConnectedClosed: bool
    var hadConnectedSpent: bool
    ghost var closes: nat

    ghost function Gate(): NT.Gate
      reads this
    {
      NT.Gate(waitConnectedClosed, hadConnectedSpent, closes)
    }

    ghost predicate Valid()
      reads this
    {
      NT.GateOk(Gate())
    }

    constructor (name: Bytes)
      ensures Valid() && this.name == name && handlers == map[] && anyHandlers == [] && Gate() == NT.SHUT
    {
      this.name := name;
      handlers := map[];
      anyHandlers := [];
      waitConnectedClosed := false;
      hadConnectedSpent := false;
      closes := 0;
    }

    method On(event: Bytes, handler: nat)
      modifies this`handlers
      ensures handlers == old(handlers)[event := HandlersFor(old(handlers), event) + [handler]]
    {
      handlers := handlers[event := HandlersFor(handlers, event) + [handler]];
    }

    method OnAny(handler: nat)
      modifies this`anyHandlers
      ensures anyHandlers == old(anyHandlers) + [handler]
    {
      anyHandlers := anyHandlers + [handler];
    }

    /** hadConnected.Do(close(waitConnected)): the assertion says that no channel is closed twice. */
    method OpenGate()
      requires Valid()
      modifies this`waitConnectedClosed, this`hadConnectedSpent, this`closes
      ensures Valid() && waitConnectedClosed && Gate() == NT.Open(old(Gate()))
    {
      if !hadConnectedSpent {
        hadConnectedSpent := true;
        assert !waitConnectedClosed;
        waitConnectedClosed := true;
        closes := closes + 1;
      }
    }

    method LaunchLifecycle<V>(event: Bytes) returns (calls: seq<Call<V>>)
      ensures calls == LifecycleCalls(HandlersFor(handlers, event))
    {
      calls := [];
      var hs := HandlersFor(handlers, event);
      for i := 0 to |hs|
        invariant calls == LifecycleCalls<V>(hs)[..i]
      {
        calls := calls + [LifecycleCall(hs[i])];
      }
    }

    method LaunchEvent<V>(e: Event<V>) returns (calls: seq<Call<V>>)
      ensures calls == EventCalls(anyHandlers, HandlersFor(handlers, e.name), e)
    {
      calls := [];
      if e.name !in handlers && |anyHandlers| == 0 {
        return;
      }
      var hs := HandlersFor(handlers, e.name);
      ghost var all := EventCalls(anyHandlers, hs, e);
      for i := 0 to |anyHandlers|
        invariant calls == all[..i]
      {
        calls := calls + [AnyCall(anyHandlers[i], e.name, e.payloads)];
      }
      for i := 0 to |hs|
        invariant calls == all[..|anyHandlers| + i]
      {
        calls := calls + [EventCall(hs[i], e.payloads)];
      }
    }
  }

  /** Which namespace, if any, an outcome is about. */
  function Target<V>(o: Outcome<V>): Option<Bytes> {
    match o
    case Connected(ns) => Some(ns)
    case Disconnected(ns) => Some(ns)
    case EventArrived(ns, _) => Some(ns)
    case ConnectFailed(ns, _) => Some(ns)
    case _ => None
  }

  /** The callbacks that an outcome launches, given what the tables held. */
  function Launched<V>(o: Outcome<V>, acks: Table, handlers: map<Bytes, seq<nat>>, any: seq<nat>): seq<Call<V>> {
    match o
    case AckArrived(id, payloads) =>
      var found := Take(acks, id).1;
      if found.Some? then [AckCall(found.value, payloads)] else []
    case Connected(_) => LifecycleCalls(HandlersFor(handlers, ON_CONNECT))
    case Disconnected(_) => LifecycleCalls(HandlersFor(handlers, ON_DISCONNECT))
    case ConnectFailed(_, _) => LifecycleCalls(HandlersFor(handlers, ON_ERROR))
    case EventArrived(_, e) => EventCalls(any, HandlersFor(handlers, e.name), e)
    case _ => []
  }

  /** What was launched before a panic: the error handlers, when it is a CONNECT_ERROR that panics. */
  function LaunchedBeforePanic<V>(connectError: bool, handlers: map<Bytes, seq<nat>>): seq<Call<V>> {
    if connectError then LifecycleCalls(HandlersFor(handlers, ON_ERROR)) else []
  }

  /** What an outcome does to the ack table. */
  function AcksAfter<V>(o: Outcome<V>, acks: Table): Table {
    match o
    case AckArrived(id, _) => Take(acks, id).0
    case AckWithoutEvent(id) => Take(acks, id).0
    case _ => acks
  }

  /**
   What is launched, call by call: for an ACK the entry of its id, with its payloads; for an event the any-handlers
   with name and payloads, and then the handlers of its name with the payloads; for "connect", "disconnect" and
   "error" the handlers of that name.  Each list is in the order of registration.
   */
  lemma LaunchedIs<V>(o: Outcome<V>, acks: Table, handlers: map<Bytes, seq<nat>>, any: seq<nat>)
    ensures
      var calls := Launched(o, acks, handlers, any);
      match o
      case AckArrived(id, payloads) =>
        calls == if id in acks.callbacks then [AckCall(acks.callbacks[id], payloads)] else []
      case EventArrived(_, e) =>
        && |calls| == |any| + (if e.name in handlers then |handlers[e.name]| else 0)
        && (forall i :: 0 <= i < |any| ==> calls[i] == AnyCall(any[i], e.name, e.payloads))
        && (e.name in handlers ==>
              forall i :: 0 <= i < |handlers[e.name]| ==>
                calls[|any| + i] == EventCall(handlers[e.name][i], e.payloads))
      case Connected(_) => RunsHandlersOf(calls, handlers, [0x63, 0x6F, 0x6E, 0x6E, 0x65, 0x63, 0x74])
      case Disconnected(_) =>
        RunsHandlersOf(calls, handlers, [0x64, 0x69, 0x73, 0x63, 0x6F, 0x6E, 0x6E, 0x65, 0x63, 0x74])
      case ConnectFailed(_, _) => RunsHandlersOf(calls, handlers, [0x65, 0x72, 0x72, 0x6F, 0x72])
      case _ => calls == []
    ensures RunsHandlersOf(LaunchedBeforePanic<V>(true, handlers), handlers, [0x65, 0x72, 0x72, 0x6F, 0x72])
    ensures LaunchedBeforePanic<V>(false, handlers) == []
  {
    if o.AckArrived? {
      TakenOnce(acks, o.id, o.id);
    }
  }

  ghost predicate RunsHandlersOf<V>(calls: seq<Call<V>>, handlers: map<Bytes, seq<nat>>, name: Bytes) {
    && |calls| == (if name in handlers then |handlers[name]| else 0)
    && (name in handlers ==> forall i :: 0 <= i < |handlers[name]| ==> calls[i] == LifecycleCall(handlers[name][i]))
  }

  /** What becomes of the ack table: an ACK with an id, with or without an event, removes the entry of that id. */
  lemma AcksAfterIs<V>(o: Outcome<V>, acks: Table)
    ensures AcksAfter(o, acks).counter == acks.counter
    ensures AcksAfter(o, acks).callbacks ==
            if o.AckArrived? then acks.callbacks - {o.id}
            else if o.AckWithoutEvent? then acks.callbacks - {o.id}
            else acks.callbacks
  {
  }

  class Client {
    var namespaces: map<Bytes, Namespace>
    var ackCounter: Int64
    var ackCallbacks: map<int, Entry>

    function Acks(): Table
      reads this`ackCounter, this`ackCallbacks
    {
      Table(ackCounter, ackCallbacks)
    }

    ghost predicate Valid()
      reads this, namespaces.Values
    {
      forall n :: n in namespaces ==> namespaces[n].name == n && namespaces[n].Valid()
    }

    constructor ()
      ensures Valid() && namespaces == map[] && Acks() == Table(0, map[])
    {
      namespaces := map[];
      ackCounter := 0;
      ackCallbacks := map[];
    }

    /** Get or create: a namespace that exists is never replaced. */
    method GetNamespace(name: Bytes) returns (ns: Namespace)
      requires Valid()
      modifies this`namespaces
      ensures Valid() && name in namespaces && namespaces[name] == ns && ns.name == name
      ensures (namespaces, ns) == NT.GetOrCreate(old(namespaces), name, ns)
      ensures name in old(namespaces) ==> namespaces == old(namespaces)
      ensures name !in old(namespaces) ==>
                && fresh(ns) && namespaces == old(namespaces)[name := ns]
                && ns.Gate() == NT.SHUT && ns.handlers == map[] && ns.anyHandlers == []
    {
      if name in namespaces {
        return namespaces[name];
      }
      ns := new Namespace(name);
      namespaces := namespaces[name := ns];
    }

    /** The critical section of sendPacketWithAckTimeout. */
    method RegisterAck(emit: nat, timed: bool, userAck: bool) returns (id: int)
      modifies this`ackCounter, this`ackCallbacks
      ensures (Acks(), id) == Register(old(Acks()), emit, timed, userAck)
      ensures id == ackCounter && (id - old(ackCounter) - 1) % TWO_TO_64 == 0
      ensures timed ==> ackCallbacks == old(ackCallbacks)[id := ToDone(emit)]
      ensures !timed && userAck ==> ackCallbacks == old(ackCallbacks)[id := Direct(emit)]
      ensures !timed && !userAck ==> ackCallbacks == old(ackCallbacks)
    {
      ackCounter := Wrap(ackCounter + 1);
      id := ackCounter;
      if timed {
        ackCallbacks := ackCallbacks[id := ToDone(emit)];
      } else {
        if userAck {
          ackCallbacks := ackCallbacks[id := Direct(emit)];
        }
      }
    }

    method HandleAck<V>(payloads: seq<V>, id: int) returns (calls: seq<Call<V>>)
      modifies this`ackCallbacks
      ensures Acks() == Take(old(Acks()), id).0
      ensures ackCallbacks == old(ackCallbacks) - {id}
      ensures id in old(ackCallbacks) ==> calls == [AckCall(old(ackCallbacks)[id], payloads)]
      ensures id !in old(ackCallbacks) ==> calls == []
    {
      var callback := if id in ackCallbacks then Some(ackCallbacks[id]) else None;
      ackCallbacks := ackCallbacks - {id};
      if callback.None? {
        return [];
      }
      return [AckCall(callback.value, payloads)];
    }

    /**
     One message of the engine.  The decision is Route; the table of acks, the set of namespaces, the gates
     and the launched callbacks follow from it, and nothing else changes.
     */
    method OnMessage<V>(c: Codec<V>, data: Bytes) returns (outcome: Outcome<V>, calls: seq<Call<V>>)
      requires Valid()
      modifies this, namespaces.Values
      ensures Valid()
      ensures outcome == Route(c, old(namespaces.Keys), data)
      ensures Acks() == AcksAfter(outcome, old(Acks()))
      ensures forall n :: n in old(namespaces) ==> n in namespaces && namespaces[n] == old(namespaces[n])
      ensures namespaces.Keys == old(namespaces.Keys) + (if outcome.Connected? then {outcome.ns} else {})
      ensures forall n :: n in old(namespaces) ==>
                && namespaces[n].handlers == old(namespaces[n].handlers)
                && namespaces[n].anyHandlers == old(namespaces[n].anyHandlers)
                && namespaces[n].waitConnectedClosed ==
                   (old(namespaces[n].waitConnectedClosed) || outcome == Connected(n))
      ensures outcome.Connected? ==> namespaces[outcome.ns].waitConnectedClosed
      ensures outcome.Connected? && outcome.ns !in old(namespaces) ==> fresh(namespaces[outcome.ns]) && calls == []
      ensures Target(outcome).Some? && Target(outcome).value in old(namespaces) ==>
                calls == Launched(outcome, old(Acks()), old(namespaces[Target(outcome).value].handlers),
                                  old(namespaces[Target(outcome).value].anyHandlers))
      ensures Target(outcome).None? && !outcome.Panics? ==> calls == Launched(outcome, old(Acks()), map[], [])
      ensures outcome.Panics? ==>
                && Parsed(c, data).Ok? && Parsed(c, data).value.ns in old(namespaces)
                && calls == LaunchedBeforePanic(Parsed(c, data).value.kind == CONNECT_ERROR,
                                                old(namespaces[Parsed(c, data).value.ns].handlers))
    {
      calls := [];
      var parsed := Parse(c, data);
      if parsed.Err? {
        return Rejected(parsed.error), [];
      }
      var msg := parsed.value;
      if msg.kind == ACK {
        if msg.ackId.None? {
          return AckWithoutId, [];
        }
        if msg.event.None? {
          ackCallbacks := ackCallbacks - {msg.ackId.value};
          return AckWithoutEvent(msg.ackId.value), [];
        }
        outcome := AckArrived(msg.ackId.value, msg.event.value.payloads);
        calls := HandleAck(msg.event.value.payloads, msg.ackId.value);
        return;
      }
      if msg.ns !in namespaces && msg.kind != CONNECT {
        return UnknownNamespace(msg.ns), [];
      }
      outcome, calls := OnNamespace(msg);
    }

    /** The part of onMessage that concerns one namespace. */
    method OnNamespace<V>(msg: Message<V>) returns (outcome: Outcome<V>, calls: seq<Call<V>>)
      requires Valid() && msg.kind != ACK && (msg.ns in namespaces || msg.kind == CONNECT)
      modifies this`namespaces, namespaces.Values
      ensures Valid()
      ensures outcome == RouteMessage(msg, old(namespaces.Keys))
      ensures forall n :: n in old(namespaces) ==> n in namespaces && namespaces[n] == old(namespaces[n])
      ensures namespaces.Keys == old(namespaces.Keys) + (if outcome.Connected? then {outcome.ns} else {})
      ensures forall n :: n in old(namespaces) ==>
                && namespaces[n].handlers == old(namespaces[n].handlers)
                && namespaces[n].anyHandlers == old(namespaces[n].anyHandlers)
                && namespaces[n].waitConnectedClosed ==
                   (old(namespaces[n].waitConnectedClosed) || outcome == Connected(n))
      ensures outcome.Connected? ==> namespaces[outcome.ns].waitConnectedClosed
      ensures outcome.Connected? && outcome.ns !in old(namespaces) ==> fresh(namespaces[outcome.ns]) && calls == []
      ensures Target(outcome).Some? && Target(outcome).value in old(namespaces) ==>
                calls == Launched(outcome, Acks(), old(namespaces[Target(outcome).value].handlers),
                                  old(namespaces[Target(outcome).value].anyHandlers))
      ensures Target(outcome).None? && !outcome.Panics? ==> calls == Launched(outcome, Acks(), map[], [])
      ensures outcome.Panics? ==>
                && msg.ns in old(namespaces)
                && calls == LaunchedBeforePanic(msg.kind == CONNECT_ERROR, old(namespaces[msg.ns].handlers))
    {
      hide EventCalls;
      calls := [];
      if msg.kind == CONNECT {
        outcome := Connected(msg.ns);
        var ns := GetNamespace(msg.ns);
        ns.OpenGate();
        calls := ns.LaunchLifecycle(ON_CONNECT);
        return;
      }
      outcome, calls := OnExisting(msg, namespaces[msg.ns]);
    }

    /** Everything but a CONNECT leaves the namespaces as they are. */
    method OnExisting<V>(msg: Message<V>, ns: Namespace) returns (outcome: Outcome<V>, calls: seq<Call<V>>)
      requires msg.kind != ACK && msg.kind != CONNECT && msg.ns in namespaces && ns == namespaces[msg.ns]
      ensures outcome == RouteMessage(msg, namespaces.Keys) && !outcome.Connected?
      ensures Target(outcome).Some? ==>
                Target(outcome).value == msg.ns && calls == Launched(outcome, Acks(), ns.handlers, ns.anyHandlers)
      ensures Target(outcome).None? && !outcome.Panics? ==> calls == Launched(outcome, Acks(), map[], [])
      ensures outcome.Panics? ==> calls == LaunchedBeforePanic(msg.kind == CONNECT_ERROR, ns.handlers)
    {
      calls := [];
      if msg.kind == DISCONNECT {
        outcome := Disconnected(msg.ns);
        calls := ns.LaunchLifecycle(ON_DISCONNECT);
      } else if msg.kind == EVENT {
        if msg.event.None? {
          return Panics, [];
        }
        outcome := EventArrived(msg.ns, msg.event.value);
        calls := ns.LaunchEvent(msg.event.value);
      } else if msg.kind == CONNECT_ERROR {
        calls := ns.LaunchLifecycle(ON_ERROR);
        if msg.errorMessage.None? {
          return Panics, calls;
        }
        outcome := ConnectFailed(msg.ns, msg.errorMessage.value);
      } else {
        outcome := Ignored(msg.kind);
      }
    }
  }
}
