/**
 What the Socket.IO client does with one message of the engine.  Route is the decision; SocketClient
 carries it out on the client's objects.
 */
module Dispatch {
  import opened Bytes
  import opened Options
  import opened JsonCodec
  import opened PacketCodec

  datatype Outcome<V> =
    | Rejected(error: Error)
    | AckWithoutId
    | AckWithoutEvent(id: int)
    | AckArrived(id: int, payloads: seq<V>)
    | UnknownNamespace(ns: Bytes)
    | Connected(ns: Bytes)
    | Disconnected(ns: Bytes)
    | EventArrived(ns: Bytes, event: Event<V>)
    | ConnectFailed(ns: Bytes, message: Bytes)
    | Ignored(kind: Byte)
    | Panics

  /** `known` are the namespaces that exist; a CONNECT creates its own. */
  function RouteMessage<V>(m: Message<V>, known: set<Bytes>): Outcome<V> {
    if m.kind == ACK then
      if m.ackId.None? then AckWithoutId
      else if m.event.None? then AckWithoutEvent(m.ackId.value)
      else AckArrived(m.ackId.value, m.event.value.payloads)
    else if m.ns !in known && m.kind != CONNECT then UnknownNamespace(m.ns)
    else if m.kind == DISCONNECT then Disconnected(m.ns)
    else if m.kind == CONNECT then Connected(m.ns)
    else if m.kind == EVENT then if m.event.None? then Panics else EventArrived(m.ns, m.event.value)
    else if m.kind == CONNECT_ERROR then
      if m.errorMessage.None? then Panics else ConnectFailed(m.ns, m.errorMessage.value)
    else Ignored(m.kind)
  }

  function Route<V>(c: Codec<V>, known: set<Bytes>, data: Bytes): Outcome<V> {
    match Parsed(c, data)
    case Err(e) => Rejected(e)
    case Ok(m) => RouteMessage(m, known)
  }

  /**
   Which message goes where, by its first byte and what the parser found in it: `0` connects, `1` disconnects,
   `2` is an event, `3` an ack, `4` a failed connect; only a connect may name a namespace that does not exist.
   */
  lemma RoutesTo<V>(c: Codec<V>, known: set<Bytes>, data: Bytes)
    ensures Route(c, known, data).Rejected? <==> Parsed(c, data).Err?
    ensures Parsed(c, data).Err? ==> Route(c, known, data).error == Parsed(c, data).error
    ensures Parsed(c, data).Ok? ==> data != [] && Routed(Parsed(c, data).value, data[0], known, Route(c, known, data))
  {
    hide Routed;
    if Parsed(c, data).Ok? {
      ParsedKind(c, data);
      hide Parsed;
      var m := Parsed(c, data).value;
      FirstByte(m.kind);
      MessageRouted(m, data[0], known);
    }
  }

  /** The first byte of a packet of each kind. */
  lemma FirstByte(kind: Byte)
    ensures AddByte(kind, ZERO) == if kind < 208 then 0x30 + kind else kind - 208
  {
  }

  lemma MessageRouted<V>(m: Message<V>, first: Byte, known: set<Bytes>)
    requires first == if m.kind < 208 then 0x30 + m.kind else m.kind - 208
    ensures Routed(m, first, known, RouteMessage(m, known))
  {
  }

  /** The outcome of an accepted packet: its kind, and what it carries. */
  ghost predicate Routed<V>(m: Message<V>, first: Byte, known: set<Bytes>, o: Outcome<V>) {
    && var hasNs := m.ns in known;
    && (o.Connected? <==> first == 0x30)
    && (o.Disconnected? <==> first == 0x31 && hasNs)
    && (o.EventArrived? <==> first == 0x32 && hasNs && m.event.Some?)
    && (o.AckArrived? <==> first == 0x33 && m.ackId.Some? && m.event.Some?)
    && (o.AckWithoutEvent? <==> first == 0x33 && m.ackId.Some? && m.event.None?)
    && (o.AckWithoutId? <==> first == 0x33 && m.ackId.None?)
    && (o.ConnectFailed? <==> first == 0x34 && hasNs && m.errorMessage.Some?)
    && (o.UnknownNamespace? <==> first != 0x30 && first != 0x33 && !hasNs)
    && (o.Panics? <==> hasNs && ((first == 0x32 && m.event.None?) || (first == 0x34 && m.errorMessage.None?)))
    && (o.Ignored? <==> hasNs && !(0x30 <= first <= 0x34))
    && match o
       case Connected(ns) => ns == m.ns
       case Disconnected(ns) => ns == m.ns
       case EventArrived(ns, event) => ns == m.ns && event == m.event.value
       case AckArrived(id, payloads) => id == m.ackId.value && payloads == m.event.value.payloads
       case AckWithoutEvent(id) => id == m.ackId.value
       case ConnectFailed(ns, message) => ns == m.ns && message == m.errorMessage.value
       case UnknownNamespace(ns) => ns == m.ns
       case _ => true
  }

  /**
   Dispatch dereferences nil exactly for two frames: a one-byte EVENT and a one-byte CONNECT_ERROR, when
   the root namespace exists.  Every longer frame that the parser accepts is dispatched safely.
   */
  lemma PanicsIff<V(!new)>(c: Codec<V>, known: set<Bytes>, data: Bytes)
    requires Law(c)
    ensures Route(c, known, data).Panics? <==> ROOT in known && (data == [0x32] || data == [0x34])
  {
    if Parsed(c, data).Ok? {
      ParsedShape(c, data);
      var m := Parsed(c, data).value;
      ParsedKind(c, data);
      assert data == [data[0]] + data[1..];
      if data == [0x32] || data == [0x34] {
        assert m == Header(if data == [0x32] then EVENT else CONNECT_ERROR, ROOT, None);
      }
    }
  }

  /** An ACK is dropped without looking at the callbacks exactly when it carries no digits. */
  lemma AckNeedsId<V(!new)>(c: Codec<V>, known: set<Bytes>, data: Bytes)
    requires Law(c)
    ensures !Route(c, known, data).AckWithoutEvent?
    ensures Route(c, known, data).AckArrived? ==> AckOk(Some(Route(c, known, data).id)) && |data| > 1
    ensures Route(c, known, data).AckWithoutId? <==>
              Parsed(c, data).Ok? && data[0] == 0x33 && Parsed(c, data).value.ackId.None?
  {
    hide Parsed, Law, NsOk, AllEncodable;
    if Parsed(c, data).Ok? {
      ParsedShape(c, data);
      ParsedKind(c, data);
    }
  }

  /** Only a namespace that the header can carry is ever connected or sees an event. */
  lemma OnlyCarriedNamespaces<V(!new)>(c: Codec<V>, known: set<Bytes>, data: Bytes)
    requires Law(c)
    ensures Route(c, known, data).Connected? || Route(c, known, data).EventArrived? ==> NsOk(Route(c, known, data).ns)
  {
    if Parsed(c, data).Ok? {
      ParsedShape(c, data);
    }
  }

  /** What an emitter sends is what the peer's dispatch sees: an event with its name, payloads and namespace. */
  lemma EmittedEventArrives<V(!new)>(c: Codec<V>, known: set<Bytes>, ns: Bytes, ackId: Option<int>, e: Event<V>)
    requires Law(c) && NsOk(ns) && ns in known && AckOk(ackId)
    requires e.name != [] && c.validText(e.name) && AllEncodable(c, e.payloads)
    ensures
      var m := Message(EVENT, ns, ackId, Some(e), None, None);
      Serialized(c, m).Ok? && Route(c, known, Serialized(c, m).value) == EventArrived(ns, e)
  {
    RoundTripIff(c, Message(EVENT, ns, ackId, Some(e), None, None));
  }

  /** And what a peer acknowledges is what the callback of that id gets. */
  lemma AckArrives<V(!new)>(c: Codec<V>, known: set<Bytes>, ns: Bytes, id: int, payloads: seq<V>)
    requires Law(c) && NsOk(ns) && AckOk(Some(id)) && AllEncodable(c, payloads)
    ensures
      var m := Message(ACK, ns, Some(id), Some(Event([], payloads)), None, None);
      Serialized(c, m).Ok? && Route(c, known, Serialized(c, m).value) == AckArrived(id, payloads)
  {
    RoundTripIff(c, Message(ACK, ns, Some(id), Some(Event([], payloads)), None, None));
  }
}
