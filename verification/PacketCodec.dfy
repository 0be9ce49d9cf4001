/**
 The Socket.IO v5 packet codec: a type digit, an optional namespace ended by a comma, an optional decimal
 ack id, and a JSON array.  Parse and Serialize are written step by step, as the program does it, against
 the functions Parsed and Serialized; the theorems are about those functions.
 */
module PacketCodec {
  import opened Bytes
  import opened Options
  import opened JsonCodec
  import EngineFrame

  const CONNECT: Byte := 0
  const DISCONNECT: Byte := 1
  const EVENT: Byte := 2
  const ACK: Byte := 3
  const CONNECT_ERROR: Byte := 4
  const BINARY_EVENT: Byte := 5
  const BINARY_ACK: Byte := 6

  datatype Event<V> = Event(name: Bytes, payloads: seq<V>)

  datatype Message<V> = Message(
    kind: Byte,
    ns: Bytes,
    ackId: Option<int>,
    event: Option<Event<V>>,
    payload: Option<V>,
    errorMessage: Option<Bytes>)

  datatype Error = EmptyMessage | BinaryUnsupported | WrongPayload | WrongEvent | WrongName | Unencodable

  datatype Result<+T> = Ok(value: T) | Err(error: Error)

  /** The most digits that an ack id may have. */
  const MAX_DIGITS := 18

  const NULL: Bytes := [0x6E, 0x75, 0x6C, 0x6C]
  const EMPTY_STRING: Bytes := [QUOTE, QUOTE]
  const EMPTY_OBJECT: Bytes := [LBRACE, RBRACE]

  predicate IsBinary(kind: Byte) {
    kind == BINARY_EVENT || kind == BINARY_ACK
  }

  predicate NeedsPayload(kind: Byte) {
    kind == EVENT || kind == ACK || kind == CONNECT_ERROR
  }

  predicate EndsNamespaceScan(b: Byte) {
    b == COMMA || b == LBRACKET || b == LBRACE
  }

  /** A message with nothing but its header. */
  function Header<V>(kind: Byte, ns: Bytes, ackId: Option<int>): Message<V> {
    Message(kind, ns, ackId, None, None, None)
  }

  // ------------------------------------------------------------------ parsing

  function CheckData(data: Bytes): Result<Byte> {
    if data == [] then Err(EmptyMessage)
    else if IsBinary(SubByte(data[0], ZERO)) then Err(BinaryUnsupported)
    else Ok(SubByte(data[0], ZERO))
  }

  /** Where the first of `,` `[` `{` is, or the length of `s`. */
  function ScanEnd(s: Bytes): (n: nat)
    ensures n <= |s|
    ensures n < |s| ==> EndsNamespaceScan(s[n])
    ensures forall i :: 0 <= i < n ==> !EndsNamespaceScan(s[i])
  {
    if s == [] || EndsNamespaceScan(s[0]) then 0 else 1 + ScanEnd(s[1..])
  }

  /** The namespace and what follows it; the root namespace, and everything, when there is none. */
  function NamespaceOf(s: Bytes): (Bytes, Bytes) {
    var n := ScanEnd(s);
    if s != [] && s[0] == SLASH && n < |s| && s[n] == COMMA then (s[..n], s[n + 1..]) else (ROOT, s)
  }

  method ExtractNamespace(packetData: Bytes) returns (ns: Bytes, rest: Bytes)
    requires packetData != []
    ensures (ns, rest) == NamespaceOf(packetData)
  {
    if packetData[0] != SLASH {
      return ROOT, packetData;
    }
    for i := 0 to |packetData|
      invariant forall k :: 0 <= k < i ==> !EndsNamespaceScan(packetData[k])
    {
      if packetData[i] == COMMA {
        return packetData[..i], packetData[i + 1..];
      }
      if packetData[i] == LBRACKET || packetData[i] == LBRACE {
        return ROOT, packetData;
      }
    }
    return ROOT, packetData;
  }

  /** How many digits `s` starts with. */
  function DigitRun(s: Bytes): (n: nat)
    ensures n <= |s| && AllDigits(s[..n])
    ensures n < |s| ==> !IsDigit(s[n])
  {
    if s == [] || !IsDigit(s[0]) then 0
    else
      var n := 1 + DigitRun(s[1..]);
      assert s[..n] == [s[0]] + s[1..][..n - 1];
      n
  }

  function AckIdOf(s: Bytes): Result<(Option<int>, Bytes)> {
    var n := DigitRun(s);
    if n > MAX_DIGITS then Err(WrongPayload)
    else Ok((if n > 0 then Some(Atoi(s[..n])) else None, s[n..]))
  }

  method ExtractAckId(packetData: Bytes) returns (r: Result<(Option<int>, Bytes)>)
    ensures r == AckIdOf(packetData)
  {
    var ackEnd := 0;
    for i := 0 to |packetData|
      invariant ackEnd == i <= MAX_DIGITS
      invariant AllDigits(packetData[..i])
    {
      if !IsDigit(packetData[i]) {
        break;
      }
      ackEnd := i + 1;
      if ackEnd > MAX_DIGITS {
        return Err(WrongPayload);
      }
    }
    var ackId := None;
    if ackEnd > 0 {
      ackId := Some(Atoi(packetData[..ackEnd]));
    }
    return Ok((ackId, packetData[ackEnd..]));
  }

  /** The event's name, unless it is an ack, and its payloads. */
  function EventOf<V>(c: Codec<V>, body: Bytes, isAck: bool): Result<Event<V>> {
    match c.decode(body)
    case None => Err(WrongEvent)
    case Some(xs) =>
      if isAck then Ok(Event([], xs))
      else if xs == [] || c.toText(xs[0]).None? then Err(WrongEvent)
      else Ok(Event(c.toText(xs[0]).value, xs[1..]))
  }

  function BodyOf<V>(c: Codec<V>, m: Message<V>, body: Bytes): Result<Message<V>> {
    if m.kind == EVENT || m.kind == ACK then
      match EventOf(c, body, m.kind == ACK)
      case Err(e) => Err(e)
      case Ok(event) => Ok(m.(event := Some(event)))
    else if m.kind == CONNECT_ERROR then Ok(m.(errorMessage := Some(body)))
    else Ok(m)
  }

  /** A packet that ends before its body. */
  function Ended<V>(m: Message<V>): Result<Message<V>> {
    if NeedsPayload(m.kind) then Err(WrongPayload) else Ok(m)
  }

  function AfterNamespace<V>(c: Codec<V>, kind: Byte, ns: Bytes, s: Bytes): Result<Message<V>> {
    if s == [] then Ended(Header(kind, ns, None))
    else
      match AckIdOf(s)
      case Err(e) => Err(e)
      case Ok((ackId, body)) =>
        if body == [] then Ended(Header(kind, ns, ackId)) else BodyOf(c, Header(kind, ns, ackId), body)
  }

  function Parsed<V>(c: Codec<V>, data: Bytes): Result<Message<V>> {
    match CheckData(data)
    case Err(e) => Err(e)
    case Ok(kind) =>
      if |data| == 1 then Ok(Header(kind, ROOT, None))
      else
        var (ns, rest) := NamespaceOf(data[1..]);
        AfterNamespace(c, kind, ns, rest)
  }

  method Parse<V>(c: Codec<V>, data: Bytes) returns (r: Result<Message<V>>)
    ensures r == Parsed(c, data)
  {
    var kind := CheckData(data);
    if kind.Err? {
      return Err(kind.error);
    }
    var msg := Header(kind.value, ROOT, None);
    var packetData := data[1..];
    if |packetData| == 0 {
      return Ok(msg);
    }
    var ns;
    ns, packetData := ExtractNamespace(packetData);
    msg := msg.(ns := ns);
    if |packetData| == 0 {
      return Ended(msg);
    }
    var scanned := ExtractAckId(packetData);
    if scanned.Err? {
      return Err(scanned.error);
    }
    msg := msg.(ackId := scanned.value.0);
    packetData := scanned.value.1;
    if |packetData| == 0 {
      return Ended(msg);
    }
    if msg.kind == EVENT || msg.kind == ACK {
      var event := EventOf(c, packetData, msg.kind == ACK);
      if event.Err? {
        return Err(event.error);
      }
      msg := msg.(event := Some(event.value));
    } else if msg.kind == CONNECT_ERROR {
      msg := msg.(errorMessage := Some(packetData));
    }
    return Ok(msg);
  }

  // ------------------------------------------------------------------ serializing

  function Validate<V>(m: Message<V>): Option<Error> {
    if IsBinary(m.kind) then Some(BinaryUnsupported)
    else if m.kind == EVENT && (m.event.None? || m.event.value.name == []) then Some(WrongName)
    else None
  }

  /** The array that stands for an event: its name first, if it has one. */
  function Items<V>(c: Codec<V>, e: Event<V>): seq<V> {
    (if e.name != [] then [c.ofText(e.name)] else []) + e.payloads
  }

  /** A payload replaces the event, and an empty one is left out. */
  function JsonOf<V>(c: Codec<V>, m: Message<V>): Option<Bytes> {
    if m.event.Some? && c.encode(Items(c, m.event.value)).None? then None
    else if m.payload.Some? then
      match c.one(m.payload.value)
      case None => None
      case Some(json) => Some(if json == NULL || json == EMPTY_STRING || json == EMPTY_OBJECT then [] else json)
    else if m.event.Some? then c.encode(Items(c, m.event.value))
    else Some([])
  }

  function NsText(ns: Bytes): Bytes {
    if ns != ROOT && ns != [] then ns + [COMMA] else []
  }

  function AckText(ackId: Option<int>): Bytes {
    if ackId.Some? then Itoa(ackId.value) else []
  }

  function HeaderText(kind: Byte, ns: Bytes, ackId: Option<int>): Bytes {
    [AddByte(kind, ZERO)] + NsText(ns) + AckText(ackId)
  }

  function Serialized<V>(c: Codec<V>, m: Message<V>): Result<Bytes> {
    if Validate(m).Some? then Err(Validate(m).value)
    else if JsonOf(c, m).None? then Err(Unencodable)
    else Ok(HeaderText(m.kind, m.ns, m.ackId) + JsonOf(c, m).value)
  }

  method Serialize<V>(c: Codec<V>, m: Message<V>) returns (r: Result<Bytes>)
    ensures r == Serialized(c, m)
  {
    if Validate(m).Some? {
      return Err(Validate(m).value);
    }
    var ackId, jsonData := [], [];
    if m.ackId.Some? {
      ackId := Itoa(m.ackId.value);
    }
    if m.event.Some? {
      var data := [];
      if m.event.value.name != [] {
        data := data + [c.ofText(m.event.value.name)];
      }
      data := data + m.event.value.payloads;
      assert data == Items(c, m.event.value);
      var encoded := c.encode(data);
      if encoded.None? {
        return Err(Unencodable);
      }
      jsonData := encoded.value;
    }
    if m.payload.Some? {
      var encoded := c.one(m.payload.value);
      if encoded.None? {
        return Err(Unencodable);
      }
      jsonData := encoded.value;
      if jsonData == NULL || jsonData == EMPTY_STRING || jsonData == EMPTY_OBJECT {
        jsonData := [];
      }
    }
    var packet := [AddByte(m.kind, ZERO)];
    if m.ns != ROOT && m.ns != [] {
      packet := packet + m.ns;
      packet := packet + [COMMA];
    }
    packet := packet + ackId;
    assert packet == HeaderText(m.kind, m.ns, m.ackId);
    return Ok(packet + jsonData);
  }

  // ------------------------------------------------------------------ what the printer writes

  /** What is refused: the two binary types, an EVENT without a name, and what JSON cannot encode. */
  lemma UnprintableIff<V>(c: Codec<V>, m: Message<V>)
    ensures Serialized(c, m) == Err(BinaryUnsupported) <==> m.kind == 5 || m.kind == 6
    ensures Serialized(c, m) == Err(WrongName) <==> m.kind == 2 && (m.event.None? || m.event.value.name == [])
    ensures
      var named := if m.event.None? || m.event.value.name == [] then [] else [c.ofText(m.event.value.name)];
      Serialized(c, m) == Err(Unencodable) <==>
        && m.kind != 5 && m.kind != 6 && (m.kind == 2 ==> named != [])
        && ((m.event.Some? && c.encode(named + m.event.value.payloads).None?)
            || (m.payload.Some? && c.one(m.payload.value).None?))
    ensures Serialized(c, m).Err? ==> Serialized(c, m).error in {BinaryUnsupported, WrongName, Unencodable}
  {
  }

  /** JSON that stands for nothing: null, "" and {}. */
  const NOTHING: set<Bytes> := {[0x6E, 0x75, 0x6C, 0x6C], [0x22, 0x22], [0x7B, 0x7D]}

  /**
   What is written: the type as a digit, the namespace and a comma unless it is the root or empty, the ack id in
   decimal, and then the JSON of the payload, unless that stands for nothing; without a payload that of the
   event, as an array that its name, if it has one, comes first in.
   */
  lemma PrintedBytes<V>(c: Codec<V>, m: Message<V>) returns (body: Bytes)
    requires Serialized(c, m).Ok?
    ensures Serialized(c, m).value ==
            [(m.kind + 0x30) % 256]
            + (if m.ns == [0x2F] || m.ns == [] then [] else m.ns + [0x2C])
            + (if m.ackId.Some? then Itoa(m.ackId.value) else [])
            + body
    ensures m.payload.Some? ==>
              && c.one(m.payload.value).Some?
              && body == if c.one(m.payload.value).value in NOTHING then [] else c.one(m.payload.value).value
    ensures m.payload.None? && m.event.Some? ==>
              var e := m.event.value;
              c.encode(if e.name == [] then e.payloads else [c.ofText(e.name)] + e.payloads) == Some(body)
    ensures m.payload.None? && m.event.None? ==> body == []
  {
    body := JsonOf(c, m).value;
    if m.event.Some? && m.event.value.name == [] {
      assert Items(c, m.event.value) == m.event.value.payloads;
    }
  }

  // ------------------------------------------------------------------ what the parser accepts

  /** A namespace that the header can carry. */
  ghost predicate NsOk(ns: Bytes) {
    ns != [] && ns[0] == SLASH && forall i :: 0 <= i < |ns| ==> !EndsNamespaceScan(ns[i])
  }

  /** An ack id that the header can carry; every one fits into 64 bits. */
  predicate AckOk(ackId: Option<int>) {
    ackId.Some? ==> 0 <= ackId.value < 1_000_000_000_000_000_000
  }

  /** The first byte decides: only the two binary types are refused, and every other byte is some type. */
  lemma KindAcceptedIff(data: Bytes)
    ensures CheckData(data).Ok? <==> data != [] && data[0] != 0x35 && data[0] != 0x36
    ensures CheckData(data).Ok? ==> AddByte(CheckData(data).value, ZERO) == data[0]
  {
  }

  /** The type of an accepted packet is its first byte. */
  lemma ParsedKind<V>(c: Codec<V>, data: Bytes)
    requires Parsed(c, data).Ok?
    ensures data != [] && AddByte(Parsed(c, data).value.kind, ZERO) == data[0]
  {
    hide NamespaceOf, AckIdOf, EventOf;
  }

  /**
   The scan refuses exactly the bodies that start with 19 digits or more; every id that it yields is below
   10 to the 18th, so that reading it into 64 bits cannot fail.
   */
  lemma AckScan(s: Bytes)
    ensures AckIdOf(s).Err? <==> |s| >= 19 && AllDigits(s[..19])
    ensures AckIdOf(s).Ok? ==> AckOk(AckIdOf(s).value.0)
    ensures AckIdOf(s).Ok? && AckIdOf(s).value.0.Some? ==> AckIdOf(s).value.0.value < 0x8000_0000_0000_0000
  {
    var n := DigitRun(s);
    if |s| >= 19 && AllDigits(s[..19]) && n < 19 {
      assert IsDigit(s[..19][n]);
    }
    if n > MAX_DIGITS {
      assert AllDigits(s[..19]) by {
        assert s[..19] == s[..n][..19];
      }
    } else {
      AtoiBound(s[..n]);
      Pow10Monotone(n, 18);
      Pow10Of18();
    }
  }

  lemma NamespaceShape(s: Bytes)
    requires s != []
    ensures NsOk(NamespaceOf(s).0)
  {
  }

  /** A namespace ends at the first comma, if it starts with a slash and no bracket or brace comes earlier. */
  predicate EndsNamespace(s: Bytes, n: int) {
    && 0 <= n < |s| && s[0] == 0x2F && s[n] == 0x2C
    && forall i :: 0 <= i < n ==> s[i] != 0x2C && s[i] != 0x5B && s[i] != 0x7B
  }

  /** Without such an end there is no namespace, and everything is left for the rest of the packet. */
  lemma NamespaceIs(s: Bytes)
    ensures forall n :: EndsNamespace(s, n) ==> NamespaceOf(s) == (s[..n], s[n + 1..])
    ensures (forall n :: !EndsNamespace(s, n)) ==> NamespaceOf(s) == ([0x2F], s)
  {
    var e := ScanEnd(s);
    forall n | EndsNamespace(s, n)
      ensures n == e
    {
    }
    assert NamespaceOf(s) != (ROOT, s) ==> EndsNamespace(s, e);
  }

  lemma EventShape<V(!new)>(c: Codec<V>, body: Bytes, isAck: bool)
    requires Law(c) && EventOf(c, body, isAck).Ok?
    ensures AllEncodable(c, EventOf(c, body, isAck).value.payloads)
    ensures if isAck then EventOf(c, body, isAck).value.name == [] else c.validText(EventOf(c, body, isAck).value.name)
  {
  }

  /**
   Every message that the parser accepts has a namespace and an ack id that the header can carry, payloads
   that can be encoded, and no `payload`; which of its parts are present depends on its type and on
   whether it is longer than one byte.
   */
  lemma ParsedShape<V(!new)>(c: Codec<V>, data: Bytes)
    requires Law(c) && Parsed(c, data).Ok?
    ensures
      var m := Parsed(c, data).value;
      && NsOk(m.ns) && AckOk(m.ackId) && m.payload.None? && !IsBinary(m.kind) && data != []
      && (m.event.Some? <==> |data| > 1 && (m.kind == EVENT || m.kind == ACK))
      && (m.errorMessage.Some? <==> |data| > 1 && m.kind == CONNECT_ERROR)
      && (|data| == 1 ==> m == Header(m.kind, ROOT, None))
    ensures
      var m := Parsed(c, data).value;
      m.event.Some? ==>
        && AllEncodable(c, m.event.value.payloads)
        && (if m.kind == ACK then m.event.value.name == [] else c.validText(m.event.value.name))
  {
    if |data| > 1 {
      var (ns, rest) := NamespaceOf(data[1..]);
      NamespaceShape(data[1..]);
      if rest != [] {
        AckScan(rest);
        var (ackId, body) := AckIdOf(rest).value;
        var kind := CheckData(data).value;
        if body != [] && (kind == EVENT || kind == ACK) {
          EventShape(c, body, kind == ACK);
        }
      }
    }
  }

  lemma NamespaceDecomposes(s: Bytes) returns (prefix: Bytes)
    ensures s == prefix + NamespaceOf(s).1
    ensures if prefix == [] then NamespaceOf(s).0 == ROOT else prefix == NamespaceOf(s).0 + [COMMA]
  {
    prefix := if NamespaceOf(s).1 == s then [] else s[..ScanEnd(s) + 1];
  }

  lemma AckDecomposes(s: Bytes) returns (digits: Bytes)
    requires AckIdOf(s).Ok?
    ensures s == digits + AckIdOf(s).value.1 && AllDigits(digits) && |digits| <= MAX_DIGITS
    ensures AckIdOf(s).value.0 == if digits == [] then None else Some(Atoi(digits))
    ensures AckIdOf(s).value.1 != [] ==> !IsDigit(AckIdOf(s).value.1[0])
  {
    digits := s[..DigitRun(s)];
  }

  /** A header: the type, then nothing or the namespace and a comma, then at most 18 digits, leading zeros included. */
  ghost predicate HasHeader<V>(m: Message<V>, data: Bytes, prefix: Bytes, digits: Bytes, body: Bytes) {
    && data == [AddByte(m.kind, ZERO)] + prefix + digits + body
    && (if prefix == [] then m.ns == ROOT else prefix == m.ns + [COMMA])
    && AllDigits(digits) && |digits| <= MAX_DIGITS && (body != [] ==> !IsDigit(body[0]))
    && m.ackId == (if digits == [] then None else Some(Atoi(digits)))
  }

  /**
   The bytes of an accepted packet are a header whose digits are the ack id, and a body.  The body of an EVENT or
   ACK decodes to its event, that of a CONNECT_ERROR is its error text, and any other is ignored.
   */
  lemma AcceptedDecomposes<V(!new)>(c: Codec<V>, data: Bytes) returns (prefix: Bytes, digits: Bytes, body: Bytes)
    requires Parsed(c, data).Ok?
    ensures HasHeader(Parsed(c, data).value, data, prefix, digits, body)
    ensures
      var m := Parsed(c, data).value;
      && m.payload.None?
      && (m.kind == 2 || m.kind == 3 ==>
            if body == [] then |data| == 1 && m.event.None? else EventOf(c, body, m.kind == 3) == Ok(m.event.value))
      && (m.kind != 2 && m.kind != 3 ==> m.event.None?)
      && m.errorMessage == (if m.kind == 4 && body != [] then Some(body) else None)
      && (m.kind == 4 && body == [] ==> |data| == 1)
  {
    hide NamespaceOf, AckIdOf, AllDigits, EventOf, Parsed;
    prefix, digits, body := [], [], [];
    if |data| > 1 {
      prefix := NamespaceDecomposes(data[1..]);
      var rest := NamespaceOf(data[1..]).1;
      if rest != [] {
        LongAccepted(c, data, NamespaceOf(data[1..]).0, rest);
        digits := AckDecomposes(rest);
        body := AckIdOf(rest).value.1;
      } else {
        BareAccepted(c, data);
        NoDigits();
      }
      assert data == [data[0]] + (prefix + (digits + body));
    } else {
      ShortAccepted(c, data);
      NoDigits();
    }
  }

  lemma NoDigits()
    ensures AllDigits([])
  {
  }

  lemma ShortAccepted<V>(c: Codec<V>, data: Bytes)
    requires Parsed(c, data).Ok? && |data| <= 1
    ensures
      var m := Parsed(c, data).value;
      m == Header(m.kind, ROOT, None) && data == [AddByte(m.kind, ZERO)]
  {
    KindAcceptedIff(data);
    hide AddByte, SubByte, AfterNamespace, NamespaceOf;
  }

  /** Nothing follows the namespace. */
  lemma BareAccepted<V>(c: Codec<V>, data: Bytes)
    requires Parsed(c, data).Ok? && |data| > 1 && NamespaceOf(data[1..]).1 == []
    ensures
      var m := Parsed(c, data).value;
      m == Header(m.kind, NamespaceOf(data[1..]).0, None) && AddByte(m.kind, ZERO) == data[0] && !NeedsPayload(m.kind)
  {
    hide NamespaceOf;
  }

  lemma LongAccepted<V>(c: Codec<V>, data: Bytes, ns: Bytes, rest: Bytes)
    requires Parsed(c, data).Ok? && |data| > 1 && NamespaceOf(data[1..]) == (ns, rest) && rest != []
    ensures AckIdOf(rest).Ok?
    ensures
      var (m, ackId, body) := (Parsed(c, data).value, AckIdOf(rest).value.0, AckIdOf(rest).value.1);
      && AddByte(m.kind, ZERO) == data[0]
      && if body == [] then m == Header(m.kind, ns, ackId) && !NeedsPayload(m.kind)
         else if m.kind == EVENT || m.kind == ACK then
           m.event.Some? && m == Header(m.kind, ns, ackId).(event := m.event)
           && EventOf(c, body, m.kind == ACK) == Ok(m.event.value)
         else m == Header(m.kind, ns, ackId).(errorMessage := if m.kind == CONNECT_ERROR then Some(body) else None)
  {
    hide NamespaceOf, AckIdOf, EventOf;
  }

  /** The body of an EVENT or ACK is an array, and that of an EVENT starts with something that reads as a string. */
  predicate Readable<V>(c: Codec<V>, body: Bytes, isAck: bool) {
    c.decode(body).Some?
    && (!isAck ==> c.decode(body).value != [] && c.toText(c.decode(body).value[0]).Some?)
  }

  /**
   What is refused: nothing at all, the two binary types, 19 digits or more where the ack id is, an EVENT, ACK
   or CONNECT_ERROR of more than one byte that has no body, and a body of an EVENT or ACK that is unreadable.
   */
  lemma RefusedIff<V>(c: Codec<V>, data: Bytes)
    ensures Parsed(c, data).Err? <==>
              || data == [] || data[0] == 0x35 || data[0] == 0x36
              || (|data| > 1
                  && var rest := NamespaceOf(data[1..]).1;
                  || (|rest| >= 19 && AllDigits(rest[..19]))
                  || (AllDigits(rest) && 0x32 <= data[0] <= 0x34)
                  || (!AllDigits(rest) && (data[0] == 0x32 || data[0] == 0x33)
                      && !Readable(c, rest[DigitRun(rest)..], data[0] == 0x33)))
  {
    if |data| > 1 {
      var rest := NamespaceOf(data[1..]).1;
      var n := DigitRun(rest);
      AckScan(rest);
      assert rest[..|rest|] == rest;
    }
    hide NamespaceOf;
  }

  // ------------------------------------------------------------------ the header round trip

  lemma {:induction false} ScanStops(ns: Bytes, tail: Bytes)
    requires forall i :: 0 <= i < |ns| ==> !EndsNamespaceScan(ns[i])
    requires tail != [] && EndsNamespaceScan(tail[0])
    ensures ScanEnd(ns + tail) == |ns|
  {
    if ns == [] {
      assert ns + tail == tail;
    } else {
      assert (ns + tail)[1..] == ns[1..] + tail;
      ScanStops(ns[1..], tail);
    }
  }

  /** What was printed for a namespace is scanned back. */
  lemma NamespaceRoundTrip(ns: Bytes, tail: Bytes)
    requires NsOk(ns) && (ns == ROOT ==> tail == [] || tail[0] != SLASH)
    ensures NamespaceOf(NsText(ns) + tail) == (ns, tail)
  {
    if ns == ROOT {
      assert NsText(ns) + tail == tail;
    } else {
      assert NsText(ns) + tail == ns + ([COMMA] + tail);
      ScanStops(ns, [COMMA] + tail);
    }
  }

  lemma {:induction false} RunStops(ds: Bytes, tail: Bytes)
    requires AllDigits(ds) && (tail == [] || !IsDigit(tail[0]))
    ensures DigitRun(ds + tail) == |ds|
  {
    if ds == [] {
      assert ds + tail == tail;
    } else {
      assert (ds + tail)[1..] == ds[1..] + tail;
      RunStops(ds[1..], tail);
    }
  }

  /** What was printed for an ack id is scanned back. */
  lemma AckIdRoundTrip(ackId: Option<int>, tail: Bytes)
    requires AckOk(ackId) && (tail == [] || !IsDigit(tail[0]))
    ensures AckIdOf(AckText(ackId) + tail) == Ok((ackId, tail))
    ensures AckText(ackId) == [] || IsDigit(AckText(ackId)[0])
  {
    var ds := AckText(ackId);
    if ackId.Some? {
      AtoiOfItoa(ackId.value);
      Pow10Of18();
      ItoaLength(ackId.value, 18);
      assert IsDigit(ds[0]);
    }
    RunStops(ds, tail);
    assert (ds + tail)[..|ds|] == ds && (ds + tail)[|ds|..] == tail;
  }

  /** A whole header is scanned back, whatever body follows that does not start like a header. */
  lemma HeaderRoundTrip<V(!new)>(c: Codec<V>, kind: Byte, ns: Bytes, ackId: Option<int>, body: Bytes)
    requires NsOk(ns) && AckOk(ackId) && !IsBinary(kind)
    requires body != [] && !IsDigit(body[0]) && body[0] != SLASH
    ensures Parsed(c, HeaderText(kind, ns, ackId) + body) == BodyOf(c, Header(kind, ns, ackId), body)
  {
    hide NamespaceOf, AckIdOf, NsText, AckText, BodyOf, Law;
    var data := HeaderText(kind, ns, ackId) + body;
    assert SubByte(data[0], ZERO) == kind;
    AckIdRoundTrip(ackId, body);
    assert data[1..] == NsText(ns) + (AckText(ackId) + body);
    NamespaceRoundTrip(ns, AckText(ackId) + body);
  }

  // ------------------------------------------------------------------ the packet round trip

  /** The messages of type EVENT or ACK that the format can carry. */
  ghost predicate Survives<V>(c: Codec<V>, m: Message<V>) {
    && m.payload.None? && m.errorMessage.None?
    && match m.event
       case None => m.kind == ACK && m.ns == ROOT && m.ackId.None?
       case Some(e) =>
         && NsOk(m.ns) && AckOk(m.ackId) && AllEncodable(c, e.payloads)
         && (if m.kind == EVENT then e.name != [] && c.validText(e.name) else e.name == [])
  }

  lemma ItemsEncodable<V(!new)>(c: Codec<V>, e: Event<V>)
    requires Law(c)
    ensures c.encode(Items(c, e)).Some? <==> AllEncodable(c, e.payloads)
  {
    var k := if e.name != [] then 1 else 0;
    if AllEncodable(c, Items(c, e)) {
      forall i | 0 <= i < |e.payloads|
        ensures c.encodable(e.payloads[i])
      {
        assert Items(c, e)[i + k] == e.payloads[i];
      }
    }
  }

  /** Reading back the array that was written for an event, whatever follows it. */
  lemma EventRoundTrip<V(!new)>(c: Codec<V>, e: Event<V>, isAck: bool, rest: Bytes)
    requires Law(c) && AllEncodable(c, e.payloads)
    requires if isAck then e.name == [] else e.name != [] && c.validText(e.name)
    ensures c.encode(Items(c, e)).Some?
    ensures
      var json := c.encode(Items(c, e)).value;
      && json != [] && json[0] == LBRACKET
      && EventOf(c, json + rest, isAck) == Ok(e)
  {
    ItemsEncodable(c, e);
    var xs := Items(c, e);
    var json := c.encode(xs).value;
    assert c.decode(json + rest) == Some(xs);
    if isAck {
      assert xs == e.payloads;
    } else {
      assert xs[0] == c.ofText(e.name) && xs[1..] == e.payloads;
    }
  }

  lemma JsonOfEvent<V>(c: Codec<V>, m: Message<V>)
    requires m.payload.None? && m.event.Some?
    ensures JsonOf(c, m) == c.encode(Items(c, m.event.value))
  {
  }

  lemma EventSurvives<V(!new)>(c: Codec<V>, m: Message<V>, rest: Bytes)
    requires Law(c) && (m.kind == EVENT || m.kind == ACK) && Survives(c, m) && m.event.Some?
    ensures Serialized(c, m).Ok? && Parsed(c, Serialized(c, m).value + rest) == Ok(m)
  {
    hide Law, HeaderText, JsonOf, Parsed, EventOf, Items;
    var e := m.event.value;
    EventRoundTrip(c, e, m.kind == ACK, rest);
    JsonOfEvent(c, m);
    var json := c.encode(Items(c, e)).value;
    HeaderRoundTrip(c, m.kind, m.ns, m.ackId, json + rest);
    assert Serialized(c, m).value + rest == HeaderText(m.kind, m.ns, m.ackId) + (json + rest);
  }

  /** The part of the round trip that says yes; bytes after the packet are ignored. */
  lemma SurvivorsRoundTrip<V(!new)>(c: Codec<V>, m: Message<V>, rest: Bytes)
    requires Law(c) && (m.kind == EVENT || m.kind == ACK) && Survives(c, m)
    requires m.event.None? ==> rest == []
    ensures Serialized(c, m).Ok? && Parsed(c, Serialized(c, m).value + rest) == Ok(m)
  {
    if m.event.Some? {
      EventSurvives(c, m, rest);
    } else {
      assert Serialized(c, m).value + rest == [AddByte(ACK, ZERO)];
    }
  }

  /**
   Round trip.  A message of type EVENT or ACK is read back from what was written for it exactly when the
   format can carry it.
   */
  lemma RoundTripIff<V(!new)>(c: Codec<V>, m: Message<V>)
    requires Law(c) && (m.kind == EVENT || m.kind == ACK)
    ensures (Serialized(c, m).Ok? && Parsed(c, Serialized(c, m).value) == Ok(m)) <==> Survives(c, m)
  {
    if Survives(c, m) {
      SurvivorsRoundTrip(c, m, []);
      assert Serialized(c, m).value + [] == Serialized(c, m).value;
    } else if Serialized(c, m).Ok? && Parsed(c, Serialized(c, m).value) == Ok(m) {
      ParsedShape(c, Serialized(c, m).value);
    }
  }

  /** The same through both layers: in an Engine.IO MESSAGE frame, within its size limit. */
  lemma TwoLayerRoundTripIff<V(!new)>(c: Codec<V>, m: Message<V>, maxSerializeSize: int)
    requires Law(c) && (m.kind == EVENT || m.kind == ACK)
    ensures
      (&& Serialized(c, m).Ok?
       && var frame := EngineFrame.Frame(EngineFrame.MESSAGE, Serialized(c, m).value);
       && var framed := EngineFrame.Serialize(frame, maxSerializeSize);
       && framed.Ok? && EngineFrame.Parse(framed.value).Ok?
       && var f := EngineFrame.Parse(framed.value).value;
       && f.kind == EngineFrame.MESSAGE && Parsed(c, f.data) == Ok(m))
      <==>
      Survives(c, m) && EngineFrame.Within(|Serialized(c, m).value|, maxSerializeSize)
  {
    RoundTripIff(c, m);
    if Serialized(c, m).Ok? {
      EngineFrame.RoundTripIff(EngineFrame.Frame(EngineFrame.MESSAGE, Serialized(c, m).value), maxSerializeSize);
    }
  }

  /**
   Canonicalisation.  Whatever bytes an EVENT or ACK was parsed from (leading zeros, an explicit root
   namespace, trailing bytes), printing it and parsing that gives the same message again, unless it is an
   EVENT without a name.
   */
  lemma CanonicalIff<V(!new)>(c: Codec<V>, data: Bytes)
    requires Law(c) && Parsed(c, data).Ok? && (Parsed(c, data).value.kind == EVENT || Parsed(c, data).value.kind == ACK)
    ensures
      var m := Parsed(c, data).value;
      (Serialized(c, m).Ok? && Parsed(c, Serialized(c, m).value) == Ok(m))
      <==> !(m.kind == EVENT && (m.event.None? || m.event.value.name == []))
  {
    ParsedShape(c, data);
    RoundTripIff(c, Parsed(c, data).value);
  }

  lemma KindReadsBack(kind: Byte)
    requires !IsBinary(kind)
    ensures SubByte(AddByte(kind, ZERO), ZERO) == kind
  {
  }

  /** Nothing but a namespace that is not the root's. */
  lemma NamedHeaderParses<V>(c: Codec<V>, kind: Byte, ns: Bytes, data: Bytes)
    requires |data| > 1 && CheckData(data) == Ok(kind) && NamespaceOf(data[1..]) == (ns, []) && !NeedsPayload(kind)
    ensures Parsed(c, data) == Ok(Header(kind, ns, None))
  {
    hide CheckData, NamespaceOf, AckIdOf, BodyOf;
  }

  /** A packet of a type that may end after its namespace. */
  lemma BareHeaderRoundTrip<V(!new)>(c: Codec<V>, kind: Byte, ns: Bytes)
    requires NsOk(ns) && !IsBinary(kind) && !NeedsPayload(kind)
    ensures Parsed(c, HeaderText(kind, ns, None)) == Ok(Header(kind, ns, None))
  {
    var data := HeaderText(kind, ns, None);
    KindReadsBack(kind);
    hide AddByte, SubByte, NamespaceOf, AckIdOf, BodyOf;
    if ns == ROOT {
      assert data == [AddByte(kind, ZERO)];
    } else {
      assert data[1..] == NsText(ns) && |NsText(ns)| > 1;
      NamespaceRoundTrip(ns, []);
      assert NsText(ns) + [] == NsText(ns);
      hide Parsed, NsText, NsOk, HeaderText;
      NamedHeaderParses(c, kind, ns, data);
    }
  }

  /** What CONNECT writes for a handshake payload that is an object, or a nil map. */
  lemma ConnectJson<V>(c: Codec<V>, m: Message<V>)
    requires m.kind == CONNECT && m.event.None?
    requires m.payload.Some? ==> c.one(m.payload.value).Some?
    requires m.payload.Some? ==> c.one(m.payload.value).value == NULL
                                 || (c.one(m.payload.value).value != [] && c.one(m.payload.value).value[0] == LBRACE)
    ensures JsonOf(c, m).Some? && (JsonOf(c, m).value == [] || JsonOf(c, m).value[0] == LBRACE)
    ensures Serialized(c, m) == Ok(HeaderText(CONNECT, m.ns, m.ackId) + JsonOf(c, m).value)
  {
  }

  lemma ConnectPrinted<V>(c: Codec<V>, ns: Bytes, payload: Option<V>)
    requires payload.Some? ==> c.one(payload.value).Some?
    ensures Serialized(c, Message(CONNECT, ns, None, None, payload, None)) ==
            Ok([0x30] + (if ns == [0x2F] || ns == [] then [] else ns + [0x2C])
               + (if payload.None? || c.one(payload.value).value in NOTHING then [] else c.one(payload.value).value))
  {
    UnprintableIff(c, Message(CONNECT, ns, None, None, payload, None));
    var body := PrintedBytes(c, Message(CONNECT, ns, None, None, payload, None));
    hide Serialized;
    var header := [0x30] + (if ns == [0x2F] || ns == [] then [] else ns + [0x2C]);
    assert header + [] + body == header + body;
  }

  lemma ConnectReadsBack<V(!new)>(c: Codec<V>, m: Message<V>)
    requires m.kind == CONNECT && NsOk(m.ns) && m.event.None? && m.ackId.None?
    requires m.payload.Some? ==> c.one(m.payload.value).Some?
    requires m.payload.Some? ==> c.one(m.payload.value).value == NULL
                                 || (c.one(m.payload.value).value != [] && c.one(m.payload.value).value[0] == LBRACE)
    ensures Serialized(c, m).Ok? && Parsed(c, Serialized(c, m).value) == Ok(Header(CONNECT, m.ns, None))
  {
    hide Serialized, Parsed, JsonOf, HeaderText, NsOk;
    ConnectJson(c, m);
    if JsonOf(c, m).value == [] {
      assert HeaderText(CONNECT, m.ns, None) + [] == HeaderText(CONNECT, m.ns, None);
      BareHeaderRoundTrip(c, CONNECT, m.ns);
    } else {
      HeaderRoundTrip(c, CONNECT, m.ns, None, JsonOf(c, m).value);
    }
  }

  /**
   CONNECT, with a handshake payload that is an object or a nil map, is written as its namespace and the payload's
   JSON, of which an empty one is left out; read back, it keeps its namespace.
   */
  lemma ConnectRoundTrip<V(!new)>(c: Codec<V>, ns: Bytes, payload: Option<V>)
    requires NsOk(ns)
    requires payload.Some? ==> c.one(payload.value).Some?
    requires payload.Some? ==> c.one(payload.value).value == NULL
                               || (c.one(payload.value).value != [] && c.one(payload.value).value[0] == LBRACE)
    ensures
      var m := Message(CONNECT, ns, None, None, payload, None);
      var printed := [0x30] + (if ns == [0x2F] then [] else ns + [0x2C])
                     + (if payload.None? || c.one(payload.value).value in NOTHING then []
                        else c.one(payload.value).value);
      Serialized(c, m) == Ok(printed) && Parsed(c, printed) == Ok(Header(CONNECT, ns, None))
  {
    ConnectPrinted(c, ns, payload);
    ConnectReadsBack(c, Message(CONNECT, ns, None, None, payload, None));
    hide Serialized, Parsed, NsOk;
  }
}
