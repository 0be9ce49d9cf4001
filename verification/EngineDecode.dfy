/**
 From bytes to frames: what one body or message is to the engine's message loop.  The handshake's JSON is a
 parameter, like the JSON of the packets.
 */
module EngineDecode {
  import opened Options
  import opened Bytes
  import opened GoInt
  import opened Frames
  import opened JsonCodec
  import PC = PacketCodec
  import D = Dispatch
  import EF = EngineFrame
  import EC = EngineClient

  /** What the handshake's JSON says: `sid` is false when it carries none. */
  datatype Handshake = Handshake(sid: bool, interval: Int64, upgrades: seq<Offer>)

  const PROBE: Bytes := [0x70, 0x72, 0x6F, 0x62, 0x65]

  function PacketOf<V>(c: Codec<V>, data: Bytes): SocketPacket {
    match PC.Parsed(c, data)
    case Err(_) => Ordinary
    case Ok(m) =>
      if m.kind == PC.CONNECT then Connects(m.ns)
      else if (m.kind == PC.EVENT && m.event.None?) || (m.kind == PC.CONNECT_ERROR && m.errorMessage.None?)
      then Incomplete
      else Ordinary
  }

  function FrameOf<V>(c: Codec<V>, handshake: Bytes -> Option<Handshake>, data: Bytes): Frame {
    match EF.Parse(data)
    case Err(_) => Malformed
    case Ok(f) =>
      match f.kind
      case 0 =>
        var h := handshake(f.data);
        if h.None? then Frame.Open(false, 0, []) else Frame.Open(h.value.sid, h.value.interval, h.value.upgrades)
      case 1 => Frame.Close
      case 2 => Ping
      case 3 => Pong(f.data == PROBE)
      case 4 => Message(f.data, PacketOf(c, f.data))
      case _ => Other
  }

  /**
   Which bytes are which frame: the first byte decides, and the probe's PONG is the six bytes `3probe`.  The
   fields of an OPEN are those of its handshake, those of a MESSAGE are the rest of its bytes.
   */
  lemma FrameIs<V>(c: Codec<V>, handshake: Bytes -> Option<Handshake>, data: Bytes)
    ensures
      var f := FrameOf(c, handshake, data);
      && (f.Malformed? <==> data == [] || data[0] < 0x30 || data[0] > 0x36)
      && (f.Open? <==> data != [] && data[0] == 0x30)
      && (f.Close? <==> data != [] && data[0] == 0x31)
      && (f.Ping? <==> data != [] && data[0] == 0x32)
      && (f.Pong? <==> data != [] && data[0] == 0x33)
      && (f == Pong(true) <==> data == [0x33, 0x70, 0x72, 0x6F, 0x62, 0x65])
      && (f.Message? <==> data != [] && data[0] == 0x34)
      && (f.Other? <==> data != [] && (data[0] == 0x35 || data[0] == 0x36))
      && (f.Message? ==> f.data == data[1..] && f.packet == PacketOf(c, data[1..]))
    ensures
      var f := FrameOf(c, handshake, data);
      f.Open? ==>
        match handshake(data[1..])
        case None => !f.valid
        case Some(h) => f.valid == h.sid && f.interval == h.interval && f.upgrades == h.upgrades
    ensures FrameOf(c, handshake, data).Malformed? <==> EF.Parse(data).Err?
  {
    hide PacketOf;
    if data != [] {
      assert data == [data[0]] + data[1..];
    }
  }

  // ------------------------------------------------------------------ the client's own packets

  /** What the client prints for a packet: PING probe, UPGRADE and PONG have fixed data. */
  function WireOf(p: EC.Packet, message: Bytes): EF.Frame {
    match p
    case ProbePacket => EF.Frame(2, PROBE)
    case UpgradePacket => EF.Frame(5, [])
    case PongPacket => EF.Frame(3, [])
    case MessagePacket(_, _) => EF.Frame(4, message)
  }

  /**
   The bytes of the client's own packets, and that a peer that decodes like the client reads them back: `2probe`
   is a PING, `5` no frame that the client handles, `3` a PONG but not the probe's, and `4` a MESSAGE.
   */
  lemma OwnPackets<V>(c: Codec<V>, handshake: Bytes -> Option<Handshake>, p: EC.Packet, message: Bytes, limit: int)
    requires EF.Within(|message|, limit) && EF.Within(5, limit)
    ensures EF.Serialize(WireOf(p, message), limit).Ok?
    ensures
      var bytes := EF.Serialize(WireOf(p, message), limit).value;
      match p
      case ProbePacket => bytes == [0x32, 0x70, 0x72, 0x6F, 0x62, 0x65] && FrameOf(c, handshake, bytes) == Ping
      case UpgradePacket => bytes == [0x35] && FrameOf(c, handshake, bytes) == Other
      case PongPacket => bytes == [0x33] && FrameOf(c, handshake, bytes) == Pong(false)
      case MessagePacket(_, _) =>
        bytes == [0x34] + message && FrameOf(c, handshake, bytes) == Message(message, PacketOf(c, message))
  {
    hide PacketOf;
    if p.MessagePacket? {
      assert ([0x34] + message)[1..] == message;
    }
  }

  /**
   What the engine's model keeps of a packet decides what dispatch does with it: it panics exactly for an
   incomplete packet while the root namespace exists, and connects exactly the namespace of a CONNECT.
   */
  lemma PacketDecidesDispatch<V(!new)>(c: Codec<V>, known: set<Bytes>, data: Bytes, ns: Bytes)
    requires Law(c)
    ensures D.Route(c, known, data).Panics? <==> PacketOf(c, data).Incomplete? && ROOT in known
    ensures D.Route(c, known, data) == D.Connected(ns) <==> PacketOf(c, data) == Connects(ns)
  {
    if PC.Parsed(c, data).Ok? {
      PC.ParsedShape(c, data);
    }
    hide PC.Parsed, Law, PC.NsOk;
  }

  /**
   The frames whose handling dereferences nil are two: a MESSAGE that holds just the type of an EVENT or of a
   CONNECT_ERROR.
   */
  lemma IncompleteBytes<V(!new)>(c: Codec<V>, handshake: Bytes -> Option<Handshake>, data: Bytes)
    requires Law(c)
    ensures
      var f := FrameOf(c, handshake, data);
      f.Message? && f.packet.Incomplete? <==> data == [0x34, 0x32] || data == [0x34, 0x34]
  {
    if data != [] && EF.Parse(data).Ok? {
      D.PanicsIff(c, {ROOT}, data[1..]);
      PacketDecidesDispatch(c, {ROOT}, data[1..], ROOT);
      assert data == [data[0]] + data[1..];
    }
    hide PacketOf, D.Route, Law;
  }
}
