/**
 Engine.IO frames as the client's message loop sees them, and the two transports it can run on.

 A frame is what one polling response body or one websocket message parses to.  The server chooses
 frames freely; nothing below assumes that it follows the protocol.
 */
module Frames {
  import opened Bytes
  import opened GoInt

  datatype TransportName = Polling | Websocket

  /** One entry of the handshake's `upgrades` list: a transport this library names, or any other string. */
  datatype Offer = Named(name: TransportName) | Unknown

  /**
   What a MESSAGE is to the Socket.IO layer, as far as the engine's message loop feels it: a CONNECT for
   some namespace, a packet that lacks the part which dispatch dereferences, or anything else.
   */
  datatype SocketPacket = Connects(ns: Bytes) | Incomplete | Ordinary

  /**
   `Open.valid` is false when the handshake JSON does not parse or carries no sid; `interval` is its ping
   interval in milliseconds.
   */
  datatype Frame =
    | Open(valid: bool, interval: Int64, upgrades: seq<Offer>)
    | Close
    | Ping
    | Pong(probe: bool)
    | Message(data: Bytes, packet: SocketPacket)
    | Other
    | Malformed

  /** The data of the MESSAGE frames of `fs`, in order. */
  function Payloads(fs: seq<Frame>): (ds: seq<Bytes>)
    ensures |ds| <= |fs|
  {
    if fs == [] then []
    else
      var init := Payloads(fs[..|fs| - 1]);
      var last := fs[|fs| - 1];
      if last.Message? then init + [last.data] else init
  }

  /** One frame after the other, each MESSAGE gives its data and nothing else gives any. */
  lemma {:induction false} PayloadsOfConcat(a: seq<Frame>, b: seq<Frame>)
    ensures Payloads(a + b) == Payloads(a) + Payloads(b)
    ensures |b| == 1 ==> Payloads(b) == match b[0] case Message(data, _) => [data] case _ => []
  {
    if b == [] {
      assert a + b == a;
    } else {
      var n := |b| - 1;
      assert (a + b)[..|a + b| - 1] == a + b[..n];
      PayloadsOfConcat(a, b[..n]);
    }
  }

  /** Adding one frame adds its payload, if it has one. */
  lemma PayloadsSnoc(fs: seq<Frame>, f: Frame)
    ensures Payloads(fs + [f]) == Payloads(fs) + (if f.Message? then [f.data] else [])
  {
  }
}
