/**
 The JSON arrays inside a Socket.IO packet.  `encoding/json` itself is not modelled: the packet codec is
 proved for every codec that satisfies Law, and SmallJson below shows that Law can be satisfied.
 */
module JsonCodec {
  import opened Bytes
  import opened Options

  /**
   `encode` is json.Marshal of an array, `one` of a single value; both fail on a value that is not
   `encodable`.  `decode` reads one array from the front of its input, as a json.Decoder does, and leaves
   what follows unread.  `ofText` is a Go string as a JSON value; `toText` is decoding a value into a Go
   string, which also accepts null.  `validText` is valid UTF-8.
   */
  datatype Codec<!V> = Codec(
    encode: seq<V> -> Option<Bytes>,
    decode: Bytes -> Option<seq<V>>,
    one: V -> Option<Bytes>,
    encodable: V -> bool,
    ofText: Bytes -> V,
    toText: V -> Option<Bytes>,
    validText: Bytes -> bool)

  ghost predicate AllEncodable<V>(c: Codec<V>, xs: seq<V>) {
    forall i :: 0 <= i < |xs| ==> c.encodable(xs[i])
  }

  ghost predicate EncodeLaw<V(!new)>(c: Codec<V>) {
    forall xs :: c.encode(xs).Some? <==> AllEncodable(c, xs)
  }

  ghost predicate RoundTripLaw<V(!new)>(c: Codec<V>) {
    forall xs, rest :: c.encode(xs).Some? ==>
      && c.encode(xs).value != []
      && c.encode(xs).value[0] == LBRACKET
      && c.decode(c.encode(xs).value + rest) == Some(xs)
  }

  ghost predicate DecodeLaw<V(!new)>(c: Codec<V>) {
    forall b :: c.decode(b).Some? ==> AllEncodable(c, c.decode(b).value)
  }

  ghost predicate TextLaw<V(!new)>(c: Codec<V>) {
    && (forall s :: c.encodable(c.ofText(s)) && (c.validText(s) ==> c.toText(c.ofText(s)) == Some(s)))
    && (forall v :: c.toText(v).Some? ==> c.validText(c.toText(v).value))
  }

  ghost predicate Law<V(!new)>(c: Codec<V>) {
    EncodeLaw(c) && RoundTripLaw(c) && DecodeLaw(c) && TextLaw(c)
  }
}

/** A JSON of null and strings, every character of which is escaped: small, but it satisfies the law. */
module SmallJson {
  import opened Bytes
  import opened Options
  import opened JsonCodec

  datatype Json = Null | Text(text: Bytes)

  const NULL: Bytes := [0x6E, 0x75, 0x6C, 0x6C]
  const ESCAPE: Bytes := [0x5C, 0x75, 0x30, 0x30]

  function HexDigit(n: int): Byte
    requires 0 <= n < 16
  {
    if n < 10 then ZERO + n else 0x61 + n - 10
  }

  function HexValue(b: Byte): Option<int> {
    if ZERO <= b <= ZERO + 9 then Some(b - ZERO)
    else if 0x61 <= b <= 0x66 then Some(b - 0x61 + 10)
    else None
  }

  function EncodeText(s: Bytes): Bytes {
    if s == [] then [QUOTE]
    else ESCAPE + [HexDigit(s[0] / 16), HexDigit(s[0] % 16)] + EncodeText(s[1..])
  }

  function DecodeText(s: Bytes): (r: Option<(Bytes, Bytes)>)
    ensures r.Some? ==> |r.value.1| < |s|
  {
    if s == [] then None
    else if s[0] == QUOTE then Some(([], s[1..]))
    else if |s| < 6 || s[..4] != ESCAPE || HexValue(s[4]).None? || HexValue(s[5]).None? then None
    else
      match DecodeText(s[6..])
      case None => None
      case Some((text, rest)) => Some(([HexValue(s[4]).value * 16 + HexValue(s[5]).value] + text, rest))
  }

  function EncodeValue(v: Json): Bytes {
    match v
    case Null => NULL
    case Text(s) => [QUOTE] + EncodeText(s)
  }

  function DecodeValue(s: Bytes): (r: Option<(Json, Bytes)>)
    ensures r.Some? ==> |r.value.1| < |s|
  {
    if NULL <= s then Some((Null, s[4..]))
    else if s != [] && s[0] == QUOTE then
      match DecodeText(s[1..])
      case None => None
      case Some((text, rest)) => Some((Text(text), rest))
    else None
  }

  /** The values of a non-empty array, separated by commas, up to its closing bracket. */
  function EncodeList(xs: seq<Json>): Bytes
    requires xs != []
  {
    EncodeValue(xs[0]) + (if |xs| == 1 then [RBRACKET] else [COMMA] + EncodeList(xs[1..]))
  }

  function DecodeList(s: Bytes): Option<seq<Json>>
    decreases |s|
  {
    match DecodeValue(s)
    case None => None
    case Some((v, rest)) =>
      if rest == [] then None
      else if rest[0] == RBRACKET then Some([v])
      else if rest[0] != COMMA then None
      else
        match DecodeList(rest[1..])
        case None => None
        case Some(vs) => Some([v] + vs)
  }

  function Encode(xs: seq<Json>): Option<Bytes> {
    Some([LBRACKET] + if xs == [] then [RBRACKET] else EncodeList(xs))
  }

  function Decode(s: Bytes): Option<seq<Json>> {
    if |s| < 2 || s[0] != LBRACKET then None
    else if s[1] == RBRACKET then Some([])
    else DecodeList(s[1..])
  }

  function ToText(v: Json): Option<Bytes> {
    Some(if v.Null? then [] else v.text)
  }

  const CODEC := Codec(Encode, Decode, v => Some(EncodeValue(v)), v => true, s => Text(s), ToText, s => true)

  lemma HexRoundTrip(b: Byte)
    ensures HexValue(HexDigit(b / 16)) == Some(b / 16) && HexValue(HexDigit(b % 16)) == Some(b % 16)
  {
  }

  lemma {:induction false} TextRoundTrip(s: Bytes, rest: Bytes)
    ensures DecodeText(EncodeText(s) + rest) == Some((s, rest))
  {
    if s == [] {
      assert (EncodeText(s) + rest)[1..] == rest;
    } else {
      hide HexDigit, HexValue;
      var e := EncodeText(s) + rest;
      assert e == ESCAPE + [HexDigit(s[0] / 16), HexDigit(s[0] % 16)] + (EncodeText(s[1..]) + rest);
      assert e[..4] == ESCAPE && e[6..] == EncodeText(s[1..]) + rest;
      HexRoundTrip(s[0]);
      TextRoundTrip(s[1..], rest);
      assert s == [s[0]] + s[1..];
    }
  }

  lemma ValueRoundTrip(v: Json, rest: Bytes)
    ensures DecodeValue(EncodeValue(v) + rest) == Some((v, rest))
  {
    hide EncodeText, DecodeText;
    var e := EncodeValue(v) + rest;
    if v.Text? {
      TextRoundTrip(v.text, rest);
      assert e[0] != NULL[0];
      assert e[1..] == EncodeText(v.text) + rest;
    } else {
      assert e[4..] == rest;
    }
  }

  lemma ListStart(xs: seq<Json>)
    requires xs != []
    ensures EncodeList(xs) != [] && EncodeList(xs)[0] != RBRACKET
  {
  }

  lemma DecodeListStep(s: Bytes, v: Json, rest: Bytes, vs: seq<Json>)
    requires DecodeValue(s) == Some((v, rest)) && rest != [] && rest[0] == COMMA && DecodeList(rest[1..]) == Some(vs)
    ensures DecodeList(s) == Some([v] + vs)
  {
    hide DecodeValue;
  }

  lemma {:induction false} ListRoundTrip(xs: seq<Json>, rest: Bytes)
    requires xs != []
    ensures DecodeList(EncodeList(xs) + rest) == Some(xs)
  {
    hide DecodeValue, EncodeValue;
    if |xs| == 1 {
      ValueRoundTrip(xs[0], [RBRACKET] + rest);
      assert EncodeList(xs) + rest == EncodeValue(xs[0]) + ([RBRACKET] + rest);
      assert xs == [xs[0]];
    } else {
      var tail := EncodeList(xs[1..]) + rest;
      ListRoundTrip(xs[1..], rest);
      ValueRoundTrip(xs[0], [COMMA] + tail);
      assert EncodeList(xs) + rest == EncodeValue(xs[0]) + ([COMMA] + tail);
      assert ([COMMA] + tail)[1..] == tail;
      DecodeListStep(EncodeList(xs) + rest, xs[0], [COMMA] + tail, xs[1..]);
      assert xs == [xs[0]] + xs[1..];
    }
  }

  lemma ArrayRoundTrip(xs: seq<Json>, rest: Bytes)
    ensures Decode(Encode(xs).value + rest) == Some(xs)
  {
    hide DecodeList, EncodeList;
    var e := Encode(xs).value + rest;
    if xs == [] {
      assert e == [LBRACKET, RBRACKET] + rest;
    } else {
      ListRoundTrip(xs, rest);
      ListStart(xs);
      assert e == [LBRACKET] + (EncodeList(xs) + rest);
      assert e[1..] == EncodeList(xs) + rest;
    }
  }

  /** The law of the codec can be satisfied. */
  lemma LawHolds()
    ensures Law(CODEC)
  {
    forall xs: seq<Json>, rest: Bytes
      ensures CODEC.decode(CODEC.encode(xs).value + rest) == Some(xs)
    {
      ArrayRoundTrip(xs, rest);
    }
  }
}
