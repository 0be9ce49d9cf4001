/** The Engine.IO v4 frame layer: one type byte, then the data. */
module EngineFrame {
  import opened Bytes

  datatype Frame = Frame(kind: Byte, data: Bytes)

  datatype Error = EmptyMessage | UnknownType(first: Byte) | TooLarge

  datatype Result<+T> = Ok(value: T) | Err(error: Error)

  const MESSAGE: Byte := 4
  const NOOP: Byte := 6
  const DEFAULT_LIMIT := 64 * 1024 * 1024

  /** A limit of zero or less means the default. */
  function EffectiveLimit(maxSerializeSize: int): int {
    if maxSerializeSize <= 0 then DEFAULT_LIMIT else maxSerializeSize
  }

  function Parse(data: Bytes): Result<Frame> {
    if data == [] then Err(EmptyMessage)
    else
      var kind := SubByte(data[0], ZERO);
      if kind > NOOP then Err(UnknownType(data[0])) else Ok(Frame(kind, data[1..]))
  }

  function Serialize(f: Frame, maxSerializeSize: int): Result<Bytes> {
    if |f.data| > EffectiveLimit(maxSerializeSize) then Err(TooLarge)
    else Ok([AddByte(f.kind, ZERO)] + f.data)
  }

  /** The configured limit is the one that counts, if it is positive; otherwise 64 MiB are. */
  predicate Within(size: int, maxSerializeSize: int) {
    (maxSerializeSize > 0 ==> size <= maxSerializeSize) && (maxSerializeSize <= 0 ==> size <= 67_108_864)
  }

  /** One comparison after the wrapping subtraction rejects every byte but the digits 0 to 6. */
  lemma ParseAcceptsIff(data: Bytes)
    ensures Parse(data).Ok? <==> data != [] && 0x30 <= data[0] <= 0x36
  {
  }

  /** What is read from a frame: its type, and everything after the first byte. */
  lemma ParsedFrame(data: Bytes)
    requires Parse(data).Ok?
    ensures data == [0x30 + Parse(data).value.kind] + Parse(data).value.data
  {
    assert data == [data[0]] + data[1..];
  }

  /** What is printed for a frame, which is refused exactly when its data are above the limit. */
  lemma PrintedFrame(f: Frame, maxSerializeSize: int)
    ensures Serialize(f, maxSerializeSize).Ok? <==> Within(|f.data|, maxSerializeSize)
    ensures Serialize(f, maxSerializeSize).Ok? && f.kind <= 6 ==>
              Serialize(f, maxSerializeSize).value == [0x30 + f.kind] + f.data
  {
  }

  /** What is parsed prints back to the same bytes exactly if the limit allows. */
  lemma SerializeOfParse(data: Bytes, maxSerializeSize: int)
    requires Parse(data).Ok?
    ensures Within(|data| - 1, maxSerializeSize) <==> Serialize(Parse(data).value, maxSerializeSize) == Ok(data)
    ensures !Within(|data| - 1, maxSerializeSize) ==> Serialize(Parse(data).value, maxSerializeSize) == Err(TooLarge)
  {
    assert data == [data[0]] + data[1..];
  }

  /** A frame survives the round trip exactly when its type is known and its data within the limit. */
  lemma RoundTripIff(f: Frame, maxSerializeSize: int)
    ensures
      (Serialize(f, maxSerializeSize).Ok? && Parse(Serialize(f, maxSerializeSize).value) == Ok(f))
      <==> f.kind <= 6 && Within(|f.data|, maxSerializeSize)
  {
  }
}
