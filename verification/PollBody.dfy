/**
 Reading the body of a polling response: `io.ReadAll` over a reader that stops after `maxPayloadSize + 1`
 bytes, then the size test.  The limit is a 64-bit integer, so the addition can wrap around.
 */
module PollBody {
  import opened Bytes
  import opened GoInt

  /**
   What reading the body meets: pieces of it, in order, and then its end or a failure of the connection.  A
   single read brings a piece or the failure, not both.
   */
  datatype Stream = Stream(chunks: seq<Bytes>, fails: bool)

  function Body(chunks: seq<Bytes>): Bytes {
    if chunks == [] then [] else chunks[0] + Body(chunks[1..])
  }

  datatype Outcome = Accepted(body: Bytes) | TooLarge(size: nat) | ReadFailed

  /** One byte more than the limit, or the limit itself when that wraps around. */
  function ReadLimit(maxPayloadSize: Int64): (limit: int)
    ensures maxPayloadSize > 0 ==> maxPayloadSize <= limit <= MAX_INT64
  {
    var limit := Wrap(maxPayloadSize + 1);
    if limit <= 0 then maxPayloadSize else limit
  }

  /** The prefix that the reader lets through; a limit of zero or less means that there is none. */
  function Clipped(b: Bytes, maxPayloadSize: Int64): Bytes
  {
    if maxPayloadSize > 0 && |b| > ReadLimit(maxPayloadSize) then b[..ReadLimit(maxPayloadSize)] else b
  }

  lemma {:induction false} BodyOfConcat(a: seq<Bytes>, chunk: Bytes)
    ensures Body(a + [chunk]) == Body(a) + chunk
  {
    if a == [] {
      assert a + [chunk] == [chunk];
      assert Body([chunk]) == chunk + Body([]);
    } else {
      assert (a + [chunk])[1..] == a[1..] + [chunk];
      BodyOfConcat(a[1..], chunk);
    }
  }

  /**
   Reading to the end.  A limited reader stops asking for more once its limit is reached, so a failure that
   comes later is not seen.
   */
  method ReadAll(s: Stream, maxPayloadSize: Int64) returns (body: Bytes, failed: bool)
    ensures failed <==> s.fails && (maxPayloadSize <= 0 || |Body(s.chunks)| < ReadLimit(maxPayloadSize))
    ensures body == Clipped(Body(s.chunks), maxPayloadSize)
  {
    body := [];
    failed := false;
    var limit := ReadLimit(maxPayloadSize);
    var i := 0;
    while i < |s.chunks|
      invariant 0 <= i <= |s.chunks| && !failed
      invariant body == Body(s.chunks[..i])
      invariant maxPayloadSize > 0 ==> |body| < limit
    {
      var chunk := s.chunks[i];
      assert s.chunks[..i + 1] == s.chunks[..i] + [chunk];
      BodyOfConcat(s.chunks[..i], chunk);
      if maxPayloadSize > 0 && |body| + |chunk| >= limit {
        BodyOfSplit(s.chunks, i + 1);
        body := body + chunk[..limit - |body|];
        return;
      }
      body := body + chunk;
      i := i + 1;
    }
    assert s.chunks[..i] == s.chunks;
    failed := s.fails;
  }

  lemma {:induction false} BodyOfSplit(chunks: seq<Bytes>, k: nat)
    requires k <= |chunks|
    ensures Body(chunks) == Body(chunks[..k]) + Body(chunks[k..])
  {
    if k == 0 {
      assert chunks[..k] == [] && chunks[k..] == chunks;
    } else {
      BodyOfSplit(chunks[1..], k - 1);
      assert chunks[1..][..k - 1] == chunks[..k][1..];
      assert chunks[1..][k - 1..] == chunks[k..];
    }
  }

  /**
   No truncated frame.  Whatever the limit and however the body arrives in pieces: a body that is read
   without failure is accepted exactly when it is within the limit, and then it is the whole body.  At the
   largest limit there is nothing above it to read, as bodies are shorter than 2 to the 63rd bytes.
   */
  method ReadBody(s: Stream, maxPayloadSize: Int64) returns (o: Outcome)
    requires |Body(s.chunks)| <= MAX_INT64
    ensures o.Accepted? <==>
              (maxPayloadSize <= 0 || |Body(s.chunks)| <= maxPayloadSize)
              && (s.fails ==> maxPayloadSize == MAX_INT64 && |Body(s.chunks)| == MAX_INT64)
    ensures o.Accepted? ==> o.body == Body(s.chunks)
    ensures o.TooLarge? <==> maxPayloadSize > 0 && |Body(s.chunks)| > maxPayloadSize
  {
    var body, failed := ReadAll(s, maxPayloadSize);
    if failed {
      return ReadFailed;
    }
    if maxPayloadSize > 0 && |body| > maxPayloadSize {
      return TooLarge(|body|);
    }
    return Accepted(body);
  }
}
