/** Length-prefixed framing of protocol messages (CinqCodec in grid/protocol.rs). */
module Codec {
  import opened Prelude
  import opened Io

  function BigEndian32(n: nat): (b: Bytes)
    requires n < TWO_TO_32
    ensures |b| == 4
  {
    [n / 0x100_0000, n / 0x1_0000 % 256, n / 256 % 256, n % 256]
  }

  function FromBigEndian32(b: Bytes): (n: nat)
    requires |b| == 4
    ensures n < TWO_TO_32
  {
    b[0] as int * 0x100_0000 + b[1] as int * 0x1_0000 + b[2] as int * 256 + b[3] as int
  }

  lemma BigEndianRoundTrip(n: nat)
    requires n < TWO_TO_32
    ensures FromBigEndian32(BigEndian32(n)) == n
  {
    var q1, q2, q3 := n / 256, n / 0x1_0000, n / 0x100_0000;
    assert q2 == q1 / 256 && q3 == q2 / 256;
  }

  /** The length is cast to 32 bits, which truncates it for a payload of 4 GiB or more. */
  function EncodeFrame(payload: Bytes): Bytes {
    BigEndian32(|payload| % TWO_TO_32) + payload
  }

  datatype Read = Frame(payload: Bytes) | TooLarge | Eof

  /** What reading one frame gives, and what it leaves unread. */
  function DecodeFrame(stream: Bytes, maxSize: nat): (Read, Bytes) {
    if |stream| < 4 then (Eof, [])
    else
      var length := FromBigEndian32(stream[..4]);
      if length > maxSize then (TooLarge, stream[4..])
      else if |stream| < 4 + length then (Eof, [])
      else (Frame(stream[4..4 + length]), stream[4 + length..])
  }

  /** A frame comes back as written, and leaves what follows, exactly if its payload fits the limit and 32 bits. */
  lemma FrameRoundTripIff(payload: Bytes, rest: Bytes, maxSize: nat)
    ensures DecodeFrame(EncodeFrame(payload) + rest, maxSize) == (Frame(payload), rest)
       <==> |payload| <= maxSize && |payload| < TWO_TO_32
  {
    var stream := EncodeFrame(payload) + rest;
    var length := |payload| % TWO_TO_32;
    BigEndianRoundTrip(length);
    assert stream[..4] == BigEndian32(length);
    if |payload| < TWO_TO_32 {
      assert length == |payload|;
      assert stream[4..4 + length] == payload && stream[4 + length..] == rest;
    } else {
      assert length < |payload|;
      if length <= maxSize {
        assert |stream[4..4 + length]| == length;
      }
    }
  }

  lemma HeaderOf(payload: Bytes, k: nat)
    requires |payload| < TWO_TO_32 && 4 <= k <= |EncodeFrame(payload)|
    ensures FromBigEndian32(EncodeFrame(payload)[..k][..4]) == |payload|
  {
    var header := BigEndian32(|payload|);
    assert |payload| % TWO_TO_32 == |payload|;
    assert (header + payload)[..k][..4] == header;
    BigEndianRoundTrip(|payload|);
  }

  /** No proper prefix of a frame that fits decodes to anything. */
  lemma ProperPrefixIsIncomplete(payload: Bytes, maxSize: nat, k: nat)
    requires |payload| <= maxSize && |payload| < TWO_TO_32 && k < |EncodeFrame(payload)|
    ensures DecodeFrame(EncodeFrame(payload)[..k], maxSize).0 == Eof
  {
    if k >= 4 {
      HeaderOf(payload, k);
    }
  }

  /** An oversized length is refused on the header alone: whatever the body is, it is left unread. */
  lemma OversizedRejectedUnread(length: nat, body: Bytes, maxSize: nat)
    requires maxSize < length < TWO_TO_32
    ensures DecodeFrame(BigEndian32(length) + body, maxSize) == (TooLarge, body)
  {
    var stream := BigEndian32(length) + body;
    BigEndianRoundTrip(length);
    assert stream[..4] == BigEndian32(length) && stream[4..] == body;
  }

  // ----- messages -----

  function EncodeAll<M>(messages: seq<M>, encode: M -> Bytes): Bytes {
    if messages == [] then [] else EncodeFrame(encode(messages[0])) + EncodeAll(messages[1..], encode)
  }

  /** Read `n` messages; None if any of them cannot be read or parsed. */
  function DecodeMany<M>(stream: Bytes, n: nat, maxSize: nat, decode: Bytes -> Option<M>): Option<(seq<M>, Bytes)> {
    if n == 0 then Some(([], stream))
    else
      match DecodeFrame(stream, maxSize)
      case (Frame(payload), rest) =>
        if decode(payload).None? then None
        else
          var more := DecodeMany(rest, n - 1, maxSize, decode);
          if more.None? then None else Some(([decode(payload).value] + more.value.0, more.value.1))
      case _ => None
  }

  /** The first message of a stream, then the others. */
  lemma ReadFirst<M>(payload: Bytes, tail: Bytes, n: nat, maxSize: nat, decode: Bytes -> Option<M>, m: M)
    requires |payload| <= maxSize && |payload| < TWO_TO_32 && decode(payload) == Some(m)
    ensures var more := DecodeMany(tail, n, maxSize, decode);
      DecodeMany(EncodeFrame(payload) + tail, n + 1, maxSize, decode)
      == if more.None? then None else Some(([m] + more.value.0, more.value.1))
  {
    FrameRoundTripIff(payload, tail, maxSize);
  }

  lemma Regrouped(a: Bytes, b: Bytes, c: Bytes)
    ensures (a + b) + c == a + (b + c)
  {
  }

  /** Any sequence of messages that fit is read back whole, with nothing of the stream lost or left over. The
      serialization is a parameter: any pair of functions of which the second undoes the first. */
  lemma {:induction false} StreamRoundTrip<M>(messages: seq<M>, encode: M -> Bytes, decode: Bytes -> Option<M>,
                                              maxSize: nat, rest: Bytes)
    requires forall m :: m in messages ==> decode(encode(m)) == Some(m)
    requires forall m :: m in messages ==> |encode(m)| <= maxSize && |encode(m)| < TWO_TO_32
    ensures DecodeMany(EncodeAll(messages, encode) + rest, |messages|, maxSize, decode) == Some((messages, rest))
  {
    if messages == [] {
      assert [] + rest == rest;
    } else {
      var m, others := messages[0], messages[1..];
      var payload, tail := encode(m), EncodeAll(others, encode);
      assert m in messages && [m] + others == messages;
      StreamRoundTrip(others, encode, decode, maxSize, rest);
      ReadFirst(payload, tail + rest, |others|, maxSize, decode, m);
      Regrouped(EncodeFrame(payload), tail, rest);
    }
  }

  // ----- the codec at work on a stream -----

  method WriteBoth(io: Stream, first: Bytes, second: Bytes) returns (ok: bool)
    requires io.Valid()
    modifies io`data, io`room
    ensures io.Valid() && (ok <==> Io.Fits(first + second, old(io.room)))
    ensures io.Unread() == old(io.Unread()) + Io.Taken(first + second, old(io.room))
  {
    TakenInTwo(first, second, io.room);
    ok := io.WriteAll(first);
    if ok {
      ok := io.WriteAll(second);
    }
  }

  /** `flushes` is whether the final flush succeeds. What a failing stream has taken of a frame is a beginning of it. */
  method WriteFrame(io: Stream, payload: Bytes, flushes: bool) returns (ok: bool)
    requires io.Valid()
    modifies io`data, io`room
    ensures io.Valid() && (ok <==> flushes && Io.Fits(EncodeFrame(payload), old(io.room)))
    ensures io.Unread() == old(io.Unread()) + Io.Taken(EncodeFrame(payload), old(io.room))
  {
    var length := BigEndian32(|payload| % TWO_TO_32);
    ok := WriteBoth(io, length, payload);
    return ok && flushes;
  }

  /** A reader finds no frame in what a failing write has left, if the payload was within the limits. */
  lemma FailedWriteReadsAsNothing(payload: Bytes, room: nat, maxSize: nat)
    requires |payload| <= maxSize && |payload| < TWO_TO_32 && !Io.Fits(EncodeFrame(payload), Some(room))
    ensures DecodeFrame(Io.Taken(EncodeFrame(payload), Some(room)), maxSize).0 == Eof
  {
    ProperPrefixIsIncomplete(payload, maxSize, room);
  }

  method ReadFrame(io: Stream, maxSize: nat) returns (r: Read)
    requires io.Valid()
    modifies io`position
    ensures io.Valid() && io.data == old(io.data)
    ensures (r, io.Unread()) == DecodeFrame(old(io.Unread()), maxSize)
  {
    var lengthBuffer := new Byte[4](_ => 0);
    var ok := io.ReadExact(lengthBuffer, 4);
    if !ok {
      return Eof;
    }
    var length := FromBigEndian32(lengthBuffer[..4]);
    if length > maxSize {
      return TooLarge;
    }
    var buffer := new Byte[length](_ => 0);
    ok := io.ReadExact(buffer, length);
    if !ok {
      return Eof;
    }
    assert old(io.Unread())[4..][..length] == old(io.Unread())[4..4 + length];
    assert old(io.Unread())[4..][length..] == old(io.Unread())[4 + length..];
    return Frame(buffer[..length]);
  }
}
