/** The length-prefixed codec (ObjectEncoderDecoder.java): four big-endian length bytes and the
    payload, decoded one byte at a time.  Serialized objects are opaque bytes. */
module ObjectCodec {

  type Byte = b: int | 0 <= b < 256

  /** ByteBuffer.getInt: big-endian and signed. */
  function Int32(b: seq<Byte>): (n: int)
    requires |b| == 4
    ensures -0x8000_0000 <= n < 0x8000_0000
  {
    var high: int := b[0] * 256 + b[1] as int;
    var low: int := b[2] * 256 + b[3] as int;
    var u := high * 0x1_0000 + low;
    if u >= 0x8000_0000 then u - 0x1_0000_0000 else u
  }

  /** ByteBuffer.putInt for a non-negative int. */
  function BigEndian(n: nat): (b: seq<Byte>)
    requires n < 0x8000_0000
    ensures |b| == 4 && Int32(b) == n
  {
    [n / 0x1_0000 / 256, n / 0x1_0000 % 256, n % 0x1_0000 / 256, n % 256]
  }

  /** `Filling` holds the array allocated for the payload and what has been put into it. */
  datatype State = Length(got: seq<Byte>) | Filling(size: nat, got: seq<Byte>)

  datatype Outcome = Pending | Object(payload: seq<Byte>) | BufferOverflow | NegativeArraySize | IndexOutOfBounds

  datatype Fed = Fed(state: State, outcome: Outcome)

  const START: State := Length([])

  /** A negative length leaves the length buffer full, and a zero length an array no byte fits
      in: from then on every byte throws. */
  function Feed(s: State, b: Byte): Fed {
    match s
    case Length(got) =>
      if |got| >= 4 then Fed(s, BufferOverflow)
      else if |got| < 3 then Fed(Length(got + [b]), Pending)
      else
        var n := Int32(got + [b]);
        if n < 0 then Fed(Length(got + [b]), NegativeArraySize) else Fed(Filling(n, []), Pending)
    case Filling(size, got) =>
      if |got| >= size then Fed(s, IndexOutOfBounds)
      else if |got| + 1 == size then Fed(START, Object(got + [b]))
      else Fed(Filling(size, got + [b]), Pending)
  }

  /** The objects a stream of bytes yields; a byte that throws ends the stream. */
  datatype Read = Read(state: State, objects: seq<seq<Byte>>, thrown: bool)

  function Decode(s: State, stream: seq<Byte>): Read
    decreases |stream|
  {
    if stream == [] then Read(s, [], false)
    else
      var fed := Feed(s, stream[0]);
      match fed.outcome
      case Pending => Decode(fed.state, stream[1..])
      case Object(payload) =>
        var more := Decode(fed.state, stream[1..]);
        more.(objects := [payload] + more.objects)
      case _ => Read(fed.state, [], true)
  }

  function Encoded(payload: seq<Byte>): seq<Byte>
    requires |payload| < 0x8000_0000
  {
    BigEndian(|payload|) + payload
  }

  function Stream(payloads: seq<seq<Byte>>): seq<Byte>
    requires forall i :: 0 <= i < |payloads| ==> |payloads[i]| < 0x8000_0000
  {
    if payloads == [] then [] else Encoded(payloads[0]) + Stream(payloads[1..])
  }

  lemma DecodePending(s: State, b: Byte, rest: seq<Byte>)
    requires Feed(s, b).outcome.Pending?
    ensures Decode(s, [b] + rest) == Decode(Feed(s, b).state, rest)
  {
    assert ([b] + rest)[1..] == rest;
  }

  lemma DecodeLength(n: nat, stream: seq<Byte>)
    requires n < 0x8000_0000
    ensures Decode(START, BigEndian(n) + stream) == Decode(Filling(n, []), stream)
  {
    var b := BigEndian(n);
    var b0, b1, b2, b3 := b[0], b[1], b[2], b[3];
    assert b + stream == [b0] + ([b1] + ([b2] + ([b3] + stream)));
    assert [] + [b0] == [b0] && [b0] + [b1] == [b0, b1] && [b0, b1] + [b2] == [b0, b1, b2];
    DecodePending(START, b0, [b1] + ([b2] + ([b3] + stream)));
    DecodePending(Length([b0]), b1, [b2] + ([b3] + stream));
    DecodePending(Length([b0, b1]), b2, [b3] + stream);
    assert [b0, b1, b2] + [b3] == b;
    DecodePending(Length([b0, b1, b2]), b3, stream);
  }

  lemma {:induction false} DecodePayload(size: nat, got: seq<Byte>, left: seq<Byte>, stream: seq<Byte>)
    requires left != [] && |got| + |left| == size
    ensures var more := Decode(START, stream);
            Decode(Filling(size, got), left + stream) == more.(objects := [got + left] + more.objects)
    decreases |left|
  {
    assert (left + stream)[1..] == left[1..] + stream;
    if |left| == 1 {
      assert left == [left[0]] && left[1..] + stream == stream;
    } else {
      DecodePayload(size, got + [left[0]], left[1..], stream);
      assert got + [left[0]] + left[1..] == got + left;
    }
  }

  /** After a zero length the decoder never gets back to its initial state. */
  lemma StuckOnEmpty(stream: seq<Byte>)
    ensures Decode(Filling(0, []), stream).state == Filling(0, [])
  {
  }

  lemma DecodeFirst(p: seq<Byte>, stream: seq<Byte>)
    requires p != [] && |p| < 0x8000_0000
    ensures var more := Decode(START, stream); Decode(START, Encoded(p) + stream) == more.(objects := [p] + more.objects)
  {
    hide Decode, BigEndian;
    assert Encoded(p) + stream == BigEndian(|p|) + (p + stream);
    DecodeLength(|p|, p + stream);
    DecodePayload(|p|, [], p, stream);
    assert [] + p == p;
  }

  lemma DecodeEmpty(stream: seq<Byte>)
    ensures Decode(START, Encoded([]) + stream).state == Filling(0, [])
  {
    assert Encoded([]) + stream == BigEndian(0) + stream;
    DecodeLength(0, stream);
    StuckOnEmpty(stream);
  }

  /** The four bytes as an unsigned number, up to a multiple of 2^32. */
  lemma Int32Wraps(b: seq<Byte>)
    requires |b| == 4
    ensures var n := ((b[0] * 256 + b[1]) * 256 + b[2]) * 256 + b[3] as int;
            Int32(b) == if b[0] < 128 then n else n - 0x1_0000_0000
  {
  }

  /** A negative length throws, and so does every later byte: nothing is read any more. */
  lemma StuckOnNegative(b: seq<Byte>, stream: seq<Byte>)
    requires |b| == 4 && b[0] >= 128
    ensures Decode(START, b + stream) == Read(Length(b), [], true)
    ensures forall x :: Feed(Length(b), x) == Fed(Length(b), BufferOverflow)
  {
    Int32Wraps(b);
    assert [] + [b[0]] == b[..1] && b[..1] + [b[1]] == b[..2] && b[..2] + [b[2]] == b[..3] && b[..3] + [b[3]] == b;
    assert (b + stream)[1..] == b[1..] + stream && (b[1..] + stream)[1..] == b[2..] + stream;
    assert (b[2..] + stream)[1..] == b[3..] + stream;
    hide Decode;
    DecodePending(Length([]), b[0], b[1..] + stream);
    DecodePending(Length(b[..1]), b[1], b[2..] + stream);
    DecodePending(Length(b[..2]), b[2], b[3..] + stream);
    Thrown(Length(b[..3]), b[3..] + stream);
  }

  lemma Thrown(s: State, stream: seq<Byte>)
    requires stream != [] && Feed(s, stream[0]).outcome.NegativeArraySize?
    ensures Decode(s, stream) == Read(Feed(s, stream[0]).state, [], true)
  {
  }

  predicate AllNonEmpty(payloads: seq<seq<Byte>>) {
    forall i :: 0 <= i < |payloads| ==> payloads[i] != []
  }

  lemma AllNonEmptyCons(payloads: seq<seq<Byte>>)
    requires payloads != []
    ensures AllNonEmpty(payloads) <==> payloads[0] != [] && AllNonEmpty(payloads[1..])
  {
    if payloads[0] != [] && AllNonEmpty(payloads[1..]) {
      forall i | 0 <= i < |payloads| ensures payloads[i] != [] {
        if i > 0 { assert payloads[1..][i - 1] != []; }
      }
    }
  }

  /** Decoding the concatenation of encoded payloads byte by byte yields exactly those payloads
      and ends in the initial state, if and only if no payload is empty. */
  lemma {:induction false} StreamRoundTrip(payloads: seq<seq<Byte>>)
    requires forall i :: 0 <= i < |payloads| ==> |payloads[i]| < 0x8000_0000
    ensures Decode(START, Stream(payloads)) == Read(START, payloads, false) <==> AllNonEmpty(payloads)
  {
    if payloads != [] {
      hide Decode, Encoded, AllNonEmpty;
      var p, more := payloads[0], Decode(START, Stream(payloads[1..]));
      AllNonEmptyCons(payloads);
      if p == [] {
        DecodeEmpty(Stream(payloads[1..]));
      } else {
        StreamRoundTrip(payloads[1..]);
        DecodeFirst(p, Stream(payloads[1..]));
        assert ([p] + more.objects)[1..] == more.objects && [p] + payloads[1..] == payloads;
      }
    }
  }

  class ObjectEncoderDecoder {
    const lengthBuffer: array<Byte>
    var position: nat
    var objectBytes: array?<Byte>
    var objectBytesIndex: nat

    ghost predicate Valid()
      reads this, lengthBuffer, objectBytes
    {
      && lengthBuffer.Length == 4 && position <= 4 && objectBytes != lengthBuffer
      && (objectBytes != null ==> position == 0 && objectBytesIndex <= objectBytes.Length
                                  && (objectBytesIndex == objectBytes.Length ==> objectBytes.Length == 0))
    }

    ghost function View(): State
      reads this, lengthBuffer, objectBytes
      requires Valid()
    {
      if objectBytes == null then Length(lengthBuffer[..position])
      else Filling(objectBytes.Length, objectBytes[..objectBytesIndex])
    }

    constructor ()
      ensures Valid() && View() == START && fresh(lengthBuffer)
    {
      lengthBuffer := new Byte[4](_ => 0);
      position, objectBytes, objectBytesIndex := 0, null, 0;
    }

    method DecodeNextByte(nextByte: Byte) returns (r: Outcome)
      requires Valid()
      modifies this, lengthBuffer, objectBytes
      ensures Valid() && (objectBytes == old(objectBytes) || objectBytes == null || fresh(objectBytes))
      ensures Fed(View(), r) == Feed(old(View()), nextByte)
    {
      if objectBytes == null {
        r := PutLengthByte(nextByte);
      } else {
        r := PutObjectByte(nextByte);
      }
    }

    method PutLengthByte(nextByte: Byte) returns (r: Outcome)
      requires Valid() && objectBytes == null
      modifies this, lengthBuffer
      ensures Valid() && (objectBytes == null || fresh(objectBytes))
      ensures Fed(View(), r) == Feed(old(View()), nextByte)
    {
      if position == 4 {
        return BufferOverflow;
      }
      ghost var got := lengthBuffer[..position];
      lengthBuffer[position] := nextByte;
      position := position + 1;
      assert lengthBuffer[..position] == got + [nextByte];
      if position < 4 {
        return Pending;
      }
      var size := Int32(lengthBuffer[..]);
      assert lengthBuffer[..] == got + [nextByte];
      if size < 0 {
        return NegativeArraySize;
      }
      objectBytes := new Byte[size](_ => 0);
      objectBytesIndex, position := 0, 0;
      r := Pending;
    }

    method PutObjectByte(nextByte: Byte) returns (r: Outcome)
      requires Valid() && objectBytes != null
      modifies this, objectBytes
      ensures Valid() && (objectBytes == old(objectBytes) || objectBytes == null)
      ensures Fed(View(), r) == Feed(old(View()), nextByte)
    {
      if objectBytesIndex >= objectBytes.Length {
        return IndexOutOfBounds;
      }
      ghost var got := objectBytes[..objectBytesIndex];
      objectBytes[objectBytesIndex] := nextByte;
      objectBytesIndex := objectBytesIndex + 1;
      assert objectBytes[..objectBytesIndex] == got + [nextByte];
      if objectBytesIndex == objectBytes.Length {
        assert objectBytes[..] == got + [nextByte];
        r := Object(objectBytes[..]);
        objectBytes := null;
        return;
      }
      r := Pending;
    }

    /** Four placeholder bytes, the payload, then the length over the placeholder. */
    method Encode(payload: seq<Byte>) returns (result: array<Byte>)
      requires |payload| + 4 < 0x8000_0000
      ensures fresh(result) && result[..] == Encoded(payload)
    {
      result := new Byte[4 + |payload|](i => if 4 <= i < 4 + |payload| then payload[i - 4] else 0);
      var size := BigEndian(result.Length - 4);
      assert result[4..] == payload;
      result[0], result[1], result[2], result[3] := size[0], size[1], size[2], size[3];
      assert result[..4] == size && result[4..] == payload;
      assert result[..] == result[..4] + result[4..];
    }
  }
}
