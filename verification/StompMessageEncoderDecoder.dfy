/** The incremental decoder (StompMessageEncoderDecoder.java): a growing byte array filled one
    byte at a time, and the loop of a read task that drives it. */
module StompCodec {
  import opened Text
  import opened StompFrames
  import opened Framing

  const INITIAL: nat := 1024
  /** Java's `n * 2` on a non-negative int. */
  function DoubledInt(n: nat): int
    requires n < 0x8000_0000
  {
    if 2 * n >= 0x8000_0000 then 2 * n - 0x1_0000_0000 else 2 * n
  }

  /** A capacity reached by doubling 1024. */
  predicate IsCapacity(n: nat)
    decreases n
  {
    n == INITIAL || (n > INITIAL && n % 2 == 0 && IsCapacity(n / 2))
  }

  lemma CapacitiesStopAtLimit(n: nat)
    requires IsCapacity(n) && n < 0x8000_0000
    ensures n <= LIMIT && (n < LIMIT ==> n <= LIMIT / 2)
  {
    CapacityIsPower(n, 20);
    CapacityIsPower(n, 19);
    assert Power2(3) == 8 && Power2(5) == 32 && Power2(7) == 128 && Power2(9) == 512;
    assert Power2(11) == 2048 && Power2(13) == 8192 && Power2(15) == 0x8000 && Power2(17) == 0x2_0000;
    assert Power2(19) == 0x8_0000 && Power2(21) == 0x20_0000;
  }

  lemma DoubleIsCapacity(n: nat)
    requires IsCapacity(n)
    ensures IsCapacity(2 * n)
  {
  }

  lemma {:induction false} CapacityIsPower(n: nat, k: nat)
    requires IsCapacity(n)
    ensures n <= INITIAL * Power2(k) || n >= INITIAL * Power2(k + 1)
    decreases k, n
  {
    if k > 0 && n > INITIAL {
      CapacityIsPower(n / 2, k - 1);
    } else if n > INITIAL {
      assert IsCapacity(n / 2);
      assert Power2(1) == 2;
    }
  }

  function Power2(k: nat): nat {
    if k == 0 then 1 else 2 * Power2(k - 1)
  }

  datatype Outcome = Pending | Message(frame: Frame) | Thrown | NegativeArraySize

  class StompMessageEncoderDecoder {
    var bytes: array<char>
    var len: nat
    /** Longest message held so far, and bytes moved by array copies so far. */
    ghost var longest: nat
    ghost var copied: nat

    ghost predicate Valid()
      reads this, bytes
    {
      && len <= longest && len <= bytes.Length <= LIMIT
      && NUL !in bytes[..len]
      && IsCapacity(bytes.Length)
      && longest <= bytes.Length
      && (bytes.Length == INITIAL || bytes.Length <= 2 * (longest - 1))
      && copied == bytes.Length - INITIAL
    }

    ghost function Buffer(): string
      reads this, bytes
      requires Valid()
    {
      bytes[..len]
    }

    constructor ()
      ensures Valid() && fresh(bytes) && Buffer() == "" && longest == 0 && copied == 0
    {
      bytes := new char[INITIAL];
      len, longest, copied := 0, 0, 0;
    }

    /** One byte: the buffer and the outcome follow `Feed`.  The capacity is the smallest power of
        two (from 1024) that held every message so far, and growing to it copied exactly
        capacity - 1024 bytes in total.  Only a message of 2^30 bytes cannot be extended. */
    method DecodeNextByte(nextByte: char) returns (r: Outcome)
      requires Valid()
      modifies this, bytes
      ensures Valid() && (bytes == old(bytes) || fresh(bytes))
      ensures var fed := Feed(Decoder(old(Buffer()), []), nextByte);
              && Buffer() == fed.decoder.buffer
              && (r.Thrown? || r.NegativeArraySize? <==> fed.thrown)
              && (if r.Message? then ServerParse(old(Buffer())) == Some(r.frame) && fed.decoder.passed == [old(Buffer())]
                  else fed.decoder.passed == [])
      ensures r.NegativeArraySize? <==> nextByte != NUL && |old(Buffer())| == LIMIT
      ensures r.Thrown? <==> nextByte == NUL && old(Buffer()) == BAD
      ensures longest == if |Buffer()| > old(longest) then |Buffer()| else old(longest)
    {
      if nextByte == NUL {
        r := PopFrame();
        return;
      }
      var ok := PushByte(nextByte);
      r := if ok then Pending else NegativeArraySize;
    }

    /** Doubles the full array; `false` stands for the exception when the length overflows. */
    method Expand() returns (ok: bool)
      requires Valid() && len == bytes.Length
      modifies this
      ensures ok <==> len != LIMIT
      ensures !ok ==> Valid() && bytes == old(bytes)
      ensures ok ==> fresh(bytes) && bytes.Length == 2 * len <= LIMIT && IsCapacity(bytes.Length)
      ensures len == old(len) && len <= bytes.Length && bytes[..len] == old(bytes[..len])
      ensures longest == old(longest) && copied == bytes.Length - INITIAL
    {
      hide IsCapacity;
      CapacitiesStopAtLimit(bytes.Length);
      DoubleIsCapacity(bytes.Length);
      var size := DoubledInt(len);
      if size < 0 {
        return false;
      }
      var bigger := new char[size];
      forall i | 0 <= i < bytes.Length {
        bigger[i] := bytes[i];
      }
      assert bigger[..len] == bytes[..len];
      copied := copied + bytes.Length;
      bytes := bigger;
      ok := true;
    }

    method PushByte(nextByte: char) returns (ok: bool)
      requires Valid() && nextByte != NUL
      modifies this, bytes
      ensures Valid() && (bytes == old(bytes) || fresh(bytes))
      ensures ok <==> |old(Buffer())| != LIMIT
      ensures Buffer() == old(Buffer()) + (if ok then [nextByte] else [])
      ensures longest == if |Buffer()| > old(longest) then |Buffer()| else old(longest)
    {
      hide IsCapacity;
      if len >= bytes.Length {
        ok := Expand();
        if !ok {
          return;
        }
      }
      CapacitiesStopAtLimit(bytes.Length);
      ghost var before := bytes[..len];
      bytes[len] := nextByte;
      len := len + 1;
      if len > longest { longest := len; }
      assert bytes[..len] == before + [nextByte];
      ok := true;
    }

    method PopFrame() returns (r: Outcome)
      requires Valid()
      modifies this
      ensures Valid() && bytes == old(bytes) && bytes[..] == old(bytes[..]) && longest == old(longest)
      ensures Buffer() == ""
      ensures r.Thrown? <==> old(Buffer()) == BAD
      ensures !r.Thrown? ==> r.Message? && ServerParse(old(Buffer())) == Some(r.frame)
    {
      var message := bytes[..len];
      len := 0;
      OnlyBadIsRejected(message);
      var f := FromString(message);
      r := if f.None? then Thrown else Message(f.value);
    }
  }

  /** The read task of NonBlockingConnectionHandler.continueRead: feed the buffer's bytes and
      hand each frame to the protocol, until the bytes run out or an exception escapes. */
  method RunReadTask(codec: StompMessageEncoderDecoder, buf: array<char>, limit: nat)
    returns (passed: seq<Frame>, ghost texts: seq<string>)
    requires codec.Valid() && limit <= buf.Length && buf != codec.bytes
    modifies codec, codec.bytes
    ensures codec.Valid()
    ensures FeedChunk(Decoder(old(codec.Buffer()), []), old(buf[..limit])) == Decoder(codec.Buffer(), texts)
    ensures |passed| == |texts| && forall i :: 0 <= i < |texts| ==> ServerParse(texts[i]) == Some(passed[i])
  {
    passed, texts := [], [];
    var position := 0;
    ghost var chunk := buf[..limit];
    ghost var start := Decoder(codec.Buffer(), []);
    while position < limit
      invariant 0 <= position <= limit && codec.Valid()
      invariant codec.bytes == old(codec.bytes) || fresh(codec.bytes)
      invariant buf[..limit] == chunk
      invariant FeedChunk(start, chunk) == FeedChunk(Decoder(codec.Buffer(), texts), chunk[position..])
      invariant |passed| == |texts| && forall i :: 0 <= i < |texts| ==> ServerParse(texts[i]) == Some(passed[i])
    {
      ghost var before := codec.Buffer();
      ghost var left := chunk[position..];
      assert left[0] == buf[position] && left[1..] == chunk[position + 1..];
      FeedAppends(before, texts, left[0]);
      var r := codec.DecodeNextByte(buf[position]);
      position := position + 1;
      match r {
        case NegativeArraySize =>
          return;
        case Thrown =>
          return;
        case Message(f) =>
          passed, texts := passed + [f], texts + [before];
        case Pending =>
      }
    }
    assert chunk[limit..] == "";
  }

  /** Messages already handed over do not influence the next byte. */
  lemma FeedAppends(buffer: string, passed: seq<string>, b: char)
    ensures var one := Feed(Decoder(buffer, []), b); var many := Feed(Decoder(buffer, passed), b);
            many.thrown == one.thrown && many.decoder == Decoder(one.decoder.buffer, passed + one.decoder.passed)
  {
  }
}
