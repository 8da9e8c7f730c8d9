/** The binary framing of the transfer protocol: one type byte, a little-endian 32-bit length, the payload. */
module Framing {
  import opened Common

  type Byte = x: int | 0 <= x < 256 witness 0
  type Bytes = seq<Byte>

  const WORD: int := 0x1_0000_0000
  const HEADER: nat := 5

  datatype Packet = Packet(kind: Byte, payload: Bytes)

  /** Success with what follows; the stream ends too early; or a payload larger than the buffer, refused with only the
      header consumed. */
  datatype Decoded = Frame(packet: Packet, rest: Bytes) | Short | TooLarge(rest: Bytes)

  function LittleEndian(n: int): Bytes
    requires 0 <= n < WORD
  {
    [n % 256, n / 256 % 256, n / 65536 % 256, n / 16777216]
  }

  function FromLittleEndian(b: Bytes): (n: int)
    requires |b| == 4
    ensures 0 <= n < WORD
  {
    (b[0] as int) + 256 * (b[1] as int) + 65536 * (b[2] as int) + 16777216 * (b[3] as int)
  }

  lemma LengthRoundTrip(n: int)
    requires 0 <= n < WORD
    ensures FromLittleEndian(LittleEndian(n)) == n
  {
    assert n == 256 * (n / 256) + n % 256;
    assert n / 256 == 256 * (n / 65536) + n / 256 % 256;
    assert n / 65536 == 256 * (n / 16777216) + n / 65536 % 256;
  }

  /** The length field holds the length modulo 2^32. */
  function Encode(packet: Packet): Bytes {
    [packet.kind] + LittleEndian(|packet.payload| % WORD) + packet.payload
  }

  /** `capacity` is the buffer's, of which the check sees only the low 32 bits. */
  function Decode(stream: Bytes, capacity: nat): Decoded {
    if |stream| < HEADER then Short
    else
      var length := FromLittleEndian(stream[1..HEADER]);
      if capacity % WORD < length then TooLarge(stream[HEADER..])
      else if |stream| - HEADER < length then Short
      else Frame(Packet(stream[0], stream[HEADER..HEADER + length]), stream[HEADER + length..])
  }

  predicate Fits(packet: Packet, capacity: nat) {
    |packet.payload| < WORD && |packet.payload| <= capacity % WORD
  }

  /** One frame comes back, with nothing else consumed, exactly if its payload is below 2^32 bytes and within the
      buffer's low 32 bits. */
  lemma FrameRoundTrip(packet: Packet, more: Bytes, capacity: nat)
    ensures Decode(Encode(packet) + more, capacity) == Frame(packet, more) <==> Fits(packet, capacity)
    ensures |packet.payload| < WORD && !Fits(packet, capacity) ==>
              Decode(Encode(packet) + more, capacity) == TooLarge(packet.payload + more)
    ensures |packet.payload| >= WORD && Decode(Encode(packet) + more, capacity).Frame? ==>
              Decode(Encode(packet) + more, capacity).packet.payload == packet.payload[..|packet.payload| % WORD]
  {
    var n := |packet.payload| % WORD;
    var stream := Encode(packet) + more;
    assert stream[1..HEADER] == LittleEndian(n);
    LengthRoundTrip(n);
    assert stream[0] == packet.kind && stream[HEADER..] == packet.payload + more;
    assert stream[HEADER..HEADER + n] == packet.payload[..n];
    if |packet.payload| < WORD {
      assert packet.payload[..n] == packet.payload;
      assert stream[HEADER + n..] == more;
    } else {
      assert |packet.payload[..n]| < |packet.payload|;
    }
  }

  function EncodeAll(packets: seq<Packet>): Bytes {
    if packets == [] then [] else Encode(packets[0]) + EncodeAll(packets[1..])
  }

  /** Reads as many frames as asked for; None once a frame cannot be read. */
  function DecodeAll(stream: Bytes, count: nat, capacity: nat): Option<(seq<Packet>, Bytes)> {
    if count == 0 then Some(([], stream))
    else match Decode(stream, capacity)
      case Frame(packet, rest) =>
        (match DecodeAll(rest, count - 1, capacity)
         case Some((packets, left)) => Some(([packet] + packets, left))
         case None => None)
      case _ => None
  }

  /** Any list of frames that fit comes back from their concatenation, which is consumed exactly; and only such a list
      does. */
  lemma {:induction false} StreamRoundTrip(packets: seq<Packet>, more: Bytes, capacity: nat)
    ensures DecodeAll(EncodeAll(packets) + more, |packets|, capacity) == Some((packets, more)) <==>
              forall i :: 0 <= i < |packets| ==> Fits(packets[i], capacity)
  {
    if packets == [] {
      assert EncodeAll(packets) + more == more;
    } else {
      var first, others := packets[0], packets[1..];
      var rest := EncodeAll(others) + more;
      assert EncodeAll(packets) + more == Encode(first) + rest;
      FrameRoundTrip(first, rest, capacity);
      StreamRoundTrip(others, more, capacity);
      hide Encode, Fits;
      FitsSnoc(first, others, capacity);
      assert packets == [first] + others;
      if !Fits(first, capacity) && Decode(Encode(first) + rest, capacity).Frame? {
        FirstFrameWrong(first, others, rest, more, capacity);
      } else if Fits(first, capacity) {
        hide Decode;
        FirstFrameRight(first, others, rest, more, capacity);
      }
    }
  }

  lemma FitsSnoc(first: Packet, others: seq<Packet>, capacity: nat)
    ensures (forall i :: 0 <= i < |[first] + others| ==> Fits(([first] + others)[i], capacity)) <==>
              Fits(first, capacity) && forall i :: 0 <= i < |others| ==> Fits(others[i], capacity)
  {
    hide Fits;
    var packets := [first] + others;
    assert packets[0] == first && forall i :: 0 <= i < |others| ==> packets[i + 1] == others[i];
    if forall i :: 0 <= i < |packets| ==> Fits(packets[i], capacity) {
      forall i | 0 <= i < |others| ensures Fits(others[i], capacity) {
        assert Fits(packets[i + 1], capacity);
      }
    }
  }

  lemma FirstFrameRight(first: Packet, others: seq<Packet>, rest: Bytes, more: Bytes, capacity: nat)
    requires Decode(Encode(first) + rest, capacity) == Frame(first, rest)
    ensures DecodeAll(Encode(first) + rest, |others| + 1, capacity) == Some(([first] + others, more)) <==>
              DecodeAll(rest, |others|, capacity) == Some((others, more))
  {
    hide Encode, Decode;
    if DecodeAll(rest, |others|, capacity).Some? {
      var (got, left) := DecodeAll(rest, |others|, capacity).value;
      assert ([first] + got)[1..] == got && ([first] + others)[1..] == others;
    }
  }

  lemma FirstFrameWrong(first: Packet, others: seq<Packet>, rest: Bytes, more: Bytes, capacity: nat)
    requires !Fits(first, capacity) && Decode(Encode(first) + rest, capacity).Frame?
    ensures DecodeAll(Encode(first) + rest, |others| + 1, capacity) != Some(([first] + others, more))
  {
    FrameRoundTrip(first, rest, capacity);
    var Frame(packet, left) := Decode(Encode(first) + rest, capacity);
    assert |packet.payload| < |first.payload|;
    hide Encode, Decode;
    assert forall tail :: ([packet] + tail)[0] == packet && ([first] + others)[0] == first;
  }

  /** A connection, as the bytes still to be read from it. */
  class Reader {
    var data: Bytes

    /** Fills the first n places of the buffer, or fails and leaves nothing more to read. */
    method ReadFull(buffer: array<Byte>, n: nat) returns (ok: bool)
      requires n <= buffer.Length
      modifies this, buffer
      ensures ok <==> n <= |old(data)|
      ensures ok ==> data == old(data)[n..] && buffer[..n] == old(data)[..n]
    {
      if n > |data| {
        data := [];
        return false;
      }
      for i := 0 to n
        invariant data == old(data) && n <= |data|
        invariant buffer[..i] == data[..i]
        modifies buffer
      {
        buffer[i] := data[i];
      }
      data := data[n..];
      return true;
    }
  }

  /** Reads one frame into the caller's buffer; a payload that does not fit is refused before any of it is read. */
  method DecodeInto(reader: Reader, buffer: array<Byte>) returns (kind: Byte, length: nat, ok: bool, tooLarge: bool)
    modifies reader, buffer
    ensures ok <==> Decode(old(reader.data), buffer.Length).Frame?
    ensures ok ==>
              length <= buffer.Length && Decode(old(reader.data), buffer.Length)
                  == Frame(Packet(kind, buffer[..length]), reader.data)
    ensures tooLarge <==> Decode(old(reader.data), buffer.Length).TooLarge?
    ensures tooLarge ==> Decode(old(reader.data), buffer.Length) == TooLarge(reader.data)
  {
    var header := new Byte[5];
    ok := reader.ReadFull(header, 5);
    if !ok {
      return 0, 0, false, false;
    }
    assert header[..5] == old(reader.data)[..5];
    length := (header[1] as int) + 256 * (header[2] as int) + 65536 * (header[3] as int)
        + 16777216 * (header[4] as int);
    assert old(reader.data)[1..HEADER] == [header[1], header[2], header[3], header[4]];
    kind := header[0];
    if buffer.Length % WORD < length {
      return kind, length, false, true;
    }
    ok := reader.ReadFull(buffer, length);
    tooLarge := false;
  }
}
