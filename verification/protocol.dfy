/** The packet framing of bot/protocol.go, and how client/main.go and Protocol.h agree with it.

    A packet is the total length and an id, both 16-bit little-endian, then the body. */
module Protocol {
  import opened Common
  import opened Utf8

  const HEADER_SIZE: nat := 4
  const MAX_PAYLOAD: nat := 256
  const MAX_PACKET: nat := HEADER_SIZE + MAX_PAYLOAD
  const UINT16: nat := 0x1_0000

  // ------------------------------------------------------------------ 16-bit little-endian

  /** uint16(x), low byte first. */
  function Le16(x: nat): (r: seq<Byte>)
    ensures |r| == 2 && (r[0] as int) + 256 * (r[1] as int) == x % UINT16
  {
    var y := x % UINT16;
    [y % 256, y / 256]
  }

  function U16(b: seq<Byte>): (x: nat)
    requires |b| == 2
    ensures x < UINT16
  {
    (b[0] as int) + 256 * (b[1] as int)
  }

  lemma Le16Unique(b: seq<Byte>)
    requires |b| == 2
    ensures Le16(U16(b)) == b
  {
  }

  // ------------------------------------------------------------------ writing

  /** [size 2B][id 2B][body], the size with the header. */
  function Encode(id: nat, body: seq<Byte>): (r: seq<Byte>)
    ensures |r| == HEADER_SIZE + |body| && r[4..] == body
    ensures (r[0] as int) + 256 * (r[1] as int) == (4 + |body|) % 0x1_0000
    ensures (r[2] as int) + 256 * (r[3] as int) == id % 0x1_0000
  {
    Le16(HEADER_SIZE + |body|) + Le16(id) + body
  }

  /** MakePacket of Protocol.h keeps at most the first 256 bytes of a message. */
  function Cut<T>(message: seq<T>): (r: seq<T>)
    ensures r <= message && |r| == if |message| <= 256 then |message| else 256
  {
    if |message| <= MAX_PAYLOAD then message else message[..MAX_PAYLOAD]
  }

  /** io.Writer: what has been written so far. */
  class Writer {
    var written: seq<Byte>

    constructor ()
      ensures written == []
    {
      written := [];
    }
  }

  method PutUint16(packet: array<Byte>, at: nat, x: nat)
    requires at + 2 <= packet.Length
    modifies packet
    ensures packet[at] == Le16(x)[0] && packet[at + 1] == Le16(x)[1]
    ensures forall i :: 0 <= i < packet.Length && !(at <= i < at + 2) ==> packet[i] == old(packet[i])
  {
    var y := x % UINT16;
    packet[at] := y % 256;
    packet[at + 1] := y / 256;
  }

  /** Header and body assembled in one buffer; the conversion to 16 bits is the caller's concern. */
  method Assemble(body: seq<Byte>) returns (packet: array<Byte>)
    ensures fresh(packet) && packet[..] == Encode(0, body)
  {
    packet := new Byte[HEADER_SIZE + |body|](_ => 0);
    PutUint16(packet, 0, packet.Length);
    PutUint16(packet, 2, 0);
    forall i | 0 <= i < |body| {
      packet[HEADER_SIZE + i] := body[i];
    }
    HeaderThenBody(packet[..], packet.Length, 0, body);
  }

  lemma HeaderThenBody(s: seq<Byte>, size: nat, id: nat, body: seq<Byte>)
    requires |s| == 4 + |body| && s[0] == Le16(size)[0] && s[1] == Le16(size)[1] && s[2] == Le16(id)[0] && s[3] == Le16(id)[1]
    requires forall i :: 0 <= i < |body| ==> s[4 + i] == body[i]
    ensures s == Le16(size) + Le16(id) + body
  {
  }

  /** writePacket of the bot. */
  method WritePacket(w: Writer, payload: seq<Byte>)
    modifies w
    ensures w.written == old(w.written) + Encode(0, Truncated(payload, MAX_PAYLOAD))
  {
    var body := TruncateUTF8(payload, MAX_PAYLOAD);
    TruncationIsScanned(payload, MAX_PAYLOAD, body);
    var packet := Assemble(body);
    w.written := w.written + packet[..];
  }

  /** sendPacket of the terminal client: the same frame without a cut. */
  method SendPacket(w: Writer, message: seq<Byte>)
    modifies w
    ensures w.written == old(w.written) + Encode(0, message)
  {
    var packet := Assemble(message);
    w.written := w.written + packet[..];
  }

  // ------------------------------------------------------------------ reading

  datatype Read = Packet(id: nat, payload: seq<Byte>) | BadSize(size: nat) | Ended

  /** One packet off the front of what is still to come, and what remains after it.
      `maxPacket` is the largest total length the reader accepts. */
  function Decode(s: seq<Byte>, maxPacket: nat): (r: (Read, seq<Byte>))
    ensures |r.1| <= |s| && (r.0.Packet? ==> |r.1| < |s|)
  {
    if |s| < HEADER_SIZE then (Ended, [])
    else
      var size := U16(s[..2]);
      if size < HEADER_SIZE || size > maxPacket then (BadSize(size), s[HEADER_SIZE..])
      else if |s| < size then (Ended, [])
      else (Packet(U16(s[2..4]), s[HEADER_SIZE..size]), s[size..])
  }

  /** io.Reader over a connection that delivers its bytes in pieces of any size. */
  class Reader {
    var chunks: seq<seq<Byte>>

    ghost function Rest(): seq<Byte> reads this { Join(chunks) }

    constructor (pieces: seq<seq<Byte>>)
      ensures chunks == pieces
    {
      chunks := pieces;
    }

    /** One Read call: some of the next piece, nothing only when the piece is empty. */
    method Some(want: nat) returns (got: seq<Byte>)
      requires chunks != []
      modifies this
      ensures |got| <= want && got + Rest() == old(Rest())
      ensures |chunks| < old(|chunks|) || (|chunks| == old(|chunks|) && |got| == want)
    {
      if |chunks[0]| <= want {
        got := chunks[0];
        chunks := chunks[1..];
      } else {
        got := chunks[0][..want];
        chunks := [chunks[0][want..]] + chunks[1..];
        assert old(chunks)[0] == got + chunks[0];
      }
    }

    /** io.ReadFull: read on until `want` bytes are there or the stream ends. */
    method Full(want: nat) returns (ok: bool, data: seq<Byte>)
      modifies this
      ensures ok == (want <= |old(Rest())|)
      ensures data + Rest() == old(Rest())
      ensures if ok then |data| == want else Rest() == []
    {
      data := [];
      while |data| < want && chunks != []
        invariant |data| <= want && data + Rest() == old(Rest())
        decreases |chunks|, want - |data|
      {
        var got := Some(want - |data|);
        data := data + got;
      }
      ok := |data| == want;
    }

    /** readPacket of the bot, and the framing of the client's recvLoop. */
    method ReadPacket(maxPacket: nat) returns (r: Read)
      modifies this
      ensures (r, Rest()) == Decode(old(Rest()), maxPacket)
    {
      ghost var all := Rest();
      var ok, header := Full(HEADER_SIZE);
      if !ok {
        return Ended;
      }
      assert header == all[..4] && Rest() == all[4..];
      var size, id := U16(header[0..2]), U16(header[2..4]);
      assert header[0..2] == all[..2] && header[2..4] == all[2..4];
      if size < HEADER_SIZE || size > maxPacket {
        return BadSize(size);
      }
      var payload;
      ok, payload := Full(size - HEADER_SIZE);
      if !ok {
        return Ended;
      }
      assert payload == all[4..size] && Rest() == all[size..];
      r := Packet(id, payload);
    }

    /** The receive loop: read packets until one cannot be had, which is `last`. */
    method ReadAll(maxPacket: nat) returns (packets: seq<Read>, last: Read)
      modifies this
      ensures packets == DecodeAll(old(Rest()), maxPacket).packets
      ensures (last, Rest()) == Decode(DecodeAll(old(Rest()), maxPacket).rest, maxPacket) && !last.Packet?
    {
      packets := [];
      ghost var from := Rest();
      last := ReadPacket(maxPacket);
      while last.Packet?
        invariant (last, Rest()) == Decode(from, maxPacket)
        invariant packets + DecodeAll(from, maxPacket).packets == DecodeAll(old(Rest()), maxPacket).packets
        invariant DecodeAll(from, maxPacket).rest == DecodeAll(old(Rest()), maxPacket).rest
        decreases last.Packet?, |Rest()|
      {
        Regroup(packets, [last], DecodeAll(Rest(), maxPacket).packets);
        packets := packets + [last];
        from := Rest();
        last := ReadPacket(maxPacket);
      }
    }
  }

  /** The packets at the front of a stream, and what is left behind them. */
  datatype Batch = Batch(packets: seq<Read>, rest: seq<Byte>)

  function DecodeAll(s: seq<Byte>, maxPacket: nat): (b: Batch)
    ensures forall i :: 0 <= i < |b.packets| ==> b.packets[i].Packet?
    decreases |s|
  {
    var (r, rest) := Decode(s, maxPacket);
    if r.Packet? then
      var b := DecodeAll(rest, maxPacket);
      b.(packets := [r] + b.packets)
    else
      Batch([], s)
  }

  // ------------------------------------------------------------------ what framing guarantees

  /** A successful read consumed exactly the encoding of what it returned, and every encoding
      of a packet within the limit is read back. */
  lemma DecodeIsEncode(s: seq<Byte>, maxPacket: nat, id: nat, payload: seq<Byte>, rest: seq<Byte>)
    requires maxPacket < UINT16
    ensures Decode(s, maxPacket) == (Packet(id, payload), rest) <==>
            s == Encode(id, payload) + rest && id < UINT16 && HEADER_SIZE + |payload| <= maxPacket
  {
    if Decode(s, maxPacket) == (Packet(id, payload), rest) {
      Le16Unique(s[..2]);
      Le16Unique(s[2..4]);
      FourParts(s, U16(s[..2]));
    }
    if s == Encode(id, payload) + rest && id < UINT16 && HEADER_SIZE + |payload| <= maxPacket {
      var size := HEADER_SIZE + |payload|;
      assert s[..2] == Le16(size) && s[2..4] == Le16(id);
      assert s[4..size] == payload && s[size..] == rest;
    }
  }

  lemma FourParts(s: seq<Byte>, size: nat)
    requires 4 <= size <= |s|
    ensures s == s[..2] + s[2..4] + s[4..size] + s[size..]
  {
  }

  /** The stream written for a list of payloads. */
  function Stream(payloads: seq<seq<Byte>>): (s: seq<Byte>)
  {
    if payloads == [] then [] else Encode(0, Truncated(payloads[0], MAX_PAYLOAD)) + Stream(payloads[1..])
  }

  function Received(payloads: seq<seq<Byte>>): (packets: seq<Read>)
    ensures |packets| == |payloads|
  {
    seq(|payloads|, i requires 0 <= i < |payloads| => Packet(0, Truncated(payloads[i], MAX_PAYLOAD)))
  }

  /** What a reader makes of the first `cut` bytes of a written stream: the packets that lie
      wholly within them, in order, and nothing else; what is left is the start of the next. */
  lemma CutStream(payloads: seq<seq<Byte>>, cut: nat, k: nat)
    requires cut <= |Stream(payloads)| && k <= |payloads|
    requires |Stream(payloads[..k])| <= cut && (k < |payloads| ==> cut < |Stream(payloads[..k + 1])|)
    ensures DecodeAll(Stream(payloads)[..cut], MAX_PACKET) ==
            Batch(Received(payloads)[..k], Stream(payloads)[|Stream(payloads[..k])|..cut])
  {
    var whole := Stream(payloads[..k]);
    assert payloads[..k] + payloads[k..] == payloads;
    StreamAppend(payloads[..k], payloads[k..]);
    var part := Stream(payloads[k..])[..cut - |whole|];
    CutAfter(whole, Stream(payloads[k..]), cut);
    if k < |payloads| {
      var next := Encode(0, Truncated(payloads[k], MAX_PAYLOAD));
      NextPacket(payloads, k);
      CutBefore(next, Stream(payloads[k + 1..]), |part|);
      PartOfPacket(0, Truncated(payloads[k], MAX_PAYLOAD), part);
    }
    WholeThenPart(payloads[..k], part);
    assert Received(payloads[..k]) == Received(payloads)[..k];
    assert Stream(payloads)[|whole|..cut] == part;
  }

  lemma {:induction false} StreamAppend(a: seq<seq<Byte>>, b: seq<seq<Byte>>)
    ensures Stream(a + b) == Stream(a) + Stream(b)
  {
    if a == [] {
      assert a + b == b;
    } else {
      assert (a + b)[1..] == a[1..] + b;
      StreamAppend(a[1..], b);
    }
  }

  lemma NextPacket(payloads: seq<seq<Byte>>, k: nat)
    requires k < |payloads|
    ensures var next := Encode(0, Truncated(payloads[k], MAX_PAYLOAD));
            |Stream(payloads[..k + 1])| == |Stream(payloads[..k])| + |next| && Stream(payloads[k..]) == next + Stream(payloads[k + 1..])
  {
    var one := [payloads[k]];
    assert one[1..] == [];
    assert payloads[..k + 1] == payloads[..k] + one && payloads[k..][1..] == payloads[k + 1..];
    StreamAppend(payloads[..k], one);
  }

  lemma {:induction false} WholeThenPart(payloads: seq<seq<Byte>>, part: seq<Byte>)
    requires Decode(part, MAX_PACKET).0.Ended?
    ensures DecodeAll(Stream(payloads) + part, MAX_PACKET) == Batch(Received(payloads), part)
  {
    if payloads == [] {
      assert Stream(payloads) + part == part;
    } else {
      var body := Truncated(payloads[0], MAX_PAYLOAD);
      var rest := Stream(payloads[1..]) + part;
      assert Stream(payloads) + part == Encode(0, body) + rest;
      FirstPacketThenRest(Stream(payloads) + part, body, rest);
      WholeThenPart(payloads[1..], part);
      ReceivedCons(payloads);
    }
  }

  lemma CutBefore(a: seq<Byte>, b: seq<Byte>, cut: nat)
    requires cut < |a|
    ensures (a + b)[..cut] == a[..cut]
  {
  }

  lemma CutAfter(a: seq<Byte>, b: seq<Byte>, cut: nat)
    requires |a| <= cut <= |a + b|
    ensures (a + b)[..cut] == a + b[..cut - |a|]
  {
  }

  lemma FirstPacketThenRest(s: seq<Byte>, body: seq<Byte>, rest: seq<Byte>)
    requires |body| <= MAX_PAYLOAD && s == Encode(0, body) + rest
    ensures var b := DecodeAll(rest, MAX_PACKET);
            DecodeAll(s, MAX_PACKET) == Batch([Packet(0, body)] + b.packets, b.rest)
  {
    DecodeIsEncode(s, MAX_PACKET, 0, body, rest);
  }

  lemma ReceivedCons(payloads: seq<seq<Byte>>)
    requires payloads != []
    ensures Received(payloads) == [Packet(0, Truncated(payloads[0], MAX_PAYLOAD))] + Received(payloads[1..])
  {
  }

  lemma PartOfPacket(id: nat, body: seq<Byte>, part: seq<Byte>)
    requires |body| <= MAX_PAYLOAD && part < Encode(id, body)
    ensures Decode(part, MAX_PACKET).0.Ended?
  {
    if |part| >= HEADER_SIZE {
      assert part[..2] == Encode(id, body)[..2] == Le16(HEADER_SIZE + |body|);
    }
  }

  /** Whatever is written and however the bytes arrive, the reader gets exactly the truncated
      payloads in order, with id 0, and consumes the whole stream. */
  lemma RoundTrip(payloads: seq<seq<Byte>>)
    ensures DecodeAll(Stream(payloads), MAX_PACKET) == Batch(Received(payloads), [])
  {
    var s := Stream(payloads);
    assert payloads[..|payloads|] == payloads && s[..|s|] == s;
    CutStream(payloads, |s|, |payloads|);
  }

  /** The terminal client does not cut its messages: the server reads such a frame back as
      that message exactly when it fits. */
  lemma SendPacketIsRead(message: seq<Byte>, rest: seq<Byte>)
    ensures Decode(Encode(0, message) + rest, MAX_PACKET) == (Packet(0, message), rest) <==> |message| <= MAX_PAYLOAD
  {
    DecodeIsEncode(Encode(0, message) + rest, MAX_PACKET, 0, message, rest);
  }

  /** The client's reader knows no upper limit.  It agrees with the bot's on everything the
      bot accepts, and differs only where the bot refuses an oversized frame. */
  lemma ReadersAgree(s: seq<Byte>)
    ensures Decode(s, MAX_PACKET) == Decode(s, UINT16) <==>
            !(|s| >= HEADER_SIZE && U16(s[..2]) > MAX_PACKET)
  {
  }
}
