/** Session.cpp: assembling packets out of a receive ring buffer, and sending through another. */
module Sessions {
  import opened Common
  import opened Protocol
  import opened RingBuffers

  // ------------------------------------------------------------------ what a byte stream means

  /** What the receive loop does next with the buffered bytes. */
  datatype Next = Wait | Bad | Message(size: nat)

  function NextOf(s: seq<Byte>): (r: Next)
    ensures r.Message? ==> HEADER_SIZE <= r.size <= |s| && r.size <= MAX_PACKET
  {
    if |s| < HEADER_SIZE then Wait
    else
      var size := U16(s[..2]);
      if size < HEADER_SIZE || size > MAX_PACKET then Bad else if |s| < size then Wait else Message(size)
  }

  /** The messages a stream holds, the incomplete remainder, and whether a bad header was met. */
  datatype Parsed = Parsed(messages: seq<seq<Byte>>, rest: seq<Byte>, bad: bool)

  function Parse(s: seq<Byte>): (r: Parsed)
    decreases |s|
  {
    match NextOf(s)
    case Wait => Parsed([], s, false)
    case Bad => Parsed([], s, true)
    case Message(size) => var r := Parse(s[size..]); r.(messages := [s[HEADER_SIZE..size]] + r.messages)
  }

  lemma MoreBytes(a: seq<Byte>, b: seq<Byte>)
    requires NextOf(a).Message?
    ensures NextOf(a + b) == NextOf(a)
    ensures (a + b)[NextOf(a).size..] == a[NextOf(a).size..] + b
    ensures (a + b)[HEADER_SIZE..NextOf(a).size] == a[HEADER_SIZE..NextOf(a).size]
  {
    assert (a + b)[..2] == a[..2];
  }

  /** Parsing may stop anywhere and resume with the remainder: the pieces in which the bytes
      arrive do not matter. */
  lemma {:induction false} ParseResumes(a: seq<Byte>, b: seq<Byte>)
    requires !Parse(a).bad
    ensures var r := Parse(Parse(a).rest + b);
            && Parse(a + b).messages == Parse(a).messages + r.messages
            && Parse(a + b).rest == r.rest && Parse(a + b).bad == r.bad
    decreases |a|
  {
    if NextOf(a).Message? {
      var size := NextOf(a).size;
      MoreBytes(a, b);
      ParseResumes(a[size..], b);
      Regroup([a[HEADER_SIZE..size]], Parse(a[size..]).messages, Parse(Parse(a).rest + b).messages);
    }
  }

  /** Of everything received, `posted` is out and `left` is still to be looked at. */
  ghost predicate Split(received: seq<Byte>, posted: seq<seq<Byte>>, left: seq<Byte>)
  {
    var (all, r) := (Parse(received), Parse(left));
    all.messages == posted + r.messages && all.rest == r.rest && all.bad == r.bad
  }

  lemma SplitOne(received: seq<Byte>, posted: seq<seq<Byte>>, left: seq<Byte>)
    requires Split(received, posted, left)
    ensures var n := NextOf(left);
            if n.Message? then Split(received, posted + [left[HEADER_SIZE..n.size]], left[n.size..])
            else Parse(received) == Parsed(posted, left, n.Bad?)
  {
    match NextOf(left)
    case Message(size) => Regroup(posted, [left[HEADER_SIZE..size]], Parse(left[size..]).messages);
    case _ => assert posted + [] == posted;
  }

  /** The server finds the same messages in a stream as the bot's readPacket, stops at the same
      place, and finds a bad header exactly where the bot does. */
  lemma {:induction false} ParseIsDecode(s: seq<Byte>)
    ensures |Parse(s).messages| == |DecodeAll(s, MAX_PACKET).packets| && Parse(s).rest == DecodeAll(s, MAX_PACKET).rest
    ensures forall i :: 0 <= i < |Parse(s).messages| ==> Parse(s).messages[i] == DecodeAll(s, MAX_PACKET).packets[i].payload
    ensures Parse(s).bad <==> Decode(Parse(s).rest, MAX_PACKET).0.BadSize?
    decreases |s|
  {
    if Decode(s, MAX_PACKET).0.Packet? {
      ParseIsDecode(s[U16(s[..2])..]);
    }
  }

  // ------------------------------------------------------------------ sound frames and bad headers

  datatype Frame = Frame(id: nat, body: seq<Byte>)

  predicate Sound(frames: seq<Frame>) { forall i :: 0 <= i < |frames| ==> |frames[i].body| <= 256 }

  function FrameStream(frames: seq<Frame>): seq<Byte>
  {
    if frames == [] then [] else Encode(frames[0].id, frames[0].body) + FrameStream(frames[1..])
  }

  function Bodies(frames: seq<Frame>): seq<seq<Byte>>
  {
    if frames == [] then [] else [frames[0].body] + Bodies(frames[1..])
  }

  /** A header whose size field is below 4 or above 260. */
  predicate BadHeader(h: seq<Byte>)
  {
    |h| == 4 && var size := (h[0] as int) + 256 * (h[1] as int); size < 4 || size > 260
  }

  lemma WholeFrame(frame: Frame)
    requires |frame.body| <= 256
    ensures var e := Encode(frame.id, frame.body); NextOf(e) == Message(|e|) && e[HEADER_SIZE..|e|] == frame.body && e[|e|..] == []
  {
  }

  lemma FrameFirst(frame: Frame, s: seq<Byte>)
    requires |frame.body| <= 256
    ensures var r := Parse(s); Parse(Encode(frame.id, frame.body) + s) == r.(messages := [frame.body] + r.messages)
  {
    var e := Encode(frame.id, frame.body);
    WholeFrame(frame);
    MoreBytes(e, s);
    assert [] + s == s;
  }

  lemma HeaderFirst(h: seq<Byte>, rest: seq<Byte>)
    requires BadHeader(h)
    ensures Parse(h + rest) == Parsed([], h + rest, true)
  {
    assert (h + rest)[..2] == h[..2];
  }

  /** Behind any sound frames a bad header is found, and nothing behind it is looked at. */
  lemma {:induction false} BadHeaderIsFound(frames: seq<Frame>, h: seq<Byte>, rest: seq<Byte>)
    requires Sound(frames) && BadHeader(h)
    ensures Parse(FrameStream(frames) + (h + rest)) == Parsed(Bodies(frames), h + rest, true)
    decreases |frames|
  {
    if frames == [] {
      HeaderFirst(h, rest);
      assert FrameStream(frames) + (h + rest) == h + rest;
    } else {
      BadHeaderIsFound(frames[1..], h, rest);
      FrameFirst(frames[0], FrameStream(frames[1..]) + (h + rest));
      Regroup(Encode(frames[0].id, frames[0].body), FrameStream(frames[1..]), h + rest);
    }
  }

  /** A message of more than 256 bytes, framed without a cut as the terminal client does, begins
      with a bad header. */
  lemma UncutFrameIsBad(m: seq<Byte>)
    requires 256 < |m| && 4 + |m| < 0x1_0000
    ensures BadHeader(Encode(0, m)[..4])
  {
  }

  lemma PartIsIncomplete(frame: Frame, cut: nat)
    requires |frame.body| <= 256 && cut < 4 + |frame.body|
    ensures NextOf(Encode(frame.id, frame.body)[..cut]) == Wait
  {
    var e := Encode(frame.id, frame.body);
    if cut >= 4 {
      assert e[..cut][..2] == e[..2];
    }
  }

  lemma CutInFrame(frame: Frame, more: seq<Byte>, cut: nat)
    requires |frame.body| <= 256 && cut < 4 + |frame.body|
    ensures var s := (Encode(frame.id, frame.body) + more)[..cut]; Parse(s) == Parsed([], s, false)
  {
    CutBefore(Encode(frame.id, frame.body), more, cut);
    PartIsIncomplete(frame, cut);
  }

  lemma CutBehindFrame(frame: Frame, more: seq<Byte>, cut: nat)
    requires |frame.body| <= 256 && 4 + |frame.body| <= cut <= 4 + |frame.body| + |more|
    ensures var r := Parse(more[..cut - 4 - |frame.body|]);
            Parse((Encode(frame.id, frame.body) + more)[..cut]) == r.(messages := [frame.body] + r.messages)
  {
    CutAfter(Encode(frame.id, frame.body), more, cut);
    FrameFirst(frame, more[..cut - 4 - |frame.body|]);
  }

  /** Nothing bad in s, and its messages are the first of `bodies`. */
  predicate SoFar(s: seq<Byte>, bodies: seq<seq<Byte>>) { !Parse(s).bad && Parse(s).messages <= bodies }

  lemma SoFarFirst(frame: Frame, more: seq<Byte>, cut: nat, bodies: seq<seq<Byte>>)
    requires |frame.body| <= 256 && cut <= 4 + |frame.body| + |more|
    requires cut >= 4 + |frame.body| ==> SoFar(more[..cut - 4 - |frame.body|], bodies)
    ensures SoFar((Encode(frame.id, frame.body) + more)[..cut], [frame.body] + bodies)
  {
    if cut < 4 + |frame.body| {
      CutInFrame(frame, more, cut);
    } else {
      CutBehindFrame(frame, more, cut);
    }
  }

  /** A stream of sound frames holds no bad header, wherever it is cut. */
  lemma {:induction false} SoundIsNeverBad(frames: seq<Frame>, cut: nat)
    requires Sound(frames) && cut <= |FrameStream(frames)|
    ensures SoFar(FrameStream(frames)[..cut], Bodies(frames))
    decreases |frames|
  {
    if frames != [] {
      var size := 4 + |frames[0].body|;
      if cut >= size {
        SoundIsNeverBad(frames[1..], cut - size);
      }
      SoFarFirst(frames[0], FrameStream(frames[1..]), cut, Bodies(frames[1..]));
    }
  }

  /** `received` is sound frames, then a bad header, then anything. */
  predicate Breaks(received: seq<Byte>, frames: seq<Frame>, h: seq<Byte>, rest: seq<Byte>)
  {
    Sound(frames) && BadHeader(h) && received == FrameStream(frames) + (h + rest)
  }

  /** `received` is the beginning of a stream of sound frames. */
  predicate Begins(received: seq<Byte>, frames: seq<Frame>)
  {
    Sound(frames) && received <= FrameStream(frames)
  }

  /** So an uncut message of the terminal client breaks the stream. */
  lemma UncutMessageBreaks(frames: seq<Frame>, m: seq<Byte>, rest: seq<Byte>)
    requires Sound(frames) && 256 < |m| && 4 + |m| < 0x1_0000
    ensures Breaks(FrameStream(frames) + (Encode(0, m) + rest), frames, Encode(0, m)[..4], m + rest)
  {
    UncutFrameIsBad(m);
    assert Encode(0, m) + rest == Encode(0, m)[..4] + (m + rest);
  }

  lemma WhatCloses(received: seq<Byte>)
    ensures forall frames, h, rest :: Breaks(received, frames, h, rest) ==> Parse(received) == Parsed(Bodies(frames), h + rest, true)
    ensures forall frames :: Begins(received, frames) ==> !Parse(received).bad && Parse(received).messages <= Bodies(frames)
  {
    forall frames, h, rest | Breaks(received, frames, h, rest)
      ensures Parse(received) == Parsed(Bodies(frames), h + rest, true)
    {
      BadHeaderIsFound(frames, h, rest);
    }
    forall frames | Begins(received, frames)
      ensures !Parse(received).bad && Parse(received).messages <= Bodies(frames)
    {
      assert received == FrameStream(frames)[..|received|];
      SoundIsNeverBad(frames, |received|);
    }
  }

  // ------------------------------------------------------------------ the session

  class Session {
    const id: nat
    const recvBuffer: RingBuffer
    const sendBuffer: RingBuffer

    var closing: bool
    var receiving: nat              // size of the outstanding WSARecv, 0 when there is none
    var posted: seq<seq<Byte>>      // bodies of the client messages pushed to the shard's queue
    ghost var received: seq<Byte>   // everything the connection has delivered

    var sending: bool
    var inFlight: nat               // size of the outstanding WSASend, 0 when there is none
    ghost var accepted: seq<Byte>   // everything Send has taken
    ghost var wire: seq<Byte>       // everything the connection has sent

    /** What was received is what was posted plus what is buffered, and it sits in the buffer
        without ever having gone around its end. */
    ghost predicate Receives()
      reads this, recvBuffer, recvBuffer.buffer
    {
      && recvBuffer.Valid()
      && Parse(received).messages == posted && Parse(received).rest == recvBuffer.Contents()
      && (Parse(received).bad ==> closing && receiving == 0)
      && recvBuffer.head <= recvBuffer.tail == |received|
      && receiving <= LinearEmpty(recvBuffer.head, recvBuffer.tail, recvBuffer.buffer.Length)
    }

    /** The send buffer holds what was accepted and not yet sent, and unless the session is
        closing its front is on its way. */
    ghost predicate Sends()
      reads this, sendBuffer, sendBuffer.buffer
    {
      && sendBuffer.Valid()
      && wire + sendBuffer.Contents() == accepted
      && inFlight <= LinearUsed(sendBuffer.head, sendBuffer.tail, sendBuffer.buffer.Length)
      && (inFlight > 0 ==> sending)
      && (!closing ==> (sending <==> inFlight > 0) && (inFlight > 0 <==> sendBuffer.Contents() != []))
    }

    ghost predicate Apart()
    {
      recvBuffer != sendBuffer && recvBuffer.buffer != sendBuffer.buffer
    }

    constructor (id: nat, size: nat)
      requires size >= 2
      ensures Apart() && Receives() && Sends() && fresh(recvBuffer) && fresh(sendBuffer)
      ensures fresh(recvBuffer.buffer) && fresh(sendBuffer.buffer)
      ensures recvBuffer.buffer.Length == sendBuffer.buffer.Length == size
      ensures received == [] && accepted == [] && !closing && receiving == 0
    {
      this.id := id;
      recvBuffer := new RingBuffer(size);
      sendBuffer := new RingBuffer(size);
      closing, receiving, posted, received := false, 0, [], [];
      sending, inFlight, accepted, wire := false, 0, [], [];
    }

    /** Asks for the next receive, into the linear window behind the tail.  From then on no
        receive is outstanding exactly when size - 1 bytes have come over the connection:
        such a session is never read from again. */
    method PostRecv()
      requires Receives() && (receiving == 0 || closing)
      modifies this`receiving
      ensures Receives()
      ensures closing ==> receiving == old(receiving)
      ensures !closing ==> receiving == LinearEmpty(recvBuffer.head, recvBuffer.tail, recvBuffer.buffer.Length)
      ensures !closing ==> (receiving == 0 <==> |received| == recvBuffer.buffer.Length - 1)
    {
      if closing {
        return;
      }
      var freeSize := recvBuffer.GetLinearEmptySize();
      if freeSize <= 0 {
        return;
      }
      receiving := freeSize;
    }

    /** The outstanding receive completes with `data`, which the system has put at the tail. */
    method OnRecv(data: seq<Byte>)
      requires Apart() && Receives() && 0 < |data| <= receiving
      modifies this`receiving, this`closing, this`posted, this`received
      modifies recvBuffer`head, recvBuffer`tail, recvBuffer.buffer
      ensures Receives() && received == old(received) + data
      ensures old(posted) <= posted
      ensures closing <==> old(closing) || Parse(received).bad
      ensures forall frames, h, rest :: Breaks(received, frames, h, rest) ==> closing && posted == Bodies(frames)
      ensures forall frames :: Begins(received, frames) ==> (closing <==> old(closing)) && posted <= Bodies(frames)
      ensures !closing ==> receiving == LinearEmpty(recvBuffer.head, recvBuffer.tail, recvBuffer.buffer.Length)
      ensures !closing ==> (receiving == 0 <==> |received| == recvBuffer.buffer.Length - 1)
    {
      ParseResumes(received, data);
      Deliver(data);
      received := received + data;
      receiving := 0;
      TakeAll();
      WhatCloses(received);
      PostRecv();
    }

    /** The receive loop: take packets until one is incomplete, or close on a bad header. */
    method TakeAll()
      requires Apart() && recvBuffer.Valid() && recvBuffer.head <= recvBuffer.tail
      requires Split(received, posted, recvBuffer.Contents())
      modifies this`closing, this`posted, recvBuffer`head
      ensures recvBuffer.Valid() && recvBuffer.head <= recvBuffer.tail
      ensures Parse(received).messages == posted && Parse(received).rest == recvBuffer.Contents()
      ensures old(posted) <= posted && (closing <==> old(closing) || Parse(received).bad)
    {
      var pkt := new Byte[MAX_PACKET](_ => 0);
      while true
        invariant recvBuffer.Valid() && fresh(pkt) && recvBuffer.head <= recvBuffer.tail
        invariant old(posted) <= posted && closing == old(closing)
        invariant Split(received, posted, recvBuffer.Contents())
        decreases |recvBuffer.Contents()|
      {
        SplitOne(received, posted, recvBuffer.Contents());
        var next := TakePacket(pkt);
        if next.Wait? {
          return;
        }
        if next.Bad? {
          closing := true;
          return;
        }
        posted := posted + [pkt[HEADER_SIZE..next.size]];
      }
    }

    /** One turn of the receive loop: look at the header, and take the packet out when all of
        it is there. */
    method TakePacket(pkt: array<Byte>) returns (next: Next)
      requires recvBuffer.Valid() && recvBuffer.head <= recvBuffer.tail
      requires pkt.Length == MAX_PACKET && pkt != recvBuffer.buffer
      modifies pkt, recvBuffer`head
      ensures recvBuffer.Valid() && recvBuffer.head <= recvBuffer.tail
      ensures next == NextOf(old(recvBuffer.Contents()))
      ensures if next.Message? then
                && recvBuffer.Contents() == old(recvBuffer.Contents())[next.size..]
                && pkt[HEADER_SIZE..next.size] == old(recvBuffer.Contents())[HEADER_SIZE..next.size]
              else recvBuffer.Contents() == old(recvBuffer.Contents())
    {
      var header := new Byte[HEADER_SIZE](_ => 0);
      ghost var now := recvBuffer.Contents();
      var used := recvBuffer.GetUsedSize();
      if used < HEADER_SIZE {
        return Wait;
      }
      recvBuffer.Peek(header, HEADER_SIZE);
      assert header[0..2] == now[..2];
      var size := U16(header[0..2]);
      if size < HEADER_SIZE || size > MAX_PACKET {
        return Bad;
      }
      if used < size {
        return Wait;
      }
      recvBuffer.Peek(pkt, size);
      assert pkt[HEADER_SIZE..size] == now[HEADER_SIZE..size];
      HeadStaysLow(size);
      recvBuffer.MoveHead(size);
      next := Message(size);
    }

    lemma HeadStaysLow(bytes: nat)
      requires recvBuffer.Valid() && recvBuffer.head <= recvBuffer.tail && bytes <= |recvBuffer.Contents()|
      ensures recvBuffer.head + bytes <= recvBuffer.tail
      ensures (recvBuffer.head + bytes) % recvBuffer.buffer.Length == recvBuffer.head + bytes
    {
      ModIsWrap(recvBuffer.head + bytes, recvBuffer.buffer.Length);
    }

    /** The system writes the bytes into the window it was given, then the tail moves. */
    method Deliver(data: seq<Byte>)
      requires Receives() && |data| <= receiving
      modifies recvBuffer`tail, recvBuffer.buffer
      ensures recvBuffer.Valid() && recvBuffer.Contents() == old(recvBuffer.Contents()) + data
      ensures recvBuffer.tail == old(recvBuffer.tail) + |data|
    {
      var b := recvBuffer;
      ghost var was := b.buffer[..];
      forall i | 0 <= i < |data| {
        b.buffer[b.tail + i] := data[i];
      }
      assert Written(was, b.buffer[..], b.tail, data);
      WrittenSpan(was, b.buffer[..], b.tail, data);
      LiveBytesStay(was, b.buffer[..], b.head, b.tail, |data|);
      ModIsWrap(b.tail + |data|, b.buffer.Length);
      b.MoveTail(|data|);
    }

    // ---------------------------------------------------------------- sending

    /** Hands the longest seamless piece to the connection. */
    method PostSend()
      requires Apart() && sendBuffer.Valid() && wire + sendBuffer.Contents() == accepted
      requires inFlight == 0 && (!closing ==> sending)
      modifies this`sending, this`inFlight
      ensures Sends()
      ensures !closing ==> inFlight == LinearUsed(sendBuffer.head, sendBuffer.tail, sendBuffer.buffer.Length)
    {
      if closing {
        return;
      }
      var used := sendBuffer.GetUsedSize();
      if used == 0 {
        sending := false;
        return;
      }
      inFlight := sendBuffer.GetLinearUsedSize();
    }

    /** Writes behind the tail and commits, when there is room. */
    method Append(data: array<Byte>, len: nat) returns (ok: bool)
      requires sendBuffer.Valid() && len <= data.Length && data != sendBuffer.buffer
      modifies sendBuffer`tail, sendBuffer.buffer
      ensures sendBuffer.Valid() && ok == (len <= old(sendBuffer.Free()))
      ensures sendBuffer.Contents() == if ok then old(sendBuffer.Contents()) + data[..len] else old(sendBuffer.Contents())
      ensures !ok ==> sendBuffer.tail == old(sendBuffer.tail)
      ensures LinearUsed(sendBuffer.head, sendBuffer.tail, sendBuffer.buffer.Length) >=
              old(LinearUsed(sendBuffer.head, sendBuffer.tail, sendBuffer.buffer.Length))
    {
      var empty := sendBuffer.GetEmptySize();
      if empty < len {
        return false;
      }
      ok := sendBuffer.Write(data, len);
      if ok {
        ModIsWrap(sendBuffer.tail + len, sendBuffer.buffer.Length);
        sendBuffer.MoveTail(len);
      }
    }

    /** Takes the whole packet or, when there is no room for all of it, none of it. */
    method Send(data: array<Byte>, len: nat)
      requires Apart() && Sends() && len <= data.Length && data != sendBuffer.buffer
      modifies this`sending, this`inFlight, this`accepted, sendBuffer`tail, sendBuffer.buffer
      ensures Sends() && wire == old(wire)
      ensures accepted == if len <= old(sendBuffer.Free()) then old(accepted) + data[..len] else old(accepted)
      ensures old(inFlight) > 0 ==>
                inFlight == old(inFlight) && sendBuffer.Contents()[..inFlight] == old(sendBuffer.Contents()[..inFlight])
    {
      var ok := Append(data, len);
      if !ok {
        return;
      }
      accepted := accepted + data[..len];
      if !sending {
        sending := true;
        PostSend();
      }
    }

    /** The outstanding send completes with `bytes` bytes gone. */
    method OnSend(bytes: nat)
      requires Apart() && Sends() && 0 < bytes <= inFlight
      modifies this`sending, this`inFlight, this`wire, sendBuffer`head
      ensures Sends() && accepted == old(accepted)
      ensures !closing ==> inFlight == LinearUsed(sendBuffer.head, sendBuffer.tail, sendBuffer.buffer.Length)
      ensures wire == old(wire) + old(sendBuffer.Contents())[..bytes]
    {
      wire := wire + sendBuffer.Contents()[..bytes];
      sendBuffer.MoveHead(bytes);
      inFlight := 0;
      var used := sendBuffer.GetUsedSize();
      if used != 0 {
        PostSend();
      } else {
        sending := false;
      }
    }
  }
}
