// The length-prefixed frames of reyao/rpc/codec.cc. Payloads are opaque bytes.
module RpcCodec {
  import opened Prelude
  import opened Wire
  import opened TypedQueues
  import opened ByteArrays

  const HEADER_LEN := 4
  const MIN_MESSAGE_LEN := HEADER_LEN + 2
  const MAX_MESSAGE_LEN := 64 * 1024 * 1024
  const READ_SIZE := 4096

  datatype ErrorCode = InvalidLength | InvalidNameLength | UnknownMessageType | ParseError | ServerClosed

  datatype Reply = Message(name: seq<byte>, payload: seq<byte>) | Error(code: ErrorCode)

  // The protobuf library: which type names it knows and which payloads it accepts for them.
  datatype Registry = Registry(known: seq<byte> -> bool, accepts: (seq<byte>, seq<byte>) -> bool)

  function Int32(v: int): seq<byte> { IntBytes(Big, v, 4) }

  function AsInt32(b: seq<byte>): int
    requires |b| >= 4
  {
    IntOf(Big, b[..4], true)
  }

  // The number four bytes stand for, the first being the most significant.
  function Number(b: seq<byte>): int
    requires |b| >= 4
  {
    var (h, i, j, k) := (b[0] as int, b[1] as int, b[2] as int, b[3] as int);
    var n := h * 0x100_0000 + i * 0x1_0000 + j * 0x100 + k;
    if h < 128 then n else n - 0x1_0000_0000
  }

  lemma ValueOfFour(a: byte, b: byte, c: byte, d: byte)
    ensures Value([d, c, b, a]) == (a as int) * 0x100_0000 + (b as int) * 0x1_0000 + (c as int) * 0x100 + d
  {
    var s: seq<byte> := [d, c, b, a];
    assert s[1..] == [c, b, a] && s[1..][1..] == [b, a] && s[1..][1..][1..] == [a];
    assert Value([a]) == a && Value([b, a]) == b + 0x100 * a;
    assert Value([c, b, a]) == c + 0x100 * b + 0x1_0000 * a;
  }

  lemma AsInt32Is(b: seq<byte>)
    requires |b| >= 4
    ensures AsInt32(b) == Number(b)
  {
    ValueOfFour(b[0], b[1], b[2], b[3]);
    assert Reverse(b[..4]) == [b[3], b[2], b[1], b[0]];
    assert Pow256(4) == 0x1_0000_0000;
  }

  // What a frame says its length is: everything behind the length itself.
  function Length(name: seq<byte>, payload: seq<byte>): nat { 4 + (|name| + 1) + |payload| }

  function Body(name: seq<byte>, payload: seq<byte>): seq<byte> {
    Int32(|name| + 1) + (name + ([0] + payload))
  }

  function Frame(name: seq<byte>, payload: seq<byte>): seq<byte> {
    Int32(Length(name, payload)) + Body(name, payload)
  }

  // The smallest frame there is, byte for byte.
  lemma SmallestFrame()
    ensures Frame([65], [66]) == [0, 0, 0, 7, 0, 0, 0, 2, 65, 0, 66]
  {
    assert Length([65], [66]) == 7;
    Seven();
    Two();
    assert Body([65], [66]) == [0, 0, 0, 2] + ([65] + ([0] + [66]));
  }

  lemma Two()
    ensures Int32(2) == [0, 0, 0, 2]
  {
    assert LowFirst(0, 1) == [0] && LowFirst(0, 2) == [0, 0] && LowFirst(0, 3) == [0, 0, 0];
    assert Pow256(1) == 256 && Pow256(2) == 0x1_0000 && Pow256(3) == 0x100_0000;
    assert LowFirst(2, 4) == [2, 0, 0, 0] && Unsigned(2, 4) == 2;
  }

  lemma Int32RoundTrip(v: int, rest: seq<byte>)
    requires -0x8000_0000 <= v < 0x8000_0000
    ensures AsInt32(Int32(v) + rest) == v && (Int32(v) + rest)[4..] == rest
  {
    assert Pow256(4) == 0x1_0000_0000;
    IntRoundTrip(Big, v, 4, true);
    Split(Int32(v), rest);
  }

  // ProtobufCodec::Parse on the bytes behind the length.
  function Parsed(reg: Registry, b: seq<byte>, len: nat): Reply
    requires MIN_MESSAGE_LEN <= len <= |b|
  {
    var nameLen := AsInt32(b);
    if nameLen < 2 || len - HEADER_LEN < nameLen then Error(InvalidNameLength)
    else if b[4 + nameLen - 1] != 0 then Error(ParseError)
    else
      var (name, payload) := (b[4..4 + nameLen - 1], b[4 + nameLen..len]);
      if !reg.known(name) then Error(UnknownMessageType)
      else if !reg.accepts(name, payload) then Error(ParseError)
      else Message(name, payload)
  }

  // Whatever the bytes, a message that comes out fills the announced length exactly.
  lemma ParsedFills(reg: Registry, b: seq<byte>, len: nat)
    requires MIN_MESSAGE_LEN <= len <= |b| && Parsed(reg, b, len).Message?
    ensures var m := Parsed(reg, b, len);
         && Length(m.name, m.payload) == len && m.name != []
         && b[4..len] == m.name + ([0] + m.payload)
         && reg.known(m.name) && reg.accepts(m.name, m.payload)
  {
  }

  // Which bytes give which refusal.
  lemma ParsedRefusals(reg: Registry, b: seq<byte>, len: nat)
    requires MIN_MESSAGE_LEN <= len <= |b|
    ensures var (r, n) := (Parsed(reg, b, len), Number(b));
         if n < 2 || n > len - 4 then r == Error(InvalidNameLength)
         else
           var (name, payload) := (b[4..3 + n], b[4 + n..len]);
           && (r == Error(UnknownMessageType) <==> b[3 + n] == 0 && !reg.known(name))
           && (r == Error(ParseError) <==> b[3 + n] != 0 || (reg.known(name) && !reg.accepts(name, payload)))
           && (r == Message(name, payload) <==> b[3 + n] == 0 && reg.known(name) && reg.accepts(name, payload))
           && r != Error(InvalidNameLength) && r != Error(InvalidLength) && r != Error(ServerClosed)
  {
    AsInt32Is(b);
  }

  ghost predicate Sendable(reg: Registry, name: seq<byte>, payload: seq<byte>) {
    name != [] && Length(name, payload) <= MAX_MESSAGE_LEN && reg.known(name) && reg.accepts(name, payload)
  }

  lemma BodyParts(name: seq<byte>, payload: seq<byte>, rest: seq<byte>)
    ensures var (b, n) := (Body(name, payload) + rest, 4 + |name|);
         && |b| == Length(name, payload) + |rest|
         && b == Int32(|name| + 1) + (name + ([0] + payload) + rest)
         && b[4..n] == name && b[n] == 0 && b[n + 1..n + 1 + |payload|] == payload
  {
    Assoc(Int32(|name| + 1), name + ([0] + payload), rest);
    var b := Body(name, payload) + rest;
    assert b[4..4 + |name|] == name;
  }

  // Frame round trip: behind the length, exactly the name and the payload, whatever follows.
  lemma BodyRoundTrip(reg: Registry, name: seq<byte>, payload: seq<byte>, rest: seq<byte>)
    requires Sendable(reg, name, payload)
    ensures |Body(name, payload)| == Length(name, payload) >= MIN_MESSAGE_LEN
    ensures Parsed(reg, Body(name, payload) + rest, Length(name, payload)) == Message(name, payload)
  {
    BodyParts(name, payload, rest);
    Int32RoundTrip(|name| + 1, name + ([0] + payload) + rest);
  }

  // ---- receiving ----

  // What receive makes of the buffer after one read: a reply, or what stays buffered. The length is
  // taken off as soon as more than ten bytes are there, whether or not the rest of the frame is.
  datatype Look = Look(reply: Option<Reply>, rest: seq<byte>)

  function LookedAt(reg: Registry, b: seq<byte>): Look {
    if |b| <= HEADER_LEN + MIN_MESSAGE_LEN then Look(None, b)
    else
      var len := AsInt32(b);
      if len > MAX_MESSAGE_LEN || len < MIN_MESSAGE_LEN then Look(Some(Error(InvalidLength)), b[4..])
      else if len <= |b| - 4 then Look(Some(Parsed(reg, b[4..], len)), b[4..])
      else Look(None, b[4..])
  }

  // What one look at the buffer says: nothing up to ten bytes; a length out of bounds is refused; then the
  // frame is parsed if it is there, and its length is gone if it is not.
  lemma LookIs(reg: Registry, b: seq<byte>)
    ensures |b| <= 10 ==> LookedAt(reg, b) == Look(None, b)
    ensures |b| > 10 ==>
              var (look, len) := (LookedAt(reg, b), Number(b));
              && look.rest == b[4..]
              && (look.reply == Some(Error(InvalidLength)) <==> len < 6 || len > 0x400_0000)
              && (look.reply == None <==> 6 <= len <= 0x400_0000 && len > |b| - 4)
              && (6 <= len <= 0x400_0000 && len <= |b| - 4 ==> look.reply == Some(Parsed(reg, b[4..], len)))
  {
    if |b| > 10 {
      AsInt32Is(b);
      var len := Number(b);
      if 6 <= len <= 0x400_0000 && len <= |b| - 4 {
        ParsedRefusals(reg, b[4..], len);
      }
    }
  }

  // ProtobufCodec::receive: `b` is buffered, `parts` are the reads still to come.
  function Received(reg: Registry, b: seq<byte>, parts: seq<seq<byte>>): Reply
    decreases parts
  {
    if parts == [] then Error(ServerClosed)
    else
      var look := LookedAt(reg, b + parts[0]);
      if look.reply.Some? then look.reply.value else Received(reg, look.rest, parts[1..])
  }

  function Joined(parts: seq<seq<byte>>): seq<byte> {
    if parts == [] then [] else parts[0] + Joined(parts[1..])
  }

  // The buffer on its way to more than ten bytes.
  function Gathered(b: seq<byte>, parts: seq<seq<byte>>): seq<byte>
    decreases parts
  {
    if parts == [] || |b| > HEADER_LEN + MIN_MESSAGE_LEN then b else Gathered(b + parts[0], parts[1..])
  }

  // No message is longer than what was still unread.
  lemma {:induction false} ReceivedIsShorter(reg: Registry, b: seq<byte>, parts: seq<seq<byte>>)
    requires Received(reg, b, parts).Message?
    ensures var m := Received(reg, b, parts); 4 + Length(m.name, m.payload) <= |b| + |Joined(parts)|
    decreases parts
  {
    var b1 := b + parts[0];
    if |b1| <= HEADER_LEN + MIN_MESSAGE_LEN {
      ReceivedIsShorter(reg, b1, parts[1..]);
    } else if AsInt32(b1) <= |b1| - 4 {
      ParsedFills(reg, b1[4..], AsInt32(b1));
    } else {
      ReceivedIsShorter(reg, b1[4..], parts[1..]);
    }
  }

  // A single frame, read in any number of non-empty pieces, is received exactly when the buffer holds
  // the whole of it the first time it holds more than ten bytes. A frame of ten bytes never is.
  lemma {:induction false} ReceiveFrame(reg: Registry, name: seq<byte>, payload: seq<byte>,
                                        b: seq<byte>, parts: seq<seq<byte>>)
    requires Sendable(reg, name, payload)
    requires b + Joined(parts) == Frame(name, payload) && |b| <= HEADER_LEN + MIN_MESSAGE_LEN
    ensures Received(reg, b, parts) == Message(name, payload)
       <==> |Frame(name, payload)| > HEADER_LEN + MIN_MESSAGE_LEN && Gathered(b, parts) == Frame(name, payload)
    decreases parts
  {
    var frame, len := Frame(name, payload), Length(name, payload);
    BodyRoundTrip(reg, name, payload, []);
    assert Body(name, payload) + [] == Body(name, payload);
    if parts == [] {
      assert b + [] == b;
    } else {
      var b1, tail := b + parts[0], parts[1..];
      Assoc(b, parts[0], Joined(tail));
      if |b1| <= HEADER_LEN + MIN_MESSAGE_LEN {
        ReceiveFrame(reg, name, payload, b1, tail);
      } else {
        FirstLength(name, payload, b1, Joined(tail));
        if |b1| < |frame| && Received(reg, b1[4..], tail).Message? {
          ReceivedIsShorter(reg, b1[4..], tail);
        }
      }
    }
  }

  lemma {:induction false} GatheredBound(b: seq<byte>, parts: seq<seq<byte>>)
    requires |b| <= HEADER_LEN + MIN_MESSAGE_LEN + READ_SIZE
    requires forall i | 0 <= i < |parts| :: |parts[i]| <= READ_SIZE
    ensures |Gathered(b, parts)| <= HEADER_LEN + MIN_MESSAGE_LEN + READ_SIZE
    decreases parts
  {
    if parts != [] && |b| <= HEADER_LEN + MIN_MESSAGE_LEN {
      GatheredBound(b + parts[0], parts[1..]);
    }
  }

  // Reads bring at most 4096 bytes, so a frame of more than 4106 bytes is never received, however it
  // is cut.
  lemma LongFrameNeverReceived(reg: Registry, name: seq<byte>, payload: seq<byte>, parts: seq<seq<byte>>)
    requires Sendable(reg, name, payload) && Joined(parts) == Frame(name, payload)
    requires |Frame(name, payload)| > HEADER_LEN + MIN_MESSAGE_LEN + READ_SIZE
    requires forall i | 0 <= i < |parts| :: |parts[i]| <= READ_SIZE
    ensures Received(reg, [], parts) != Message(name, payload)
  {
    assert [] + Joined(parts) == Joined(parts);
    ReceiveFrame(reg, name, payload, [], parts);
    GatheredBound([], parts);
  }

  lemma FirstLength(name: seq<byte>, payload: seq<byte>, b: seq<byte>, more: seq<byte>)
    requires b + more == Frame(name, payload) && |b| >= 4 && Length(name, payload) <= MAX_MESSAGE_LEN
    ensures AsInt32(b) == Length(name, payload)
    ensures more == [] ==> b == Frame(name, payload) && b[4..] == Body(name, payload)
  {
    var frame := Frame(name, payload);
    Int32RoundTrip(Length(name, payload), Body(name, payload));
    assert b[..4] == frame[..4];
    if more == [] {
      assert b == frame;
    }
  }

  // A frame that is complete the first time more than ten bytes are there is received whatever
  // follows it in the same read.
  lemma ReceiveWhole(reg: Registry, name: seq<byte>, payload: seq<byte>, rest: seq<byte>, parts: seq<seq<byte>>)
    requires Sendable(reg, name, payload) && |Frame(name, payload) + rest| > HEADER_LEN + MIN_MESSAGE_LEN
    ensures Received(reg, [], [Frame(name, payload) + rest] + parts) == Message(name, payload)
  {
    var b, body := Frame(name, payload) + rest, Body(name, payload);
    assert [] + b == b && ([b] + parts)[0] == b;
    Assoc(Int32(Length(name, payload)), body, rest);
    Int32RoundTrip(Length(name, payload), body + rest);
    BodyRoundTrip(reg, name, payload, rest);
  }

  // ---- the codec over a ByteArray ----

  // byteSwapOnLittleEndian(len) in memory, reyao/rpc/codec.cc:30-31. Its test at reyao/endian.h:29
  // compares with a macro nothing defines, so it swaps on every host.
  function LengthBytes(host: Endian, len: nat): seq<byte> { Stored(host, ByteSwap(Unsigned(len, 4), 4), 4) }

  // The length goes out in network order exactly on a little-endian host, or when its bytes read the
  // same from both ends.
  lemma LengthInOrder(host: Endian, len: nat)
    ensures LengthBytes(host, len) == Int32(len) <==> host == Little || Reverse(Int32(len)) == Int32(len)
  {
    var bytes := LowFirst(Unsigned(len, 4), 4);
    SwapThenStore(host, Unsigned(len, 4), 4);
    assert Reverse(Reverse(bytes)) == bytes;
  }

  // On a big-endian host the smallest frame already goes out with its length reversed, and the peer
  // refuses it.
  lemma ReversedLengthRefused(reg: Registry)
    ensures LengthBytes(Big, Length([65], [66])) == [7, 0, 0, 0] != Int32(7)
    ensures Received(reg, [], [[7, 0, 0, 0] + Body([65], [66])]) == Error(InvalidLength)
  {
    assert Length([65], [66]) == 7;
    Seven();
    SevenReversed();
    var b := [7, 0, 0, 0] + Body([65], [66]);
    assert [] + b == b && b[..4] == [7, 0, 0, 0];
    assert AsInt32(b) == 0x0700_0000;
  }

  lemma LowSeven()
    ensures LowFirst(7, 4) == [7, 0, 0, 0] && Unsigned(7, 4) == 7
  {
    assert LowFirst(0, 1) == [0] && LowFirst(0, 2) == [0, 0] && LowFirst(0, 3) == [0, 0, 0];
    assert Pow256(1) == 256 && Pow256(2) == 0x1_0000 && Pow256(3) == 0x100_0000;
  }

  lemma ValueSeven()
    ensures Value([0, 0, 0, 7]) == 0x0700_0000
  {
    var b: seq<byte> := [0, 0, 0, 7];
    assert b[1..] == [0, 0, 7] && b[1..][1..] == [0, 7] && b[1..][1..][1..] == [7];
    assert Value([7]) == 7 && Value([0, 7]) == 0x700 && Value([0, 0, 7]) == 0x7_0000;
  }

  lemma Seven()
    ensures LengthBytes(Big, 7) == [7, 0, 0, 0] && Int32(7) == [0, 0, 0, 7]
  {
    LowSeven();
    SwapThenStore(Big, 7, 4);
    var b: seq<byte> := [7, 0, 0, 0];
    assert Reverse(b) == [0, 0, 0, 7];
  }

  lemma SevenReversed()
    ensures IntOf(Big, [7, 0, 0, 0], true) == 0x0700_0000
  {
    var b: seq<byte> := [7, 0, 0, 0];
    assert Reverse(b) == [0, 0, 0, 7];
    ValueSeven();
    assert Pow256(4) == 0x1_0000_0000;
  }

  // ProtobufCodec::serializeToByteArray, on the fresh buffer `send` gives it.
  method SerializeToByteArray(ba: ByteArray, name: seq<byte>, payload: seq<byte>)
    requires ba.Aligned() && ba.Content() == [] && ba.endian == Big
    requires Length(name, payload) < 0x8000_0000
    modifies ba, ba.buf
    ensures ba.Valid() && ba.Content() == LengthBytes(ba.host, Length(name, payload)) + Body(name, payload)
    ensures ba.Content() == Frame(name, payload)
       <==> ba.host == Little || Reverse(Int32(Length(name, payload))) == Int32(Length(name, payload))
  {
    WriteBody(ba, name, payload);
    PrependLength(ba);
    FrameIff(ba.host, name, payload);
  }

  method PrependLength(ba: ByteArray)
    requires ba.Valid() && ba.readPos >= 4
    modifies ba`readPos, ba.buf
    ensures ba.Valid() && ba.Content() == LengthBytes(ba.host, |old(ba.Content())|) + old(ba.Content())
  {
    var len := ba.writePos - ba.readPos;
    var _ := ba.WritePrepend(Stored(ba.host, ByteSwap(Unsigned(len, 4), 4), 4));
  }

  lemma FrameIff(host: Endian, name: seq<byte>, payload: seq<byte>)
    ensures LengthBytes(host, Length(name, payload)) + Body(name, payload) == Frame(name, payload)
       <==> host == Little || Reverse(Int32(Length(name, payload))) == Int32(Length(name, payload))
  {
    LengthInOrder(host, Length(name, payload));
    SamePrefix(LengthBytes(host, Length(name, payload)), Int32(Length(name, payload)), Body(name, payload));
  }

  lemma SamePrefix(a: seq<byte>, b: seq<byte>, c: seq<byte>)
    requires |a| == |b|
    ensures a + c == b + c <==> a == b
  {
    Split(a, c);
    Split(b, c);
  }

  method WriteBody(ba: ByteArray, name: seq<byte>, payload: seq<byte>)
    requires ba.Aligned() && ba.Content() == [] && ba.endian == Big
    modifies ba`buf, ba`readPos, ba`writePos, ba.buf
    ensures ba.buf == old(ba.buf) || fresh(ba.buf)
    ensures ba.Aligned() && ba.Content() == Body(name, payload) && |ba.Content()| == Length(name, payload)
  {
    var _ := ba.WriteInt(|name| + 1, 4);
    var _ := ba.Write(name);
    var _ := ba.Write([0]);
    var _ := ba.Receive(|payload|, payload);
    SerializedIs(name, payload, ba.Content());
  }

  lemma SerializedIs(name: seq<byte>, payload: seq<byte>, s: seq<byte>)
    requires s == [] + Int32(|name| + 1) + name + [0] + payload
    ensures s == Body(name, payload) && |s| == Length(name, payload)
  {
  }

  // ProtobufCodec::Parse. Every peek stays inside the readable window, whatever the bytes.
  method Parse(reg: Registry, ba: ByteArray, len: nat) returns (r: Reply)
    requires ba.Valid() && ba.endian == Big && MIN_MESSAGE_LEN <= len <= |ba.Content()|
    modifies ba`readPos
    ensures ba.Valid() && ba.readPos >= old(ba.readPos) && r == Parsed(reg, old(ba.Content()), len)
  {
    var nameLen := ba.ReadInt(4, true);
    if nameLen.value < 2 || nameLen.value > len - HEADER_LEN {
      return Error(InvalidNameLength);
    }
    r := ParseMessage(reg, ba, nameLen.value, len);
    ParsedIs(reg, old(ba.Content()), len);
  }

  // Parse behind the name length.
  function ParsedMessage(reg: Registry, c: seq<byte>, nameLen: nat, len: nat): Reply
    requires 2 <= nameLen <= len - HEADER_LEN <= |c|
  {
    var (name, payload) := (c[..nameLen - 1], c[nameLen..][..len - HEADER_LEN - nameLen]);
    if c[nameLen - 1] != 0 then Error(ParseError)
    else if !reg.known(name) then Error(UnknownMessageType)
    else if !reg.accepts(name, payload) then Error(ParseError)
    else Message(name, payload)
  }

  lemma ParsedIs(reg: Registry, b: seq<byte>, len: nat)
    requires MIN_MESSAGE_LEN <= len <= |b| && 2 <= AsInt32(b) <= len - HEADER_LEN
    ensures Parsed(reg, b, len) == ParsedMessage(reg, b[4..], AsInt32(b), len)
  {
    var c, n := b[4..], AsInt32(b);
    assert b[4..4 + n - 1] == c[..n - 1];
    assert b[4 + n..len] == c[n..][..len - HEADER_LEN - n];
  }

  method ParseMessage(reg: Registry, ba: ByteArray, nameLen: nat, len: nat) returns (r: Reply)
    requires ba.Valid() && 2 <= nameLen <= len - HEADER_LEN <= |ba.Content()|
    modifies ba`readPos
    ensures ba.Valid() && ba.readPos >= old(ba.readPos)
    ensures r == ParsedMessage(reg, old(ba.Content()), nameLen, len)
  {
    var name := ba.Peek(nameLen - 1);
    ba.Skip(nameLen - 1);
    var zero := ba.Read(1);
    if zero.value[0] != 0 {
      return Error(ParseError);
    }
    if !reg.known(name) {
      return Error(UnknownMessageType);
    }
    assert ba.Content() == old(ba.Content())[nameLen..];
    var payload := ba.Peek(len - HEADER_LEN - nameLen);
    if !reg.accepts(name, payload) {
      return Error(ParseError);
    }
    r := Message(name, payload);
  }

  // One round of ProtobufCodec::receive.
  method LookAt(reg: Registry, ba: ByteArray, part: seq<byte>) returns (r: Option<Reply>)
    requires ba.Aligned() && ba.endian == Big && |part| <= READ_SIZE
    modifies ba`buf, ba`readPos, ba`writePos, ba.buf
    ensures ba.Aligned() && (ba.buf == old(ba.buf) || fresh(ba.buf))
    ensures var look := LookedAt(reg, old(ba.Content()) + part); r == look.reply && (r.None? ==> ba.Content() == look.rest)
  {
    var _ := ba.Receive(READ_SIZE, part);
    if ba.writePos - ba.readPos <= HEADER_LEN + MIN_MESSAGE_LEN {
      return None;
    }
    var len := ba.ReadInt(4, true);
    if len.value > MAX_MESSAGE_LEN || len.value < MIN_MESSAGE_LEN {
      return Some(Error(InvalidLength));
    }
    if ba.writePos - ba.readPos < len.value {
      return None;
    }
    var reply := Parse(reg, ba, len.value);
    r := Some(reply);
  }

  // ProtobufCodec::receive, over what the reads return until the peer closes.
  method Receive(reg: Registry, host: Endian, parts: seq<seq<byte>>) returns (r: Reply)
    requires forall i | 0 <= i < |parts| :: 0 < |parts[i]| <= READ_SIZE
    ensures r == Received(reg, [], parts)
  {
    var ba := new ByteArray(INIT_SIZE, host);
    var i := 0;
    while i < |parts|
      invariant i <= |parts| && ba.Aligned() && ba.endian == Big && fresh(ba) && fresh(ba.buf)
      invariant Received(reg, ba.Content(), parts[i..]) == Received(reg, [], parts)
    {
      assert parts[i..][0] == parts[i] && parts[i..][1..] == parts[i + 1..];
      var reply := LookAt(reg, ba, parts[i]);
      if reply.Some? {
        return reply.value;
      }
      i := i + 1;
    }
    r := Error(ServerClosed);
  }
}
