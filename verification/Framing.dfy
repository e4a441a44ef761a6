// The framed wire protocol: one frame, and the session loop that cuts a byte
// stream into frames (src/wire.cpp, src/transport.cpp). The integrity hash is a
// parameter; what the peer sends is a list of arrivals.

module Framing {
  import opened Base
  import opened Codec
  import opened StoreCanonical

  const FRAME_MAGIC: u32 := 0x31465241
  const WIRE_VERSION: u16 := 1
  const FRAME_HEADER: nat := 32
  const FRAME_TRAILER: nat := 8
  const MAX_PAYLOAD: nat := 0xFFFF_FFFF

  // The declared length of a frame that is sent is not looked at.
  datatype FrameHeader = FrameHeader(version: u16, id: u16, flags: u32, payloadLength: u32, sequence: u64, epoch: u64)
  datatype Frame = Frame(header: FrameHeader, payload: seq<byte>)
  {
    // The frame as its receiver sees it.
    function Sent(): Frame
      requires |payload| <= MAX_PAYLOAD
    {
      this.(header := header.(payloadLength := |payload|))
    }
  }

  datatype FrameStatus =
    | Incomplete | WrongMagic | WrongVersion | WrongMessageId | Oversized | Corrupted | MalformedFrame

  datatype Decoded = Complete(frame: Frame, consumed: nat) | Failed(status: FrameStatus)

  predicate ValidMessageId(id: u16) { 1 <= id <= 23 }

  function FrameSize(payload: nat): nat { FRAME_HEADER + payload + FRAME_TRAILER }

  // ------------------------------------------------------------------------
  // One frame
  // ------------------------------------------------------------------------

  predicate Encodable(f: Frame, maxBytes: nat)
  {
    && ValidMessageId(f.header.id) && f.header.version == WIRE_VERSION && f.header.epoch != 0
    && FrameSize(|f.payload|) <= maxBytes && |f.payload| <= MAX_PAYLOAD
  }

  // What the header of a frame spells.
  datatype Opening = Opening(magic: u32, header: FrameHeader)

  function PutOpening(o: Opening, payload: seq<byte>): (b: seq<byte>)
    ensures |b| == FRAME_HEADER + |payload| && OpeningOf(b) == Got(o, payload)
  {
    var h := o.header;
    PutU32(o.magic, PutU16(h.version, PutU16(h.id, PutU32(h.flags, PutU32(h.payloadLength,
      PutU64(h.sequence, PutU64(h.epoch, payload)))))))
  }

  function OpeningOf(b: seq<byte>): Parse<Opening>
  {
    var (magic, b) :- U32(b, Truncated);
    var (version, b) :- U16(b, Truncated);
    var (id, b) :- U16(b, Truncated);
    var (flags, b) :- U32(b, Truncated);
    var (payloadLength, b) :- U32(b, Truncated);
    var (sequence, b) :- U64(b, Truncated);
    var (epoch, b) :- U64(b, Truncated);
    Got(Opening(magic, FrameHeader(version, id, flags, payloadLength, sequence, epoch)), b)
  }

  function SealFrame(h: FrameHeader, payload: seq<byte>, hash: seq<byte> -> u64): seq<byte>
  {
    var content := PutOpening(Opening(FRAME_MAGIC, h), payload);
    content + PutU64(hash(content), [])
  }

  function EncodeFrame(f: Frame, maxBytes: nat, hash: seq<byte> -> u64): Option<seq<byte>>
  {
    if Encodable(f, maxBytes) then Some(SealFrame(f.Sent().header, f.payload, hash)) else None
  }

  function MaximumPayload(maxBytes: nat): nat
  {
    if maxBytes > FRAME_HEADER + FRAME_TRAILER then maxBytes - (FRAME_HEADER + FRAME_TRAILER) else 0
  }

  // What is decoded takes at least one byte off the buffer.
  function DecodeFrame(b: seq<byte>, maxBytes: nat, hash: seq<byte> -> u64): (d: Decoded)
    ensures d.Complete? ==> 1 <= d.consumed <= |b|
  {
    if |b| < FRAME_HEADER then Failed(Incomplete)
    else
      match OpeningOf(b)
      case Bad(_) => Failed(MalformedFrame)
      case Got(Opening(magic, h), _) =>
        if magic != FRAME_MAGIC then Failed(WrongMagic)
        else if h.version != WIRE_VERSION then Failed(WrongVersion)
        else if !ValidMessageId(h.id) then Failed(WrongMessageId)
        else if h.payloadLength > MaximumPayload(maxBytes) then Failed(Oversized)
        else if |b| < FrameSize(h.payloadLength) then Failed(Incomplete)
        else
          var end := FRAME_HEADER + h.payloadLength;
          if U64(b[end..], Truncated) != Got(hash(b[..end]), b[end + FRAME_TRAILER..]) then Failed(Corrupted)
          else if h.epoch == 0 then Failed(MalformedFrame)
          else Complete(Frame(h, b[FRAME_HEADER..end]), FrameSize(h.payloadLength))
  }

  // ------------------------------------------------------------------------
  // What a frame depends on
  // ------------------------------------------------------------------------

  lemma {:induction false} LittleEndianExtends(x: nat, n: nat, a: seq<byte>, rest: seq<byte>)
    ensures LittleEndian(x, n, a) + rest == LittleEndian(x, n, a + rest)
  {
    if n > 0 {
      LittleEndianExtends(x / 256, n - 1, a, rest);
      var tail := LittleEndian(x / 256, n - 1, a);
      assert [x % 256] + tail + rest == [x % 256] + (tail + rest);
    }
  }

  lemma OpeningExtends(o: Opening, payload: seq<byte>, rest: seq<byte>)
    ensures PutOpening(o, payload) + rest == PutOpening(o, payload + rest)
  {
    var h := o.header;
    var b6 := PutU64(h.epoch, payload);
    var b5 := PutU64(h.sequence, b6);
    var b4 := PutU32(h.payloadLength, b5);
    var b3 := PutU32(h.flags, b4);
    var b2 := PutU16(h.id, b3);
    var b1 := PutU16(h.version, b2);
    LittleEndianExtends(h.epoch, 8, payload, rest);
    LittleEndianExtends(h.sequence, 8, b6, rest);
    LittleEndianExtends(h.payloadLength, 4, b5, rest);
    LittleEndianExtends(h.flags, 4, b4, rest);
    LittleEndianExtends(h.id, 2, b3, rest);
    LittleEndianExtends(h.version, 2, b2, rest);
    LittleEndianExtends(o.magic, 4, b1, rest);
  }

  lemma IntegersAreTotal()
    ensures forall b: seq<byte>, status :: |b| >= 2 ==> U16(b, status).Got? && |U16(b, status).rest| == |b| - 2
    ensures forall b: seq<byte>, status :: |b| >= 4 ==> U32(b, status).Got? && |U32(b, status).rest| == |b| - 4
    ensures forall b: seq<byte>, status :: |b| >= 8 ==> U64(b, status).Got? && |U64(b, status).rest| == |b| - 8
  {
    forall b: seq<byte>, n: nat
      ensures FromLittleEndian(b, n).Some? <==> |b| >= n
      ensures FromLittleEndian(b, n).Some? ==> |FromLittleEndian(b, n).value.1| == |b| - n
    {
      FromLittleEndianBound(b, n);
    }
  }

  // Any 32 bytes spell an opening, and they alone decide which.
  lemma OpeningIsCanonical(b: seq<byte>)
    requires |b| >= FRAME_HEADER
    ensures OpeningOf(b).Got? && OpeningOf(b).rest == b[FRAME_HEADER..]
    ensures b == PutOpening(OpeningOf(b).value, b[FRAME_HEADER..])
  {
    IntegersAreTotal();
    IntegersAreCanonical();
    hide U16, U32, U64, PutU16, PutU32, PutU64;
    var r := OpeningOf(b);
    assert b == PutOpening(r.value, r.rest);
    var none: seq<byte> := [];
    OpeningExtends(r.value, none, r.rest);
    assert none + r.rest == r.rest;
    assert b == PutOpening(r.value, none) + r.rest;
  }

  lemma OpeningIsLocal(b: seq<byte>, rest: seq<byte>)
    requires |b| >= FRAME_HEADER
    ensures OpeningOf(b + rest).Got? && OpeningOf(b).Got? && OpeningOf(b + rest).value == OpeningOf(b).value
  {
    hide PutOpening, OpeningOf;
    OpeningIsCanonical(b);
    OpeningExtends(OpeningOf(b).value, b[FRAME_HEADER..], rest);
  }

  lemma IntegerIsLocal(b: seq<byte>, rest: seq<byte>)
    requires |b| >= FRAME_TRAILER
    ensures U64(b, Truncated).Got?
    ensures U64(b + rest, Truncated) == Got(U64(b, Truncated).value, U64(b, Truncated).rest + rest)
    ensures U64(b, Truncated).rest == b[FRAME_TRAILER..]
  {
    IntegersAreTotal();
    IntegersAreCanonical();
    FromLittleEndianBound(b, 8);
    var r := U64(b, Truncated);
    LittleEndianExtends(r.value, 8, r.rest, rest);
    assert b + rest == PutU64(r.value, r.rest + rest);
  }

  // Anything but a request for more bytes is final: later bytes do not change it.
  lemma DecodeIsStable(b: seq<byte>, rest: seq<byte>, maxBytes: nat, hash: seq<byte> -> u64)
    requires DecodeFrame(b, maxBytes, hash) != Failed(Incomplete)
    ensures DecodeFrame(b + rest, maxBytes, hash) == DecodeFrame(b, maxBytes, hash)
  {
    hide OpeningOf, U64;
    OpeningIsLocal(b, rest);
    var h := OpeningOf(b).value.header;
    var end := FRAME_HEADER + h.payloadLength;
    if |b| >= end + FRAME_TRAILER {
      IntegerIsLocal(b[end..], rest);
      assert (b + rest)[end..] == b[end..] + rest && (b + rest)[..end] == b[..end];
      assert (b + rest)[FRAME_HEADER..end] == b[FRAME_HEADER..end];
      assert (b + rest)[end + FRAME_TRAILER..] == b[end + FRAME_TRAILER..] + rest;
      assert b[end..][FRAME_TRAILER..] == b[end + FRAME_TRAILER..];
    }
  }

  // A frame that is accepted is the encoding of what is read, and every frame
  // that is encoded is read back, whatever follows it. A size bound below the
  // smallest frame is read as if it were that size.
  lemma FrameIsExact(b: seq<byte>, f: Frame, n: nat, maxBytes: nat, hash: seq<byte> -> u64)
    ensures DecodeFrame(b, maxBytes, hash) == Complete(f, n)
            <==> && n <= |b| && f.header.payloadLength == |f.payload|
                 && EncodeFrame(f, Max(maxBytes, FrameSize(0)), hash) == Some(b[..n])
  {
    hide OpeningOf, PutOpening, U64, PutU64;
    if DecodeFrame(b, maxBytes, hash) == Complete(f, n) {
      AcceptedFrameIsEncoded(b, maxBytes, hash);
    }
    if n <= |b| && f.header.payloadLength == |f.payload|
       && EncodeFrame(f, Max(maxBytes, FrameSize(0)), hash) == Some(b[..n]) {
      EncodedFrameIsAccepted(f, maxBytes, hash);
      assert b == b[..n] + b[n..];
      DecodeIsStable(b[..n], b[n..], maxBytes, hash);
    }
  }

  lemma AcceptedFrameIsEncoded(b: seq<byte>, maxBytes: nat, hash: seq<byte> -> u64)
    requires DecodeFrame(b, maxBytes, hash).Complete?
    ensures var r := DecodeFrame(b, maxBytes, hash);
            && 1 <= r.consumed <= |b| && r.frame.header.payloadLength == |r.frame.payload|
            && EncodeFrame(r.frame, Max(maxBytes, FrameSize(0)), hash) == Some(b[..r.consumed])
  {
    hide OpeningOf, PutOpening, U64, PutU64;
    OpeningIsCanonical(b);
    var r := DecodeFrame(b, maxBytes, hash);
    var h, payload := r.frame.header, r.frame.payload;
    var end := FRAME_HEADER + |payload|;
    var o := Opening(FRAME_MAGIC, h);
    OpeningExtends(o, payload, b[end..]);
    assert payload + b[end..] == b[FRAME_HEADER..];
    assert b[..end] == PutOpening(o, payload);
    TrailerIsRead(b[end..]);
    assert b[end..r.consumed] == b[end..][..FRAME_TRAILER];
    assert b[..r.consumed] == b[..end] + b[end..r.consumed];
  }

  lemma TrailerIsRead(b: seq<byte>)
    requires |b| >= FRAME_TRAILER
    ensures U64(b, Truncated).Got? && b[..FRAME_TRAILER] == PutU64(U64(b, Truncated).value, [])
  {
    IntegersAreCanonical();
    IntegerIsLocal(b, []);
    var r := U64(b, Truncated);
    LittleEndianExtends(r.value, 8, [], b[FRAME_TRAILER..]);
    assert [] + b[FRAME_TRAILER..] == b[FRAME_TRAILER..];
    assert b == PutU64(r.value, []) + b[FRAME_TRAILER..];
  }

  lemma EncodedFrameIsAccepted(f: Frame, maxBytes: nat, hash: seq<byte> -> u64)
    requires EncodeFrame(f, Max(maxBytes, FrameSize(0)), hash).Some?
    ensures var b := EncodeFrame(f, Max(maxBytes, FrameSize(0)), hash).value;
            |b| == FrameSize(|f.payload|) && DecodeFrame(b, maxBytes, hash) == Complete(f.Sent(), |b|)
  {
    hide OpeningOf, PutOpening, U64, PutU64;
    var o := Opening(FRAME_MAGIC, f.Sent().header);
    var content := PutOpening(o, f.payload);
    var trailer := PutU64(hash(content), []);
    var b := content + trailer;
    var end := FRAME_HEADER + |f.payload|;
    OpeningExtends(o, f.payload, trailer);
    assert b[..end] == content && b[end..] == trailer;
    var none: seq<byte> := [];
    OpeningExtends(o, none, f.payload);
    assert none + f.payload == f.payload;
    assert content == PutOpening(o, none) + f.payload;
    assert b[FRAME_HEADER..end] == f.payload;
    assert b[end + FRAME_TRAILER..] == [];
  }

  // Every strict prefix of a frame asks for more.
  lemma PrefixIsIncomplete(f: Frame, maxBytes: nat, hash: seq<byte> -> u64, n: nat)
    requires EncodeFrame(f, maxBytes, hash).Some? && n < |EncodeFrame(f, maxBytes, hash).value|
    ensures DecodeFrame(EncodeFrame(f, maxBytes, hash).value[..n], maxBytes, hash) == Failed(Incomplete)
  {
    hide OpeningOf, PutOpening, U64, PutU64;
    EncodedFrameIsAccepted(f, maxBytes, hash);
    var b := EncodeFrame(f, maxBytes, hash).value;
    assert b == b[..n] + b[n..];
    FinalIsStable(b[..n], b[n..], maxBytes, hash);
  }

  lemma FinalIsStable(b: seq<byte>, rest: seq<byte>, maxBytes: nat, hash: seq<byte> -> u64)
    ensures DecodeFrame(b, maxBytes, hash) != Failed(Incomplete) ==>
              DecodeFrame(b + rest, maxBytes, hash) == DecodeFrame(b, maxBytes, hash)
  {
    hide DecodeFrame;
    if DecodeFrame(b, maxBytes, hash) != Failed(Incomplete) {
      DecodeIsStable(b, rest, maxBytes, hash);
    }
  }

  // ------------------------------------------------------------------------
  // Writing a frame in place
  // ------------------------------------------------------------------------

  method WriteAt(buffer: array<byte>, offset: nat, x: nat, n: nat)
    requires offset + n <= buffer.Length
    modifies buffer
    ensures buffer[..offset + n] == old(buffer[..offset]) + LittleEndian(x, n, [])
    ensures buffer[offset + n..] == old(buffer[offset + n..])
  {
    var left := x;
    for k := 0 to n
      invariant buffer[..offset + k] + LittleEndian(left, n - k, []) == old(buffer[..offset]) + LittleEndian(x, n, [])
      invariant buffer[offset + n..] == old(buffer[offset + n..])
    {
      ghost var written := buffer[..offset + k];
      ghost var tail := LittleEndian(left / 256, n - k - 1, []);
      buffer[offset + k] := left % 256;
      assert buffer[..offset + k + 1] == written + [left % 256];
      assert written + ([left % 256] + tail) == written + [left % 256] + tail;
      left := left / 256;
    }
  }

  function Fields(o: Opening): seq<byte>
  {
    var h := o.header;
    LittleEndian(o.magic, 4, []) + LittleEndian(h.version, 2, []) + LittleEndian(h.id, 2, [])
    + LittleEndian(h.flags, 4, []) + LittleEndian(h.payloadLength, 4, []) + LittleEndian(h.sequence, 8, [])
    + LittleEndian(h.epoch, 8, [])
  }

  // Each field in turn goes before those that follow it.
  lemma OpeningFields(o: Opening)
    ensures PutOpening(o, []) == Fields(o)
  {
    var h := o.header;
    var none: seq<byte> := [];
    var b6 := PutU64(h.epoch, none);
    var b5 := PutU64(h.sequence, b6);
    var b4 := PutU32(h.payloadLength, b5);
    var b3 := PutU32(h.flags, b4);
    var b2 := PutU16(h.id, b3);
    var b1 := PutU16(h.version, b2);
    LittleEndianAppends(h.sequence, 8, b6);
    LittleEndianAppends(h.payloadLength, 4, b5);
    LittleEndianAppends(h.flags, 4, b4);
    LittleEndianAppends(h.id, 2, b3);
    LittleEndianAppends(h.version, 2, b2);
    LittleEndianAppends(o.magic, 4, b1);
    assert PutOpening(o, none) == PutU32(o.magic, b1);
    Flatten(LittleEndian(o.magic, 4, none), LittleEndian(h.version, 2, none), LittleEndian(h.id, 2, none),
            LittleEndian(h.flags, 4, none), LittleEndian(h.payloadLength, 4, none),
            LittleEndian(h.sequence, 8, none), b6);
    hide LittleEndian, PutOpening, OpeningOf;
  }

  lemma Flatten(a: seq<byte>, b: seq<byte>, c: seq<byte>, d: seq<byte>, e: seq<byte>, f: seq<byte>, g: seq<byte>)
    ensures a + (b + (c + (d + (e + (f + g))))) == a + b + c + d + e + f + g
  {
  }

  method WriteOpening(buffer: array<byte>, o: Opening)
    requires buffer.Length >= FRAME_HEADER
    modifies buffer
    ensures buffer[..FRAME_HEADER] == PutOpening(o, [])
  {
    var h := o.header;
    WriteAt(buffer, 0, o.magic, 4);
    WriteAt(buffer, 4, h.version, 2);
    WriteAt(buffer, 6, h.id, 2);
    WriteAt(buffer, 8, h.flags, 4);
    WriteAt(buffer, 12, h.payloadLength, 4);
    WriteAt(buffer, 16, h.sequence, 8);
    WriteAt(buffer, 24, h.epoch, 8);
    OpeningFields(o);
    hide LittleEndian, PutOpening, OpeningOf;
    assert [] + LittleEndian(o.magic, 4, []) == LittleEndian(o.magic, 4, []);
  }

  method CopyAt(buffer: array<byte>, offset: nat, piece: seq<byte>)
    requires offset + |piece| <= buffer.Length
    modifies buffer
    ensures buffer[..offset + |piece|] == old(buffer[..offset]) + piece
  {
    for i := 0 to |piece|
      invariant buffer[..offset + i] == old(buffer[..offset]) + piece[..i]
    {
      ghost var written := buffer[..offset + i];
      buffer[offset + i] := piece[i];
      assert buffer[..offset + i + 1] == written + [piece[i]];
    }
  }

  // Every field goes to its own offset of one buffer.
  method WriteFrame(f: Frame, maxBytes: nat, hash: seq<byte> -> u64) returns (bytes: Option<seq<byte>>)
    ensures bytes == EncodeFrame(f, maxBytes, hash)
  {
    if !Encodable(f, maxBytes) {
      return None;
    }
    hide LittleEndian, PutOpening, PutU64, OpeningOf;
    var n := |f.payload|;
    var buffer := new byte[FrameSize(n)];
    var o := Opening(FRAME_MAGIC, f.Sent().header);
    WriteOpening(buffer, o);
    CopyAt(buffer, FRAME_HEADER, f.payload);
    OpeningExtends(o, [], f.payload);
    assert [] + f.payload == f.payload;
    var content := buffer[..FRAME_HEADER + n];
    WriteAt(buffer, FRAME_HEADER + n, hash(content), 8);
    assert buffer[..FRAME_HEADER + n + 8] == buffer[..];
    TrailerField(hash(content));
    return Some(buffer[..]);
  }

  lemma TrailerField(x: u64)
    ensures PutU64(x, []) == LittleEndian(x, 8, [])
  {
  }
}
