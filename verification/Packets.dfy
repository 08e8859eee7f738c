/** The DMRD packet and its wire form (internal/models/packet.go). */
module Packets {
  import opened Words

  /** Go's signed -1, the "not present" value of BER and RSSI, in two's complement. */
  const MINUS_ONE: Uint := 0xFFFF_FFFF_FFFF_FFFF

  type Payload = s: seq<Byte> | |s| == 33 witness seq(33, _ => 0)

  datatype Packet = Packet(
    signature: seq<Byte>,
    seqNum: Uint,
    src: Uint,
    dst: Uint,
    repeater: Uint,
    slot: bool,
    groupCall: bool,
    frameType: Uint,
    dtypeOrVSeq: Uint,
    streamID: Uint,
    dmrData: Payload,
    ber: Uint,
    rssi: Uint)
  {
    /** Field-by-field comparison decides equality. */
    predicate Equal(other: Packet)
      ensures Equal(other) <==> this == other
    {
      && signature == other.signature
      && seqNum == other.seqNum
      && src == other.src
      && dst == other.dst
      && repeater == other.repeater
      && slot == other.slot
      && groupCall == other.groupCall
      && frameType == other.frameType
      && dtypeOrVSeq == other.dtypeOrVSeq
      && streamID == other.streamID
      && dmrData == other.dmrData
      && ber == other.ber
      && rssi == other.rssi
    }
  }

  const FRAME_VOICE: Uint := 0
  const FRAME_VOICE_SYNC: Uint := 1
  const FRAME_DATA_SYNC: Uint := 2
  const DTYPE_VOICE_HEAD: Uint := 1
  const DTYPE_VOICE_TERM: Uint := 2

  predicate IsTerminator(p: Packet) {
    p.frameType == FRAME_DATA_SYNC && p.dtypeOrVSeq == DTYPE_VOICE_TERM
  }

  /** The test of the packet handler: headers, terminators and both kinds of voice frame. */
  predicate IsVoice(p: Packet) {
    if p.frameType == FRAME_DATA_SYNC then
      p.dtypeOrVSeq == DTYPE_VOICE_TERM || p.dtypeOrVSeq == DTYPE_VOICE_HEAD
    else
      p.frameType == FRAME_VOICE || p.frameType == FRAME_VOICE_SYNC
  }

  // ---------------------------------------------------------------- layout

  /** The low byte of a word: Go's `byte(x)`. */
  function Low(x: Uint): Byte {
    (x & 0xFF) as Byte
  }

  function Join3(a: Byte, b: Byte, c: Byte): Uint {
    ((a as Uint) << 16) | ((b as Uint) << 8) | (c as Uint)
  }

  function Join4(a: Byte, b: Byte, c: Byte, d: Byte): Uint {
    ((a as Uint) << 24) | ((b as Uint) << 16) | ((c as Uint) << 8) | (d as Uint)
  }

  function Split3(x: Uint): (s: seq<Byte>)
    ensures |s| == 3
  {
    [Low(x >> 16), Low(x >> 8), Low(x)]
  }

  function Split4(x: Uint): (s: seq<Byte>)
    ensures |s| == 4
  {
    [Low(x >> 24), Low(x >> 16), Low(x >> 8), Low(x)]
  }

  /** Byte 15: slot, private flag, frame type and sequence number, or-ed together. */
  function Flags(slot: bool, groupCall: bool, frameType: Uint, dtypeOrVSeq: Uint): Byte {
    var slotBit: Byte := if slot then 0x80 else 0;
    var routeBits := if groupCall then slotBit else slotBit | 0x40;
    routeBits | Low(frameType << 4) | Low(dtypeOrVSeq)
  }

  predicate SlotOf(bits: Byte) {
    bits & 0x80 != 0
  }

  predicate GroupOf(bits: Byte) {
    bits & 0x40 == 0
  }

  function FrameTypeOf(bits: Byte): Uint {
    ((bits & 0x30) >> 4) as Uint
  }

  function NumberOf(bits: Byte): Uint {
    (bits & 0xF) as Uint
  }

  /** The optional bytes: BER and RSSI, each left out when it is minus one. */
  function Trailer(ber: Uint, rssi: Uint): seq<Byte> {
    (if ber != MINUS_ONE then [Low(ber)] else []) + (if rssi != MINUS_ONE then [Low(rssi)] else [])
  }

  function BerOf(d: seq<Byte>): Uint {
    if |d| > 53 then d[53] as Uint else MINUS_ONE
  }

  function RssiOf(d: seq<Byte>): Uint {
    if |d| > 54 then d[54] as Uint else MINUS_ONE
  }

  /** What copying a string into four zero bytes leaves there. */
  function Padded4(s: seq<Byte>): (r: seq<Byte>)
    ensures |r| == 4
  {
    if |s| >= 4 then s[..4] else s + seq(4 - |s|, _ => 0 as Byte)
  }

  function Concat(signature: seq<Byte>, seqNum: Byte, src: seq<Byte>, dst: seq<Byte>,
                  repeater: seq<Byte>, bits: Byte, streamID: seq<Byte>): (h: seq<Byte>)
    requires |signature| == |repeater| == |streamID| == 4 && |src| == |dst| == 3
    ensures |h| == 20
  {
    signature + [seqNum] + src + dst + repeater + [bits] + streamID
  }

  /** The first twenty bytes. */
  function Header(p: Packet): (h: seq<Byte>)
    ensures |h| == 20
  {
    Concat(Padded4(p.signature), Low(p.seqNum), Split3(p.src), Split3(p.dst), Split4(p.repeater),
           Flags(p.slot, p.groupCall, p.frameType, p.dtypeOrVSeq), Split4(p.streamID))
  }

  /** The bytes of a packet. */
  function Wire(p: Packet): (d: seq<Byte>)
    ensures 53 <= |d| <= 55
  {
    Header(p) + p.dmrData + Trailer(p.ber, p.rssi)
  }

  /** The packet that some bytes stand for. */
  function Parse(d: seq<Byte>): Packet
    requires |d| >= 53
  {
    assert |d[20..53]| == 33;
    Packet(
      d[..4], d[4] as Uint, Join3(d[5], d[6], d[7]), Join3(d[8], d[9], d[10]),
      Join4(d[11], d[12], d[13], d[14]),
      SlotOf(d[15]), GroupOf(d[15]), FrameTypeOf(d[15]), NumberOf(d[15]),
      Join4(d[16], d[17], d[18], d[19]), d[20..53],
      BerOf(d), RssiOf(d))
  }

  /** Reads a packet field by field. */
  method UnpackPacket(data: seq<Byte>) returns (packet: Packet)
    requires |data| >= 53
    ensures packet == Parse(data)
  {
    var signature := data[..4];
    var seqNum := data[4] as Uint;
    var src := Join3(data[5], data[6], data[7]);
    var dst := Join3(data[8], data[9], data[10]);
    var repeater := Join4(data[11], data[12], data[13], data[14]);
    var bits := data[15];
    var slot := false;
    if bits & 0x80 != 0 {
      slot := true;
    }
    var groupCall := true;
    if bits & 0x40 != 0 {
      groupCall := false;
    }
    var frameType := FrameTypeOf(bits);
    var dtypeOrVSeq := NumberOf(bits);
    var streamID := Join4(data[16], data[17], data[18], data[19]);
    var ber, rssi := MINUS_ONE, MINUS_ONE;
    if |data| > 53 {
      ber := data[53] as Uint;
    }
    if |data| > 54 {
      rssi := data[54] as Uint;
    }
    assert |data[20..53]| == 33;
    packet := Packet(signature, seqNum, src, dst, repeater, slot, groupCall, frameType, dtypeOrVSeq, streamID,
                     data[20..53], ber, rssi);
  }

  /** Go's `copy(dst[at..at+room], src)`. */
  method CopyInto(buffer: array<Byte>, at: nat, room: nat, src: seq<Byte>)
    requires at + room <= buffer.Length
    modifies buffer
    ensures var n := if |src| < room then |src| else room;
            buffer[..] == old(buffer[..at]) + src[..n] + old(buffer[at + n..])
  {
    var n := if |src| < room then |src| else room;
    for i := 0 to n
      invariant buffer[..] == old(buffer[..at]) + src[..i] + old(buffer[at + i..])
    {
      buffer[at + i] := src[i];
    }
  }

  /** The flag byte, set bit by bit. */
  method FlagBits(slot: bool, groupCall: bool, frameType: Uint, dtypeOrVSeq: Uint) returns (bits: Byte)
    ensures bits == Flags(slot, groupCall, frameType, dtypeOrVSeq)
  {
    bits := 0;
    if slot {
      bits := 0x80;
    }
    if !groupCall {
      bits := bits | 0x40;
    }
    bits := bits | Low(frameType << 4);
    bits := bits | Low(dtypeOrVSeq);
  }

  /** Writes the twenty header bytes in place, front to back. */
  method PutHeader(buffer: array<Byte>, signature: seq<Byte>, seqNum: Byte, src: seq<Byte>, dst: seq<Byte>,
                   repeater: seq<Byte>, bits: Byte, streamID: seq<Byte>)
    requires buffer.Length == 53
    requires |signature| == |repeater| == |streamID| == 4 && |src| == |dst| == 3
    modifies buffer
    ensures buffer[..20] == Concat(signature, seqNum, src, dst, repeater, bits, streamID)
  {
    CopyInto(buffer, 0, 4, signature);
    buffer[4] := seqNum;
    assert buffer[..5] == signature + [seqNum];
    CopyInto(buffer, 5, 3, src);
    CopyInto(buffer, 8, 3, dst);
    assert buffer[..11] == signature + [seqNum] + src + dst;
    CopyInto(buffer, 11, 4, repeater);
    buffer[15] := bits;
    assert buffer[..16] == signature + [seqNum] + src + dst + repeater + [bits];
    CopyInto(buffer, 16, 4, streamID);
  }

  /** Writes a packet into a fresh buffer in place, then appends the optional bytes. */
  method Encode(p: Packet) returns (data: seq<Byte>)
    ensures data == Wire(p)
  {
    var buffer := new Byte[53](_ => 0);
    var bits := FlagBits(p.slot, p.groupCall, p.frameType, p.dtypeOrVSeq);
    PutHeader(buffer, Padded4(p.signature), Low(p.seqNum), Split3(p.src), Split3(p.dst), Split4(p.repeater),
              bits, Split4(p.streamID));
    CopyInto(buffer, 20, 33, p.dmrData);
    data := buffer[..];
    assert data == Header(p) + p.dmrData;
    if p.ber != MINUS_ONE {
      data := data + [Low(p.ber)];
    }
    if p.rssi != MINUS_ONE {
      data := data + [Low(p.rssi)];
    }
  }
}
