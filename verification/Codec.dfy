/** What packing and unpacking promise each other (internal/models/packet.go). */
module Codec {
  import opened Words
  import opened Packets

  /** The packets that fit the wire format: every field within its width, and a BER before any RSSI. */
  predicate InWire(p: Packet) {
    && |p.signature| == 4
    && p.seqNum < 0x100
    && p.src < 0x100_0000
    && p.dst < 0x100_0000
    && p.repeater < 0x1_0000_0000
    && p.frameType < 4
    && p.dtypeOrVSeq < 16
    && p.streamID < 0x1_0000_0000
    && (p.ber == MINUS_ONE || p.ber < 0x100)
    && (p.rssi == MINUS_ONE || p.rssi < 0x100)
    && (p.ber == MINUS_ONE ==> p.rssi == MINUS_ONE)
  }

  // ---------------------------------------------------------------- fields

  lemma Join3Split3(x: Uint)
    requires x < 0x100_0000
    ensures var s := Split3(x); Join3(s[0], s[1], s[2]) == x
  {}

  lemma Join4Split4(x: Uint)
    requires x < 0x1_0000_0000
    ensures var s := Split4(x); Join4(s[0], s[1], s[2], s[3]) == x
  {}

  lemma Low3(a: Byte, b: Byte, c: Byte)
    ensures var x := Join3(a, b, c); Low(x >> 16) == a && Low(x >> 8) == b && Low(x) == c && x < 0x100_0000
  {}

  lemma Low4(a: Byte, b: Byte, c: Byte, d: Byte)
    ensures var x := Join4(a, b, c, d);
            && Low(x >> 24) == a && Low(x >> 16) == b && Low(x >> 8) == c && Low(x) == d
            && x < 0x1_0000_0000
  {}

  lemma Split3Join3(s: seq<Byte>)
    requires |s| == 3
    ensures Split3(Join3(s[0], s[1], s[2])) == s
  {
    Low3(s[0], s[1], s[2]);
  }

  lemma Split4Join4(s: seq<Byte>)
    requires |s| == 4
    ensures Split4(Join4(s[0], s[1], s[2], s[3])) == s
  {
    Low4(s[0], s[1], s[2], s[3]);
  }

  lemma FlagsOfParts(bits: Byte)
    ensures Flags(SlotOf(bits), GroupOf(bits), FrameTypeOf(bits), NumberOf(bits)) == bits
    ensures FrameTypeOf(bits) < 4 && NumberOf(bits) < 16
  {}

  lemma PartsOfFlags(slot: bool, groupCall: bool, frameType: Uint, number: Uint)
    requires frameType < 4 && number < 16
    ensures var bits := Flags(slot, groupCall, frameType, number);
            && SlotOf(bits) == slot
            && GroupOf(bits) == groupCall
            && FrameTypeOf(bits) == frameType
            && NumberOf(bits) == number
  {}

  lemma LowWord(x: Uint)
    requires x < 0x100
    ensures Low(x) as Uint == x
  {}

  lemma LowByte(b: Byte)
    ensures Low(b as Uint) == b && b as Uint < 0x100
  {}

  // ---------------------------------------------------------------- inverses

  /** Where each field of a packet is found on the wire. */
  lemma WireLayout(p: Packet)
    ensures var d := Wire(p);
            && d[..4] == Padded4(p.signature)
            && d[4] == Low(p.seqNum)
            && d[5..8] == Split3(p.src)
            && d[8..11] == Split3(p.dst)
            && d[11..15] == Split4(p.repeater)
            && d[15] == Flags(p.slot, p.groupCall, p.frameType, p.dtypeOrVSeq)
            && d[16..20] == Split4(p.streamID)
            && d[20..53] == p.dmrData
            && d[53..] == Trailer(p.ber, p.rssi)
  {
    var h := Header(p);
    var d := Wire(p);
    assert d[..20] == h && d[20..53] == p.dmrData;
    assert h[5..8] == Split3(p.src) && h[8..11] == Split3(p.dst);
    assert h[11..15] == Split4(p.repeater) && h[16..20] == Split4(p.streamID);
    assert d[5..8] == h[5..8] && d[8..11] == h[8..11] && d[11..15] == h[11..15] && d[16..20] == h[16..20];
  }

  /** Whatever is parsed fits the wire. */
  lemma ParsedFits(d: seq<Byte>)
    requires |d| >= 53
    ensures InWire(Parse(d))
  {
    LowByte(d[4]);
    Low3(d[5], d[6], d[7]);
    Low3(d[8], d[9], d[10]);
    Low4(d[11], d[12], d[13], d[14]);
    FlagsOfParts(d[15]);
    Low4(d[16], d[17], d[18], d[19]);
    if |d| > 53 { LowByte(d[53]); }
    if |d| > 54 { LowByte(d[54]); }
  }

  /** A packet survives the wire exactly when it fits it. */
  lemma ParseOfWire(p: Packet)
    ensures Parse(Wire(p)) == p <==> InWire(p)
  {
    ParsedFits(Wire(p));
    if InWire(p) {
      FittingSurvives(p);
    }
  }

  lemma FittingSurvives(p: Packet)
    requires InWire(p)
    ensures Parse(Wire(p)) == p
  {
    var d := Wire(p);
    var q := Parse(d);
    WireLayout(p);
    LowWord(p.seqNum);
    assert q.src == p.src && q.dst == p.dst by {
      Join3Split3(p.src);
      Join3Split3(p.dst);
      assert d[5..8][0] == d[5] && d[5..8][1] == d[6] && d[5..8][2] == d[7];
      assert d[8..11][0] == d[8] && d[8..11][1] == d[9] && d[8..11][2] == d[10];
    }
    assert q.repeater == p.repeater && q.streamID == p.streamID by {
      Join4Split4(p.repeater);
      Join4Split4(p.streamID);
      assert d[11..15][0] == d[11] && d[11..15][1] == d[12] && d[11..15][2] == d[13] && d[11..15][3] == d[14];
      assert d[16..20][0] == d[16] && d[16..20][1] == d[17] && d[16..20][2] == d[18] && d[16..20][3] == d[19];
    }
    PartsOfFlags(p.slot, p.groupCall, p.frameType, p.dtypeOrVSeq);
    TrailerSurvives(d, p.ber, p.rssi);
  }

  lemma TrailerSurvives(d: seq<Byte>, ber: Uint, rssi: Uint)
    requires |d| >= 53 && d[53..] == Trailer(ber, rssi)
    requires ber < 0x100 || (ber == MINUS_ONE && rssi == MINUS_ONE)
    requires rssi < 0x100 || rssi == MINUS_ONE
    ensures BerOf(d) == ber && RssiOf(d) == rssi
  {
    assert |d| == 53 + |Trailer(ber, rssi)|;
    if ber != MINUS_ONE {
      LowWord(ber);
      assert d[53] == d[53..][0];
      if rssi != MINUS_ONE {
        LowWord(rssi);
        assert d[54] == d[53..][1];
      }
    }
  }

  /** Bytes survive the round trip through a packet exactly when they are 53, 54 or 55 long. */
  lemma WireOfParse(d: seq<Byte>)
    requires |d| >= 53
    ensures Wire(Parse(d)) == d <==> |d| <= 55
  {
    if |d| <= 55 {
      var p := Parse(d);
      HeaderOfParse(d);
      assert Trailer(p.ber, p.rssi) == d[53..] by {
        if |d| > 53 { LowByte(d[53]); }
        if |d| > 54 { LowByte(d[54]); }
      }
      assert d == d[..20] + d[20..53] + d[53..];
    }
  }

  lemma HeaderOfParse(d: seq<Byte>)
    requires |d| >= 53
    ensures Header(Parse(d)) == d[..20]
  {
    LowByte(d[4]);
    var src, dst, repeater, streamID := d[5..8], d[8..11], d[11..15], d[16..20];
    Split3Join3(src);
    Split3Join3(dst);
    Split4Join4(repeater);
    Split4Join4(streamID);
    FlagsOfParts(d[15]);
    Pieces(d);
  }

  lemma Pieces(d: seq<Byte>)
    requires |d| >= 53
    ensures d[..20] == Concat(d[..4], d[4], d[5..8], d[8..11], d[11..15], d[15], d[16..20])
  {}

  // ---------------------------------------------------------------- byte order

  /** The value of big-endian digits in base 256. */
  function BigEndian(digits: seq<Byte>): Uint {
    if digits == [] then 0
    else (BigEndian(digits[..|digits| - 1]) << 8) | (digits[|digits| - 1] as Uint)
  }

  lemma Digits3(a: Byte, b: Byte, c: Byte)
    ensures ((((a as Uint) << 8) | (b as Uint)) << 8) | (c as Uint) == Join3(a, b, c)
  {}

  lemma Digits4(a: Byte, b: Byte, c: Byte, d: Byte)
    ensures (Join3(a, b, c) << 8) | (d as Uint) == Join4(a, b, c, d)
  {}

  lemma BigEndianUnfold(s: seq<Byte>, b: Byte)
    ensures BigEndian(s + [b]) == (BigEndian(s) << 8) | (b as Uint)
  {
    assert (s + [b])[..|s|] == s;
  }

  lemma BigEndian3(a: Byte, b: Byte, c: Byte)
    ensures BigEndian([a, b, c]) == Join3(a, b, c)
  {
    BigEndianUnfold([], a);
    BigEndianUnfold([a], b);
    BigEndianUnfold([a, b], c);
    assert [] + [a] == [a] && [a] + [b] == [a, b] && [a, b] + [c] == [a, b, c];
    Digits3(a, b, c);
  }

  lemma BigEndian4(a: Byte, b: Byte, c: Byte, d: Byte)
    ensures BigEndian([a, b, c, d]) == Join4(a, b, c, d)
  {
    BigEndian3(a, b, c);
    BigEndianUnfold([a, b, c], d);
    assert [a, b, c] + [d] == [a, b, c, d];
    Digits4(a, b, c, d);
  }

  /** Identifiers are read from their own bytes, most significant first; the rest are bytes as they are. */
  lemma FieldsAreBigEndian(d: seq<Byte>)
    requires |d| >= 53
    ensures Parse(d).signature == d[..4] && Parse(d).seqNum == BigEndian(d[4..5]) && Parse(d).dmrData == d[20..53]
    ensures |d| > 53 ==> Parse(d).ber == BigEndian(d[53..54])
    ensures |d| > 54 ==> Parse(d).rssi == BigEndian(d[54..55])
    ensures Parse(d).src == BigEndian(d[5..8])
    ensures Parse(d).dst == BigEndian(d[8..11])
    ensures Parse(d).repeater == BigEndian(d[11..15])
    ensures Parse(d).streamID == BigEndian(d[16..20])
  {
    assert d[5..8] == [d[5], d[6], d[7]] && d[8..11] == [d[8], d[9], d[10]];
    assert d[11..15] == [d[11], d[12], d[13], d[14]] && d[16..20] == [d[16], d[17], d[18], d[19]];
    BigEndian3(d[5], d[6], d[7]);
    BigEndian3(d[8], d[9], d[10]);
    BigEndian4(d[11], d[12], d[13], d[14]);
    BigEndian4(d[16], d[17], d[18], d[19]);
    assert d[4..5] == [d[4]];
    BigEndian1(d[4]);
    if |d| > 53 {
      assert d[53..54] == [d[53]];
      BigEndian1(d[53]);
    }
    if |d| > 54 {
      assert d[54..55] == [d[54]];
      BigEndian1(d[54]);
    }
  }

  lemma BigEndian1(b: Byte)
    ensures BigEndian([b]) == b as Uint
  {
    BigEndianUnfold([], b);
    assert [] + [b] == [b];
  }

  lemma FlagsAddUpTo(bits: Byte)
    ensures bits as Uint == (if SlotOf(bits) then 0x80 else 0) + (if GroupOf(bits) then 0 else 0x40)
                            + FrameTypeOf(bits) * 16 + NumberOf(bits)
  {}

  /** Byte 15 is the sum of its fields: slot 128, private 64, frame type times 16, number. */
  lemma FlagsAddUp(d: seq<Byte>)
    requires |d| >= 53
    ensures var p := Parse(d);
            && d[15] as Uint == (if p.slot then 0x80 else 0) + (if p.groupCall then 0 else 0x40)
                                + p.frameType * 16 + p.dtypeOrVSeq
            && p.frameType < 4 && p.dtypeOrVSeq < 16
  {
    FlagsAddUpTo(d[15]);
    FlagsOfParts(d[15]);
  }
}
