/** Routing an accepted packet and relaying it to the repeaters that want it
    (internal/dmr/packet_handler.go, internal/models/repeater.go, internal/dmr/server.go). */
module Relay {
  import opened Words
  import opened Packets
  import opened Codec
  import opened Links

  // ---------------------------------------------------------------- routing

  /** Where the packet handler sends a DMRD packet. */
  datatype Route =
    | BadLength
    | NotConnected
    | NotStored
    | NoDestination
    | Parrot
    | Unlink(slot: bool)
    | ToTalkgroup(tg: Id)
    | Private(dst: Uint)
    | Unhandled

  /** `connected` are the repeaters that have logged in from the address the packet came from,
      `stored` those in the database. */
  method RouteOf(data: seq<Byte>, connected: set<Uint>, stored: set<Uint>) returns (route: Route)
    ensures route == BadLength <==> |data| != 53 && |data| != 55
    ensures route != BadLength ==>
              var sender := Parse(data).repeater;
              && (route == NotConnected <==> sender !in connected)
              && (route == NotStored <==> sender in connected - stored)
              && (sender in connected * stored ==> RoutedAs(Parse(data), route) && RoutedByBytes(data, route))
  {
    if |data| >= 53 { RoutesOfBytes(data); }
    if |data| != 53 && |data| != 55 {
      return BadLength;
    }
    var repeaterID := Join4(data[11], data[12], data[13], data[14]);
    if repeaterID !in connected {
      return NotConnected;
    }
    if repeaterID !in stored {
      return NotStored;
    }
    var packet := UnpackPacket(data);
    var dst := packet.dst as nat;
    if packet.dst == 0 {
      return NoDestination;
    }
    if packet.dst == 9990 && IsVoice(packet) {
      return Parrot;
    }
    if packet.dst == 4000 && IsVoice(packet) {
      return Unlink(packet.slot);
    }
    if packet.groupCall && IsVoice(packet) {
      return ToTalkgroup(dst);
    } else if !packet.groupCall && IsVoice(packet) {
      return Private(packet.dst);
    }
    return Unhandled;
  }

  /** The routes by destination and kind: voice to 9990 and 4000 stays here, other voice goes
      to its talkgroup or its private destination, and nothing else is routed. */
  predicate RoutedAs(p: Packet, route: Route) {
    match route
    case BadLength => false
    case NotConnected => false
    case NotStored => false
    case NoDestination => p.dst == 0
    case Parrot => IsVoice(p) && p.dst == 9990
    case Unlink(slot) => IsVoice(p) && p.dst == 4000 && slot == p.slot
    case ToTalkgroup(tg) => Ordinary(p) && p.groupCall && tg == p.dst as nat
    case Private(dst) => Ordinary(p) && !p.groupCall && dst == p.dst
    case Unhandled => p.dst != 0 && !IsVoice(p)
  }

  predicate Ordinary(p: Packet) {
    IsVoice(p) && p.dst != 0 && p.dst != 9990 && p.dst != 4000
  }

  /** Voice by byte 15 alone: frame types 0 and 1, and headers and terminators of type 2. */
  predicate IsVoiceByte(bits: Byte) {
    var frameType, number := bits / 16 % 4, bits % 16;
    frameType == 0 || frameType == 1 || (frameType == 2 && (number == 1 || number == 2))
  }

  /** The routes by the bytes received: destination in bytes 8 to 10, kind and slot in byte 15. */
  predicate RoutedByBytes(d: seq<Byte>, route: Route)
    requires |d| >= 53
  {
    var dst, voice, private := BigEndian(d[8..11]), IsVoiceByte(d[15]), d[15] / 64 % 2 == 1;
    var elsewhere := dst != 0 && dst != 4000 && dst != 9990;
    && (route == NoDestination <==> dst == 0)
    && (route == Parrot <==> dst == 9990 && voice)
    && (route.Unlink? <==> dst == 4000 && voice)
    && (route.Unlink? ==> (route.slot <==> d[15] >= 128))
    && (route.ToTalkgroup? <==> elsewhere && voice && !private)
    && (route.ToTalkgroup? ==> route.tg == dst as nat)
    && (route.Private? <==> elsewhere && voice && private)
    && (route.Private? ==> route.dst == dst)
    && (route == Unhandled <==> dst != 0 && !voice)
  }

  lemma VoiceOfByte(bits: Byte)
    ensures var frameType, number := FrameTypeOf(bits), NumberOf(bits);
            && (IsVoiceByte(bits) <==>
                  frameType == 0 || frameType == 1 || (frameType == 2 && (number == 1 || number == 2)))
            && (GroupOf(bits) <==> bits / 64 % 2 == 0)
            && (SlotOf(bits) <==> bits >= 128)
  {}

  lemma RoutesOfBytes(d: seq<Byte>)
    requires |d| >= 53
    ensures forall route :: RoutedAs(Parse(d), route) <==> RoutedByBytes(d, route)
  {
    VoiceOfByte(d[15]);
    FieldsAreBigEndian(d);
  }

  // ---------------------------------------------------------------- what a relay changes

  /** The same bytes with another repeater in bytes 11 to 14. */
  function Readdressed(d: seq<Byte>, repeater: Uint): (r: seq<Byte>)
    requires |d| >= 15
    ensures |r| == |d|
  {
    d[..11] + Split4(repeater) + d[15..]
  }

  /** The same bytes with bit 0x80 of byte 15 set to the slot. */
  function Reslotted(d: seq<Byte>, slot: bool): (r: seq<Byte>)
    requires |d| >= 16
    ensures |r| == |d|
  {
    d[15 := if slot then d[15] | 0x80 else d[15] & 0x7F]
  }

  lemma SlotBit(bits: Byte, slot: bool)
    ensures Flags(slot, GroupOf(bits), FrameTypeOf(bits), NumberOf(bits))
         == if slot then bits | 0x80 else bits & 0x7F
  {}

  lemma ReslottedWire(d: seq<Byte>, repeater: Uint, slot: bool)
    requires 53 <= |d| <= 55
    ensures Wire(Parse(d).(repeater := repeater, slot := slot)) == Reslotted(Readdressed(d, repeater), slot)
  {
    WireOfParse(d);
    Rewired(Parse(d), repeater, slot);
    SlotBit(d[15], slot);
    assert Readdressed(d, repeater)[15] == d[15];
  }

  lemma OwnSlot(d: seq<Byte>)
    requires |d| >= 16
    ensures Reslotted(d, SlotOf(d[15])) == d
  {}

  /** Changing the repeater and slot of the packet changes just those bytes. */
  lemma RelayedWire(d: seq<Byte>, repeater: Uint, slot: bool)
    requires 53 <= |d| <= 55
    ensures Wire(Parse(d).(repeater := repeater, slot := slot)) == Reslotted(Readdressed(d, repeater), slot)
    ensures Wire(Parse(d).(repeater := repeater)) == Readdressed(d, repeater)
  {
    var p := Parse(d);
    ReslottedWire(d, repeater, slot);
    ReslottedWire(d, repeater, p.slot);
    assert p.(repeater := repeater, slot := p.slot) == p.(repeater := repeater);
    OwnSlot(Readdressed(d, repeater));
  }

  lemma Rewired(p: Packet, repeater: Uint, slot: bool)
    ensures Wire(p.(repeater := repeater, slot := slot))
         == Readdressed(Wire(p), repeater)[15 := Flags(slot, p.groupCall, p.frameType, p.dtypeOrVSeq)]
  {
    var q := p.(repeater := repeater, slot := slot);
    var w, v := Wire(p), Wire(q);
    WireLayout(p);
    WireLayout(q);
    assert v[..11] == w[..11];
    assert v[16..] == w[16..];
    assert v == v[..11] + v[11..15] + [v[15]] + v[16..];
  }

  // ---------------------------------------------------------------- the relays

  /** One message on a talkgroup's channel, at a repeater that subscribes to it. */
  method RelayTalkgroup(p: Repeater, payload: seq<Byte>) returns (out: Option<seq<Byte>>)
    requires 53 <= |payload| <= 55 && p.radioID < 0x1_0000_0000
    ensures Parse(payload).repeater as nat == p.radioID ==> out.None?
    ensures forall want, slot :: Wants(p, Parse(payload), want, slot) && Parse(payload).repeater as nat != p.radioID ==>
              out == if want then Some(Reslotted(Readdressed(payload, p.radioID as Uint), slot)) else None
  {
    var packet := UnpackPacket(payload);
    if packet.repeater as nat == p.radioID {
      return None;
    }
    var want, slot := WantRX(p, packet);
    forall want', slot' | Wants(p, packet, want', slot')
      ensures want' == want && slot' == slot
    {
      WantsIsUnique(p, packet, want, slot, want', slot');
    }
    if !want {
      return None;
    }
    RelayedWire(payload, p.radioID as Uint, slot);
    var data := Encode(packet.(repeater := p.radioID as Uint, slot := slot));
    return Some(data);
  }

  /** One message on a repeater's own channel. */
  method RelayPrivate(p: Repeater, payload: seq<Byte>) returns (out: seq<Byte>)
    requires 53 <= |payload| <= 55 && p.radioID < 0x1_0000_0000
    ensures out == Readdressed(payload, p.radioID as Uint)
  {
    var packet := UnpackPacket(payload);
    RelayedWire(payload, p.radioID as Uint, packet.slot);
    out := Encode(packet.(repeater := p.radioID as Uint));
  }

  datatype Datagram = Datagram(to: Address, data: seq<Byte>)

  /** Each message goes, as it is, to the address of the repeater it names, if that one is online. */
  function Sent(queue: seq<seq<Byte>>, online: map<Uint, Address>): seq<Datagram>
    requires forall m :: m in queue ==> 53 <= |m| <= 55
  {
    if queue == [] then []
    else
      var before, m := queue[..|queue| - 1], queue[|queue| - 1];
      var rid := Join4(m[11], m[12], m[13], m[14]);
      Sent(before, online) + if rid in online then [Datagram(online[rid], m)] else []
  }

  /** The loop over the channel of packets without an address. */
  method SendNoAddr(queue: seq<seq<Byte>>, online: map<Uint, Address>) returns (sent: seq<Datagram>)
    requires forall m :: m in queue ==> 53 <= |m| <= 55
    ensures sent == Sent(queue, online)
  {
    sent := [];
    for i := 0 to |queue|
      invariant sent == Sent(queue[..i], online)
    {
      assert queue[..i + 1][..i] == queue[..i] && queue[i] in queue;
      var packet := UnpackPacket(queue[i]);
      WireOfParse(queue[i]);
      if packet.repeater in online {
        var data := Encode(packet);
        sent := sent + [Datagram(online[packet.repeater], data)];
      }
    }
    assert queue[..|queue|] == queue;
  }

  /** End to end: what a talkgroup relay puts on the queue reaches its own repeater's address,
      and differs from the bytes received in bytes 11 to 14 and the slot bit alone. */
  lemma RelayedIsDelivered(d: seq<Byte>, repeater: Uint, slot: bool, online: map<Uint, Address>)
    requires 53 <= |d| <= 55 && repeater < 0x1_0000_0000 && repeater in online
    ensures var out := Reslotted(Readdressed(d, repeater), slot);
            && Sent([out], online) == [Datagram(online[repeater], out)]
            && (forall i :: 0 <= i < |d| && !(11 <= i <= 15) ==> out[i] == d[i])
            && out[15] & 0x7F == d[15] & 0x7F
            && SlotOf(out[15]) == slot
            && Parse(out) == Parse(d).(repeater := repeater, slot := slot)
  {
    var out := Reslotted(Readdressed(d, repeater), slot);
    RelayedParses(d, repeater, slot);
    RelayedBytes(d, repeater, slot);
    var queue := [out];
    assert queue[..0] == [];
    assert Join4(out[11], out[12], out[13], out[14]) == Parse(out).repeater;
  }

  lemma RelayedParses(d: seq<Byte>, repeater: Uint, slot: bool)
    requires 53 <= |d| <= 55 && repeater < 0x1_0000_0000
    ensures Parse(Reslotted(Readdressed(d, repeater), slot)) == Parse(d).(repeater := repeater, slot := slot)
  {
    RelayedWire(d, repeater, slot);
    ParsedFits(d);
    ParseOfWire(Parse(d).(repeater := repeater, slot := slot));
  }

  lemma RelayedBytes(d: seq<Byte>, repeater: Uint, slot: bool)
    requires |d| >= 16
    ensures var out := Reslotted(Readdressed(d, repeater), slot);
            && (forall i :: 0 <= i < |d| && !(11 <= i <= 15) ==> out[i] == d[i])
            && out[15] & 0x7F == d[15] & 0x7F
            && SlotOf(out[15]) == slot
  {
    OnlySlotBit(d[15], slot);
  }

  lemma OnlySlotBit(bits: Byte, slot: bool)
    ensures var b := if slot then bits | 0x80 else bits & 0x7F;
            b & 0x7F == bits & 0x7F && SlotOf(b) == slot
  {}
}
