/** The parrot: what is said to 9990 is recorded and said back (internal/dmr/parrot.go,
    internal/dmr/parrot_redis.go, internal/dmr/packet_handler.go). */
module Parrots {
  import opened Words
  import opened Packets
  import opened Codec

  type Stream = nat

  /** A packet as it is recorded: a private call back to its sender, for the repeater that
      started the stream, without BER and RSSI. */
  function Mirrored(p: Packet, repeater: Uint): Packet {
    p.(repeater := repeater, src := p.dst, dst := p.src, groupCall := false, ber := MINUS_ONE, rssi := MINUS_ONE)
  }

  function MirroredAll(ps: seq<Packet>, repeater: Uint): (r: seq<Packet>)
    ensures |r| == |ps| && forall i :: 0 <= i < |ps| ==> r[i] == Mirrored(ps[i], repeater)
  {
    seq(|ps|, i requires 0 <= i < |ps| => Mirrored(ps[i], repeater))
  }

  /** The started streams with their repeaters, and the recorded packets. */
  datatype State = State(streams: map<Stream, Uint>, lists: map<Stream, seq<Packet>>)
  {
    function List(s: Stream): seq<Packet> {
      if s in lists then lists[s] else []
    }
  }

  // ---------------------------------------------------------------- operations

  datatype Operation =
    | Start(s: Stream, repeater: Uint)
    | Record(s: Stream, p: Packet)
    | Stop(s: Stream)
    | Read(s: Stream)

  function Operated(state: State, op: Operation): State {
    match op
    case Start(s, repeater) =>
      if s in state.streams then state else state.(streams := state.streams[s := repeater])
    case Record(s, p) =>
      if s in state.streams then
        state.(lists := state.lists[s := state.List(s) + [Mirrored(p, state.streams[s])]])
      else state
    case Stop(s) => state.(streams := state.streams - {s})
    case Read(s) => state.(lists := state.lists - {s})
  }

  function OperatedAll(state: State, ops: seq<Operation>): State {
    if ops == [] then state else Operated(OperatedAll(state, ops[..|ops| - 1]), ops[|ops| - 1])
  }

  const SILENT := State(map[], map[])

  predicate IsStart(op: Operation, s: Stream) {
    op.Start? && op.s == s
  }

  /** Operation `j` starts the stream, which is not stopped after it. */
  ghost predicate StartsFor(ops: seq<Operation>, s: Stream, j: nat) {
    j < |ops| && IsStart(ops[j], s) && forall k :: j < k < |ops| ==> ops[k] != Stop(s)
  }

  /** It is the earliest that does. */
  ghost predicate FirstStart(ops: seq<Operation>, s: Stream, j: nat) {
    StartsFor(ops, s, j) && forall i: nat :: i < j ==> !StartsFor(ops, s, i)
  }

  /** A stream is started if and only if one of its starts has had no stop since; and then it goes back
      to the repeater of the earliest such start, whatever else came in between. */
  ghost predicate StartedAsSaid(ops: seq<Operation>, s: Stream) {
    var streams := OperatedAll(SILENT, ops).streams;
    && (s in streams <==> exists j: nat :: StartsFor(ops, s, j))
    && (forall j: nat :: FirstStart(ops, s, j) ==> s in streams && streams[s] == ops[j].repeater)
  }

  lemma StartsGrow(ops: seq<Operation>, op: Operation, s: Stream, j: nat)
    ensures StartsFor(ops + [op], s, j) <==>
              if j == |ops| then IsStart(op, s) else StartsFor(ops, s, j) && op != Stop(s)
  {
    var more := ops + [op];
    assert forall k :: 0 <= k < |ops| ==> more[k] == ops[k];
    assert more[|ops|] == op;
  }

  lemma StepAsSaid(ops: seq<Operation>, op: Operation, s: Stream)
    requires StartedAsSaid(ops, s)
    ensures StartedAsSaid(ops + [op], s)
  {
    var more := ops + [op];
    assert more[..|ops|] == ops && more[|ops|] == op;
    forall j: nat
      ensures StartsFor(more, s, j) <==>
                if j == |ops| then IsStart(op, s) else StartsFor(ops, s, j) && op != Stop(s)
    {
      StartsGrow(ops, op, s, j);
    }
    assert forall j: nat :: FirstStart(more, s, j) && j < |ops| ==> FirstStart(ops, s, j) && more[j] == ops[j];
    assert IsStart(op, s) ==> StartsFor(more, s, |ops|);
    if s in OperatedAll(SILENT, ops).streams && op != Stop(s) {
      var j: nat :| StartsFor(ops, s, j) && j < |ops|;
      assert StartsFor(more, s, j);
    }
  }

  lemma {:induction false} StartedIffNotStopped(ops: seq<Operation>, s: Stream)
    ensures StartedAsSaid(ops, s)
  {
    if ops == [] {
    } else {
      var before, op := ops[..|ops| - 1], ops[|ops| - 1];
      assert ops == before + [op];
      StartedIffNotStopped(before, s);
      StepAsSaid(before, op, s);
    }
  }

  /** Once a stream is stopped its list stays as it is, until it is read or the stream is started
      again: what is recorded on it is lost. */
  lemma {:induction false} StopFreezesList(state: State, s: Stream, ops: seq<Operation>)
    requires forall op :: op in ops ==> !IsStart(op, s) && op != Read(s)
    ensures var after := OperatedAll(Operated(state, Stop(s)), ops);
            s !in after.streams && after.List(s) == state.List(s)
  {
    if ops == [] {
    } else {
      var n := |ops| - 1;
      assert ops[n] in ops;
      StopFreezesList(state, s, ops[..n]);
    }
  }

  // ---------------------------------------------------------------- histories

  /** One voice packet to 9990, and what is played back. */
  function Heard(state: State, p: Packet): (State, Option<seq<Packet>>) {
    var s := p.streamID as nat;
    var repeater := if s in state.streams then state.streams[s] else p.repeater;
    var recorded := state.List(s) + [Mirrored(p, repeater)];
    if IsTerminator(p) then (State(state.streams - {s}, state.lists - {s}), Some(recorded))
    else (State(state.streams[s := repeater], state.lists[s := recorded]), None)
  }

  /** It is up to four operations. */
  lemma HeardInSteps(state: State, p: Packet)
    ensures var s := p.streamID as nat;
            var recorded := Operated(Operated(state, Start(s, p.repeater)), Record(s, p));
            Heard(state, p) ==
              if IsTerminator(p) then (Operated(Operated(recorded, Stop(s)), Read(s)), Some(recorded.List(s)))
              else (recorded, None)
  {
    var s := p.streamID as nat;
    var started := Operated(state, Start(s, p.repeater));
    assert started.streams == state.streams[s := started.streams[s]];
    var recorded := Operated(started, Record(s, p));
    assert recorded.streams - {s} == state.streams - {s};
    assert recorded.lists - {s} == state.lists - {s};
  }

  function After(h: seq<Packet>): State {
    if h == [] then SILENT else Heard(After(h[..|h| - 1]), h[|h| - 1]).0
  }

  /** The packets of a stream since its last terminator. */
  function Since(h: seq<Packet>, s: Stream): seq<Packet> {
    if h == [] then []
    else
      var before, p := Since(h[..|h| - 1], s), h[|h| - 1];
      if p.streamID as nat != s then before
      else if IsTerminator(p) then []
      else before + [p]
  }

  /** What is to be said back for some packets of one stream: all of them, mirrored to the
      repeater of the first. */
  function Playback(ps: seq<Packet>): seq<Packet> {
    if ps == [] then [] else MirroredAll(ps, ps[0].repeater)
  }

  lemma PlaybackGrows(ps: seq<Packet>, p: Packet)
    ensures Playback(ps + [p]) == Playback(ps) + [Mirrored(p, (ps + [p])[0].repeater)]
  {}

  /** What is held for a stream that has heard `ps` since its last terminator. */
  ghost predicate Holds(state: State, s: Stream, ps: seq<Packet>) {
    && state.List(s) == Playback(ps)
    && (s in state.streams <==> ps != [])
    && (ps != [] ==> s in state.streams && state.streams[s] == ps[0].repeater)
  }

  lemma HearsOwn(state: State, p: Packet, ps: seq<Packet>)
    requires Holds(state, p.streamID as nat, ps)
    ensures Holds(Heard(state, p).0, p.streamID as nat, if IsTerminator(p) then [] else ps + [p])
  {
    PlaybackGrows(ps, p);
  }

  lemma HearsOther(state: State, p: Packet, s: Stream, ps: seq<Packet>)
    requires Holds(state, s, ps) && p.streamID as nat != s
    ensures Holds(Heard(state, p).0, s, ps)
  {}

  /** The state of every stream, whatever other streams are recorded in between. */
  lemma {:induction false} StreamsAreSeparate(h: seq<Packet>, s: Stream)
    ensures Holds(After(h), s, Since(h, s))
  {
    if h != [] {
      var before, p := h[..|h| - 1], h[|h| - 1];
      StreamsAreSeparate(before, s);
      if p.streamID as nat == s {
        HearsOwn(After(before), p, Since(before, s));
      } else {
        HearsOther(After(before), p, s, Since(before, s));
      }
    }
  }

  /** A terminator plays back exactly its stream's packets since the last one, in order, and
      leaves nothing of the stream behind; no other packet plays anything. */
  lemma TerminatorPlaysBack(h: seq<Packet>, p: Packet)
    ensures var (state, played) := Heard(After(h), p);
            var s := p.streamID as nat;
            && (IsTerminator(p) ==> played == Some(Playback(Since(h, s) + [p])))
            && (IsTerminator(p) ==> s !in state.streams && s !in state.lists)
            && (!IsTerminator(p) ==> played.None?)
  {
    StreamsAreSeparate(h, p.streamID as nat);
    PlaybackGrows(Since(h, p.streamID as nat), p);
  }

  lemma {:induction false} AllSince(ps: seq<Packet>, s: Stream)
    requires forall p :: p in ps ==> p.streamID as nat == s && !IsTerminator(p)
    ensures Since(ps, s) == ps
  {
    if ps == [] {
    } else {
      AllSince(ps[..|ps| - 1], s);
      assert ps == ps[..|ps| - 1] + [ps[|ps| - 1]];
    }
  }

  /** A whole call on a quiet parrot, whose packets are `ps` and the terminator `t`, comes back
      packet by packet, mirrored to the repeater of its first packet. */
  lemma CallComesBack(ps: seq<Packet>, t: Packet)
    requires IsTerminator(t) && forall p :: p in ps ==> p.streamID == t.streamID && !IsTerminator(p)
    ensures var call := ps + [t];
            Heard(After(ps), t).1 == Some(MirroredAll(call, call[0].repeater))
  {
    AllSince(ps, t.streamID as nat);
    TerminatorPlaysBack(ps, t);
  }

  /** A recorded packet is sent back as 53 bytes, which decode to that packet. */
  lemma MirroredFits(d: seq<Byte>, repeater: Uint)
    requires |d| >= 53 && repeater < 0x1_0000_0000
    ensures var m := Mirrored(Parse(d), repeater);
            |Wire(m)| == 53 && Parse(Wire(m)) == m
  {
    ParsedFits(d);
    ParseOfWire(Mirrored(Parse(d), repeater));
  }

  // ---------------------------------------------------------------- bytes

  /** Received bytes come back as 53 bytes with source and destination exchanged, addressed to the starter
      and marked private; nothing else is changed. */
  predicate BackFrom(out: seq<Byte>, d: seq<Byte>, starter: seq<Byte>)
    requires |d| >= 53
  {
    && |out| == 53
    && out[..5] == d[..5]
    && out[5..8] == d[8..11]
    && out[8..11] == d[5..8]
    && out[11..15] == starter
    && out[15] == d[15] | 0x40
    && out[16..] == d[16..53]
  }

  lemma PrivateByte(bits: Byte)
    ensures Flags(SlotOf(bits), false, FrameTypeOf(bits), NumberOf(bits)) == bits | 0x40
  {}

  lemma MirroredFields(d: seq<Byte>, starter: seq<Byte>)
    requires |d| >= 53 && |starter| == 4
    ensures var m := Mirrored(Parse(d), Join4(starter[0], starter[1], starter[2], starter[3]));
            && Padded4(m.signature) == d[..4] && Low(m.seqNum) == d[4]
            && Split3(m.src) == d[8..11] && Split3(m.dst) == d[5..8]
            && Split4(m.repeater) == starter && Split4(m.streamID) == d[16..20]
            && Flags(m.slot, m.groupCall, m.frameType, m.dtypeOrVSeq) == d[15] | 0x40
            && m.dmrData == d[20..53] && Trailer(m.ber, m.rssi) == []
  {
    LowByte(d[4]);
    Split3Join3(d[5..8]);
    Split3Join3(d[8..11]);
    Split4Join4(starter);
    Split4Join4(d[16..20]);
    PrivateByte(d[15]);
  }

  lemma MirroredBytes(d: seq<Byte>, starter: seq<Byte>)
    requires |d| >= 53 && |starter| == 4
    ensures BackFrom(Wire(Mirrored(Parse(d), Join4(starter[0], starter[1], starter[2], starter[3]))), d, starter)
  {
    var m := Mirrored(Parse(d), Join4(starter[0], starter[1], starter[2], starter[3]));
    MirroredFields(d, starter);
    BackIfLaidOut(m, d, starter);
  }

  lemma BackIfLaidOut(m: Packet, d: seq<Byte>, starter: seq<Byte>)
    requires |d| >= 53
    requires Padded4(m.signature) == d[..4] && Low(m.seqNum) == d[4]
    requires Split3(m.src) == d[8..11] && Split3(m.dst) == d[5..8]
    requires Split4(m.repeater) == starter && Split4(m.streamID) == d[16..20]
    requires Flags(m.slot, m.groupCall, m.frameType, m.dtypeOrVSeq) == d[15] | 0x40
    requires m.dmrData == d[20..53] && Trailer(m.ber, m.rssi) == []
    ensures BackFrom(Wire(m), d, starter)
  {
    var out := Wire(m);
    WireLayout(m);
    assert |out| == 53;
    assert out[..5] == out[..4] + [out[4]] && d[..5] == d[..4] + [d[4]];
    assert out[16..] == out[16..20] + out[20..53] && d[16..53] == d[16..20] + d[20..53];
  }

  /** Received packets are long enough to be read. */
  predicate AreLong(ds: seq<seq<Byte>>) {
    forall i :: 0 <= i < |ds| ==> |ds[i]| >= 53
  }

  /** The packets that some received bytes stand for. */
  function ParseAll(ds: seq<seq<Byte>>): (ps: seq<Packet>)
    requires AreLong(ds)
    ensures |ps| == |ds| && forall i :: 0 <= i < |ds| ==> ps[i] == Parse(ds[i])
  {
    seq(|ds|, i requires 0 <= i < |ds| => Parse(ds[i]))
  }

  /** The frame type and number of the bytes are 2 and 2. */
  predicate IsTerminatorByte(bits: Byte) {
    bits / 16 % 4 == 2 && bits % 16 == 2
  }

  lemma TerminatorOfByte(d: seq<Byte>)
    requires |d| >= 53
    ensures IsTerminator(Parse(d)) <==> IsTerminatorByte(d[15])
  {}

  /** The bytes of one stream, of which only the last are a terminator's. */
  predicate AreOneCall(ds: seq<seq<Byte>>) {
    && |ds| > 0 && AreLong(ds)
    && (forall i :: 0 <= i < |ds| ==> ds[i][16..20] == ds[0][16..20])
    && (forall i :: 0 <= i < |ds| ==> (IsTerminatorByte(ds[i][15]) <==> i == |ds| - 1))
  }

  /** They all come back in order, each to its sender by way of the repeater of the first. */
  predicate AreBack(played: seq<Packet>, ds: seq<seq<Byte>>)
    requires AreLong(ds) && |ds| > 0
  {
    |played| == |ds| && forall i :: 0 <= i < |ds| ==> BackFrom(Wire(played[i]), ds[i], ds[0][11..15])
  }

  lemma PacketsOfOneCall(ds: seq<seq<Byte>>, i: nat)
    requires AreOneCall(ds) && i < |ds|
    ensures Parse(ds[i]).streamID == Parse(ds[|ds| - 1]).streamID
    ensures IsTerminator(Parse(ds[i])) <==> i == |ds| - 1
  {
    SameStream(ds[i], ds[0]);
    SameStream(ds[|ds| - 1], ds[0]);
    TerminatorOfByte(ds[i]);
  }

  lemma OneCallComesBack(ps: seq<Packet>)
    requires |ps| > 0 && forall i :: 0 <= i < |ps| ==> ps[i].streamID == ps[|ps| - 1].streamID
    requires forall i :: 0 <= i < |ps| ==> (IsTerminator(ps[i]) <==> i == |ps| - 1)
    ensures Heard(After(ps[..|ps| - 1]), ps[|ps| - 1]).1 == Some(MirroredAll(ps, ps[0].repeater))
  {
    var before, last := ps[..|ps| - 1], ps[|ps| - 1];
    assert before + [last] == ps;
    CallComesBack(before, last);
  }

  lemma MirroredAllAreBack(ds: seq<seq<Byte>>)
    requires AreLong(ds) && |ds| > 0
    ensures AreBack(MirroredAll(ParseAll(ds), Parse(ds[0]).repeater), ds)
  {
    forall i | 0 <= i < |ds|
      ensures BackFrom(Wire(Mirrored(Parse(ds[i]), Parse(ds[0]).repeater)), ds[i], ds[0][11..15])
    {
      MirroredBytes(ds[i], ds[0][11..15]);
    }
  }

  /** A whole call on a quiet parrot, from the bytes that came in to the bytes that go out. */
  lemma BytesComeBack(ds: seq<seq<Byte>>)
    requires AreOneCall(ds)
    ensures var ps, n := ParseAll(ds), |ds| - 1;
            var played := Heard(After(ps[..n]), ps[n]).1;
            played.Some? && AreBack(played.value, ds)
  {
    var ps := ParseAll(ds);
    forall i | 0 <= i < |ds|
      ensures ps[i].streamID == ps[|ds| - 1].streamID && (IsTerminator(ps[i]) <==> i == |ds| - 1)
    {
      PacketsOfOneCall(ds, i);
    }
    OneCallComesBack(ps);
    MirroredAllAreBack(ds);
  }

  lemma SameStream(d: seq<Byte>, d': seq<Byte>)
    requires |d| >= 53 && |d'| >= 53 && d[16..20] == d'[16..20]
    ensures Parse(d).streamID == Parse(d').streamID
  {
    FieldsAreBigEndian(d);
    FieldsAreBigEndian(d');
  }

  // ---------------------------------------------------------------- the objects

  class Parrot {
    var streams: map<Stream, Uint>
    var lists: map<Stream, seq<Packet>>

    ghost function Contents(): State
      reads this
    {
      State(streams, lists)
    }

    constructor ()
      ensures Contents() == SILENT
    {
      streams, lists := map[], map[];
    }

    method IsStarted(s: Stream) returns (started: bool)
      ensures started <==> s in streams
    {
      return s in streams;
    }

    method StartStream(s: Stream, repeater: Uint) returns (isNew: bool)
      modifies this`streams
      ensures isNew <==> s !in old(streams)
      ensures Contents() == Operated(old(Contents()), Start(s, repeater))
    {
      if s in streams {
        return false;
      }
      streams := streams[s := repeater];
      return true;
    }

    /** Pushes a packet to the end of the stream's list; without a started stream it is lost. */
    method RecordPacket(s: Stream, packet: Packet)
      modifies this`lists
      ensures Contents() == Operated(old(Contents()), Record(s, packet))
    {
      if s !in streams {
        return;
      }
      var p := packet.(repeater := streams[s]);
      var tmpSrc := p.src;
      p := p.(src := p.dst);
      p := p.(dst := tmpSrc);
      p := p.(groupCall := false, ber := MINUS_ONE, rssi := MINUS_ONE);
      lists := lists[s := (if s in lists then lists[s] else []) + [p]];
    }

    method StopStream(s: Stream)
      modifies this`streams
      ensures Contents() == Operated(old(Contents()), Stop(s))
    {
      streams := streams - {s};
    }

    /** Reads the list by index and deletes it. */
    method GetStream(s: Stream) returns (packets: seq<Packet>)
      modifies this`lists
      ensures packets == old(Contents()).List(s)
      ensures Contents() == Operated(old(Contents()), Read(s))
    {
      var stored := if s in lists then lists[s] else [];
      packets := [];
      for i := 0 to |stored|
        invariant packets == stored[..i]
      {
        packets := packets + [stored[i]];
      }
      lists := lists - {s};
    }

    /** A voice packet to 9990, in the packet handler: recorded, and played back after a terminator. */
    method HandleVoice(packet: Packet) returns (played: Option<seq<Packet>>)
      modifies this
      ensures (Contents(), played) == Heard(old(Contents()), packet)
    {
      HeardInSteps(Contents(), packet);
      var s := packet.streamID as nat;
      var started := IsStarted(s);
      if !started {
        var _ := StartStream(s, packet.repeater);
      }
      RecordPacket(s, packet);
      if IsTerminator(packet) {
        StopStream(s);
        var packets := GetStream(s);
        return Some(packets);
      }
      return None;
    }
  }
}
