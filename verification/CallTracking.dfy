/** The tracker of calls in progress (internal/dmr/call_tracker.go): its state as values,
    and the objects that hold it. */
module CallTracking {
  import opened Words
  import opened Packets
  import opened Accounting

  /** A row number of the calls table. */
  type Row = nat

  /** Times are in milliseconds. */
  const TIMER_DELAY: int := 2000
  const KEY_UP: int := 100

  /** What a call is known by, fixed when it starts. */
  datatype Key = Key(streamID: Uint, userID: Uint, destinationID: Uint, timeSlot: bool, groupCall: bool)

  function KeyOf(p: Packet): Key {
    Key(p.streamID, p.src, p.dst, p.slot, p.groupCall)
  }

  /** The five comparisons of `IsCallActive`. */
  predicate HasKey(k: Key, p: Packet)
    ensures HasKey(k, p) <==> k == KeyOf(p)
  {
    && k.streamID == p.streamID
    && k.userID == p.src
    && k.destinationID == p.dst
    && k.timeSlot == p.slot
    && k.groupCall == p.groupCall
  }

  /** What kind of thing a call goes to. */
  datatype Destination = ToTalkgroup | ToRepeater | ToUser

  /** A call as a value; its counters are a function of the bursts it heard. */
  datatype CallInfo = CallInfo(key: Key, to: Destination, startTime: int, active: bool, heard: seq<Burst>)

  /** A pending timeout; the packet is the one captured when the call was started. */
  datatype Timer = Timer(deadline: int, packet: Packet)

  /** The row written when a call ends. */
  datatype Saved = Saved(counters: Counters, loss: nat)

  datatype Tracker = Tracker(
    calls: map<Row, CallInfo>,
    timers: map<Row, Timer>,
    saved: map<Row, Saved>,
    deleted: set<Row>)

  /** What the database knows about the ends of a call. */
  datatype Directory = Directory(users: set<Uint>, repeaters: set<Uint>, talkgroups: set<Uint>)
  {
    /** A group call goes to a talkgroup or, if there is none of that number, to a repeater; a private
        one to a user. */
    function Goes(p: Packet): Option<Destination> {
      if p.groupCall then
        if p.dst in talkgroups then Some(ToTalkgroup)
        else if p.dst in repeaters then Some(ToRepeater)
        else None
      else if p.dst in users then Some(ToUser)
      else None
    }

    /** The source user and repeater exist, and so does the destination. */
    predicate Knows(p: Packet) {
      p.src in users && p.repeater in repeaters && Goes(p).Some?
    }
  }

  /** The test of `ProcessCallPacket` and `EndCall`; it does not look at the destination. */
  predicate Matches(c: CallInfo, p: Packet) {
    && c.key.streamID == p.streamID
    && c.active
    && c.key.timeSlot == p.slot
    && c.key.groupCall == p.groupCall
    && c.key.userID == p.src
  }

  function Matching(s: Tracker, p: Packet): set<Row> {
    set id | id in s.calls && Matches(s.calls[id], p)
  }

  /** An active call with this key, destination included, is in flight. */
  predicate IsActive(s: Tracker, p: Packet) {
    exists id :: id in s.calls && s.calls[id].active && s.calls[id].key == KeyOf(p)
  }

  predicate Young(c: CallInfo, now: int) {
    now - c.startTime < KEY_UP
  }

  function NewCall(p: Packet, to: Destination, now: int): CallInfo {
    CallInfo(KeyOf(p), to, now, true, [])
  }

  /** Starting a call: nothing happens when an end is unknown or the row could not be created. */
  function Started(s: Tracker, p: Packet, dir: Directory, id: Option<Row>, now: int): Tracker {
    if dir.Knows(p) && id.Some? then
      s.(calls := s.calls[id.value := NewCall(p, dir.Goes(p).value, now)],
         timers := s.timers[id.value := Timer(now + TIMER_DELAY, p)])
    else s
  }

  /** One packet heard by call `id`, whose timer is pushed back. */
  function Updated(s: Tracker, id: Row, b: Burst, now: int): Tracker
    requires id in s.calls && id in s.timers
  {
    var c := s.calls[id];
    s.(calls := s.calls[id := c.(heard := c.heard + [b], active := true)],
       timers := s.timers[id := s.timers[id].(deadline := now + TIMER_DELAY)])
  }

  /** `EndCall` visits the calls in any order and stops at a young one, so what it did is a
      relation: the calls in `ended` were closed and saved, those in `keyed` were key-ups. */
  ghost predicate Ends(s: Tracker, s': Tracker, p: Packet, now: int, ended: set<Row>, keyed: set<Row>) {
    && ended <= Matching(s, p) * s.timers.Keys
    && keyed <= Matching(s, p) * s.timers.Keys
    && (forall id :: id in ended ==> !Young(s.calls[id], now))
    && (forall id :: id in keyed ==> Young(s.calls[id], now))
    && s'.calls == s.calls - ended
    && s'.timers == s.timers - ended - keyed
    && s'.deleted == s.deleted + keyed
    && s'.saved.Keys == s.saved.Keys + ended
    && (forall id :: id in ended ==> SavedFrom(s.calls[id], s'.saved[id]))
    && (forall id :: id in s.saved && id !in ended ==> s'.saved[id] == s.saved[id])
  }

  /** The row of an ended call holds its closed counters and their quotient. */
  ghost predicate SavedFrom(c: CallInfo, row: Saved) {
    && Stored(Close(Count(c.heard)), row.counters)
    && row.counters.total != 0
    && row.loss == row.counters.lost / row.counters.total
  }

  /** How `EndCall` returned: after the last call, at a key-up, or by a panic. */
  datatype Outcome = Finished | KeyUp | Crashed

  /** What the outcome says about the calls that were dealt with. */
  ghost predicate Accounts(s: Tracker, p: Packet, outcome: Outcome, ended: set<Row>, keyed: set<Row>) {
    match outcome
    case Finished => keyed == {} && ended == Matching(s, p)
    case KeyUp => exists id :: keyed == {id}
    case Crashed => exists id :: id in Matching(s, p) && (id !in s.timers || TooLong(s.calls[id]))
  }

  /** A history so long that the total could have wrapped. */
  predicate TooLong(c: CallInfo) {
    7 * |c.heard| + 6 >= MODULUS
  }

  // ---------------------------------------------------------------- objects

  class Call {
    const id: Row
    const key: Key
    const to: Destination
    const startTime: int
    var lastPacketTime: int
    var active: bool
    var lastFrameNum: Word
    var lostSequences: Word
    var totalPackets: Word
    var hasHeader: bool
    var hasTerm: bool
    var loss: nat
    ghost var heard: seq<Burst>

    ghost function Counters(): Counters
      reads this
    {
      Accounting.Counters(lastFrameNum, lostSequences, totalPackets, hasHeader, hasTerm)
    }

    ghost function Info(): CallInfo
      reads this
    {
      CallInfo(key, to, startTime, active, heard)
    }

    /** The counters are those of the history. */
    ghost predicate Valid()
      reads this
    {
      Stored(Count(heard), Counters())
    }

    constructor (id: Row, p: Packet, to: Destination, now: int)
      ensures Valid()
      ensures this.id == id && Info() == NewCall(p, to, now)
    {
      this.id := id;
      key := KeyOf(p);
      this.to := to;
      startTime, lastPacketTime := now, now;
      active := true;
      lastFrameNum, lostSequences, totalPackets := 5, 0, 0;
      hasHeader, hasTerm := false, false;
      loss := 0;
      heard := [];
    }

    /** The bursts lost before a sync frame. */
    method LostBeforeSync(ghost t: Tally) returns (lost: Word)
      requires Stored(t, Counters())
      ensures lost == 5 - t.last + if t.hasHeader then 0 else 1
    {
      lost := 0;
      if !hasHeader {
        lost := Plus(lost, 1);
      }
      if lastFrameNum != 5 {
        lost := Plus(lost, Minus(5, lastFrameNum));
      }
    }

    /** The bursts lost before a voice frame 1..4; the subtraction may wrap. */
    method LostBeforeVoice(ghost t: Tally, number: Word) returns (lost: Word)
      requires Stored(t, Counters()) && 0 < number < 5
      ensures lost == Wrap(if t.last == 5 then (if number == 1 then 1 else number - 1)
                           else if t.last == 0 then 0
                           else number - t.last - 1)
    {
      lost := 0;
      if lastFrameNum == 5 {
        if number == 1 {
          lost := Plus(lost, 1);
        } else {
          lost := Plus(lost, Minus(number, 1));
        }
      } else if lastFrameNum != 0 && lastFrameNum != Minus(number, 1) {
        WrapSum(number - lastFrameNum, 1);
        lost := Plus(lost, Minus(Minus(number, lastFrameNum), 1));
      }
    }

    /** The two updates every counting branch ends with. */
    method AddLost(ghost t: Tally, ghost missing: int, lost: Word)
      requires lostSequences == Wrap(t.lost) && totalPackets == Wrap(t.total) && lost == Wrap(missing)
      modifies this`lostSequences, this`totalPackets
      ensures lostSequences == Wrap(t.lost + missing)
      ensures totalPackets == Wrap(t.total + missing + 1)
    {
      WrapSum(t.lost, missing);
      WrapSum(1, missing);
      WrapSum(t.total, 1 + missing);
      lostSequences := Plus(lostSequences, lost);
      totalPackets := Plus(totalPackets, Plus(1, lost));
    }

    /** Adds small constants to both counters. */
    method Add(ghost t: Tally, lost: Word, total: Word)
      requires lostSequences == Wrap(t.lost) && totalPackets == Wrap(t.total)
      modifies this`lostSequences, this`totalPackets
      ensures lostSequences == Wrap(t.lost + lost)
      ensures totalPackets == Wrap(t.total + total)
    {
      WrapSum(t.lost, lost);
      WrapSum(t.total, total);
      lostSequences := Plus(lostSequences, lost);
      totalPackets := Plus(totalPackets, total);
    }

    // The branches of `updateCall`, each against the tally `t` of the history so far.

    method BookDuplicate(ghost t: Tally, b: Burst)
      requires Stored(t, Counters()) && BranchOf(t.last, b) == Duplicate
      modifies this`lostSequences, this`totalPackets
      ensures Stored(Hear(t, b), Counters())
    {
      if b.stalled {
        Add(t, 1, 6);
      } else {
        Add(t, 0, 1);
      }
    }

    method BookHeader(ghost t: Tally, b: Burst)
      requires Stored(t, Counters()) && BranchOf(t.last, b) == Header
      modifies this`lostSequences, this`totalPackets, this`hasHeader
      ensures Stored(Hear(t, b), Counters())
    {
      hasHeader := true;
      Add(t, 0, 1);
    }

    method BookSync(ghost t: Tally, b: Burst)
      requires Stored(t, Counters()) && BranchOf(t.last, b) == Sync
      modifies this`lostSequences, this`totalPackets, this`lastFrameNum
      ensures Stored(Hear(t, b), Counters())
    {
      var lost := LostBeforeSync(t);
      lastFrameNum := b.number;
      AddLost(t, lost, lost);
    }

    method BookVoice(ghost t: Tally, b: Burst)
      requires Stored(t, Counters()) && BranchOf(t.last, b) == Voice
      modifies this`lostSequences, this`totalPackets, this`lastFrameNum
      ensures Stored(Hear(t, b), Counters())
    {
      var lost := LostBeforeVoice(t, b.number);
      lastFrameNum := b.number;
      AddLost(t, Missing(t, b), lost);
    }

    method BookLastVoice(ghost t: Tally, b: Burst)
      requires Stored(t, Counters()) && BranchOf(t.last, b) == LastVoice
      modifies this`lostSequences, this`totalPackets, this`lastFrameNum
      ensures Stored(Hear(t, b), Counters())
    {
      var lost: Word := 0;
      if lastFrameNum != 4 {
        lost := Plus(lost, Minus(4, lastFrameNum));
      }
      lastFrameNum := b.number;
      AddLost(t, lost, lost);
    }

    method BookTerminator(ghost t: Tally, b: Burst)
      requires Stored(t, Counters()) && BranchOf(t.last, b) == Terminator
      modifies this`lostSequences, this`totalPackets, this`lastFrameNum, this`hasTerm
      ensures Stored(Hear(t, b), Counters())
    {
      var lost: Word := 0;
      if lastFrameNum != 5 {
        lost := Plus(lost, Minus(5, lastFrameNum));
      }
      hasTerm := true;
      lastFrameNum := 5;
      AddLost(t, lost, lost);
    }

    method Dispatch(ghost t: Tally, b: Burst)
      requires Stored(t, Counters())
      modifies this`lostSequences, this`totalPackets, this`lastFrameNum, this`hasHeader, this`hasTerm
      ensures Stored(Hear(t, b), Counters())
    {
      if lastFrameNum != 0 && lastFrameNum == b.number {
        BookDuplicate(t, b);
      } else if b.frameType == 2 && b.number == 1 {
        BookHeader(t, b);
      } else if b.frameType == 1 && b.number == 0 {
        BookSync(t, b);
      } else if b.frameType == 0 && 0 < b.number < 5 {
        BookVoice(t, b);
      } else if b.frameType == 0 && b.number == 5 {
        BookLastVoice(t, b);
      } else if b.frameType == 2 && b.number == 2 {
        BookTerminator(t, b);
      }
    }

    /** Books one burst. */
    method Book(b: Burst)
      requires Valid()
      modifies this
      ensures Valid()
      ensures Info() == old(Info()).(heard := old(heard) + [b], active := true)
    {
      Dispatch(Count(heard), b);
      Extend(heard, b);
      heard := heard + [b];
      active := true;
    }

    /** Adds the terminator that was not heard and the rest of the superframe. */
    method CloseCounters(ghost t: Tally)
      requires Stored(t, Counters())
      modifies this`lostSequences, this`totalPackets
      ensures Stored(Close(t), Counters())
    {
      if !hasTerm {
        Add(t, 1, 1);
      }
      if lastFrameNum != 5 {
        ghost var term := if t.hasTerm then 0 else 1;
        var rest := Minus(5, lastFrameNum);
        Add(t.(lost := t.lost + term, total := t.total + term), rest, rest);
      }
    }

    /** Closes the counters; `false` is the division by zero. */
    method Finish() returns (ok: bool)
      requires Valid()
      modifies this
      ensures ok ==> SavedFrom(old(Info()), Saved(Counters(), loss))
      ensures !ok ==> TooLong(old(Info()))
    {
      CloseCounters(Count(heard));
      NonZero(Info(), Counters());
      active := false;
      ok := Divide();
    }

    /** Stores the quotient of the counters, unless that is a division by zero. */
    method Divide() returns (ok: bool)
      modifies this`loss
      ensures ok <==> totalPackets != 0
      ensures ok ==> loss == lostSequences / totalPackets
    {
      ok := totalPackets != 0;
      if ok {
        loss := lostSequences / totalPackets;
      }
    }
  }

  lemma NonZero(c: CallInfo, counters: Counters)
    requires Stored(Close(Count(c.heard)), counters)
    ensures counters.total != 0 || TooLong(c)
  {
    if !TooLong(c) {
      TotalNeverWraps(c.heard, counters);
    }
  }
}
