/** From the packets of a call to the row that is saved for it: what the tracker makes of the frame types
    and numbers that a repeater sends (internal/dmr/call_tracker.go, internal/dmr/packet_handler.go). */
module SavedCalls {
  import opened Words
  import opened Packets
  import opened Codec
  import opened Accounting
  import opened CallTracking
  import opened LossyChannel
  import opened TrackerRuns
  import Relay

  // ---------------------------------------------------------------- the packets of a call

  /** Packet `i` of a call of `k` superframes: a header, six voice frames for each superframe of which
      the first is a sync frame, and a terminator. */
  predicate IsFrame(p: Packet, k: nat, i: nat)
    requires i < 6 * k + 2
  {
    if i == 0 then p.frameType == 2 && p.dtypeOrVSeq == 1
    else if i == 6 * k + 1 then p.frameType == 2 && p.dtypeOrVSeq == 2
    else if (i - 1) % 6 == 0 then p.frameType == 1 && p.dtypeOrVSeq == 0
    else if (i - 1) % 6 == 1 then p.frameType == 0 && p.dtypeOrVSeq == 1
    else if (i - 1) % 6 == 2 then p.frameType == 0 && p.dtypeOrVSeq == 2
    else if (i - 1) % 6 == 3 then p.frameType == 0 && p.dtypeOrVSeq == 3
    else if (i - 1) % 6 == 4 then p.frameType == 0 && p.dtypeOrVSeq == 4
    else p.frameType == 0 && p.dtypeOrVSeq == 5
  }

  ghost predicate AreFrames(ps: seq<Packet>, k: nat) {
    |ps| == 6 * k + 2 && forall i :: 0 <= i < |ps| ==> IsFrame(ps[i], k, i)
  }

  /** The packets that got through among the first `i`. */
  function GotThrough(ps: seq<Packet>, d: seq<bool>, i: nat): seq<Packet>
    requires i <= |ps| == |d|
  {
    if i == 0 then []
    else if d[i - 1] then GotThrough(ps, d, i - 1) + [ps[i - 1]]
    else GotThrough(ps, d, i - 1)
  }

  function BookedBy(e: Event, row: Row): seq<Packet> {
    if e.Process? && e.chosen == Some(row) then [e.p] else []
  }

  /** The packets that were booked on a call, in order. */
  function Booked(events: seq<Event>, row: Row): seq<Packet> {
    if events == [] then [] else Booked(events[..|events| - 1], row) + BookedBy(events[|events| - 1], row)
  }

  ghost predicate NoneStalled(events: seq<Event>) {
    forall i :: 0 <= i < |events| && events[i].Process? ==> !events[i].stalled
  }

  // ---------------------------------------------------------------- what the call hears

  function Bursts(ps: seq<Packet>): seq<Burst> {
    if ps == [] then [] else Bursts(ps[..|ps| - 1]) + [BurstOf(ps[|ps| - 1], false)]
  }

  lemma BurstsMore(ps: seq<Packet>, p: Packet)
    ensures Bursts(ps + [p]) == Bursts(ps) + [BurstOf(p, false)]
  {
    assert (ps + [p])[..|ps|] == ps;
  }

  lemma FrameIsSent(p: Packet, k: nat, i: nat)
    requires i < 6 * k + 2 && IsFrame(p, k, i)
    ensures BurstOf(p, false) == Sent(k, i)
  {}

  lemma FrameIsHeard(before: seq<Packet>, p: Packet, k: nat, i: nat)
    requires i < 6 * k + 2 && IsFrame(p, k, i)
    ensures Bursts(before + [p]) == Bursts(before) + [Sent(k, i)]
  {
    BurstsMore(before, p);
    FrameIsSent(p, k, i);
  }

  lemma {:induction false} BurstsAreDelivered(ps: seq<Packet>, k: nat, d: seq<bool>, i: nat)
    requires AreFrames(ps, k) && i <= |ps| == |d|
    ensures Bursts(GotThrough(ps, d, i)) == Delivered(k, d, i)
  {
    if i > 0 {
      BurstsAreDelivered(ps, k, d, i - 1);
      if d[i - 1] {
        FrameIsHeard(GotThrough(ps, d, i - 1), ps[i - 1], k, i - 1);
      }
    }
  }

  /** What one step adds to a call that stays in flight. */
  lemma HeardStep(s: Tracker, s': Tracker, e: Event, row: Row)
    requires Step(s, s', e) && row in s.calls && row in s'.calls
    ensures s'.calls[row].heard
         == s.calls[row].heard + if e.Process? && e.chosen == Some(row) then [BurstOf(e.p, e.stalled)] else []
  {
    match e
    case Start(_, _, _, _) =>
    case Process(_, _, _, _) =>
    case End(_, _, _, _, _) =>
    case Timeout(_, _, _, _, _) =>
  }

  /** A path that starts with the start of a call, which is in flight from then up to state `n`. */
  ghost predicate Follows(trace: seq<Tracker>, events: seq<Event>, row: Row, n: nat) {
    && IsPath(trace, events) && 1 <= n <= |events|
    && events[0].Start? && events[0].row == Some(row) && events[0].dir.Knows(events[0].p)
    && forall i :: 1 <= i <= n ==> row in trace[i].calls
  }

  lemma BookedMore(events: seq<Event>, row: Row, n: nat)
    requires n < |events|
    ensures Booked(events[..n + 1], row) == Booked(events[..n], row) + BookedBy(events[n], row)
  {
    assert events[..n + 1][..n] == events[..n];
  }

  lemma BurstsBookedBy(ps: seq<Packet>, e: Event, row: Row)
    requires e.Process? ==> !e.stalled
    ensures Bursts(ps + BookedBy(e, row))
         == Bursts(ps) + if e.Process? && e.chosen == Some(row) then [BurstOf(e.p, e.stalled)] else []
  {
    if e.Process? && e.chosen == Some(row) {
      BurstsMore(ps, e.p);
    } else {
      assert ps + [] == ps;
    }
  }

  lemma StartedDeaf(s: Tracker, s': Tracker, e: Event, row: Row)
    requires Step(s, s', e) && e.Start? && e.row == Some(row) && e.dir.Knows(e.p)
    ensures row in s'.calls && s'.calls[row].heard == []
  {}

  lemma {:induction false} HeardIsBooked(trace: seq<Tracker>, events: seq<Event>, row: Row, n: nat)
    requires Follows(trace, events, row, n) && NoneStalled(events)
    ensures trace[n].calls[row].heard == Bursts(Booked(events[..n], row))
  {
    var e := events[n - 1];
    assert Step(trace[n - 1], trace[n], e);
    BookedMore(events, row, n - 1);
    if n == 1 {
      StartedDeaf(trace[0], trace[1], e, row);
      assert events[..0] == [];
    } else {
      HeardIsBooked(trace, events, row, n - 1);
      HeardStep(trace[n - 1], trace[n], e, row);
      BurstsBookedBy(Booked(events[..n - 1], row), e, row);
    }
  }

  /** A call that leaves its flight is saved. */
  lemma LeavingIsSaved(s: Tracker, s': Tracker, e: Event, row: Row)
    requires Step(s, s', e) && row in s.calls && row !in s'.calls
    ensures row in s'.saved && SavedFrom(s.calls[row], s'.saved[row])
  {}

  lemma ThroughLength(ps: seq<Packet>, k: nat, d: seq<bool>)
    requires AreFrames(ps, k) && |ps| == |d|
    ensures |Delivered(k, d, |d|)| == 6 * k + 2 - Dropped(d, |d|)
  {
    HeardLength(k, d, |d|);
  }

  /** End to end: a call is started, hears the packets of `k` superframes that got through, and leaves its
      flight, whatever happens to other calls in between. The row saved for it holds the numbers of packets sent
      and of packets dropped, each with the error of the call. */
  lemma {:induction false} SavedRow(
    trace: seq<Tracker>, events: seq<Event>, row: Row, n: nat, ps: seq<Packet>, k: nat, d: seq<bool>)
    requires Follows(trace, events, row, n) && n < |events| && row !in trace[n + 1].calls
    requires NoneStalled(events) && AreFrames(ps, k) && |d| == |ps| && 42 * k + 20 < MODULUS
    requires Booked(events[..n], row) == GotThrough(ps, d, |ps|)
    ensures row in trace[n + 1].saved
    ensures var saved := trace[n + 1].saved[row];
            && saved.counters.total == 6 * k + 2 + CallError(k, d)
            && saved.counters.lost == Wrap(Dropped(d, |d|) + CallError(k, d))
            && saved.counters.total > 0 && saved.loss == saved.counters.lost / saved.counters.total
            && (CallError(k, d) == 0 && Dropped(d, |d|) < |d| ==>
                  saved.counters.lost == Dropped(d, |d|) && saved.loss == 0)
  {
    HeardIsBooked(trace, events, row, n);
    BurstsAreDelivered(ps, k, d, |ps|);
    ThroughLength(ps, k, d);
    LeavingIsSaved(trace[n], trace[n + 1], events[n], row);
    CountOverChannel(k, d);
    SavedCounts(k, d, trace[n].calls[row], trace[n + 1].saved[row]);
  }

  /** So a call of which every packet gets through is saved with their number and no loss. */
  lemma LosslessCallIsSaved(
    trace: seq<Tracker>, events: seq<Event>, row: Row, n: nat, ps: seq<Packet>, k: nat)
    requires Follows(trace, events, row, n) && n < |events| && row !in trace[n + 1].calls
    requires NoneStalled(events) && AreFrames(ps, k) && 42 * k + 20 < MODULUS
    requires Booked(events[..n], row) == ps
    ensures row in trace[n + 1].saved
    ensures var saved := trace[n + 1].saved[row];
            saved.counters.total == 6 * k + 2 && saved.counters.lost == 0 && saved.loss == 0
  {
    var d := seq(|ps|, _ => true);
    AllGotThrough(ps, d, |ps|);
    NoneDroppedBefore(d, |d|);
    LosslessIsExact(k, d);
    CountOverChannel(k, d);
    assert ps[..|ps|] == ps;
    SavedRow(trace, events, row, n, ps, k, d);
  }

  lemma {:induction false} AllGotThrough(ps: seq<Packet>, d: seq<bool>, i: nat)
    requires i <= |ps| == |d| && forall j :: 0 <= j < |d| ==> d[j]
    ensures GotThrough(ps, d, i) == ps[..i]
  {
    if i > 0 {
      AllGotThrough(ps, d, i - 1);
      assert ps[..i] == ps[..i - 1] + [ps[i - 1]];
    }
  }

  // ---------------------------------------------------------------- such a run

  /** One call in flight, with its timer. */
  function InFlight(p: Packet, to: Destination, heard: seq<Burst>): Tracker {
    Tracker(map[1 := CallInfo(KeyOf(p), to, 0, true, heard)], map[1 := Timer(2000, p)], map[], {})
  }

  lemma FollowsOn(trace: seq<Tracker>, events: seq<Event>, row: Row, s: Tracker, e: Event)
    requires Follows(trace, events, row, |events|) && Step(trace[|events|], s, e) && row in s.calls
    ensures Follows(trace + [s], events + [e], row, |events| + 1)
  {
    PathOn(trace, events, s, e);
  }

  lemma PathOn(trace: seq<Tracker>, events: seq<Event>, s: Tracker, e: Event)
    requires IsPath(trace, events) && Step(trace[|events|], s, e)
    ensures IsPath(trace + [s], events + [e])
  {}

  lemma StartingPath(p: Packet, dir: Directory)
    requires dir.Knows(p)
    ensures Follows([EMPTY, InFlight(p, dir.Goes(p).value, [])], [Start(p, dir, Some(1), 0)], 1, 1)
  {}

  /** The call after the first `n` packets. */
  ghost predicate Has(trace: seq<Tracker>, events: seq<Event>, qs: seq<Packet>, to: Destination, n: nat)
    requires |qs| > 0 && n <= |qs|
  {
    && |events| == n + 1 && Follows(trace, events, 1, n + 1) && NoneStalled(events) && trace[0] == EMPTY
    && trace[n + 1] == InFlight(qs[0], to, Bursts(qs[..n]))
    && Booked(events, 1) == qs[..n]
  }

  lemma HasMore(trace: seq<Tracker>, events: seq<Event>, qs: seq<Packet>, to: Destination, n: nat)
    requires n < |qs| && Has(trace, events, qs, to, n) && KeyOf(qs[n]) == KeyOf(qs[0])
    ensures Has(trace + [InFlight(qs[0], to, Bursts(qs[..n + 1]))], events + [Process(qs[n], 0, false, Some(1))],
                qs, to, n + 1)
  {
    var s, e := InFlight(qs[0], to, Bursts(qs[..n + 1])), Process(qs[n], 0, false, Some(1));
    assert qs[..n + 1] == qs[..n] + [qs[n]];
    assert Step(trace[n + 1], s, e) by {
      BookingStep(qs[0], qs[n], to, Bursts(qs[..n]));
      BurstsMore(qs[..n], qs[n]);
    }
    FollowsOn(trace, events, 1, s, e);
    assert (events + [e])[..n + 1] == events;
  }

  lemma {:induction false} BookingPath(qs: seq<Packet>, dir: Directory, n: nat)
    returns (trace: seq<Tracker>, events: seq<Event>)
    requires |qs| > 0 && n <= |qs| && dir.Knows(qs[0])
    requires forall i :: 0 <= i < |qs| ==> KeyOf(qs[i]) == KeyOf(qs[0])
    ensures Has(trace, events, qs, dir.Goes(qs[0]).value, n)
  {
    var to := dir.Goes(qs[0]).value;
    if n == 0 {
      trace, events := [EMPTY, InFlight(qs[0], to, [])], [Start(qs[0], dir, Some(1), 0)];
      StartingPath(qs[0], dir);
      assert events[..0] == [];
    } else {
      trace, events := BookingPath(qs, dir, n - 1);
      HasMore(trace, events, qs, to, n - 1);
      trace := trace + [InFlight(qs[0], to, Bursts(qs[..n]))];
      events := events + [Process(qs[n - 1], 0, false, Some(1))];
    }
  }

  lemma BookingStep(p: Packet, q: Packet, to: Destination, heard: seq<Burst>)
    requires KeyOf(q) == KeyOf(p)
    ensures Step(InFlight(p, to, heard), InFlight(p, to, heard + [BurstOf(q, false)]), Process(q, 0, false, Some(1)))
  {
    assert 1 in Matching(InFlight(p, to, heard), q);
  }

  function CountersOf(t: Tally): Counters
    requires t.last <= 5
  {
    Counters(t.last, Wrap(t.lost), Wrap(t.total), t.hasHeader, t.hasTerm)
  }

  function RowOf(c: Counters): Saved
    requires c.total != 0
  {
    Saved(c, c.lost / c.total)
  }

  lemma CountersExist(heard: seq<Burst>) returns (c: Counters)
    ensures Stored(Close(Count(heard)), c)
  {
    TotalIsBounded(heard);
    c := CountersOf(Close(Count(heard)));
  }

  lemma RowIsSaved(c: CallInfo, counters: Counters)
    requires Stored(Close(Count(c.heard)), counters) && counters.total != 0
    ensures SavedFrom(c, RowOf(counters))
  {}

  lemma RowExists(c: CallInfo) returns (row: Saved)
    requires !TooLong(c)
    ensures SavedFrom(c, row)
  {
    var counters := CountersExist(c.heard);
    NonZero(c, counters);
    RowIsSaved(c, counters);
    row := RowOf(counters);
  }

  lemma EndingStep(p: Packet, q: Packet, to: Destination, heard: seq<Burst>) returns (s: Tracker)
    requires KeyOf(q) == KeyOf(p) && 7 * |heard| + 6 < MODULUS
    ensures Step(InFlight(p, to, heard), s, End(q, 100, {1}, {}, Finished)) && 1 !in s.calls
  {
    var before := InFlight(p, to, heard);
    var c := CallInfo(KeyOf(p), to, 0, true, heard);
    var row := RowExists(c);
    s := Tracker(map[], map[], map[1 := row], {});
    OneEnds(before, s, q, c, row);
  }

  lemma OneEnds(s: Tracker, s': Tracker, q: Packet, c: CallInfo, row: Saved)
    requires s.calls == map[1 := c] && s.timers.Keys == {1} && s.saved == map[] && s.deleted == {}
    requires s' == Tracker(map[], map[], map[1 := row], {})
    requires Matches(c, q) && c.startTime == 0 && SavedFrom(c, row)
    ensures Step(s, s', End(q, 100, {1}, {}, Finished))
  {
    assert Matching(s, q) == {1};
  }

  /** Any packets of one call make such a run, which ends with the call saved. */
  lemma CallRuns(qs: seq<Packet>, dir: Directory) returns (trace: seq<Tracker>, events: seq<Event>)
    requires |qs| > 0 && dir.Knows(qs[0]) && 7 * |qs| + 6 < MODULUS
    requires forall i :: 0 <= i < |qs| ==> KeyOf(qs[i]) == KeyOf(qs[0])
    ensures |events| == |qs| + 2 && Follows(trace, events, 1, |qs| + 1) && NoneStalled(events)
    ensures trace[0] == EMPTY && 1 !in trace[|qs| + 2].calls
    ensures Booked(events[..|qs| + 1], 1) == qs
  {
    trace, events := BookingPath(qs, dir, |qs|);
    assert qs[..|qs|] == qs;
    BurstsLength(qs);
    var to, last := dir.Goes(qs[0]).value, qs[|qs| - 1];
    var s := EndingStep(qs[0], last, to, Bursts(qs));
    var e := End(last, 100, {1}, {}, Finished);
    PathOn(trace, events, s, e);
    assert (events + [e])[..|qs| + 1] == events;
    trace, events := trace + [s], events + [e];
  }

  lemma {:induction false} BurstsLength(ps: seq<Packet>)
    ensures |Bursts(ps)| == |ps|
  {
    if ps == [] {
    } else {
      BurstsLength(ps[..|ps| - 1]);
    }
  }

  // ---------------------------------------------------------------- one packet

  /** The call has heard the packet last, with its frame type and number. */
  predicate HasHeard(before: CallInfo, after: CallInfo, p: Packet) {
    var n := |before.heard|;
    && |after.heard| == n + 1 && after.heard[..n] == before.heard
    && after.heard[n].frameType == p.frameType as nat && after.heard[n].number == p.dtypeOrVSeq as nat
  }

  /** A packet that is tracked and has an active call is heard by one call that matches it. */
  lemma PacketIsHeard(
    s: Tracker, mid1: Tracker, mid2: Tracker, s': Tracker, p: Packet, start: Event, book: Event, end: Event)
    requires PacketSteps(s, mid1, mid2, s', p, start, book, end) && IsTracked(p) && IsActive(mid1, p)
    ensures exists id :: id in Matching(mid1, p) && id in mid2.calls && HasHeard(mid1.calls[id], mid2.calls[id], p)
  {
    MatchingExists(mid1, p);
    var id := book.chosen.value;
    assert id in Matching(mid1, p) && HasHeard(mid1.calls[id], mid2.calls[id], p);
  }

  lemma MatchingExists(s: Tracker, p: Packet)
    requires IsActive(s, p)
    ensures Matching(s, p) != {}
  {
    var id :| id in s.calls && s.calls[id].active && s.calls[id].key == KeyOf(p);
    assert id in Matching(s, p);
  }

  /** A tracked terminator that has an active call ends all the calls that match it, if none is younger than
      100 ms; any other packet leaves the calls in flight. */
  lemma TerminatorEndsCalls(
    s: Tracker, mid1: Tracker, mid2: Tracker, s': Tracker, p: Packet, start: Event, book: Event, end: Event)
    requires PacketSteps(s, mid1, mid2, s', p, start, book, end) && IsTracked(p) && IsActive(mid1, p)
    requires end.End? && forall id :: id in mid2.calls ==> end.now - mid2.calls[id].startTime >= 100
    ensures p.frameType == 2 && p.dtypeOrVSeq == 2 ==> Matching(s', p) == {}
    ensures p.frameType != 2 || p.dtypeOrVSeq != 2 ==> s'.calls.Keys == mid1.calls.Keys
  {
    MatchingExists(mid1, p);
    if p.frameType == 2 && p.dtypeOrVSeq == 2 {
      EndWithoutYoung(mid2, s', p, end.now, end.ended, end.keyed, end.outcome);
    } else {
      assert mid2.calls.Keys == mid1.calls.Keys;
    }
  }

  // ---------------------------------------------------------------- the packets are voice

  /** Which packets are tracked, by the bytes received: voice to anyone but 4000 and nobody, so to the parrot too. */
  lemma TrackedByBytes(d: seq<Byte>)
    requires |d| >= 53
    ensures IsTracked(Parse(d)) <==>
              Relay.IsVoiceByte(d[15]) && BigEndian(d[8..11]) != 0 && BigEndian(d[8..11]) != 4000
  {
    Relay.VoiceOfByte(d[15]);
    FieldsAreBigEndian(d);
  }

  /** Every packet of a call, even one to the parrot, is tracked unless it is to 4000 or nobody; it goes to its
      talkgroup or its private destination, unless that is one of the server's own; and the last packet is the one
      that ends the call. */
  lemma FramesAreVoice(p: Packet, k: nat, i: nat, route: Relay.Route)
    requires i < 6 * k + 2 && IsFrame(p, k, i) && p.dst != 0 && p.dst != 4000
    ensures IsTracked(p)
    ensures p.dst == 9990 ==> (Relay.RoutedAs(p, route) <==> route == Relay.Parrot)
    ensures p.dst != 9990 ==>
              (Relay.RoutedAs(p, route) <==>
                route == if p.groupCall then Relay.ToTalkgroup(p.dst as nat) else Relay.Private(p.dst))
    ensures IsTerminator(p) <==> i == 6 * k + 1
  {}
}
