/** What holds of the tracker in every run of its operations (internal/dmr/call_tracker.go),
    each taken as one step, with every order of steps allowed. */
module TrackerRuns {
  import opened Words
  import opened Packets
  import opened Accounting
  import opened CallTracking

  /** One operation, with the choices that were made for it: the row number given by the
      database, the call picked by an iteration, the calls ended. */
  datatype Event =
    | Start(p: Packet, dir: Directory, row: Option<Row>, now: int)
    | Process(p: Packet, now: int, stalled: bool, chosen: Option<Row>)
    | End(p: Packet, now: int, ended: set<Row>, keyed: set<Row>, outcome: Outcome)
    | Timeout(id: Row, now: int, ended: set<Row>, keyed: set<Row>, outcome: Outcome)

  /** The database never hands out a row number twice. */
  predicate Fresh(s: Tracker, id: Option<Row>) {
    id.Some? ==> id.value !in s.calls && id.value !in s.saved
  }

  ghost predicate EndStep(
    s: Tracker, s': Tracker, p: Packet, now: int, ended: set<Row>, keyed: set<Row>, outcome: Outcome)
  {
    outcome != Crashed && Accounts(s, p, outcome, ended, keyed) && Ends(s, s', p, now, ended, keyed)
  }

  ghost predicate Step(s: Tracker, s': Tracker, e: Event) {
    match e
    case Start(p, dir, row, now) =>
      Fresh(s, row) && s' == Started(s, p, dir, row, now)
    case Process(p, now, stalled, chosen) =>
      if chosen.None? then Matching(s, p) == {} && s' == s
      else
        && chosen.value in Matching(s, p) && chosen.value in s.timers
        && s' == Updated(s, chosen.value, BurstOf(p, stalled), now)
    case End(p, now, ended, keyed, outcome) =>
      EndStep(s, s', p, now, ended, keyed, outcome)
    case Timeout(id, now, ended, keyed, outcome) =>
      && id in s.timers && s.timers[id].deadline <= now
      && EndStep(s, s', s.timers[id].packet, now, ended, keyed, outcome)
  }

  const EMPTY := Tracker(map[], map[], map[], {})

  /** `trace` follows the events. */
  ghost predicate IsPath(trace: seq<Tracker>, events: seq<Event>) {
    && |trace| == |events| + 1
    && forall i :: 0 <= i < |events| ==> Step(trace[i], trace[i + 1], events[i])
  }

  /** And it starts empty. */
  ghost predicate IsRun(trace: seq<Tracker>, events: seq<Event>) {
    IsPath(trace, events) && trace[0] == EMPTY
  }

  /** A path on which calls are only started when none is active for the packet. */
  ghost predicate GuardedPath(trace: seq<Tracker>, events: seq<Event>) {
    IsPath(trace, events) && forall i :: 0 <= i < |events| ==> Guarded(trace[i], events[i])
  }

  /** Voice is tracked, but not the call to 4000 that unlinks, nor one to nobody. */
  predicate IsTracked(p: Packet) {
    IsVoice(p) && p.dst != 0 && p.dst != 4000
  }

  /** A start, if no call was active. */
  ghost predicate StartStep(s: Tracker, s': Tracker, p: Packet, start: Event) {
    if IsActive(s, p) then s' == s else start.Start? && start.p == p && Step(s, s', start)
  }

  /** A booking and, on a terminator, an end. */
  ghost predicate BookSteps(s: Tracker, mid: Tracker, s': Tracker, p: Packet, book: Event, end: Event) {
    && book.Process? && book.p == p && Step(s, mid, book)
    && if IsTerminator(p) then end.End? && end.p == p && Step(mid, s', end) else s' == mid
  }

  /** What the packet handler makes of one packet it tracks: a start if no call was active, then, if
      one is, a booking and, on a terminator, an end. The `mid` states lie between. */
  ghost predicate PacketSteps(
    s: Tracker, mid1: Tracker, mid2: Tracker, s': Tracker, p: Packet, start: Event, book: Event, end: Event)
  {
    if !IsTracked(p) then s' == mid2 == mid1 == s
    else
      && StartStep(s, mid1, p, start)
      && if IsActive(mid1, p) then BookSteps(mid1, mid2, s', p, book, end) else s' == mid2 == mid1
  }

  /** So it is a guarded path. */
  lemma PacketStepsAreGuarded(
    s: Tracker, mid1: Tracker, mid2: Tracker, s': Tracker, p: Packet, start: Event, book: Event, end: Event)
    requires PacketSteps(s, mid1, mid2, s', p, start, book, end)
    ensures exists trace, events :: GuardedPath(trace, events) && trace[0] == s && trace[|events|] == s'
  {
    var active := IsTracked(p) && IsActive(mid1, p);
    var t1, e1 := PathGrows([s], [], mid1, start, IsTracked(p) && !IsActive(s, p));
    var t2, e2 := PathGrows(t1, e1, mid2, book, active);
    var t3, e3 := PathGrows(t2, e2, s', end, active && IsTerminator(p));
  }

  /** One more step, if it is taken. */
  lemma PathGrows(trace: seq<Tracker>, events: seq<Event>, s: Tracker, e: Event, taken: bool)
    returns (trace': seq<Tracker>, events': seq<Event>)
    requires GuardedPath(trace, events)
    requires if taken then Step(trace[|events|], s, e) && Guarded(trace[|events|], e) else s == trace[|events|]
    ensures GuardedPath(trace', events') && trace'[0] == trace[0] && trace'[|events'|] == s
  {
    if taken {
      trace', events' := trace + [s], events + [e];
    } else {
      trace', events' := trace, events;
    }
  }

  /** Calls are started only by packets for which none is active: the guarded packet step. */
  predicate Guarded(s: Tracker, e: Event) {
    e.Start? ==> !IsActive(s, e.p)
  }

  // ---------------------------------------------------------------- the two maps

  /** A timer's captured packet is one of its own call's, started two seconds before it can fire. */
  predicate OwnTimer(c: CallInfo, t: Timer) {
    c.key == KeyOf(t.packet) && c.startTime + TIMER_DELAY <= t.deadline
  }

  ghost predicate Registered(s: Tracker) {
    && (forall id :: id in s.calls ==> s.calls[id].active)
    && s.timers.Keys <= s.calls.Keys
    && s.calls.Keys - s.timers.Keys == s.deleted
    && s.calls.Keys !! s.saved.Keys
    && (forall id :: id in s.timers ==> OwnTimer(s.calls[id], s.timers[id]))
  }

  /** Time does not run backwards for the packets of a call. */
  predicate Timely(s: Tracker, e: Event) {
    e.Process? && e.chosen.Some? && e.chosen.value in s.calls ==> s.calls[e.chosen.value].startTime <= e.now
  }

  lemma StartKeepsRegistered(s: Tracker, p: Packet, dir: Directory, row: Option<Row>, now: int)
    requires Registered(s) && Fresh(s, row)
    ensures Registered(Started(s, p, dir, row, now))
  {
    var s' := Started(s, p, dir, row, now);
    if s' != s {
      assert s'.calls.Keys == s.calls.Keys + {row.value} && s'.timers.Keys == s.timers.Keys + {row.value};
    }
  }

  lemma UpdateKeepsRegistered(s: Tracker, id: Row, b: Burst, now: int)
    requires Registered(s) && id in s.timers && s.calls[id].startTime <= now
    ensures Registered(Updated(s, id, b, now))
  {
    var s' := Updated(s, id, b, now);
    assert s'.calls.Keys == s.calls.Keys && s'.timers.Keys == s.timers.Keys;
  }

  lemma StepKeepsRegistered(s: Tracker, s': Tracker, e: Event)
    requires Registered(s) && Step(s, s', e) && Timely(s, e)
    ensures Registered(s')
  {
    match e
    case Start(p, dir, row, now) =>
      StartKeepsRegistered(s, p, dir, row, now);
    case Process(p, now, stalled, chosen) =>
      if chosen.Some? { UpdateKeepsRegistered(s, chosen.value, BurstOf(p, stalled), now); }
    case End(p, now, ended, keyed, outcome) =>
      EndKeepsRegistered(s, s', p, now, ended, keyed);
    case Timeout(id, now, ended, keyed, outcome) =>
      EndKeepsRegistered(s, s', s.timers[id].packet, now, ended, keyed);
  }

  lemma EndKeepsRegistered(s: Tracker, s': Tracker, p: Packet, now: int, ended: set<Row>, keyed: set<Row>)
    requires Registered(s) && Ends(s, s', p, now, ended, keyed)
    ensures Registered(s')
  {
    forall id | id in ended
      ensures id !in keyed
    {
      assert Young(s.calls[id], now) <==> id in keyed;
    }
    KeysAfterEnd(s.calls.Keys, s.timers.Keys, ended, keyed);
    assert s'.calls.Keys == s.calls.Keys - ended;
    assert s'.timers.Keys == s.timers.Keys - ended - keyed;
  }

  /** The calls without a timer are more by the key-ups. */
  lemma KeysAfterEnd(calls: set<Row>, timers: set<Row>, ended: set<Row>, keyed: set<Row>)
    requires keyed <= timers <= calls && ended <= timers && ended !! keyed
    ensures timers - ended - keyed <= calls - ended
    ensures (calls - ended) - (timers - ended - keyed) == (calls - timers) + keyed
  {}

  ghost predicate TimelyRun(trace: seq<Tracker>, events: seq<Event>)
    requires |trace| == |events| + 1
  {
    forall i :: 0 <= i < |events| ==> Timely(trace[i], events[i])
  }

  /** In every run, each call in flight is active; the timers are of calls in flight; and the
      calls without a timer are exactly those that were ended as key-ups. */
  lemma {:induction false} RunsAreRegistered(trace: seq<Tracker>, events: seq<Event>, n: nat)
    requires IsRun(trace, events) && TimelyRun(trace, events) && n <= |events|
    ensures Registered(trace[n])
  {
    if n > 0 {
      RunsAreRegistered(trace, events, n - 1);
      StepKeepsRegistered(trace[n - 1], trace[n], events[n - 1]);
    }
  }

  /** A timeout that fires ends a call it matches, and never as a key-up. */
  lemma TimeoutMatchesItsCall(trace: seq<Tracker>, events: seq<Event>, n: nat, id: Row, now: int)
    requires IsRun(trace, events) && TimelyRun(trace, events) && n <= |events|
    requires id in trace[n].timers && trace[n].timers[id].deadline <= now
    ensures id in Matching(trace[n], trace[n].timers[id].packet) && !Young(trace[n].calls[id], now)
  {
    RunsAreRegistered(trace, events, n);
  }

  /** Some matching call panics on its timer exactly when one was ended as a key-up before; and
      every one does, whichever the iteration comes to first, exactly when all of them were. */
  lemma PanicsExactlyAfterKeyUp(trace: seq<Tracker>, events: seq<Event>, n: nat, p: Packet)
    requires IsRun(trace, events) && TimelyRun(trace, events) && n <= |events|
    ensures (exists id :: id in Matching(trace[n], p) && id !in trace[n].timers)
       <==> (exists id :: id in Matching(trace[n], p) && id in trace[n].deleted)
    ensures Matching(trace[n], p) !! trace[n].timers.Keys <==> Matching(trace[n], p) <= trace[n].deleted
  {
    RunsAreRegistered(trace, events, n);
    assert forall id :: id in Matching(trace[n], p) ==> (id !in trace[n].timers <==> id in trace[n].deleted);
  }

  /** The packet finds a call, and neither booking on one nor ending one can be done without a panic. */
  ghost predicate Stuck(s: Tracker, p: Packet) {
    && Matching(s, p) != {}
    && (forall s', now, stalled, chosen :: !Step(s, s', Process(p, now, stalled, chosen)))
    && (forall s', now, ended, keyed, outcome :: !Step(s, s', End(p, now, ended, keyed, outcome)))
  }

  lemma EndingStopsATimer(
    s: Tracker, s': Tracker, p: Packet, now: int, ended: set<Row>, keyed: set<Row>, outcome: Outcome)
    requires EndStep(s, s', p, now, ended, keyed, outcome)
    ensures Matching(s, p) == {} || exists id :: id in Matching(s, p) && id in s.timers
  {
    assert outcome == KeyUp ==> exists id :: id in keyed;
    assert forall id :: id in ended + keyed ==> id in Matching(s, p) * s.timers.Keys;
    if outcome == Finished && Matching(s, p) != {} {
      var id :| id in Matching(s, p);
      assert id in ended;
    }
  }

  /** When every matching call was ended as a key-up, the packet panics, in whatever order the calls are visited. */
  lemma KeyUpsStick(trace: seq<Tracker>, events: seq<Event>, n: nat, p: Packet)
    requires IsRun(trace, events) && TimelyRun(trace, events) && n <= |events|
    ensures Stuck(trace[n], p) <==> Matching(trace[n], p) != {} && Matching(trace[n], p) <= trace[n].deleted
  {
    PanicsExactlyAfterKeyUp(trace, events, n, p);
    var s := trace[n];
    if Matching(s, p) <= s.deleted {
      forall s', now, ended, keyed, outcome | EndStep(s, s', p, now, ended, keyed, outcome)
        ensures Matching(s, p) == {}
      {
        EndingStopsATimer(s, s', p, now, ended, keyed, outcome);
      }
    } else {
      var id :| id in Matching(s, p) && id in s.timers;
      var booked := Updated(s, id, BurstOf(p, false), 0);
      assert Step(s, booked, Process(p, 0, false, Some(id)));
    }
  }

  /** Such a run: a call is started, and ended after 50 ms. */
  lemma KeyUpRun(p: Packet, dir: Directory)
    returns (trace: seq<Tracker>, events: seq<Event>)
    requires dir.Knows(p)
    ensures IsRun(trace, events) && TimelyRun(trace, events) && |events| == 2
    ensures events[0] == Start(p, dir, Some(1), 0) && events[1].End? && events[1].p == p
    ensures Stuck(trace[2], p)
  {
    var s := Started(EMPTY, p, dir, Some(1), 0);
    var s' := s.(timers := s.timers - {1}, deleted := {1});
    trace, events := [EMPTY, s, s'], [Start(p, dir, Some(1), 0), End(p, 50, {}, {1}, KeyUp)];
    assert Matching(s, p) == {1} == Matching(s', p);
    assert Ends(s, s', p, 50, {}, {1});
    KeyUpsStick(trace, events, 2, p);
  }

  /** With no young matching call, ending takes out exactly the matching calls and leaves
      everything else as it was. */
  lemma EndWithoutYoung(
    s: Tracker, s': Tracker, p: Packet, now: int, ended: set<Row>, keyed: set<Row>, outcome: Outcome)
    requires EndStep(s, s', p, now, ended, keyed, outcome)
    requires forall id :: id in Matching(s, p) ==> !Young(s.calls[id], now)
    ensures s'.calls == s.calls - Matching(s, p)
    ensures s'.timers == s.timers - Matching(s, p)
    ensures s'.saved.Keys == s.saved.Keys + Matching(s, p) && s'.deleted == s.deleted
  {
    assert forall id :: id in keyed ==> id in Matching(s, p);
    assert keyed == {};
  }

  // ---------------------------------------------------------------- what a call is known by, and its times

  /** A new call by `p` is known by just the packets with the same stream, source, destination, slot and
      call type; booking and ending do not look at the destination. */
  lemma NewCallIsKnownBy(p: Packet, q: Packet, to: Destination, now: int)
    ensures var c := NewCall(p, to, now);
            && (c.key == KeyOf(q) <==>
                  && q.streamID == p.streamID && q.src == p.src && q.dst == p.dst
                  && q.slot == p.slot && q.groupCall == p.groupCall)
            && (Matches(c, q) <==>
                  q.streamID == p.streamID && q.src == p.src && q.slot == p.slot && q.groupCall == p.groupCall)
  {}

  /** In a tracker with no other call, these are the packets for which a call is active, and which find one. */
  lemma CallIsFound(p: Packet, q: Packet, dir: Directory, now: int)
    requires dir.Knows(p)
    ensures var s, c := Started(EMPTY, p, dir, Some(1), now), NewCall(p, dir.Goes(p).value, now);
            && (IsActive(s, q) <==> c.key == KeyOf(q))
            && Matching(s, q) == if Matches(c, q) then {1} else {}
  {
    var s := Started(EMPTY, p, dir, Some(1), now);
    assert s.calls == map[1 := NewCall(p, dir.Goes(p).value, now)];
    assert 1 in s.calls;
  }

  /** It is to a talkgroup if one has its destination's number, and else to a repeater, or to a user if private. */
  lemma DestinationIsKnown(p: Packet, dir: Directory, now: int)
    requires dir.Knows(p)
    ensures var to := Started(EMPTY, p, dir, Some(1), now).calls[1].to;
            && (to == ToTalkgroup <==> p.groupCall && p.dst in dir.talkgroups)
            && (to == ToRepeater <==> p.groupCall && p.dst !in dir.talkgroups && p.dst in dir.repeaters)
            && (to == ToUser <==> !p.groupCall && p.dst in dir.users)
  {}

  /** The event starts the call, or books a packet on it. */
  predicate Touches(e: Event, id: Row) {
    || (e.Start? && e.row == Some(id) && e.dir.Knows(e.p))
    || (e.Process? && e.chosen == Some(id))
  }

  lemma TouchStep(s: Tracker, s': Tracker, e: Event, id: Row)
    requires Step(s, s', e) && id in s'.timers
    ensures if Touches(e, id) then s'.timers[id].deadline == e.now + 2000
            else id in s.timers && s'.timers[id].deadline == s.timers[id].deadline
  {
    match e
    case Start(_, _, _, _) =>
    case Process(_, _, _, _) =>
    case End(_, _, _, _, _) =>
    case Timeout(_, _, _, _, _) =>
  }

  /** In every run a call's timeout is two seconds after its start or its latest packet. */
  lemma {:induction false} TimersFollowPackets(trace: seq<Tracker>, events: seq<Event>, n: nat, id: Row)
    requires IsRun(trace, events) && n <= |events| && id in trace[n].timers
    ensures exists i ::
              && 0 <= i < n && Touches(events[i], id)
              && trace[n].timers[id].deadline == events[i].now + 2000
              && forall j :: i < j < n ==> !Touches(events[j], id)
  {
    if n > 0 {
      var e := events[n - 1];
      assert Step(trace[n - 1], trace[n], e);
      TouchStep(trace[n - 1], trace[n], e, id);
      if !Touches(e, id) {
        TimersFollowPackets(trace, events, n - 1, id);
      }
    }
  }

  /** A call whose timer an end has stopped is a key-up, and stays in flight, exactly when it is younger than 100 ms. */
  lemma EndingGoesByAge(s: Tracker, s': Tracker, e: Event, id: Row)
    requires Step(s, s', e) && (e.End? || e.Timeout?)
    requires id in s.calls && id in s.timers && id !in s'.timers && id !in s.saved
    ensures id in s'.calls <==> e.now - s.calls[id].startTime < 100
    ensures id in s'.calls <==> id !in s'.saved
  {}

  /** The packets that end a call are those that are booked as terminators, and those that come right after frame 2. */
  lemma TerminatorsEnd(last: nat, p: Packet, stalled: bool)
    ensures BranchOf(last, BurstOf(p, stalled)) == Terminator <==> IsTerminator(p) && last != 2
  {}

  // ---------------------------------------------------------------- uniqueness

  ghost predicate Unique(s: Tracker) {
    forall a, b | a in s.calls && b in s.calls && s.calls[a].active && s.calls[b].active ::
      s.calls[a].key == s.calls[b].key ==> a == b
  }

  /** A start keeps uniqueness if and only if no call was active for the packet. */
  lemma StartIsUniqueIffInactive(s: Tracker, p: Packet, dir: Directory, row: Row, now: int)
    requires Unique(s) && Fresh(s, Some(row)) && dir.Knows(p)
    ensures Unique(Started(s, p, dir, Some(row), now)) <==> !IsActive(s, p)
  {
    var s' := Started(s, p, dir, Some(row), now);
    if IsActive(s, p) {
      var id :| id in s.calls && s.calls[id].active && s.calls[id].key == KeyOf(p);
      assert s'.calls[id].key == s'.calls[row].key && id != row;
    } else {
      assert forall id :: id in s.calls && s.calls[id].active ==> s.calls[id].key != KeyOf(p);
    }
  }

  /** A start that does file a call while one is active for the packet. */
  predicate Duplicates(s: Tracker, e: Event) {
    e.Start? && e.dir.Knows(e.p) && e.row.Some? && IsActive(s, e.p)
  }

  lemma StepIsUniqueIffNoDuplicate(s: Tracker, s': Tracker, e: Event)
    requires Unique(s) && Step(s, s', e)
    ensures Unique(s') <==> !Duplicates(s, e)
  {
    match e
    case Start(p, dir, row, now) =>
      if dir.Knows(p) && row.Some? {
        StartIsUniqueIffInactive(s, p, dir, row.value, now);
      }
    case Process(p, now, stalled, chosen) =>
    case End(p, now, ended, keyed, outcome) =>
    case Timeout(id, now, ended, keyed, outcome) =>
  }

  /** A run has at most one active call in flight for each stream, source, destination, slot and
      call type all along if and only if no start on it filed a call while one was active. */
  lemma {:induction false} UniqueIffNoDuplicates(trace: seq<Tracker>, events: seq<Event>, n: nat)
    requires IsRun(trace, events) && n <= |events|
    ensures (forall i :: 0 <= i <= n ==> Unique(trace[i]))
       <==> (forall i :: 0 <= i < n ==> !Duplicates(trace[i], events[i]))
  {
    if n > 0 {
      UniqueIffNoDuplicates(trace, events, n - 1);
      if Unique(trace[n - 1]) {
        StepIsUniqueIffNoDuplicate(trace[n - 1], trace[n], events[n - 1]);
      }
    }
  }

  /** So the guard of the packet handler is enough. */
  lemma RunsAreUnique(trace: seq<Tracker>, events: seq<Event>, n: nat)
    requires IsRun(trace, events) && GuardedPath(trace, events) && n <= |events|
    ensures Unique(trace[n])
  {
    forall i | 0 <= i < n
      ensures !Duplicates(trace[i], events[i])
    {
      assert Guarded(trace[i], events[i]);
    }
    UniqueIffNoDuplicates(trace, events, n);
  }

  /** A packet can panic: a matching call has no timer, or has been heard for too long to count. */
  ghost predicate Doomed(s: Tracker, p: Packet) {
    exists id :: id in Matching(s, p) && (id !in s.timers || 7 * (|s.calls[id].heard| + 1) + 6 >= MODULUS)
  }

  /** Ending can panic. */
  ghost predicate EndDoomed(s: Tracker, p: Packet) {
    exists id :: id in Matching(s, p) && (id !in s.timers || TooLong(s.calls[id]))
  }

  /** A call that was just started does not doom the packet. */
  lemma DoomedBefore(s: Tracker, p: Packet, dir: Directory, row: Option<Row>, now: int)
    requires Fresh(s, row) && Doomed(Started(s, p, dir, row, now), p)
    ensures Doomed(s, p)
  {
    var s1 := Started(s, p, dir, row, now);
    var id :| id in Matching(s1, p) && (id !in s1.timers || 7 * (|s1.calls[id].heard| + 1) + 6 >= MODULUS);
    assert id in Matching(s, p);
  }

  lemma StartDoesNotDoom(s: Tracker, s': Tracker, p: Packet, start: Event)
    requires StartStep(s, s', p, start) && Doomed(s', p)
    ensures Doomed(s, p)
  {
    if !IsActive(s, p) {
      DoomedBefore(s, p, start.dir, start.row, start.now);
    }
  }

  lemma EndDoomedBefore(s: Tracker, p: Packet, id: Row, b: Burst, now: int)
    requires id in s.calls && id in s.timers && EndDoomed(Updated(s, id, b, now), p) && id in Matching(s, p)
    ensures Doomed(s, p)
  {
    var s1 := Updated(s, id, b, now);
    var k :| k in Matching(s1, p) && (k !in s1.timers || TooLong(s1.calls[k]));
    assert k in Matching(s, p);
  }

  /** Without the guard it fails: after one start, a second one that does not ask, as in the playback
      of the parrot, leaves two active calls. */
  lemma UnguardedStartsDuplicate(p: Packet, dir: Directory, row: Row, now: int)
    requires dir.Knows(p) && row != 1
    ensures var s := Started(EMPTY, p, dir, Some(1), 0);
            IsRun([EMPTY, s], [Start(p, dir, Some(1), 0)]) && !Unique(Started(s, p, dir, Some(row), now))
  {
    var s := Started(EMPTY, p, dir, Some(1), 0);
    assert s.calls[1].active && s.calls[1].key == KeyOf(p);
    StartIsUniqueIffInactive(s, p, dir, row, now);
  }
}
