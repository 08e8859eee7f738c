/** The tracker object and its two maps (internal/dmr/call_tracker.go). */
module LiveTracker {
  import opened Words
  import opened Packets
  import opened Accounting
  import opened CallTracking
  import opened TrackerRuns

  class CallTracker {
    var inFlightCalls: map<Row, Call>
    var callEndTimers: map<Row, Timer>
    var saved: map<Row, Saved>
    var deleted: set<Row>

    /** Each call is filed under its own identifier, so no two entries share an object. */
    ghost predicate Valid()
      reads this`inFlightCalls, inFlightCalls.Values
    {
      forall id :: id in inFlightCalls ==> inFlightCalls[id].id == id && inFlightCalls[id].Valid()
    }

    ghost function Infos(): map<Row, CallInfo>
      reads this`inFlightCalls, inFlightCalls.Values
    {
      map id | id in inFlightCalls :: inFlightCalls[id].Info()
    }

    ghost function State(): Tracker
      reads this, inFlightCalls.Values
    {
      Tracker(Infos(), callEndTimers, saved, deleted)
    }

    constructor ()
      ensures Valid() && State() == Tracker(map[], map[], map[], {})
    {
      inFlightCalls, callEndTimers, saved, deleted := map[], map[], map[], {};
    }

    /** `id` is the identifier the database gave the new row, if it could be created. */
    method StartCall(p: Packet, dir: Directory, id: Option<Row>, now: int)
      requires Valid()
      modifies this
      ensures Valid() && State() == Started(old(State()), p, dir, id, now)
      ensures forall c :: c in inFlightCalls.Values ==> c in old(inFlightCalls.Values) || fresh(c)
    {
      var to := LookUp(p, dir);
      if to.None? || id.None? {
        return;
      }
      AddCall(p, to.value, id.value, now);
      ghost var calls := Infos();
      callEndTimers := callEndTimers[id.value := Timer(now + TIMER_DELAY, p)];
      assert Infos() == calls;
    }

    method AddCall(p: Packet, to: Destination, id: Row, now: int)
      requires Valid()
      modifies this`inFlightCalls
      ensures Valid() && Infos() == old(Infos())[id := NewCall(p, to, now)]
      ensures forall c :: c in inFlightCalls.Values ==> c in old(inFlightCalls.Values) || fresh(c)
    {
      var call := new Call(id, p, to, now);
      inFlightCalls := inFlightCalls[id := call];
    }

    /** Looks both ends of a call up. */
    static method LookUp(p: Packet, dir: Directory) returns (to: Option<Destination>)
      ensures to == if dir.Knows(p) then dir.Goes(p) else None
    {
      if p.src !in dir.users || p.repeater !in dir.repeaters {
        return None;
      }
      if p.groupCall {
        if p.dst !in dir.talkgroups {
          if p.dst !in dir.repeaters {
            return None;
          }
          return Some(ToRepeater);
        }
        return Some(ToTalkgroup);
      }
      if p.dst !in dir.users {
        return None;
      }
      return Some(ToUser);
    }

    method IsCallActive(p: Packet) returns (active: bool)
      requires Valid()
      ensures active <==> IsActive(State(), p)
    {
      ghost var calls := Infos();
      var todo := inFlightCalls.Keys;
      while todo != {}
        invariant todo <= inFlightCalls.Keys
        invariant forall id :: id in calls && id !in todo ==> !(calls[id].active && calls[id].key == KeyOf(p))
        decreases todo
      {
        var id :| id in todo;
        assert calls[id] == inFlightCalls[id].Info();
        if inFlightCalls[id].active && HasKey(inFlightCalls[id].key, p) {
          return true;
        }
        todo := todo - {id};
      }
      return false;
    }

    /** Changing one call leaves the others as they were. */
    twostate lemma OneCallChanged(call: Call)
      requires old(Valid()) && inFlightCalls == old(inFlightCalls)
      requires call.id in inFlightCalls && inFlightCalls[call.id] == call && call.Valid()
      requires forall c :: c in inFlightCalls.Values && c != call ==> unchanged(c)
      ensures Valid()
      ensures Infos() == old(Infos())[call.id := call.Info()]
    {
      forall id | id in inFlightCalls && id != call.id
        ensures inFlightCalls[id].Valid() && inFlightCalls[id].Info() == old(inFlightCalls[id].Info())
      {
        assert inFlightCalls[id] in inFlightCalls.Values && inFlightCalls[id] != call;
      }
    }

    method BookOn(call: Call, b: Burst, now: int) returns (published: bool)
      requires Valid() && call.id in inFlightCalls && inFlightCalls[call.id] == call
      modifies call
      ensures Valid() && (published <==> call.totalPackets % 2 == 0)
      ensures Infos() == old(Infos())[call.id := old(call.Info()).(heard := old(call.heard) + [b], active := true)]
    {
      call.lastPacketTime := now;
      call.Book(b);
      OneCallChanged(call);
      published := call.totalPackets % 2 == 0;
    }

    /** Pushes a timer back; one that is not there panics. */
    method ResetTimer(id: Row, now: int) returns (crashed: bool)
      modifies this`callEndTimers
      ensures crashed <==> id !in old(callEndTimers)
      ensures callEndTimers == if crashed then old(callEndTimers)
                               else old(callEndTimers)[id := old(callEndTimers)[id].(deadline := now + TIMER_DELAY)]
    {
      if id !in callEndTimers {
        return true;
      }
      callEndTimers := callEndTimers[id := callEndTimers[id].(deadline := now + TIMER_DELAY)];
      return false;
    }

    /** Books a packet on a call in flight, and publishes the call whenever its new total is even. */
    method UpdateCall(call: Call, p: Packet, now: int, stalled: bool) returns (crashed: bool, published: bool)
      requires Valid() && call.id in inFlightCalls && inFlightCalls[call.id] == call
      modifies this`callEndTimers, call
      ensures Valid()
      ensures crashed <==> call.id !in old(callEndTimers)
      ensures published <==> !crashed && call.totalPackets % 2 == 0
      ensures State() == if crashed then old(State())
                         else Updated(old(State()), call.id, BurstOf(p, stalled), now)
      ensures !crashed ==>
                && call.heard == old(call.heard) + [Burst(p.frameType as nat, p.dtypeOrVSeq as nat, stalled)]
                && callEndTimers[call.id].deadline == now + 2000
    {
      published := false;
      ghost var s := State();
      crashed := ResetTimer(call.id, now);
      if !crashed {
        assert Infos() == s.calls && call.Info() == s.calls[call.id];
        published := BookOn(call, BurstOf(p, stalled), now);
        assert State().calls == Updated(s, call.id, BurstOf(p, stalled), now).calls;
      }
    }

    /** Gives the packet to the first matching call, in an arbitrary order of the calls. */
    method ProcessCallPacket(p: Packet, now: int, stalled: bool) returns (crashed: bool, ghost chosen: Option<Row>)
      requires Valid()
      modifies this`callEndTimers, inFlightCalls.Values
      ensures Valid()
      ensures chosen.None? ==> Matching(old(State()), p) == {} && !crashed && State() == old(State())
      ensures chosen.Some? ==>
                && chosen.value in Matching(old(State()), p)
                && (crashed <==> chosen.value !in old(callEndTimers))
                && State() == if crashed then old(State())
                              else Updated(old(State()), chosen.value, BurstOf(p, stalled), now)
    {
      var todo := inFlightCalls.Keys;
      while todo != {}
        invariant todo <= inFlightCalls.Keys
        invariant State() == old(State()) && Valid()
        invariant forall id :: id in inFlightCalls && id !in todo ==> !Matches(State().calls[id], p)
        decreases todo
      {
        var id :| id in todo;
        var call := inFlightCalls[id];
        if call.key.streamID == p.streamID && call.active && call.key.timeSlot == p.slot
           && call.key.groupCall == p.groupCall && call.key.userID == p.src
        {
          assert Matches(State().calls[id], p);
          var published: bool;
          crashed, published := UpdateCall(call, p, now, stalled);
          return crashed, Some(id);
        }
        todo := todo - {id};
      }
      return false, None;
    }

    /** Closes the counters of one call, saves its row and takes it out of flight;
        `false` is the division by zero. */
    method CloseCall(call: Call) returns (ok: bool)
      requires Valid() && call.id in inFlightCalls && inFlightCalls[call.id] == call
      modifies this`inFlightCalls, this`saved, call
      ensures inFlightCalls == old(inFlightCalls) - {call.id}
      ensures !ok ==> TooLong(old(call.Info()))
      ensures ok ==>
                && Valid()
                && Infos() == old(Infos()) - {call.id}
                && call.id in saved
                && saved == old(saved)[call.id := saved[call.id]]
                && SavedFrom(old(call.Info()), saved[call.id])
    {
      ok := call.Finish();
      inFlightCalls := inFlightCalls - {call.id};
      if ok {
        var row := Saved(
          Counters(call.lastFrameNum, call.lostSequences, call.totalPackets, call.hasHeader, call.hasTerm), call.loss);
        saved := saved[call.id := row];
        assert Infos() == old(Infos()) - {call.id};
      }
    }

    /** One matching call: without a timer, stopping it panics; a young call loses its timer
        and its row and stays in flight; any other call only loses its timer for now. */
    method StopTimer(id: Row, young: bool) returns (outcome: Outcome)
      requires Valid()
      modifies this`callEndTimers, this`deleted
      ensures outcome == Crashed <==> id !in old(callEndTimers)
      ensures outcome == KeyUp <==> id in old(callEndTimers) && young
      ensures Valid() && State() == old(State()).(timers := old(callEndTimers) - {id}, deleted := deleted)
      ensures deleted == old(deleted) + if outcome == KeyUp then {id} else {}
    {
      if id !in callEndTimers {
        return Crashed;
      }
      callEndTimers := callEndTimers - {id};
      assert Infos() == old(Infos());
      if young {
        deleted := deleted + {id};
        return KeyUp;
      }
      return Finished;
    }

    /** Closes a matching call whose timer has just been stopped. */
    method CloseOne(ghost s: Tracker, ghost before: Tracker, p: Packet, now: int, ghost ended: set<Row>, id: Row)
      returns (ok: bool)
      requires Valid() && Ends(s, before, p, now, ended, {}) && State() == before.(timers := before.timers - {id})
      requires id in inFlightCalls && id in Matching(s, p) - ended && id in s.timers && !Young(s.calls[id], now)
      modifies this`inFlightCalls, this`saved, inFlightCalls[id]
      ensures !ok ==> TooLong(s.calls[id])
      ensures ok ==> Valid() && Ends(s, State(), p, now, ended + {id}, {}) && inFlightCalls == old(inFlightCalls) - {id}
    {
      var call := inFlightCalls[id];
      assert before.calls[id] == s.calls[id] == call.Info();
      ok := CloseCall(call);
      if ok {
        MoreEnded(s, before, State(), p, now, ended, id);
      }
    }

    /** One matching call of the loop of `EndCall`, after those in `ended`. */
    method EndOne(ghost s: Tracker, p: Packet, now: int, ghost ended: set<Row>, id: Row) returns (outcome: Outcome)
      requires Valid() && Ends(s, State(), p, now, ended, {})
      requires id in inFlightCalls && id in Matching(s, p) - ended
      modifies this, inFlightCalls[id]
      ensures outcome == Crashed ==> id !in s.timers || TooLong(s.calls[id])
      ensures outcome == KeyUp ==> Valid() && Ends(s, State(), p, now, ended, {id})
      ensures outcome == Finished ==> Valid() && Ends(s, State(), p, now, ended + {id}, {})
      ensures outcome == Finished ==> inFlightCalls == old(inFlightCalls) - {id}
    {
      ghost var before := State();
      assert before.calls[id] == s.calls[id] == inFlightCalls[id].Info();
      outcome := StopTimer(id, now - inFlightCalls[id].startTime < KEY_UP);
      if outcome == Finished {
        var ok := CloseOne(s, before, p, now, ended, id);
        outcome := if ok then Finished else Crashed;
      } else if outcome == KeyUp {
        KeyedUp(s, before, State(), p, now, ended, id);
      }
    }

    /** One step of the loop of `EndCall`: a call that does not match is passed over. */
    method Visit(ghost s: Tracker, p: Packet, now: int, ghost ended: set<Row>, id: Row) returns (outcome: Outcome)
      requires Valid() && Ends(s, State(), p, now, ended, {})
      requires id in inFlightCalls
      modifies this, inFlightCalls[id]
      ensures id !in Matching(s, p) ==> outcome == Finished && State() == old(State())
      ensures outcome == Crashed ==> id !in s.timers || TooLong(s.calls[id])
      ensures outcome == KeyUp ==> Valid() && Ends(s, State(), p, now, ended, {id})
      ensures outcome == Finished ==> Valid() && Ends(s, State(), p, now, ended + {id} * Matching(s, p), {})
      ensures outcome == Finished ==> inFlightCalls == old(inFlightCalls) - {id} * Matching(s, p)
    {
      var call := inFlightCalls[id];
      assert id in State().calls && id in s.calls && id !in ended;
      assert State().calls[id] == s.calls[id] == call.Info();
      if call.key.streamID == p.streamID && call.active && call.key.timeSlot == p.slot
         && call.key.groupCall == p.groupCall && call.key.userID == p.src
      {
        assert {id} * Matching(s, p) == {id};
        outcome := EndOne(s, p, now, ended, id);
      } else {
        assert {id} * Matching(s, p) == {} && ended + {} == ended;
        outcome := Finished;
      }
    }

    /** Ends the matching calls, in an arbitrary order, up to the first key-up. The key-up
        loses its timer and its row, and stays in flight. */
    method EndCall(p: Packet, now: int) returns (outcome: Outcome, ghost ended: set<Row>, ghost keyed: set<Row>)
      requires Valid()
      modifies this, inFlightCalls.Values
      ensures Accounts(old(State()), p, outcome, ended, keyed)
      ensures outcome != Crashed ==> Valid() && Ends(old(State()), State(), p, now, ended, keyed)
    {
      ghost var s := State();
      ended, keyed := {}, {};
      var todo := inFlightCalls.Keys;
      while todo != {}
        invariant Valid() && inFlightCalls.Values <= old(inFlightCalls.Values)
        invariant keyed == {} && Ends(s, State(), p, now, ended, {})
        invariant Matching(s, p) - ended <= todo <= inFlightCalls.Keys
        decreases todo
      {
        var id :| id in todo;
        todo := todo - {id};
        assert inFlightCalls[id] in inFlightCalls.Values;
        outcome := Visit(s, p, now, ended, id);
        if outcome != Finished {
          keyed := if outcome == KeyUp then {id} else {};
          return;
        }
        ended := ended + {id} * Matching(s, p);
      }
      return Finished, ended, keyed;
    }

    /** Books a packet, and ends its call on a terminator. */
    method BookAndEnd(p: Packet, now: int, stalled: bool)
      returns (crashed: bool, ghost mid: Tracker, ghost book: Event, ghost end: Event)
      requires Valid()
      modifies this, inFlightCalls.Values
      ensures crashed ==> Doomed(old(State()), p)
      ensures !crashed ==>
                Valid() && BookSteps(old(State()), mid, State(), p, book, end)
    {
      ghost var s := State();
      ghost var chosen: Option<Row>;
      crashed, chosen := ProcessCallPacket(p, now, stalled);
      mid, book := State(), Process(p, now, stalled, chosen);
      end := book;
      if !crashed && IsTerminator(p) {
        var outcome: Outcome;
        ghost var ended: set<Row>, keyed: set<Row>;
        outcome, ended, keyed := EndCall(p, now);
        end := End(p, now, ended, keyed, outcome);
        crashed := outcome == Crashed;
        if crashed {
          EndCrashed(s, mid, p, now, stalled, chosen);
        }
      }
    }

    static lemma EndCrashed(s: Tracker, mid: Tracker, p: Packet, now: int, stalled: bool, chosen: Option<Row>)
      requires EndDoomed(mid, p) && Step(s, mid, Process(p, now, stalled, chosen))
      ensures Doomed(s, p)
    {
      if chosen.Some? {
        EndDoomedBefore(s, p, chosen.value, BurstOf(p, stalled), now);
      }
    }

    /** Starts a call unless one is active for the packet. */
    method StartIfInactive(p: Packet, dir: Directory, row: Option<Row>, now: int)
      requires Valid() && Fresh(State(), row)
      modifies this
      ensures Valid() && StartStep(old(State()), State(), p, Start(p, dir, row, now))
      ensures forall c :: c in inFlightCalls.Values ==> c in old(inFlightCalls.Values) || fresh(c)
    {
      var active := IsCallActive(p);
      if !active {
        StartCall(p, dir, row, now);
      }
    }

    /** The packet step of the packet handler, for a packet that is tracked. */
    method TrackVoice(p: Packet, dir: Directory, row: Option<Row>, now: int, stalled: bool)
      returns (crashed: bool, ghost mid1: Tracker, ghost mid2: Tracker,
               ghost start: Event, ghost book: Event, ghost end: Event)
      requires Valid() && Fresh(State(), row) && IsTracked(p)
      modifies this, inFlightCalls.Values
      ensures crashed ==> Doomed(old(State()), p)
      ensures !crashed ==> Valid() && PacketSteps(old(State()), mid1, mid2, State(), p, start, book, end)
    {
      ghost var s := State();
      start := Start(p, dir, row, now);
      book, end, crashed := start, start, false;
      StartIfInactive(p, dir, row, now);
      mid1 := State();
      mid2 := mid1;
      assert StartStep(s, mid1, p, start);
      var active := IsCallActive(p);
      assert State() == mid1;
      if active {
        crashed, mid2, book, end := BookAndEnd(p, now, stalled);
        assert !crashed ==> BookSteps(mid1, mid2, State(), p, book, end);
        if crashed {
          StartDoesNotDoom(s, mid1, p, start);
        }
      }
    }

    /** The packet step of the packet handler. */
    method TrackPacket(p: Packet, dir: Directory, row: Option<Row>, now: int, stalled: bool)
      returns (crashed: bool, ghost mid1: Tracker, ghost mid2: Tracker,
               ghost start: Event, ghost book: Event, ghost end: Event)
      requires Valid() && Fresh(State(), row)
      modifies this, inFlightCalls.Values
      ensures crashed ==> Doomed(old(State()), p)
      ensures !crashed ==> Valid() && PacketSteps(old(State()), mid1, mid2, State(), p, start, book, end)
    {
      start := Start(p, dir, row, now);
      book, end, crashed := start, start, false;
      mid1, mid2 := State(), State();
      if p.dst != 0 && p.dst != 4000 && IsVoice(p) {
        crashed, mid1, mid2, start, book, end := TrackVoice(p, dir, row, now, stalled);
      }
    }

    /** A timer that fires ends the call it was set for, through its captured packet. */
    method FireTimer(id: Row, now: int)
      returns (outcome: Outcome, ghost ended: set<Row>, ghost keyed: set<Row>)
      requires Valid() && id in callEndTimers && callEndTimers[id].deadline <= now
      modifies this, inFlightCalls.Values
      ensures outcome == Crashed ==> EndDoomed(old(State()), old(callEndTimers)[id].packet)
      ensures outcome != Crashed ==>
                Valid() && Step(old(State()), State(), Timeout(id, now, ended, keyed, outcome))
    {
      outcome, ended, keyed := EndCall(callEndTimers[id].packet, now);
    }

    /** One key-up. */
    static lemma KeyedUp(s: Tracker, s1: Tracker, s2: Tracker, p: Packet, now: int, ended: set<Row>, id: Row)
      requires Ends(s, s1, p, now, ended, {})
      requires id in Matching(s, p) && id in s.timers && Young(s.calls[id], now)
      requires s2 == s1.(timers := s1.timers - {id}, deleted := s1.deleted + {id})
      ensures Ends(s, s2, p, now, ended, {id})
    {}

    /** One more call closed. */
    static lemma MoreEnded(s: Tracker, s1: Tracker, s2: Tracker, p: Packet, now: int, ended: set<Row>, id: Row)
      requires Ends(s, s1, p, now, ended, {})
      requires id in Matching(s, p) && id in s.timers && id !in ended && !Young(s.calls[id], now)
      requires id in s2.saved && SavedFrom(s.calls[id], s2.saved[id])
      requires s2.calls == s1.calls - {id} && s2.timers == s1.timers - {id}
      requires s2.saved == s1.saved[id := s2.saved[id]] && s2.deleted == s1.deleted
      ensures Ends(s, s2, p, now, ended + {id}, {})
    {
      assert s.calls - ended - {id} == s.calls - (ended + {id});
      assert s.timers - ended - {} - {id} == s.timers - (ended + {id}) - {};
    }
  }
}
