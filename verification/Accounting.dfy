/** How one call counts its packets (internal/dmr/call_tracker.go, `updateCall` and `EndCall`).

    A call's history is the sequence of bursts it has heard. `Count` gives the
    unbounded counters of a history, with signed losses; the call object keeps the
    same numbers as wrapping words (`Stored`). */
module Accounting {
  import opened Words
  import opened Packets

  /** A burst as the tracker sees it, and whether the clock moved by more than 60 ms
      between the refresh of the call's timestamp and the duplicate test. */
  datatype Burst = Burst(frameType: nat, number: nat, stalled: bool)

  function BurstOf(p: Packet, stalled: bool): Burst {
    Burst(p.frameType as nat, p.dtypeOrVSeq as nat, stalled)
  }

  /** The seven outcomes of the branching. */
  datatype Branch = Duplicate | Header | Sync | Voice | LastVoice | Terminator | Ignored

  function BranchOf(last: nat, b: Burst): Branch {
    if last != 0 && last == b.number then Duplicate
    else if b.frameType == 2 && b.number == 1 then Header
    else if b.frameType == 1 && b.number == 0 then Sync
    else if b.frameType == 0 && 0 < b.number < 5 then Voice
    else if b.frameType == 0 && b.number == 5 then LastVoice
    else if b.frameType == 2 && b.number == 2 then Terminator
    else Ignored
  }

  datatype Tally = Tally(last: nat, lost: int, total: int, hasHeader: bool, hasTerm: bool)

  const FRESH := Tally(5, 0, 0, false, false)

  /** How many bursts the tracker believes went missing before this one; negative
      when the code's subtraction wraps. */
  function Missing(t: Tally, b: Burst): int {
    match BranchOf(t.last, b)
    case Duplicate => if b.stalled then 1 else 0
    case Header => 0
    case Sync => 5 - t.last + if t.hasHeader then 0 else 1
    case Voice =>
      if t.last == 5 then (if b.number == 1 then 1 else b.number - 1)
      else if t.last == 0 then 0
      else b.number - t.last - 1
    case LastVoice => 4 - t.last
    case Terminator => 5 - t.last
    case Ignored => 0
  }

  /** How many received packets one burst stands for: a stalled duplicate is booked as
      six packets of which one was lost. */
  function Weight(last: nat, b: Burst): nat {
    match BranchOf(last, b)
    case Ignored => 0
    case Duplicate => if b.stalled then 5 else 1
    case _ => 1
  }

  function Hear(t: Tally, b: Burst): Tally {
    var branch := BranchOf(t.last, b);
    Tally(
      match branch {
        case Duplicate => t.last
        case Header => t.last
        case Ignored => t.last
        case Terminator => 5
        case _ => b.number
      },
      t.lost + Missing(t, b),
      t.total + Missing(t, b) + Weight(t.last, b),
      t.hasHeader || branch == Header,
      t.hasTerm || branch == Terminator)
  }

  function Count(heard: seq<Burst>): Tally {
    if heard == [] then FRESH else Hear(Count(heard[..|heard| - 1]), heard[|heard| - 1])
  }

  /** What ending a call adds: the terminator if none was heard, and the rest of the superframe. */
  function Close(t: Tally): Tally {
    var rest := 5 - t.last + if t.hasTerm then 0 else 1;
    t.(lost := t.lost + rest, total := t.total + rest)
  }

  // ---------------------------------------------------------------- words

  datatype Counters = Counters(last: Word, lost: Word, total: Word, hasHeader: bool, hasTerm: bool)

  /** The counters a call object holds for a tally. */
  ghost predicate Stored(t: Tally, c: Counters) {
    && c.last == t.last <= 5
    && c.lost == Wrap(t.lost)
    && c.total == Wrap(t.total)
    && c.hasHeader == t.hasHeader
    && c.hasTerm == t.hasTerm
  }

  // ---------------------------------------------------------------- conservation

  /** The positions of the packets that took a counting branch. */
  function Counted(heard: seq<Burst>): set<nat> {
    set i: nat | i < |heard| && BranchOf(Count(heard[..i]).last, heard[i]) != Ignored
  }

  /** The positions of the repeated frame numbers that were booked as six packets. */
  function StalledRepeats(heard: seq<Burst>): set<nat> {
    set i: nat | i < |heard| && heard[i].stalled && BranchOf(Count(heard[..i]).last, heard[i]) == Duplicate
  }

  /** The weights of the packets so far. */
  function Received(heard: seq<Burst>): nat {
    if heard == [] then 0
    else
      var before := heard[..|heard| - 1];
      Received(before) + Weight(Count(before).last, heard[|heard| - 1])
  }

  lemma Extend(heard: seq<Burst>, b: Burst)
    ensures Count(heard + [b]) == Hear(Count(heard), b)
    ensures Received(heard + [b]) == Received(heard) + Weight(Count(heard).last, b)
  {
    assert (heard + [b])[..|heard|] == heard;
  }

  /** One more packet adds its own position, or none. */
  lemma {:induction false} PositionsGrow(heard: seq<Burst>, b: Burst)
    ensures var branch, n := BranchOf(Count(heard).last, b), |heard|;
            && Counted(heard + [b]) == Counted(heard) + (if branch != Ignored then {n} else {})
            && StalledRepeats(heard + [b])
               == StalledRepeats(heard) + (if branch == Duplicate && b.stalled then {n} else {})
  {
    var more := heard + [b];
    assert forall i: nat :: i <= |heard| ==> more[..i] == heard[..i];
    assert heard[..|heard|] == heard;
    forall i: nat | i < |heard|
      ensures i in Counted(more) <==> i in Counted(heard)
      ensures i in StalledRepeats(more) <==> i in StalledRepeats(heard)
    {
      assert more[..i] == heard[..i];
    }
  }

  lemma WeightOfPositions(heard: seq<Burst>, b: Burst)
    ensures var more, weight := heard + [b], Weight(Count(heard).last, b);
            && Received(more) == Received(heard) + weight
            && |Counted(more)| + 4 * |StalledRepeats(more)| == |Counted(heard)| + 4 * |StalledRepeats(heard)| + weight
  {
    Extend(heard, b);
    PositionsGrow(heard, b);
  }

  /** The weights are the counted packets and four more for every stalled repeat. */
  lemma {:induction false} ReceivedIsCounted(heard: seq<Burst>)
    ensures Received(heard) == |Counted(heard)| + 4 * |StalledRepeats(heard)|
  {
    if heard == [] {
    } else {
      var before, b := heard[..|heard| - 1], heard[|heard| - 1];
      assert heard == before + [b];
      ReceivedIsCounted(before);
      WeightOfPositions(before, b);
    }
  }

  lemma {:induction false} BookedIsReceived(heard: seq<Burst>)
    ensures Count(heard).total - Count(heard).lost == Received(heard)
  {
    if heard != [] {
      BookedIsReceived(heard[..|heard| - 1]);
    }
  }

  /** For every history, in any order and with any repeats: what is booked minus what is booked as
      lost is the number of packets that took a counting branch, and four for every stalled repeat;
      so it is that number exactly when no repeat was stalled. Ending the call keeps the difference. */
  lemma Conservation(heard: seq<Burst>)
    ensures var t := Count(heard);
            && t.total - t.lost == |Counted(heard)| + 4 * |StalledRepeats(heard)|
            && Close(t).total - Close(t).lost == t.total - t.lost
            && (t.total - t.lost == |Counted(heard)| <==> StalledRepeats(heard) == {})
  {
    BookedIsReceived(heard);
    ReceivedIsCounted(heard);
  }

  /** The same for the words of the call object, where both counters may have wrapped. */
  lemma ConservationOfWords(heard: seq<Burst>, t: Tally, c: Counters)
    requires Stored(t, c) && (t == Count(heard) || t == Close(Count(heard)))
    ensures Minus(c.total, c.lost) == Wrap(Received(heard))
    ensures Received(heard) == |Counted(heard)| + 4 * |StalledRepeats(heard)|
  {
    BookedIsReceived(heard);
    DifferenceOfWords(t, c, Received(heard));
    ReceivedIsCounted(heard);
  }

  lemma DifferenceOfWords(t: Tally, c: Counters, received: int)
    requires Stored(t, c) && t.total - t.lost == received
    ensures Minus(c.total, c.lost) == Wrap(received)
  {
    WrapSum(t.total, t.lost);
  }

  // ---------------------------------------------------------------- bounds

  ghost predicate Bounded(t: Tally, n: nat) {
    && t.last <= 5
    && (1 <= t.last <= 4 ==> t.total >= t.last - 1)
    && (t.last == 0 ==> t.total >= 2)
    && (t.last == 5 ==> t.total >= 0)
    && (t.last == 5 && (t.hasHeader || t.hasTerm) ==> t.total >= 1)
    && t.total <= 7 * n
  }

  /** `TotalPackets` never drops below zero, even though the losses added to it may be negative. */
  lemma {:induction false} TotalIsBounded(heard: seq<Burst>)
    ensures Bounded(Count(heard), |heard|)
    ensures 1 <= Close(Count(heard)).total <= 7 * |heard| + 6
  {
    if heard != [] {
      TotalIsBounded(heard[..|heard| - 1]);
    }
  }

  /** So the word never wraps while seven times the history fits in it, and the division
      that ends a call never divides by zero. */
  lemma TotalNeverWraps(heard: seq<Burst>, c: Counters)
    requires 7 * |heard| + 6 < MODULUS
    ensures Stored(Count(heard), c) ==> c.total == Count(heard).total
    ensures Stored(Close(Count(heard)), c) ==> c.total == Close(Count(heard)).total && c.total != 0
  {
    TotalIsBounded(heard);
  }

  // ---------------------------------------------------------------- the region without wrapping

  /** A voice frame 1..4 that arrives below a last frame number 1..4. */
  predicate Backward(last: nat, b: Burst) {
    BranchOf(last, b) == Voice && last != 5 && b.number < last
  }

  predicate Forward(heard: seq<Burst>) {
    heard == [] ||
    (var before := heard[..|heard| - 1];
     Forward(before) && !Backward(Count(before).last, heard[|heard| - 1]))
  }

  /** One subtraction wraps exactly on a backward frame; all the others add 0 to 6. */
  lemma WrapsExactlyBackward(heard: seq<Burst>, b: Burst)
    ensures var t := Count(heard);
            && (Missing(t, b) < 0 <==> Backward(t.last, b))
            && Missing(t, b) <= 6
            && Missing(t, b) >= -4
  {
    TotalIsBounded(heard);
  }

  /** Without backward frames the losses are a true count: non-negative, below the total
      as soon as one packet is counted, and at most six per packet. */
  lemma {:induction false} ForwardLosses(heard: seq<Burst>)
    requires Forward(heard)
    ensures var t := Count(heard);
            && 0 <= t.lost <= 6 * |heard|
            && t.lost <= t.total
            && (Counted(heard) != {} ==> t.lost < t.total)
            && 0 <= Close(t).lost <= 6 * |heard| + 6
  {
    if heard != [] {
      var before := heard[..|heard| - 1];
      ForwardLosses(before);
      WrapsExactlyBackward(before, heard[|heard| - 1]);
    }
    TotalIsBounded(heard);
    BookedIsReceived(heard);
    ReceivedIsCounted(heard);
  }

  /** The loss stored when a call ends is an integer quotient, so it is zero exactly when fewer
      packets are booked as lost than in total: every forward history with a counted packet
      ends with loss zero, however many bursts were lost. */
  lemma {:induction false} StoredLossIsZero(heard: seq<Burst>, c: Counters)
    requires 7 * |heard| + 6 < MODULUS && Stored(Close(Count(heard)), c)
    ensures c.total != 0
    ensures c.lost / c.total == 0 <==> c.lost < c.total
    ensures Forward(heard) && Counted(heard) != {} ==> c.lost / c.total == 0
  {
    TotalNeverWraps(heard, c);
    if Forward(heard) {
      ForwardLosses(heard);
    }
    QuotientIsZero(c.lost, c.total);
  }

  lemma QuotientIsZero(a: nat, b: nat)
    requires b > 0
    ensures a / b == 0 <==> a < b
  {}

  // ---------------------------------------------------------------- one packet more or less

  /** What a call with tally `t` makes of more bursts. */
  function HearAll(t: Tally, heard: seq<Burst>): Tally {
    if heard == [] then t else Hear(HearAll(t, heard[..|heard| - 1]), heard[|heard| - 1])
  }

  lemma {:induction false} CountAfter(before: seq<Burst>, after: seq<Burst>)
    ensures Count(before + after) == HearAll(Count(before), after)
  {
    if after == [] {
      assert before + after == before;
    } else {
      var n := |after| - 1;
      assert before + after == before + after[..n] + [after[n]];
      CountAfter(before, after[..n]);
      Extend(before + after[..n], after[n]);
    }
  }

  function Shifted(t: Tally, lost: int, total: int): Tally {
    t.(lost := t.lost + lost, total := t.total + total)
  }

  /** What was booked before does not change what is booked after. */
  lemma {:induction false} ShiftStays(t: Tally, lost: int, total: int, after: seq<Burst>)
    ensures HearAll(Shifted(t, lost, total), after) == Shifted(HearAll(t, after), lost, total)
  {
    if after == [] {
    } else {
      ShiftStays(t, lost, total, after[..|after| - 1]);
    }
  }

  lemma {:induction false} Inserted(before: seq<Burst>, b: Burst, after: seq<Burst>, lost: int, total: int)
    requires Hear(Count(before), b) == Shifted(Count(before), lost, total)
    ensures Count(before + [b] + after) == Shifted(Count(before + after), lost, total)
  {
    assert Count(before + [b]) == Shifted(Count(before), lost, total) by { Extend(before, b); }
    CountAfter(before, after);
    CountAfter(before + [b], after);
    ShiftStays(Count(before), lost, total, after);
  }

  /** A second header counts as one packet and changes nothing else, whenever it comes but right after frame 1. */
  lemma {:induction false} SecondHeader(before: seq<Burst>, stalled: bool, after: seq<Burst>)
    requires Count(before).hasHeader && Count(before).last != 1
    ensures Count(before + [Burst(2, 1, stalled)] + after) == Shifted(Count(before + after), 0, 1)
  {
    Inserted(before, Burst(2, 1, stalled), after, 0, 1);
  }

  /** A repeat of the last frame number other than 0, of any type, counts as one packet; when it is stalled,
      as six of which one is lost. It changes nothing else. */
  lemma {:induction false} RepeatedNumber(before: seq<Burst>, frameType: nat, stalled: bool, after: seq<Burst>)
    requires Count(before).last != 0
    ensures Count(before + [Burst(frameType, Count(before).last, stalled)] + after)
         == Shifted(Count(before + after), if stalled then 1 else 0, if stalled then 6 else 1)
  {
    var b := Burst(frameType, Count(before).last, stalled);
    Inserted(before, b, after, if stalled then 1 else 0, if stalled then 6 else 1);
  }

  /** Data does not count at all, unless its number repeats the last one. */
  lemma {:induction false} DataIsIgnored(before: seq<Burst>, number: nat, stalled: bool, after: seq<Burst>)
    requires number != 1 && number != 2 && (number != Count(before).last || number == 0)
    ensures Count(before + [Burst(2, number, stalled)] + after) == Count(before + after)
  {
    Inserted(before, Burst(2, number, stalled), after, 0, 0);
  }
}
