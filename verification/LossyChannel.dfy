/** The counters against the truth: a call is sent as a header, some six-burst
    superframes and a terminator, over a channel that may drop bursts but keeps order. */
module LossyChannel {
  import opened Words
  import opened Accounting
  import opened CallTracking

  /** The burst at each position of a call of `k` superframes. */
  function Sent(k: nat, i: nat): Burst
    requires i < 6 * k + 2
  {
    if i == 0 then Burst(2, 1, false)
    else if i == 6 * k + 1 then Burst(2, 2, false)
    else if (i - 1) % 6 == 0 then Burst(1, 0, false)
    else Burst(0, (i - 1) % 6, false)
  }

  /** The bursts that got through among the first `i`. */
  function Delivered(k: nat, d: seq<bool>, i: nat): seq<Burst>
    requires i <= |d| == 6 * k + 2
  {
    if i == 0 then []
    else if d[i - 1] then Delivered(k, d, i - 1) + [Sent(k, i - 1)]
    else Delivered(k, d, i - 1)
  }

  /** How many of the first `i` positions were dropped. */
  function Dropped(d: seq<bool>, i: nat): nat
    requires i <= |d|
  {
    if i == 0 then 0 else Dropped(d, i - 1) + if d[i - 1] then 0 else 1
  }

  // ---------------------------------------------------------------- where the count slips

  /** The last delivered position before `i`; the header's when no voice burst got through. */
  function LastBefore(d: seq<bool>, i: nat): (p: nat)
    requires 1 <= i <= |d|
    ensures p < i && (p > 0 ==> d[p])
    ensures forall q :: p < q < i ==> !d[q]
  {
    if i == 1 then 0 else if d[i - 1] then i - 1 else LastBefore(d, i - 1)
  }

  /** The place in the superframe of a position; the header counts as the end of one. */
  function Place(p: nat): (a: nat)
    ensures a <= 5
  {
    if p == 0 then 5 else (p - 1) % 6
  }

  /** The pairs of places whose loss is under-counted, and by how much: right after a sync
      frame, after a last frame, on a frame number that repeats, and on one that goes back. */
  function Slip(a: nat, n: nat): nat {
    if a == 0 && 2 <= n <= 4 then n - 1
    else if a == 5 && 2 <= n <= 4 then 1
    else if a == n && a != 0 then 5
    else if 1 <= n < a <= 4 then 6
    else 0
  }

  /** What is under-counted between two neighbouring delivered voice bursts: every whole
      superframe that is missing, and the slip. */
  function Under(p: nat, q: nat): nat
    requires p < q
  {
    6 * ((q - p - 1) / 6) + Slip(Place(p), Place(q))
  }

  /** The under-count over the voice bursts delivered before position `i`. */
  function Undercount(d: seq<bool>, i: nat): nat
    requires 1 <= i <= |d|
  {
    if i == 1 then 0
    else Undercount(d, i - 1) + if d[i - 1] then Under(LastBefore(d, i - 1), i - 1) else 0
  }

  /** The sync frames delivered before position `i`. */
  function Syncs(d: seq<bool>, i: nat): nat
    requires 1 <= i <= |d|
  {
    if i == 1 then 0 else Syncs(d, i - 1) + if d[i - 1] && Place(i - 1) == 0 then 1 else 0
  }

  /** Without the header, it is its own loss that is not counted, and every sync frame is booked one loss. */
  function HeaderError(d: seq<bool>, i: nat): int
    requires 1 <= i <= |d|
  {
    if d[0] then 0 else Syncs(d, i) - 1
  }

  /** The whole error of a call: the only over-counts are a terminator that arrives right after
      frame 2, which is taken for a repeat of it, and sync frames after a lost header. */
  function CallError(k: nat, d: seq<bool>): int
    requires |d| == 6 * k + 2
  {
    var end := 6 * k + 1;
    var p := LastBefore(d, end);
    HeaderError(d, end) - Undercount(d, end) - 6 * ((end - p - 1) / 6)
    + if d[end] && Place(p) == 2 then 1 else 0
  }

  // ---------------------------------------------------------------- the count follows the channel

  lemma SixesVanish(x: int, j: int, r: int)
    requires x == 6 * j + r
    ensures x % 6 == r % 6
  {}

  lemma PlaceInSuperframe(j: nat, n: nat)
    requires n < 6
    ensures Place(6 * j + 1 + n) == n
  {
    SixesVanish(6 * j + n, j, n);
  }

  /** The gap between two positions, up to whole superframes. */
  lemma GapPlaces(p: nat, q: nat)
    requires p < q
    ensures (q - p - 1) % 6 == (Place(q) + 5 - Place(p)) % 6
  {
    var m := WholeBefore(p);
    var n := WholeBefore(q);
    SixesVanish(q - p - 1, n - m - 1, Place(q) + 5 - Place(p));
  }

  /** The whole superframes before a position; the header comes before the first. */
  lemma WholeBefore(p: nat) returns (m: int)
    ensures p - 1 == 6 * m + Place(p)
  {
    m := if p == 0 then -1 else (p - 1) / 6;
  }

  /** One voice burst: what the tracker infers is the gap, less the under-count. */
  lemma VoiceStep(k: nat, t: Tally, p: nat, q: nat)
    requires p < q <= 6 * k && t.last == Place(p)
    ensures var b := Sent(k, q);
            && Missing(t, b) == q - p - 1 - Under(p, q) + (if Place(q) == 0 && !t.hasHeader then 1 else 0)
            && Weight(t.last, b) == 1
            && Hear(t, b).last == Place(q)
            && Hear(t, b).hasHeader == t.hasHeader
            && Hear(t, b).hasTerm == t.hasTerm
  {
    GapPlaces(p, q);
    var g := q - p - 1;
    assert g == 6 * (g / 6) + g % 6;
  }

  /** What is known of the tally `t` after the header and the voice bursts before position `i`. */
  ghost predicate Tracks(t: Tally, d: seq<bool>, i: nat)
    requires 1 <= i <= |d|
  {
    && t.last == Place(LastBefore(d, i))
    && t.hasHeader == d[0]
    && !t.hasTerm
    && t.total == LastBefore(d, i) + 1 - Undercount(d, i) + HeaderError(d, i)
  }

  lemma TracksVoice(k: nat, t: Tally, d: seq<bool>, i: nat)
    requires |d| == 6 * k + 2 && 1 <= i <= 6 * k && d[i] && Tracks(t, d, i)
    ensures Tracks(Hear(t, Sent(k, i)), d, i + 1)
  {
    var p := LastBefore(d, i);
    var u := Under(p, i);
    VoiceStep(k, t, p, i);
    assert Undercount(d, i + 1) == Undercount(d, i) + u;
    assert LastBefore(d, i + 1) == i;
  }

  lemma TracksHeader(k: nat, d: seq<bool>)
    requires |d| == 6 * k + 2
    ensures Tracks(Count(Delivered(k, d, 1)), d, 1)
  {
    assert Delivered(k, d, 0) == [];
    Extend([], Sent(k, 0));
  }

  lemma {:induction false} VoicePrefix(k: nat, d: seq<bool>, i: nat)
    requires |d| == 6 * k + 2 && 1 <= i <= 6 * k + 1
    ensures Tracks(Count(Delivered(k, d, i)), d, i)
  {
    if i == 1 {
      TracksHeader(k, d);
    } else {
      var before := Delivered(k, d, i - 1);
      var t := Count(before);
      VoicePrefix(k, d, i - 1);
      if d[i - 1] {
        TracksVoice(k, t, d, i - 1);
        Extend(before, Sent(k, i - 1));
      } else {
        TracksNothing(t, d, i - 1);
      }
    }
  }

  lemma TracksNothing(t: Tally, d: seq<bool>, i: nat)
    requires 1 <= i < |d| && !d[i] && Tracks(t, d, i)
    ensures Tracks(t, d, i + 1)
  {}

  /** The burst counts as one received packet, whatever was heard before it. */
  ghost predicate CountsOnce(b: Burst) {
    forall last: nat :: Weight(last, b) == 1
  }

  lemma {:induction false} DeliveredCountOnce(k: nat, d: seq<bool>, i: nat)
    requires i <= |d| == 6 * k + 2
    ensures forall b :: b in Delivered(k, d, i) ==> CountsOnce(b)
  {
    if i > 0 {
      DeliveredCountOnce(k, d, i - 1);
      SentCountsOnce(k, i - 1);
    }
  }

  lemma SentCountsOnce(k: nat, i: nat)
    requires i < 6 * k + 2
    ensures CountsOnce(Sent(k, i))
  {}

  lemma {:induction false} OncesAreReceived(heard: seq<Burst>)
    requires forall b :: b in heard ==> CountsOnce(b)
    ensures Received(heard) == |heard|
  {
    if heard == [] {
    } else {
      var before, b := heard[..|heard| - 1], heard[|heard| - 1];
      OncesAreReceived(before);
      assert CountsOnce(b);
    }
  }

  lemma {:induction false} HeardLength(k: nat, d: seq<bool>, i: nat)
    requires i <= |d| == 6 * k + 2
    ensures |Delivered(k, d, i)| == i - Dropped(d, i)
  {
    if i > 0 {
      HeardLength(k, d, i - 1);
    }
  }

  /** Every delivered burst is received. */
  lemma AllReceived(k: nat, d: seq<bool>, i: nat)
    requires i <= |d| == 6 * k + 2
    ensures Received(Delivered(k, d, i)) == |Delivered(k, d, i)| == i - Dropped(d, i)
  {
    DeliveredCountOnce(k, d, i);
    OncesAreReceived(Delivered(k, d, i));
    HeardLength(k, d, i);
  }

  /** Ending the call after the last voice burst `p`, with or without the terminator. */
  lemma Ending(k: nat, t: Tally, p: nat, term: bool)
    requires p <= 6 * k && t.last == Place(p) && !t.hasTerm
    ensures var t' := Close(if term then Hear(t, Sent(k, 6 * k + 1)) else t);
            t'.total == t.total + (6 * k + 1 - p) - 6 * ((6 * k - p) / 6)
                        + if term && Place(p) == 2 then 1 else 0
  {
    RestOfSuperframe(k, p);
  }

  /** From the last voice burst to the end it is some superframes and the rest of one. */
  lemma RestOfSuperframe(k: nat, p: nat)
    requires p <= 6 * k
    ensures 6 * k - p == 6 * ((6 * k - p) / 6) + 5 - Place(p)
  {
    var end, g := 6 * k + 1, 6 * k - p;
    GapPlaces(p, end);
    PlaceInSuperframe(k, 0);
    assert g % 6 == 5 - Place(p);
  }

  lemma TotalOverChannel(k: nat, d: seq<bool>)
    requires |d| == 6 * k + 2
    ensures Close(Count(Delivered(k, d, 6 * k + 2))).total == 6 * k + 2 + CallError(k, d)
  {
    var end := 6 * k + 1;
    var before := Delivered(k, d, end);
    VoicePrefix(k, d, end);
    Ending(k, Count(before), LastBefore(d, end), d[end]);
    Extend(before, Sent(k, end));
  }

  /** For every call length and every set of dropped bursts, the finished counters are the
      true ones plus the call's error. */
  lemma CountOverChannel(k: nat, d: seq<bool>)
    requires |d| == 6 * k + 2
    ensures var t := Close(Count(Delivered(k, d, |d|)));
            && t.total == 6 * k + 2 + CallError(k, d)
            && t.lost == Dropped(d, |d|) + CallError(k, d)
    ensures Exact(k, d) <==> CallError(k, d) == 0
  {
    TotalOverChannel(k, d);
    AllReceived(k, d, |d|);
    BookedIsReceived(Delivered(k, d, |d|));
  }

  // ---------------------------------------------------------------- when the count is exact

  ghost predicate Exact(k: nat, d: seq<bool>)
    requires |d| == 6 * k + 2
  {
    var t := Close(Count(Delivered(k, d, |d|)));
    t.total == 6 * k + 2 && t.lost == Dropped(d, |d|)
  }

  /** Position `q` is dropped, or follows its predecessor without an under-count. */
  ghost predicate CleanAt(d: seq<bool>, q: nat)
    requires 1 <= q < |d|
  {
    d[q] ==> Under(LastBefore(d, q), q) == 0
  }

  /** No under-counted pair, and no whole superframe missing, between two delivered bursts
      or after the last one. */
  ghost predicate Clean(k: nat, d: seq<bool>)
    requires |d| == 6 * k + 2
  {
    && (forall q :: 1 <= q <= 6 * k ==> CleanAt(d, q))
    && 6 * k - LastBefore(d, 6 * k + 1) < 6
  }

  lemma {:induction false} UndercountIsZero(d: seq<bool>, i: nat)
    requires 1 <= i <= |d|
    ensures Undercount(d, i) == 0 <==> forall q :: 1 <= q < i ==> CleanAt(d, q)
  {
    if i > 1 {
      UndercountIsZero(d, i - 1);
      assert CleanAt(d, i - 1) <==> Undercount(d, i) == Undercount(d, i - 1);
    }
  }

  /** With the header delivered, and no terminator taken for a repeat of frame 2, the finished
      counters are exact if and only if the drops are clean. */
  lemma ExactIffClean(k: nat, d: seq<bool>)
    requires |d| == 6 * k + 2 && d[0]
    requires d[6 * k + 1] ==> Place(LastBefore(d, 6 * k + 1)) != 2
    ensures Exact(k, d) <==> Clean(k, d)
  {
    CountOverChannel(k, d);
    UndercountIsZero(d, 6 * k + 1);
    var g := 6 * k - LastBefore(d, 6 * k + 1);
    assert g / 6 == 0 <==> g < 6;
  }

  /** After a delivered neighbour nothing is under-counted. */
  lemma NeighboursAreClean(d: seq<bool>, q: nat)
    requires 1 <= q < |d| && (q == 1 || d[q - 1])
    ensures CleanAt(d, q)
  {
    GapPlaces(q - 1, q);
    assert LastBefore(d, q) == q - 1;
  }

  lemma LastIsLast(k: nat, d: seq<bool>)
    requires |d| == 6 * k + 2 && (k > 0 ==> d[6 * k])
    ensures LastBefore(d, 6 * k + 1) == 6 * k && Place(6 * k) == 5
  {
    if k > 0 { PlaceInSuperframe(k - 1, 5); }
  }

  /** A channel that drops nothing books no loss. */
  lemma LosslessIsExact(k: nat, d: seq<bool>)
    requires |d| == 6 * k + 2 && forall i :: 0 <= i < |d| ==> d[i]
    ensures Exact(k, d)
  {
    forall q | 1 <= q <= 6 * k
      ensures CleanAt(d, q)
    {
      NeighboursAreClean(d, q);
    }
    LastIsLast(k, d);
    ExactIffClean(k, d);
  }

  lemma {:induction false} AllSyncs(d: seq<bool>, j: nat)
    requires 6 * j + 1 <= |d| && forall i :: 1 <= i <= 6 * j ==> d[i]
    ensures Syncs(d, 6 * j + 1) == j
  {
    if j > 0 {
      AllSyncs(d, j - 1);
      SyncsOfSuperframe(d, j - 1);
    }
  }

  lemma SyncsMore(d: seq<bool>, j: nat, n: nat)
    requires n < 6 && 6 * j + 2 + n <= |d| && d[6 * j + 1 + n]
    ensures Syncs(d, 6 * j + 2 + n) == Syncs(d, 6 * j + 1 + n) + if n == 0 then 1 else 0
  {
    PlaceInSuperframe(j, n);
  }

  lemma SyncsOfSuperframe(d: seq<bool>, j: nat)
    requires 6 * j + 7 <= |d| && forall i :: 6 * j + 1 <= i <= 6 * j + 6 ==> d[i]
    ensures Syncs(d, 6 * j + 7) == Syncs(d, 6 * j + 1) + 1
  {
    SyncsMore(d, j, 0);
    SyncsMore(d, j, 1);
    SyncsMore(d, j, 2);
    SyncsMore(d, j, 3);
    SyncsMore(d, j, 4);
    SyncsMore(d, j, 5);
  }

  /** A call of which only the header is dropped is booked one loss for every superframe, and as many
      packets more than it has, but one. */
  lemma OnlyHeaderLost(k: nat, d: seq<bool>)
    requires |d| == 6 * k + 2 && forall i :: 0 <= i < |d| ==> (d[i] <==> i != 0)
    ensures var t := Close(Count(Delivered(k, d, |d|)));
            t.total == 7 * k + 1 && t.lost == k
  {
    forall q | 1 <= q <= 6 * k
      ensures CleanAt(d, q)
    {
      NeighboursAreClean(d, q);
    }
    UndercountIsZero(d, 6 * k + 1);
    AllSyncs(d, k);
    LastIsLast(k, d);
    assert CallError(k, d) == k - 1;
    OneDropped(d, 0, |d|);
    CountOverChannel(k, d);
  }

  lemma {:induction false} OneDropped(d: seq<bool>, x: nat, i: nat)
    requires x < |d| && i <= |d| && forall j :: 0 <= j < |d| ==> (d[j] <==> j != x)
    ensures Dropped(d, i) == if x < i then 1 else 0
  {
    if i > 0 {
      OneDropped(d, x, i - 1);
    }
  }

  /** A call that loses the last three voice frames, so that the terminator comes right after frame 2, is
      booked one packet and one loss too many. */
  lemma EndAfterFrameTwo(k: nat, d: seq<bool>)
    requires k > 0 && |d| == 6 * k + 2
    requires forall i :: 0 <= i < |d| ==> (d[i] <==> !(6 * k - 2 <= i <= 6 * k))
    ensures var t := Close(Count(Delivered(k, d, |d|)));
            t.total == 6 * k + 3 && t.lost == 4
  {
    forall q | 1 <= q <= 6 * k
      ensures CleanAt(d, q)
    {
      if d[q] { NeighboursAreClean(d, q); }
    }
    UndercountIsZero(d, 6 * k + 1);
    PlaceInSuperframe(k - 1, 2);
    assert LastBefore(d, 6 * k - 2) == 6 * k - 3;
    assert LastBefore(d, 6 * k - 1) == 6 * k - 3;
    assert LastBefore(d, 6 * k) == 6 * k - 3;
    assert LastBefore(d, 6 * k + 1) == 6 * k - 3;
    assert CallError(k, d) == 1;
    LastThreeDropped(d, 6 * k - 2);
    CountOverChannel(k, d);
  }

  lemma LastThreeDropped(d: seq<bool>, x: nat)
    requires |d| == x + 4 && forall i :: 0 <= i < |d| ==> (d[i] <==> !(x <= i < x + 3))
    ensures Dropped(d, |d|) == 3
  {
    NoneDroppedBefore(d, x);
    assert !d[x] && Dropped(d, x + 1) == 1;
    assert !d[x + 1] && Dropped(d, x + 2) == 2;
    assert !d[x + 2] && Dropped(d, x + 3) == 3;
    assert d[x + 3];
  }

  lemma {:induction false} NoneDroppedBefore(d: seq<bool>, i: nat)
    requires i <= |d| && forall j :: 0 <= j < i ==> d[j]
    ensures Dropped(d, i) == 0
  {
    if i > 0 {
      NoneDroppedBefore(d, i - 1);
    }
  }

  /** With one burst missing, its successor is the only one without a delivered neighbour. */
  lemma SoleGap(k: nat, d: seq<bool>, x: nat, q: nat)
    requires |d| == 6 * k + 2 && 1 <= x <= 6 * k && 1 <= q <= 6 * k + 1
    requires forall i :: 0 <= i < |d| ==> (d[i] <==> i != x)
    ensures LastBefore(d, q) == if q == x + 1 then q - 2 else q - 1
  {
    if q > 1 { assert d[q - 1] <==> q != x + 1; }
    if q > 2 && q == x + 1 { assert d[q - 2]; }
  }

  lemma UnderOfNeighbours(q: nat)
    requires q >= 1
    ensures Under(q - 1, q) == 0
    ensures q >= 2 ==> Under(q - 2, q) == if Place(q - 1) == 1 then 1 else 0
  {
    GapPlaces(q - 1, q);
    if q >= 2 { GapPlaces(q - 2, q); GapPlaces(q - 2, q - 1); }
  }

  /** A single voice burst dropped from a call is noticed unless it is the one after a sync frame. */
  lemma SingleDrop(k: nat, d: seq<bool>, x: nat)
    requires |d| == 6 * k + 2 && 1 <= x <= 6 * k
    requires forall i :: 0 <= i < |d| ==> (d[i] <==> i != x)
    ensures Exact(k, d) <==> Place(x) != 1
  {
    forall q | 1 <= q <= 6 * k
      ensures CleanAt(d, q) <==> !(q == x + 1 && Place(x) == 1)
    {
      SoleGap(k, d, x, q);
      UnderOfNeighbours(q);
    }
    SoleGap(k, d, x, 6 * k + 1);
    if x < 6 * k {
      assert CleanAt(d, x + 1) <==> Place(x) != 1;
    }
    ExactIffClean(k, d);
  }

  lemma WordsOf(t: Tally, c: Counters)
    requires Stored(t, c) && c.total == t.total
    ensures c.lost == Wrap(t.lost) && (0 <= t.lost < t.total ==> c.lost == t.lost)
  {}

  lemma {:induction false} SavedWords(k: nat, d: seq<bool>, heard: seq<Burst>, c: Counters)
    requires |d| == 6 * k + 2 && heard == Delivered(k, d, |d|) && 7 * |heard| + 6 < MODULUS
    requires Stored(Close(Count(heard)), c)
    ensures c.total == 6 * k + 2 + CallError(k, d)
    ensures c.lost == Wrap(Dropped(d, |d|) + CallError(k, d))
    ensures Exact(k, d) && heard != [] ==> c.lost == Dropped(d, |d|) < c.total
  {
    var t := Close(Count(heard));
    assert t.total == 6 * k + 2 + CallError(k, d) && t.lost == Dropped(d, |d|) + CallError(k, d) by {
      CountOverChannel(k, d);
    }
    assert c.total == t.total by { TotalNeverWraps(heard, c); }
    WordsOf(t, c);
    HeardLength(k, d, |d|);
  }

  /** The row saved for a call over the channel: its total is the true one plus the error, its
      losses the same in words; and when they are exact, its loss is zero all the same. */
  lemma {:induction false} SavedCounts(k: nat, d: seq<bool>, c: CallInfo, row: Saved)
    requires |d| == 6 * k + 2 && c.heard == Delivered(k, d, |d|) && !TooLong(c) && SavedFrom(c, row)
    ensures row.counters.total == 6 * k + 2 + CallError(k, d)
    ensures row.counters.lost == Wrap(Dropped(d, |d|) + CallError(k, d))
    ensures Exact(k, d) && c.heard != [] ==> row.counters.lost == Dropped(d, |d|) && row.loss == 0
  {
    SavedWords(k, d, c.heard, row.counters);
    QuotientIsZero(row.counters.lost, row.counters.total);
  }
}
