/** The registry of talkgroup subscriptions, one operation at a time (internal/models/repeater.go). */
module Subscriptions {
  import opened Words
  import opened Links

  /** A subscriber goroutine and the cancel function that stops it. */
  type Handle = nat

  /** The repeater as it was when the goroutine was started, and the key it listens on:
      a talkgroup, or the repeater's own number for private calls. */
  datatype Subscriber = Subscriber(repeater: Repeater, key: Id)

  /** `running` holds the subscribers that have not cleaned up yet. The one for talkgroup
      zero returns as soon as it is started, and never does. */
  datatype Registry = Registry(
    subs: map<Id, map<Id, Handle>>,
    running: map<Handle, Subscriber>,
    cancelled: set<Handle>,
    next: Handle)
  {
    function Keys(rid: Id): set<Id> {
      if rid in subs then subs[rid].Keys else {}
    }
  }

  // ---------------------------------------------------------------- what the operations do

  /** Listening on a key that is not there yet starts a subscriber. */
  function ListenedOn(s: Registry, p: Repeater, key: Id): Registry
    requires p.radioID in s.subs
  {
    var mine: map<Id, Handle> := s.subs[p.radioID];
    if key in mine then s
    else
      var more: map<Id, Handle> := mine[key := s.next];
      s.(subs := s.subs[p.radioID := more],
         running := s.running[s.next := Subscriber(p, key)],
         next := s.next + 1)
  }

  function ListenedOnAll(s: Registry, p: Repeater, keys: seq<Id>): (s': Registry)
    requires p.radioID in s.subs
    ensures p.radioID in s'.subs
  {
    if keys == [] then s
    else ListenedOn(ListenedOnAll(s, p, keys[..|keys| - 1]), p, keys[|keys| - 1])
  }

  /** The keys of a repeater in the order they are listened on. */
  function WantedKeys(p: Repeater): seq<Id> {
    [p.radioID] + p.ts1Static + p.ts2Static
    + (if p.ts1Dynamic.Some? then [p.ts1Dynamic.value] else [])
    + (if p.ts2Dynamic.Some? then [p.ts2Dynamic.value] else [])
  }

  function Opened(s: Registry, rid: Id): Registry {
    if rid in s.subs then s else s.(subs := s.subs[rid := map[]])
  }

  function Listened(s: Registry, p: Repeater): Registry {
    ListenedOnAll(Opened(s, p.radioID), p, WantedKeys(p))
  }

  /** Cancelling a key that is not linked any more. */
  ghost function Cancelled(s: Registry, p: Repeater, key: Id): Registry
    requires key in s.Keys(p.radioID)
  {
    if key in p.Linked() then s
    else s.(subs := s.subs[p.radioID := s.subs[p.radioID] - {key}],
            cancelled := s.cancelled + {s.subs[p.radioID][key]})
  }

  /** Cancelling whatever is not linked. */
  ghost function CancelledAll(s: Registry, p: Repeater): Registry {
    if p.radioID !in s.subs then s
    else
      var mine := s.subs[p.radioID];
      s.(subs := s.subs[p.radioID := mine - (mine.Keys - p.Linked())],
         cancelled := s.cancelled + HandlesOf(mine, mine.Keys - p.Linked()))
  }

  function HandlesOf(mine: map<Id, Handle>, keys: set<Id>): set<Handle> {
    set key | key in keys && key in mine :: mine[key]
  }

  /** The cleanup of a cancelled subscriber: it removes its key, whoever holds it now. */
  function CleanedUp(s: Registry, h: Handle): Registry
    requires h in s.running && s.running[h].key != 0
  {
    var sub := s.running[h];
    var rid := sub.repeater.radioID;
    s.(subs := if rid in s.subs then s.subs[rid := s.subs[rid] - {sub.key}] else s.subs,
       running := s.running - {h})
  }

  // ---------------------------------------------------------------- reconciliation

  /** A new set of links takes effect: what is no longer linked is cancelled, then everything
      linked is listened on (the end of `POSTRepeaterTalkgroups`). */
  ghost function Reconciled(s: Registry, p: Repeater): Registry {
    Listened(CancelledAll(s, p), p)
  }

  lemma {:induction false} ListenedKeys(s: Registry, p: Repeater, keys: seq<Id>)
    requires p.radioID in s.subs
    ensures var s' := ListenedOnAll(s, p, keys);
            && s'.Keys(p.radioID) == s.Keys(p.radioID) + (set k | k in keys)
            && (forall k :: k in s.subs[p.radioID] ==> s'.subs[p.radioID][k] == s.subs[p.radioID][k])
            && s'.subs == s.subs[p.radioID := s'.subs[p.radioID]]
            && s'.cancelled == s.cancelled
  {
    if keys != [] {
      var n := |keys| - 1;
      ListenedKeys(s, p, keys[..n]);
      assert keys == keys[..n] + [keys[n]];
    }
  }

  lemma WantedKeysAreLinked(p: Repeater)
    ensures (set k | k in WantedKeys(p)) == {p.radioID} + p.Linked()
  {
    var dynamic1 := if p.ts1Dynamic.Some? then [p.ts1Dynamic.value] else [];
    var dynamic2 := if p.ts2Dynamic.Some? then [p.ts2Dynamic.value] else [];
    assert forall k :: k in WantedKeys(p) <==>
      k == p.radioID || k in p.ts1Static || k in p.ts2Static || k in dynamic1 || k in dynamic2;
  }

  lemma CancelledAllKeys(s: Registry, p: Repeater)
    ensures var s' := Opened(CancelledAll(s, p), p.radioID);
            && s'.Keys(p.radioID) == s.Keys(p.radioID) * p.Linked()
            && (forall k :: k in s'.Keys(p.radioID) ==> s'.subs[p.radioID][k] == s.subs[p.radioID][k])
            && s'.subs - {p.radioID} == s.subs - {p.radioID}
  {}

  /** From any registry, reconciling leaves exactly the repeater's own number and its links;
      a link that was there keeps its cancel function; other repeaters are not touched. */
  lemma ReconciledKeys(s: Registry, p: Repeater)
    ensures var s' := Reconciled(s, p);
            && s'.Keys(p.radioID) == {p.radioID} + p.Linked()
            && (forall k :: k in s.Keys(p.radioID) && k in p.Linked() ==>
                  s'.subs[p.radioID][k] == s.subs[p.radioID][k])
            && s'.subs - {p.radioID} == s.subs - {p.radioID}
            && s'.subs.Keys == s.subs.Keys + {p.radioID}
  {
    var s1 := Opened(CancelledAll(s, p), p.radioID);
    CancelledAllKeys(s, p);
    ListenedKeys(s1, p, WantedKeys(p));
    WantedKeysAreLinked(p);
    OnlyOneChanged(s1.subs, p.radioID, Reconciled(s, p).subs[p.radioID]);
  }

  lemma OnlyOneChanged(m: map<Id, map<Id, Handle>>, rid: Id, inner: map<Id, Handle>)
    ensures m[rid := inner] - {rid} == m - {rid}
  {}

  /** Doing it twice changes no key and no link's cancel function. */
  lemma ReconciledTwice(s: Registry, p: Repeater)
    ensures var s' := Reconciled(s, p);
            var s'' := Reconciled(s', p);
            && s''.Keys(p.radioID) == s'.Keys(p.radioID) >= p.Linked()
            && forall k :: k in p.Linked() && k in s'.Keys(p.radioID) ==>
                 s''.subs[p.radioID][k] == s'.subs[p.radioID][k]
  {
    ReconciledKeys(s, p);
    ReconciledKeys(Reconciled(s, p), p);
  }

  /** A cleanup keeps the registry as it is exactly when its key is not there. */
  lemma CleanupIsHarmless(s: Registry, h: Handle)
    requires h in s.running && s.running[h].key != 0
    ensures var sub := s.running[h];
            CleanedUp(s, h).subs == s.subs <==> sub.key !in s.Keys(sub.repeater.radioID)
  {
    var sub := s.running[h];
    var rid := sub.repeater.radioID;
    if rid in s.subs {
      var left := s.subs[rid] - {sub.key};
      assert sub.key !in left;
      if sub.key !in s.subs[rid] {
        assert left == s.subs[rid];
      }
      assert CleanedUp(s, h).subs[rid] == left;
    }
  }

  /** Reconciling cancels the subscriber of the repeater's own number and starts another; when the
      old one cleans up after that, it takes the new one's entry, and private calls are lost
      from the registry although their subscriber still runs. */
  lemma ReconciliationLosesOwnNumber(s: Registry, p: Repeater)
    requires p.radioID in s.Keys(p.radioID) && p.radioID !in p.Linked() && p.radioID != 0
    requires var h := s.subs[p.radioID][p.radioID];
             h in s.running && s.running[h].key == p.radioID
             && s.running[h].repeater.radioID == p.radioID && h < s.next
    ensures var h := s.subs[p.radioID][p.radioID];
            && h in Reconciled(s, p).cancelled
            && h in Reconciled(s, p).running && Reconciled(s, p).running[h] == s.running[h]
            && CleanedUp(Reconciled(s, p), h).Keys(p.radioID) == p.Linked()
  {
    var h := s.subs[p.radioID][p.radioID];
    ReconciledKeys(s, p);
    var s1 := CancelledAll(s, p);
    var mine := s.subs[p.radioID];
    assert p.radioID in mine.Keys - p.Linked();
    ListenedKeys(Opened(s1, p.radioID), p, WantedKeys(p));
    OldOnesRun(Opened(s1, p.radioID), p, WantedKeys(p), h);
  }

  lemma {:induction false} OldOnesRun(s: Registry, p: Repeater, keys: seq<Id>, h: Handle)
    requires p.radioID in s.subs && h in s.running && h < s.next
    ensures var s' := ListenedOnAll(s, p, keys);
            s.next <= s'.next && h in s'.running && s'.running[h] == s.running[h]
  {
    if keys != [] {
      OldOnesRun(s, p, keys[..|keys| - 1], h);
    }
  }
}
