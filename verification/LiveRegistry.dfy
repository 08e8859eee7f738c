/** The two nested maps of the registry and the functions that change them (internal/models/repeater.go),
    run one after another. A missing inner mutex or inner map is a panic. */
module LiveRegistry {
  import opened Words
  import opened Links
  import opened Subscriptions

  class SubscriptionRegistry {
    var talkgroupSubscriptions: map<Id, map<Id, Handle>>
    var subscriptionCancelMutex: map<Id, set<Id>>
    var running: map<Handle, Subscriber>
    var cancelled: set<Handle>
    var next: Handle

    /** The maps of cancel functions and of mutexes have the same keys. */
    ghost predicate Valid()
      reads this
    {
      && talkgroupSubscriptions.Keys == subscriptionCancelMutex.Keys
      && forall r :: r in talkgroupSubscriptions ==> talkgroupSubscriptions[r].Keys == subscriptionCancelMutex[r]
    }

    ghost function State(): Registry
      reads this
    {
      Registry(talkgroupSubscriptions, running, cancelled, next)
    }

    constructor ()
      ensures Valid() && State() == Registry(map[], map[], {}, 0)
    {
      talkgroupSubscriptions, subscriptionCancelMutex := map[], map[];
      running, cancelled, next := map[], {}, 0;
    }

    predicate HasMutex(rid: Id, key: Id)
      reads this
    {
      rid in subscriptionCancelMutex && key in subscriptionCancelMutex[rid]
    }

    /** Looks the links up the way the cancelling code does. */
    static method StillLinked(p: Repeater, key: Id) returns (linked: bool)
      ensures linked <==> key in p.Linked()
    {
      if p.ts1Dynamic.Some? && p.ts1Dynamic.value == key {
        return true;
      }
      if p.ts2Dynamic.Some? && p.ts2Dynamic.value == key {
        return true;
      }
      var onTS1 := InStaticTalkgroups(p.ts1Static, key);
      var onTS2 := InStaticTalkgroups(p.ts2Static, key);
      return onTS1 || onTS2;
    }

    method CancelSubscription(p: Repeater, key: Id) returns (crashed: bool)
      requires Valid()
      modifies this
      ensures Valid()
      ensures crashed <==> key !in old(State()).Keys(p.radioID)
      ensures State() == if crashed then old(State()) else Cancelled(old(State()), p, key)
    {
      if !HasMutex(p.radioID, key) {
        return true;
      }
      var cancel := talkgroupSubscriptions[p.radioID][key];
      var linked := StillLinked(p, key);
      if !linked {
        talkgroupSubscriptions := talkgroupSubscriptions[p.radioID := talkgroupSubscriptions[p.radioID] - {key}];
        subscriptionCancelMutex := subscriptionCancelMutex[p.radioID := subscriptionCancelMutex[p.radioID] - {key}];
        cancelled := cancelled + {cancel};
      }
      return false;
    }

    /** Visits the keys of a repeater in an arbitrary order. */
    method CancelAllSubscriptions(p: Repeater)
      requires Valid()
      modifies this
      ensures Valid() && State() == CancelledAll(old(State()), p)
    {
      if p.radioID !in talkgroupSubscriptions {
        return;
      }
      ghost var s := State();
      var todo := talkgroupSubscriptions[p.radioID].Keys;
      NoneCancelled(s, p);
      while todo != {}
        invariant Valid() && p.radioID in s.subs && todo <= s.subs[p.radioID].Keys
        invariant State() == CancelledUpTo(s, p, s.subs[p.radioID].Keys - todo)
        decreases todo
      {
        var key :| key in todo;
        var _ := CancelSubscription(p, key);
        ghost var visited := s.subs[p.radioID].Keys - todo;
        OneMoreCancelled(s, p, visited, key);
        todo := todo - {key};
        assert s.subs[p.radioID].Keys - todo == visited + {key};
      }
    }

    /** The visited keys that are not linked have been cancelled. */
    static ghost function CancelledUpTo(s: Registry, p: Repeater, visited: set<Id>): Registry
      requires p.radioID in s.subs
    {
      var mine := s.subs[p.radioID];
      s.(subs := s.subs[p.radioID := mine - (visited - p.Linked())],
         cancelled := s.cancelled + HandlesOf(mine, visited - p.Linked()))
    }

    static lemma NoneCancelled(s: Registry, p: Repeater)
      requires p.radioID in s.subs
      ensures CancelledUpTo(s, p, s.subs[p.radioID].Keys - s.subs[p.radioID].Keys) == s
      ensures CancelledUpTo(s, p, s.subs[p.radioID].Keys - {}) == CancelledAll(s, p)
    {
      var mine := s.subs[p.radioID];
      assert mine.Keys - mine.Keys == {} && mine.Keys - {} == mine.Keys;
      assert mine - ({} - p.Linked()) == mine;
      assert s.subs[p.radioID := mine] == s.subs;
      assert HandlesOf(mine, {} - p.Linked()) == {};
    }

    static lemma OneMoreCancelled(s: Registry, p: Repeater, visited: set<Id>, key: Id)
      requires p.radioID in s.subs && key in s.subs[p.radioID] && key !in visited
      ensures var s1 := CancelledUpTo(s, p, visited);
              key in s1.Keys(p.radioID) && Cancelled(s1, p, key) == CancelledUpTo(s, p, visited + {key})
    {
      var mine := s.subs[p.radioID];
      var gone := visited - p.Linked();
      if key in p.Linked() {
        assert visited + {key} - p.Linked() == gone;
      } else {
        assert visited + {key} - p.Linked() == gone + {key};
        assert mine - (gone + {key}) == mine - gone - {key};
        assert HandlesOf(mine, gone + {key}) == HandlesOf(mine, gone) + {mine[key]};
      }
    }

    /** Listens on one key; assigning into a repeater's missing map panics. */
    method ListenForCallsOn(p: Repeater, key: Id) returns (crashed: bool)
      requires Valid()
      modifies this
      ensures Valid()
      ensures crashed <==> p.radioID !in old(talkgroupSubscriptions)
      ensures State() == if crashed then old(State()) else ListenedOn(old(State()), p, key)
    {
      if p.radioID in talkgroupSubscriptions && key in talkgroupSubscriptions[p.radioID] {
        return false;
      }
      if p.radioID !in subscriptionCancelMutex {
        return true;
      }
      subscriptionCancelMutex := subscriptionCancelMutex[p.radioID := subscriptionCancelMutex[p.radioID] + {key}];
      var mine: map<Id, Handle> := talkgroupSubscriptions[p.radioID];
      mine := mine[key := next];
      talkgroupSubscriptions := talkgroupSubscriptions[p.radioID := mine];
      running := running[next := Subscriber(p, key)];
      next := next + 1;
      return false;
    }

    method ListenForCalls(p: Repeater)
      requires Valid()
      modifies this
      ensures Valid() && State() == Listened(old(State()), p)
    {
      if p.radioID !in talkgroupSubscriptions {
        talkgroupSubscriptions := talkgroupSubscriptions[p.radioID := map[]];
        subscriptionCancelMutex := subscriptionCancelMutex[p.radioID := {}];
      }
      ghost var s := State();
      var keys := WantedKeys(p);
      for i := 0 to |keys|
        invariant Valid() && State() == ListenedOnAll(s, p, keys[..i])
      {
        var _ := ListenForCallsOn(p, keys[i]);
        assert keys[..i + 1][..i] == keys[..i];
      }
      assert keys[..|keys|] == keys;
    }

    /** A cancelled subscriber takes its key out, if it is there. */
    method CleanUp(h: Handle)
      requires Valid() && h in running && running[h].key != 0
      modifies this
      ensures Valid() && State() == CleanedUp(old(State()), h)
    {
      var sub := running[h];
      var rid := sub.repeater.radioID;
      var ok := HasMutex(rid, sub.key);
      if rid in talkgroupSubscriptions {
        talkgroupSubscriptions := talkgroupSubscriptions[rid := talkgroupSubscriptions[rid] - {sub.key}];
      }
      if ok {
        subscriptionCancelMutex := subscriptionCancelMutex[rid := subscriptionCancelMutex[rid] - {sub.key}];
      }
      running := running - {h};
    }

    /** New links take effect (the end of `POSTRepeaterTalkgroups`). */
    method Reconcile(p: Repeater)
      requires Valid()
      modifies this
      ensures Valid() && State() == Reconciled(old(State()), p)
      ensures talkgroupSubscriptions.Keys == old(talkgroupSubscriptions).Keys + {p.radioID}
      ensures State().Keys(p.radioID) == {p.radioID} + p.Linked()
    {
      ReconciledKeys(State(), p);
      CancelAllSubscriptions(p);
      ListenForCalls(p);
    }
  }
}
