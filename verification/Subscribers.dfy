/** The subscriber goroutines that sequential runs start, and when they are cleaned up for. */
module Subscribers {
  import opened Words
  import opened Histories
  import opened Packets
  import opened Links
  import opened Subscriptions
  import opened Linking
  import opened LinkRuns

  // ---------------------------------------------------------------- whose an entry is

  /** The subscriber's snapshot asks for the key it listens on. */
  ghost predicate AsksForKey(sub: Subscriber) {
    sub.key == sub.repeater.radioID || sub.key in sub.repeater.Linked()
  }

  /** The registry holds the subscriber's cancel function under its repeater and key. */
  predicate IsStored(s: Registry, h: Handle)
    requires h in s.running
  {
    var sub := s.running[h];
    sub.key in s.Keys(sub.repeater.radioID) && s.subs[sub.repeater.radioID][sub.key] == h
  }

  predicate IsLive(s: Registry, h: Handle) {
    h in s.running && h !in s.cancelled
  }

  /** An entry is a live subscriber's, on that very key. */
  ghost predicate Owns(s: Registry, rid: Id, key: Id) {
    key in s.Keys(rid) ==>
      var h := s.subs[rid][key];
      IsLive(s, h) && s.running[h].repeater.radioID == rid && s.running[h].key == key
  }

  ghost predicate RegistryOK(s: Registry) {
    && (forall rid, key :: Owns(s, rid, key))
    && (forall h :: h in s.running ==> h < s.next && AsksForKey(s.running[h]))
    && (forall h :: h in s.cancelled ==> h < s.next)
  }

  // ---------------------------------------------------------------- what listening does

  /** Listening adds subscribers with new handles, all of them stored, and changes no other. */
  ghost predicate Grown(s: Registry, s': Registry) {
    && s.next <= s'.next && s'.cancelled == s.cancelled
    && (forall h :: h in s.running ==> h in s'.running && s'.running[h] == s.running[h])
    && (forall h :: h in s'.running && h !in s.running ==> s.next <= h && IsStored(s', h))
    && (forall rid, key :: key in s.Keys(rid) ==> key in s'.Keys(rid) && s'.subs[rid][key] == s.subs[rid][key])
    && (forall rid, key :: key in s'.Keys(rid) && key !in s.Keys(rid) ==> s.next <= s'.subs[rid][key])
  }

  lemma ListeningGrows(s: Registry, p: Repeater, key: Id)
    requires RegistryOK(s) && p.radioID in s.subs && (key == p.radioID || key in p.Linked())
    ensures RegistryOK(ListenedOn(s, p, key)) && Grown(s, ListenedOn(s, p, key))
  {
    var s' := ListenedOn(s, p, key);
    forall r, k
      ensures Owns(s', r, k)
    {
      assert Owns(s, r, k);
    }
  }

  lemma GrownTwice(s: Registry, s1: Registry, s2: Registry)
    requires Grown(s, s1) && Grown(s1, s2)
    ensures Grown(s, s2)
  {
    forall h | h in s2.running && h !in s.running
      ensures s.next <= h && IsStored(s2, h)
    {
      if h in s1.running { assert IsStored(s1, h); }
    }
  }

  lemma {:induction false} ListeningOnAllGrows(s: Registry, p: Repeater, keys: seq<Id>)
    requires RegistryOK(s) && p.radioID in s.subs
    requires forall key :: key in keys ==> key == p.radioID || key in p.Linked()
    ensures RegistryOK(ListenedOnAll(s, p, keys)) && Grown(s, ListenedOnAll(s, p, keys))
  {
    if keys == [] {
    } else {
      var before, key := keys[..|keys| - 1], keys[|keys| - 1];
      assert key in keys;
      ListeningOnAllGrows(s, p, before);
      ListeningGrows(ListenedOnAll(s, p, before), p, key);
      GrownTwice(s, ListenedOnAll(s, p, before), ListenedOnAll(s, p, keys));
    }
  }

  lemma OpeningGrows(s: Registry, rid: Id)
    requires RegistryOK(s)
    ensures RegistryOK(Opened(s, rid)) && Grown(s, Opened(s, rid))
  {
    var s' := Opened(s, rid);
    forall r, k
      ensures Owns(s', r, k)
    {
      assert Owns(s, r, k);
    }
  }

  lemma ListeningForAllGrows(s: Registry, p: Repeater)
    requires RegistryOK(s)
    ensures RegistryOK(Listened(s, p)) && Grown(s, Listened(s, p))
  {
    var s1 := Opened(s, p.radioID);
    OpeningGrows(s, p.radioID);
    forall key | key in WantedKeys(p)
      ensures key == p.radioID || key in p.Linked()
    {
      WantedKeysAreLinked(p);
      assert key in (set k | k in WantedKeys(p));
    }
    ListeningOnAllGrows(s1, p, WantedKeys(p));
    GrownTwice(s, s1, Listened(s, p));
  }

  // ---------------------------------------------------------------- what cancelling and cleaning up do

  /** Entries go, no subscriber does; whose entry goes is cancelled, and nobody else. */
  ghost predicate Shrunk(s: Registry, s': Registry) {
    && s'.next == s.next && s'.running == s.running
    && (forall rid, key :: key in s'.Keys(rid) ==> key in s.Keys(rid) && s'.subs[rid][key] == s.subs[rid][key])
    && (forall rid, key :: key in s.Keys(rid) ==> (key !in s'.Keys(rid) <==> s.subs[rid][key] in s'.cancelled))
    && s.cancelled <= s'.cancelled
    && (forall h :: h in s'.cancelled && h !in s.cancelled ==>
          exists rid, key :: key in s.Keys(rid) && s.subs[rid][key] == h)
  }

  lemma ShrunkIsOK(s: Registry, s': Registry)
    requires RegistryOK(s) && Shrunk(s, s')
    ensures RegistryOK(s')
  {
    forall r, k
      ensures Owns(s', r, k)
    {
      assert Owns(s, r, k);
    }
    forall h | h in s'.cancelled
      ensures h < s'.next
    {
      if h !in s.cancelled {
        var rid, key :| key in s.Keys(rid) && s.subs[rid][key] == h;
        assert Owns(s, rid, key);
      }
    }
  }

  lemma CancellingShrinks(s: Registry, p: Repeater, key: Id)
    requires RegistryOK(s) && key in s.Keys(p.radioID)
    ensures Shrunk(s, Cancelled(s, p, key))
  {
    assert Owns(s, p.radioID, key);
    forall r, k | k in s.Keys(r)
      ensures k !in Cancelled(s, p, key).Keys(r) <==> s.subs[r][k] in Cancelled(s, p, key).cancelled
    {
      assert Owns(s, r, k);
    }
  }

  /** An entry goes exactly when its handle is cancelled. */
  lemma EntryIsCancelled(s: Registry, p: Repeater, rid: Id, key: Id)
    requires RegistryOK(s) && key in s.Keys(rid) && p.radioID in s.subs
    ensures key !in CancelledAll(s, p).Keys(rid) <==> s.subs[rid][key] in CancelledAll(s, p).cancelled
  {
    var mine := s.subs[p.radioID];
    var gone := mine.Keys - p.Linked();
    assert Owns(s, rid, key);
    forall k | k in gone && mine[k] == s.subs[rid][key]
      ensures rid == p.radioID && k == key
    {
      assert Owns(s, p.radioID, k);
    }
    if rid == p.radioID && key in gone { assert mine[key] in HandlesOf(mine, gone); }
  }

  lemma CancellingAllShrinks(s: Registry, p: Repeater)
    requires RegistryOK(s)
    ensures Shrunk(s, CancelledAll(s, p))
  {
    if p.radioID in s.subs {
      forall r, k | k in s.Keys(r)
        ensures k !in CancelledAll(s, p).Keys(r) <==> s.subs[r][k] in CancelledAll(s, p).cancelled
      {
        EntryIsCancelled(s, p, r, k);
      }
    } else {
      forall r, k | k in s.Keys(r)
        ensures s.subs[r][k] !in s.cancelled
      {
        assert Owns(s, r, k);
      }
    }
  }

  lemma CleaningUpIsOK(s: Registry, h: Handle)
    requires RegistryOK(s) && CanCleanUp(s, h)
    ensures RegistryOK(CleanedUp(s, h))
  {
    forall r, k
      ensures Owns(CleanedUp(s, h), r, k)
    {
      assert Owns(s, r, k);
    }
  }

  // ---------------------------------------------------------------- runs

  ghost predicate WorldOK(w: World) {
    && DbOK(w.db) && RegistryOK(w.reg)
    && forall t :: t in w.waiting && t.ListenOn? ==> t.key in t.p.Linked()
  }

  /** What one operation does to the registry. */
  ghost predicate Stepped(s: Registry, s': Registry, op: Operation) {
    if op.CleanUp? && CanCleanUp(s, op.h) then s' == CleanedUp(s, op.h)
    else if op.Run? then Grown(s, s')
    else s' == s || Shrunk(s, s')
  }

  lemma StepOK(w: World, op: Operation)
    requires WorldOK(w)
    ensures WorldOK(Apply(w, op).0) && Stepped(w.reg, Apply(w, op).0.reg, op)
  {
    ApplyKeepsNumbers(w, op);
    TasksAsk(w, op);
    match op
    case Run(task) => RunOK(w, task);
    case CleanUp(h) => if CanCleanUp(w.reg, h) { CleaningUpIsOK(w.reg, h); }
    case _ => ChangeOK(w, op);
  }

  lemma TasksAsk(w: World, op: Operation)
    requires WorldOK(w)
    ensures forall t :: t in Apply(w, op).0.waiting && t.ListenOn? ==> t.key in t.p.Linked()
  {}

  lemma RunOK(w: World, task: Task)
    requires WorldOK(w)
    ensures RegistryOK(Ran(w, task).0.reg) && Grown(w.reg, Ran(w, task).0.reg)
  {
    if task in w.waiting {
      match task
      case ListenOn(p, key) => if p.radioID in w.reg.subs { ListeningGrows(w.reg, p, key); }
      case ListenAll(p) => ListeningForAllGrows(w.reg, p);
    }
  }

  lemma ChangeOK(w: World, op: Operation)
    requires WorldOK(w) && !op.Run? && !op.CleanUp?
    ensures var w' := Apply(w, op).0;
            RegistryOK(w'.reg) && (w'.reg == w.reg || Shrunk(w.reg, w'.reg))
  {
    var w' := Apply(w, op).0;
    if w'.reg != w.reg {
      match op {
        case Drop(rid, slot) =>
          CancellingShrinks(w.reg, WithDynamic(w.db[rid], slot, None), Dynamic(w.db[rid], slot).value);
        case Unlink(rid, isStatic, slot, tg, _) =>
          CancellingShrinks(w.reg, WithoutLink(w.db[rid], isStatic, slot, tg), tg);
        case Replace(rid, ts1, ts2, dynamic1, dynamic2) =>
          CancellingAllShrinks(w.reg, Replaced(w.db[rid], ts1, ts2, dynamic1, dynamic2));
      }
      ShrunkIsOK(w.reg, w'.reg);
    }
  }

  lemma RunsAreOK(db: map<Id, Repeater>, trace: seq<World>, ops: seq<Operation>, n: nat)
    requires IsRun(db, trace, ops) && n <= |ops|
    ensures WorldOK(trace[n])
  {
    var holds := seq(|trace|, i requires 0 <= i < |trace| => WorldOK(trace[i]));
    BootOK(db);
    forall i | 0 <= i < |ops| && holds[i]
      ensures holds[i + 1]
    {
      StepOK(trace[i], ops[i]);
    }
    Always(holds, n);
  }

  lemma BootOK(db: map<Id, Repeater>)
    requires DbOK(db)
    ensures WorldOK(Boot(db))
  {}

  lemma RunsAreStepped(db: map<Id, Repeater>, trace: seq<World>, ops: seq<Operation>, n: nat)
    requires IsRun(db, trace, ops) && n < |ops|
    ensures Stepped(trace[n].reg, trace[n + 1].reg, ops[n])
  {
    RunsAreOK(db, trace, ops, n);
    StepOK(trace[n], ops[n]);
  }

  /** Unsubscribing for lack of interest never happens: in every run, with late cleanups and early
      unlinks, each subscriber's snapshot wants every packet of the talkgroup it listens on. */
  lemma SubscribersWantTheirPackets(
    db: map<Id, Repeater>, trace: seq<World>, ops: seq<Operation>, n: nat, h: Handle,
    packet: Packet, want: bool, slot: bool)
    requires IsRun(db, trace, ops) && n <= |ops|
    requires h in trace[n].reg.running && packet.dst as nat == trace[n].reg.running[h].key
    requires Wants(trace[n].reg.running[h].repeater, packet, want, slot)
    ensures want
  {
    RunsAreOK(db, trace, ops, n);
    assert AsksForKey(trace[n].reg.running[h]);
  }

  // ---------------------------------------------------------------- cleanups

  /** `later` can come after `s`: handles are used once, so a subscriber that runs later with a handle
      that was given out before has been running all along; and no cancelling is taken back. */
  ghost predicate Precedes(s: Registry, later: Registry) {
    && s.next <= later.next && s.cancelled <= later.cancelled
    && forall h :: h in later.running && h < s.next ==> h in s.running && s.running[h] == later.running[h]
  }

  lemma StepPrecedes(s: Registry, s': Registry, op: Operation)
    requires RegistryOK(s) && Stepped(s, s', op)
    ensures Precedes(s, s')
  {}

  lemma PrecedesTwice(s: Registry, s1: Registry, s2: Registry)
    requires Precedes(s, s1) && Precedes(s1, s2)
    ensures Precedes(s, s2)
  {}

  /** Along any registries each of which precedes the next, every one precedes the later ones. */
  lemma {:induction false} PrecedesLater(regs: seq<Registry>, m: nat, n: nat)
    requires m <= n < |regs| && forall i :: 0 <= i < |regs| - 1 ==> Precedes(regs[i], regs[i + 1])
    ensures Precedes(regs[m], regs[n])
  {
    if m < n {
      PrecedesLater(regs, m, n - 1);
      PrecedesTwice(regs[m], regs[n - 1], regs[n]);
    }
  }

  lemma RegistriesFollow(db: map<Id, Repeater>, trace: seq<World>, ops: seq<Operation>, m: nat, n: nat)
    requires IsRun(db, trace, ops) && m <= n <= |ops|
    ensures Precedes(trace[m].reg, trace[n].reg)
  {
    var regs := seq(|trace|, i requires 0 <= i < |trace| => trace[i].reg);
    forall i | 0 <= i < |ops|
      ensures Precedes(regs[i], regs[i + 1])
    {
      RunsAreOK(db, trace, ops, i);
      RunsAreStepped(db, trace, ops, i);
      StepPrecedes(trace[i].reg, trace[i + 1].reg, ops[i]);
    }
    PrecedesLater(regs, m, n);
  }

  /** In every run, the cleanup of a subscriber that operation `c` cancelled changes the registry if and
      only if, between the two, some goroutine listened on its key and nothing took the key after that. */
  lemma CleanupHarmsExactly(
    db: map<Id, Repeater>, trace: seq<World>, ops: seq<Operation>, c: nat, n: nat, h: Handle)
    requires IsRun(db, trace, ops) && c < n < |ops|
    requires h !in trace[c].reg.cancelled && h in trace[c + 1].reg.cancelled
    requires ops[n] == CleanUp(h) && CanCleanUp(trace[n].reg, h)
    ensures var sub := trace[n].reg.running[h];
            trace[n + 1].reg.subs != trace[n].reg.subs <==>
              Kept(trace, ops, c + 1, n, sub.repeater.radioID, sub.key)
  {
    var sub := trace[n].reg.running[h];
    assert sub.key !in trace[c + 1].reg.Keys(sub.repeater.radioID) by {
      CancelledIsGone(db, trace, ops, c, h);
      RegistriesFollow(db, trace, ops, c + 1, n);
    }
    KeysFollow(db, trace, ops, c + 1, n, sub.repeater.radioID, sub.key);
    CleanupIsHarmless(trace[n].reg, h);
  }

  /** The operation that cancels a subscriber takes its key out. */
  lemma CancelledIsGone(db: map<Id, Repeater>, trace: seq<World>, ops: seq<Operation>, c: nat, h: Handle)
    requires IsRun(db, trace, ops) && c < |ops|
    requires h !in trace[c].reg.cancelled && h in trace[c + 1].reg.cancelled
    ensures var s := trace[c + 1].reg;
            h in s.running && h < s.next && s.running[h].key !in s.Keys(s.running[h].repeater.radioID)
  {
    RunsAreOK(db, trace, ops, c);
    RunsAreStepped(db, trace, ops, c);
    var s := trace[c].reg;
    var rid, key :| key in s.Keys(rid) && s.subs[rid][key] == h;
    assert Owns(s, rid, key);
  }

  /** The operation is the cleanup of a cancelled subscriber that is still running. */
  predicate CleansUp(s: Registry, op: Operation, h: Handle) {
    op == CleanUp(h) && h in s.cancelled && h in s.running && s.running[h].key != 0
  }

  /** A handle that has been given out stays so, and its subscriber runs until it cleans up. */
  predicate RunsOn(s: Registry, s': Registry, op: Operation, h: Handle) {
    h < s.next ==> h < s'.next && (h in s'.running <==> h in s.running && !CleansUp(s, op, h))
  }

  lemma SteppedRunsOn(s: Registry, s': Registry, op: Operation, h: Handle)
    requires Stepped(s, s', op)
    ensures RunsOn(s, s', op, h)
  {}

  lemma {:induction false} RunsUntil(regs: seq<Registry>, ops: seq<Operation>, m: nat, n: nat, h: Handle)
    requires |regs| == |ops| + 1 && m <= n <= |ops| && h in regs[m].running && h < regs[m].next
    requires forall i :: 0 <= i < |ops| ==> RunsOn(regs[i], regs[i + 1], ops[i], h)
    ensures h < regs[n].next
    ensures h in regs[n].running <==> forall i :: m <= i < n ==> !CleansUp(regs[i], ops[i], h)
  {
    if m < n {
      RunsUntil(regs, ops, m, n - 1, h);
      assert RunsOn(regs[n - 1], regs[n], ops[n - 1], h);
    }
  }

  lemma RegistriesRunOn(db: map<Id, Repeater>, trace: seq<World>, ops: seq<Operation>, h: Handle)
    returns (regs: seq<Registry>)
    requires IsRun(db, trace, ops)
    ensures |regs| == |trace| && forall i :: 0 <= i < |regs| ==> regs[i] == trace[i].reg
    ensures forall i :: 0 <= i < |ops| ==> RunsOn(regs[i], regs[i + 1], ops[i], h)
  {
    regs := seq(|trace|, i requires 0 <= i < |trace| => trace[i].reg);
    forall i | 0 <= i < |ops|
      ensures RunsOn(regs[i], regs[i + 1], ops[i], h)
    {
      RunsAreStepped(db, trace, ops, i);
      SteppedRunsOn(trace[i].reg, trace[i + 1].reg, ops[i], h);
    }
  }

  /** In every run a subscriber stops running exactly by its own cleanup, which comes after it was cancelled;
      so it cleans up once and never runs again. */
  lemma EndsByItsCleanup(
    db: map<Id, Repeater>, trace: seq<World>, ops: seq<Operation>, m: nat, n: nat, h: Handle)
    requires IsRun(db, trace, ops) && m <= n <= |ops| && h in trace[m].reg.running
    ensures h in trace[n].reg.running <==> forall i :: m <= i < n ==> !CleansUp(trace[i].reg, ops[i], h)
  {
    RunsAreOK(db, trace, ops, m);
    var regs := RegistriesRunOn(db, trace, ops, h);
    RunsUntil(regs, ops, m, n, h);
    forall i | m <= i < n
      ensures CleansUp(regs[i], ops[i], h) <==> CleansUp(trace[i].reg, ops[i], h)
    {}
  }

  // ---------------------------------------------------------------- one subscriber per key

  /** The operation is another subscriber's cleanup that takes this one's entry. */
  predicate Orphans(s: Registry, op: Operation, h: Handle) {
    && op.CleanUp? && CanCleanUp(s, op.h)
    && IsLive(s, h) && IsStored(s, h)
    && s.running[op.h].repeater.radioID == s.running[h].repeater.radioID
    && s.running[op.h].key == s.running[h].key
  }

  lemma LiveStep(s: Registry, s': Registry, op: Operation, h: Handle)
    requires RegistryOK(s) && Stepped(s, s', op) && IsLive(s', h)
    ensures h in s.running ==> IsLive(s, h) && (IsStored(s', h) <==> IsStored(s, h) && !Orphans(s, op, h))
    ensures h !in s.running ==> IsStored(s', h) && s.next <= h
  {}

  ghost predicate NoOrphaning(trace: seq<World>, ops: seq<Operation>, n: nat, h: Handle)
    requires n <= |ops| < |trace|
  {
    forall i: nat :: i < n ==> !Orphans(trace[i].reg, ops[i], h)
  }

  /** What a step makes of a subscriber that is live after it. */
  predicate StaysStored(s: Registry, s': Registry, op: Operation, h: Handle) {
    && s.next <= s'.next
    && (IsLive(s, h) ==> h < s.next)
    && (IsLive(s', h) ==>
          if h in s.running then IsLive(s, h) && (IsStored(s', h) <==> IsStored(s, h) && !Orphans(s, op, h))
          else IsStored(s', h) && s.next <= h)
  }

  lemma StepStaysStored(db: map<Id, Repeater>, trace: seq<World>, ops: seq<Operation>, n: nat, h: Handle)
    requires IsRun(db, trace, ops) && n < |ops|
    ensures StaysStored(trace[n].reg, trace[n + 1].reg, ops[n], h)
  {
    RunsAreOK(db, trace, ops, n);
    RunsAreStepped(db, trace, ops, n);
    if IsLive(trace[n + 1].reg, h) {
      LiveStep(trace[n].reg, trace[n + 1].reg, ops[n], h);
    }
  }

  /** A handle that is still to be given out has no entry to lose. */
  lemma {:induction false} NotOrphanedBefore(trace: seq<World>, ops: seq<Operation>, n: nat, h: Handle)
    requires n <= |ops| < |trace| && trace[n].reg.next <= h
    requires forall i :: 0 <= i < |ops| ==> StaysStored(trace[i].reg, trace[i + 1].reg, ops[i], h)
    ensures NoOrphaning(trace, ops, n, h)
  {
    if n > 0 {
      assert StaysStored(trace[n - 1].reg, trace[n].reg, ops[n - 1], h);
      NotOrphanedBefore(trace, ops, n - 1, h);
    }
  }

  lemma {:induction false} StoredUntil(trace: seq<World>, ops: seq<Operation>, n: nat, h: Handle)
    requires n <= |ops| < |trace| && IsLive(trace[n].reg, h) && !IsLive(trace[0].reg, h)
    requires forall i :: 0 <= i < |ops| ==> StaysStored(trace[i].reg, trace[i + 1].reg, ops[i], h)
    ensures IsStored(trace[n].reg, h) <==> NoOrphaning(trace, ops, n, h)
  {
    if n > 0 {
      assert StaysStored(trace[n - 1].reg, trace[n].reg, ops[n - 1], h);
      if h in trace[n - 1].reg.running {
        StoredUntil(trace, ops, n - 1, h);
      } else {
        NotOrphanedBefore(trace, ops, n - 1, h);
      }
    }
  }

  /** In every run, a live subscriber is the one stored under its repeater and key if and only if no other
      subscriber's cleanup has taken its entry. */
  lemma StoredExactly(
    db: map<Id, Repeater>, trace: seq<World>, ops: seq<Operation>, n: nat, h: Handle)
    requires IsRun(db, trace, ops) && n <= |ops| && IsLive(trace[n].reg, h)
    ensures IsStored(trace[n].reg, h) <==> NoOrphaning(trace, ops, n, h)
  {
    forall i | 0 <= i < |ops|
      ensures StaysStored(trace[i].reg, trace[i + 1].reg, ops[i], h)
    {
      StepStaysStored(db, trace, ops, i, h);
    }
    StoredUntil(trace, ops, n, h);
  }

  /** With prompt cleanups every live subscriber is stored. */
  lemma PromptIsStored(db: map<Id, Repeater>, trace: seq<World>, ops: seq<Operation>, n: nat, h: Handle)
    requires IsRun(db, trace, ops) && n <= |ops| && Prompt(trace, ops, n) && IsLive(trace[n].reg, h)
    ensures IsStored(trace[n].reg, h)
  {
    forall i: nat | i < n
      ensures !Orphans(trace[i].reg, ops[i], h)
    {
      if Orphans(trace[i].reg, ops[i], h) {
        var sub := trace[i].reg.running[h];
        assert Loses(trace[i], ops[i], sub.repeater.radioID, sub.key);
      }
    }
    StoredExactly(db, trace, ops, n, h);
  }

  /** So there is at most one live subscriber for each repeater and key. */
  lemma AtMostOneSubscriber(
    db: map<Id, Repeater>, trace: seq<World>, ops: seq<Operation>, n: nat, h: Handle, h': Handle)
    requires IsRun(db, trace, ops) && n <= |ops| && Prompt(trace, ops, n)
    requires IsLive(trace[n].reg, h) && IsLive(trace[n].reg, h')
    requires trace[n].reg.running[h].repeater.radioID == trace[n].reg.running[h'].repeater.radioID
    requires trace[n].reg.running[h].key == trace[n].reg.running[h'].key
    ensures h == h'
  {
    PromptIsStored(db, trace, ops, n, h);
    PromptIsStored(db, trace, ops, n, h');
  }

  /** After a late cleanup of the own number's old subscriber, the next listening starts a second one. */
  lemma OwnNumberTwice(s: Registry, p: Repeater) returns (h1: Handle, h2: Handle)
    requires RegistryOK(s)
    requires p.radioID in s.Keys(p.radioID) && p.radioID !in p.Linked() && p.radioID != 0
    ensures var h := s.subs[p.radioID][p.radioID];
            CanCleanUp(Reconciled(s, p), h)
            && var s' := Listened(CleanedUp(Reconciled(s, p), h), p);
               && h1 != h2 && IsLive(s', h1) && IsLive(s', h2)
               && s'.running[h1].repeater.radioID == s'.running[h2].repeater.radioID == p.radioID
               && s'.running[h1].key == s'.running[h2].key == p.radioID
  {
    var h := s.subs[p.radioID][p.radioID];
    var s1 := CancelledAll(s, p);
    var s2 := Reconciled(s, p);
    assert Owns(s, p.radioID, p.radioID);
    CancellingAllShrinks(s, p);
    ShrunkIsOK(s, s1);
    ListeningForAllGrows(s1, p);
    ReconciledKeys(s, p);
    assert Owns(s2, p.radioID, p.radioID);
    h1 := s2.subs[p.radioID][p.radioID];
    h2 := SecondListening(s2, p, h, h1);
  }

  /** The old subscriber `h` cleans up after `h1` has taken its place. */
  lemma SecondListening(s: Registry, p: Repeater, h: Handle, h1: Handle) returns (h2: Handle)
    requires RegistryOK(s) && CanCleanUp(s, h)
    requires s.running[h].repeater.radioID == p.radioID && s.running[h].key == p.radioID
    requires p.radioID in s.Keys(p.radioID) && s.subs[p.radioID][p.radioID] == h1
    ensures var s' := Listened(CleanedUp(s, h), p);
            && h1 != h2 && IsLive(s', h1) && IsLive(s', h2)
            && s'.running[h1].repeater.radioID == s'.running[h2].repeater.radioID == p.radioID
            && s'.running[h1].key == s'.running[h2].key == p.radioID
  {
    var s1 := CleanedUp(s, h);
    var s2 := Listened(s1, p);
    assert Owns(s, p.radioID, p.radioID);
    CleaningUpIsOK(s, h);
    ListeningForAllGrows(s1, p);
    ListeningKeys(s1, p, p.radioID, p.radioID);
    assert Owns(s2, p.radioID, p.radioID);
    h2 := s2.subs[p.radioID][p.radioID];
  }
}
