/** What every sequential run of the operations on links makes of the registry. */
module LinkRuns {
  import opened Words
  import opened Histories
  import opened Packets
  import opened Links
  import opened Subscriptions
  import opened Linking

  /** Start-up: nothing is listened on, and a goroutine has been started for every stored repeater. */
  function Boot(db: map<Id, Repeater>): World {
    World(db, Registry(map[], map[], {}, 0), multiset(set rid | rid in db :: ListenAll(db[rid])))
  }

  /** Operations and goroutines one after another, in any order. */
  ghost predicate IsRun(db: map<Id, Repeater>, trace: seq<World>, ops: seq<Operation>) {
    && DbOK(db)
    && |trace| == |ops| + 1
    && trace[0] == Boot(db)
    && forall i :: 0 <= i < |ops| ==> trace[i + 1] == Apply(trace[i], ops[i]).0
  }

  lemma RepeatersKeepNumbers(db: map<Id, Repeater>, trace: seq<World>, ops: seq<Operation>, n: nat)
    requires IsRun(db, trace, ops) && n <= |ops|
    ensures DbOK(trace[n].db)
  {
    var holds := seq(|trace|, i requires 0 <= i < |trace| => DbOK(trace[i].db));
    forall i | 0 <= i < |ops| && holds[i]
      ensures holds[i + 1]
    {
      ApplyKeepsNumbers(trace[i], ops[i]);
    }
    Always(holds, n);
  }

  // ---------------------------------------------------------------- keys and history

  /** The operations that listen on the key. */
  ghost function Listenings(trace: seq<World>, ops: seq<Operation>, rid: Id, key: Id): (on: seq<bool>)
    requires |trace| > |ops|
    ensures |on| == |ops|
  {
    seq(|ops|, i requires 0 <= i < |ops| => Listens(trace[i], ops[i], rid, key))
  }

  /** The operations that take it. */
  ghost function Takings(trace: seq<World>, ops: seq<Operation>, rid: Id, key: Id): (off: seq<bool>)
    requires |trace| > |ops|
    ensures |off| == |ops|
  {
    seq(|ops|, i requires 0 <= i < |ops| => Takes(trace[i], ops[i], rid, key))
  }

  /** Some operation from `m` on, before `n`, listens on the key, and none after it takes it. */
  ghost predicate Kept(trace: seq<World>, ops: seq<Operation>, m: nat, n: nat, rid: Id, key: Id)
    requires n <= |ops| < |trace|
  {
    OnSince(Listenings(trace, ops, rid, key), Takings(trace, ops, rid, key), m, n)
  }

  /** In every run, from any point `m` of it: a key is in the registry if and only if it has been
      listened on since and not taken after that, or was there and has not been taken since. */
  lemma KeysFollow(
    db: map<Id, Repeater>, trace: seq<World>, ops: seq<Operation>, m: nat, n: nat, rid: Id, key: Id)
    requires IsRun(db, trace, ops) && m <= n <= |ops|
    ensures key in trace[n].reg.Keys(rid) <==>
              || Kept(trace, ops, m, n, rid, key)
              || (key in trace[m].reg.Keys(rid) && Untouched(Takings(trace, ops, rid, key), m, n))
  {
    var state := seq(|trace|, i requires 0 <= i < |trace| => key in trace[i].reg.Keys(rid));
    var on, off := Listenings(trace, ops, rid, key), Takings(trace, ops, rid, key);
    forall i | 0 <= i < |ops|
      ensures state[i + 1] <==> on[i] || (state[i] && !off[i])
    {
      NextKeys(db, trace, ops, i, rid, key);
    }
    Follows(state, on, off, m, n);
  }

  lemma NextKeys(db: map<Id, Repeater>, trace: seq<World>, ops: seq<Operation>, i: nat, rid: Id, key: Id)
    requires IsRun(db, trace, ops) && i < |ops|
    ensures key in trace[i + 1].reg.Keys(rid) <==>
              || Listens(trace[i], ops[i], rid, key)
              || (key in trace[i].reg.Keys(rid) && !Takes(trace[i], ops[i], rid, key))
  {
    RepeatersKeepNumbers(db, trace, ops, i);
    KeysStep(trace[i], ops[i], rid, key);
  }

  /** In every run a key is in the registry if and only if some goroutine has listened on it, and it has
      been neither unlinked for good nor cleaned up for since. */
  lemma KeysFollowHistory(db: map<Id, Repeater>, trace: seq<World>, ops: seq<Operation>, n: nat, rid: Id, key: Id)
    requires IsRun(db, trace, ops) && n <= |ops|
    ensures key in trace[n].reg.Keys(rid) <==> Kept(trace, ops, 0, n, rid, key)
  {
    KeysFollow(db, trace, ops, 0, n, rid, key);
  }

  // ---------------------------------------------------------------- linked keys

  /** A goroutine that is going to listen on the key has not had its turn. */
  ghost predicate Awaited(w: World, rid: Id, key: Id) {
    exists t :: t in w.waiting && Covers(t, rid, key)
  }

  /** The operation is a cleanup that takes the key from its holder. */
  ghost predicate Loses(w: World, op: Operation, rid: Id, key: Id) {
    op.CleanUp? && Takes(w, op, rid, key) && key in w.reg.Keys(rid)
  }

  ghost function Losings(trace: seq<World>, ops: seq<Operation>, rid: Id, key: Id): (on: seq<bool>)
    requires |trace| > |ops|
    ensures |on| == |ops|
  {
    seq(|ops|, i requires 0 <= i < |ops| => Loses(trace[i], ops[i], rid, key))
  }

  /** A cleanup has taken the key from its holder, and nobody has listened on it since. */
  ghost predicate Lost(trace: seq<World>, ops: seq<Operation>, n: nat, rid: Id, key: Id)
    requires n <= |ops| < |trace|
  {
    OnSince(Losings(trace, ops, rid, key), Listenings(trace, ops, rid, key), 0, n)
  }

  lemma LostStep(trace: seq<World>, ops: seq<Operation>, n: nat, rid: Id, key: Id)
    requires n < |ops| < |trace|
    ensures Lost(trace, ops, n + 1, rid, key) <==>
              || Loses(trace[n], ops[n], rid, key)
              || (Lost(trace, ops, n, rid, key) && !Listens(trace[n], ops[n], rid, key))
  {
    OnSinceStep(Losings(trace, ops, rid, key), Listenings(trace, ops, rid, key), 0, n);
  }

  /** The stored repeater is linked to the talkgroup. */
  ghost predicate HasAnyLink(w: World, rid: Id, key: Id) {
    rid in w.db && key in w.db[rid].Linked()
  }

  /** A link that comes in with an operation is awaited. */
  lemma NewLinksAreAwaited(w: World, op: Operation, rid: Id, key: Id)
    requires DbOK(w.db) && HasAnyLink(Apply(w, op).0, rid, key) && !HasAnyLink(w, rid, key)
    ensures Awaited(Apply(w, op).0, rid, key)
  {
    StoredWithTask(w, op, rid, key);
    var w' := Apply(w, op).0;
    if ListenAll(w'.db[rid]) in w'.waiting {
      AwaitedForAll(w', w'.db[rid], key);
    } else {
      AwaitedLink(w', w'.db[rid], key);
    }
  }

  /** It is stored together with a goroutine for it. */
  lemma StoredWithTask(w: World, op: Operation, rid: Id, key: Id)
    requires DbOK(w.db) && HasAnyLink(Apply(w, op).0, rid, key) && !HasAnyLink(w, rid, key)
    ensures var w' := Apply(w, op).0;
            && w'.db[rid].radioID == rid
            && (ListenAll(w'.db[rid]) in w'.waiting || ListenOn(w'.db[rid], key) in w'.waiting)
  {
    match op
    case Link(_, isStatic, slot, tg) => LinkAddsOne(w.db[op.rid], isStatic, slot, tg);
    case Switch(_, dst, slot, _) => LinkAddsOne(w.db[op.rid], false, slot, dst);
    case Replace(_, _, _, _, _) =>
    case _ => LinksFallOtherwise(w, op, rid, key);
  }

  lemma LinkAddsOne(p: Repeater, isStatic: bool, slot: bool, tg: Id)
    ensures WithLink(p, isStatic, slot, tg).Linked() <= p.Linked() + {tg}
  {}

  lemma LinksFallOtherwise(w: World, op: Operation, rid: Id, key: Id)
    requires DbOK(w.db) && !op.Link? && !op.Switch? && !op.Replace?
    ensures HasAnyLink(Apply(w, op).0, rid, key) ==> HasAnyLink(w, rid, key)
  {
    match op
    case Drop(r, slot) => if r in w.db { LinkTakesOne(w.db[r], false, slot, 0); }
    case Unlink(r, isStatic, slot, tg, _) => if r in w.db { LinkTakesOne(w.db[r], isStatic, slot, tg); }
    case _ =>
  }

  lemma LinkTakesOne(p: Repeater, isStatic: bool, slot: bool, tg: Id)
    ensures WithoutLink(p, isStatic, slot, tg).Linked() <= p.Linked()
  {}

  lemma AwaitedLink(w: World, p: Repeater, key: Id)
    requires ListenOn(p, key) in w.waiting
    ensures Awaited(w, p.radioID, key)
  {
    assert Covers(ListenOn(p, key), p.radioID, key);
  }

  lemma AwaitedForAll(w: World, p: Repeater, key: Id)
    requires ListenAll(p) in w.waiting && key in p.Linked()
    ensures Awaited(w, p.radioID, key)
  {
    WantedKeysAreLinked(p);
    assert key in (set k | k in WantedKeys(p));
    assert Covers(ListenAll(p), p.radioID, key);
  }

  /** A goroutine stays until it has listened. */
  lemma AwaitedStep(w: World, op: Operation, rid: Id, key: Id)
    requires Awaited(w, rid, key) && !Listens(w, op, rid, key)
    ensures Awaited(Apply(w, op).0, rid, key)
  {
    var t :| t in w.waiting && Covers(t, rid, key);
    WaitingStays(w, op, t);
  }

  lemma WaitingStays(w: World, op: Operation, t: Task)
    requires t in w.waiting && (op == Run(t) ==> t.ListenOn? && t.p.radioID !in w.reg.subs)
    ensures t in Apply(w, op).0.waiting
  {}

  /** A link that stays is not taken but by a cleanup. */
  lemma LinksAreTakenByCleanups(w: World, op: Operation, rid: Id, key: Id)
    requires DbOK(w.db) && HasAnyLink(Apply(w, op).0, rid, key) && Takes(w, op, rid, key) && key in w.reg.Keys(rid)
    ensures Loses(w, op, rid, key)
  {}

  /** A link is registered, awaited or lost. */
  ghost predicate TrackedIf(w: World, rid: Id, key: Id, lost: bool) {
    HasAnyLink(w, rid, key) ==> key in w.reg.Keys(rid) || Awaited(w, rid, key) || lost
  }

  lemma TrackedStep(w: World, op: Operation, rid: Id, key: Id, lost: bool)
    requires DbOK(w.db) && TrackedIf(w, rid, key, lost)
    ensures TrackedIf(Apply(w, op).0, rid, key, Loses(w, op, rid, key) || (lost && !Listens(w, op, rid, key)))
  {
    var w' := Apply(w, op).0;
    if HasAnyLink(w', rid, key) {
      KeysStep(w, op, rid, key);
      if !HasAnyLink(w, rid, key) {
        NewLinksAreAwaited(w, op, rid, key);
      } else if !Listens(w, op, rid, key) {
        if Awaited(w, rid, key) { AwaitedStep(w, op, rid, key); }
        if Takes(w, op, rid, key) && key in w.reg.Keys(rid) { LinksAreTakenByCleanups(w, op, rid, key); }
      }
    }
  }

  /** In every run, each link of a stored repeater is in the registry, awaited or lost. */
  lemma LinksAreKeptTrackOf(
    db: map<Id, Repeater>, trace: seq<World>, ops: seq<Operation>, n: nat, rid: Id, key: Id)
    requires IsRun(db, trace, ops) && n <= |ops|
    ensures TrackedIf(trace[n], rid, key, Lost(trace, ops, n, rid, key))
  {
    var holds := seq(|trace|, i requires 0 <= i < |trace| =>
      TrackedIf(trace[i], rid, key, Lost(trace, ops, i, rid, key)));
    if HasAnyLink(trace[0], rid, key) { AwaitedForAll(trace[0], db[rid], key); }
    forall i | 0 <= i < |ops| && holds[i]
      ensures holds[i + 1]
    {
      RepeatersKeepNumbers(db, trace, ops, i);
      LostStep(trace, ops, i, rid, key);
      TrackedStep(trace[i], ops[i], rid, key, Lost(trace, ops, i, rid, key));
    }
    Always(holds, n);
  }

  lemma AbsentStep(w: World, op: Operation, rid: Id, key: Id)
    requires DbOK(w.db)
    requires Loses(w, op, rid, key) || (key !in w.reg.Keys(rid) && !Listens(w, op, rid, key))
    ensures key !in Apply(w, op).0.reg.Keys(rid)
  {
    KeysStep(w, op, rid, key);
  }

  /** A lost key is not in the registry. */
  lemma LostIsAbsent(db: map<Id, Repeater>, trace: seq<World>, ops: seq<Operation>, n: nat, rid: Id, key: Id)
    requires IsRun(db, trace, ops) && n <= |ops| && Lost(trace, ops, n, rid, key)
    ensures key !in trace[n].reg.Keys(rid)
  {
    var holds := seq(|trace|, i requires 0 <= i < |trace| =>
      Lost(trace, ops, i, rid, key) ==> key !in trace[i].reg.Keys(rid));
    forall i | 0 <= i < |ops| && holds[i]
      ensures holds[i + 1]
    {
      RepeatersKeepNumbers(db, trace, ops, i);
      LostStep(trace, ops, i, rid, key);
      if Lost(trace, ops, i + 1, rid, key) { AbsentStep(trace[i], ops[i], rid, key); }
    }
    Always(holds, n);
  }

  /** The key is lost, or awaited for the first time since it was last unlinked or cleaned up for. */
  ghost predicate IsMissing(trace: seq<World>, ops: seq<Operation>, n: nat, rid: Id, key: Id)
    requires n <= |ops| < |trace|
  {
    Lost(trace, ops, n, rid, key) || (Awaited(trace[n], rid, key) && !Kept(trace, ops, 0, n, rid, key))
  }

  /** In every run, the links of stored repeaters that are not in the registry are exactly the missing ones. */
  lemma MissingExactly(db: map<Id, Repeater>, trace: seq<World>, ops: seq<Operation>, n: nat, rid: Id, key: Id)
    requires IsRun(db, trace, ops) && n <= |ops| && HasAnyLink(trace[n], rid, key)
    ensures key !in trace[n].reg.Keys(rid) <==> IsMissing(trace, ops, n, rid, key)
  {
    KeysFollowHistory(db, trace, ops, n, rid, key);
    LinksAreKeptTrackOf(db, trace, ops, n, rid, key);
    if Lost(trace, ops, n, rid, key) { LostIsAbsent(db, trace, ops, n, rid, key); }
  }

  /** In every run, unlinking panics if and only if the talkgroup exists and is linked in that way, and its
      key is lost or still awaited. */
  lemma UnlinkPanicsExactly(
    db: map<Id, Repeater>, trace: seq<World>, ops: seq<Operation>, n: nat,
    rid: Id, isStatic: bool, slot: bool, tg: Id, talkgroups: set<Id>)
    requires IsRun(db, trace, ops) && n <= |ops|
    ensures Apply(trace[n], Unlink(rid, isStatic, slot, tg, talkgroups)).1 == Panicked <==>
              && tg in talkgroups
              && rid in trace[n].db
              && HasLink(trace[n].db[rid], isStatic, slot, tg)
              && IsMissing(trace, ops, n, rid, tg)
  {
    RepeatersKeepNumbers(db, trace, ops, n);
    if rid in trace[n].db && HasLink(trace[n].db[rid], isStatic, slot, tg) {
      LinkedOnSlot(trace[n].db[rid], tg);
      MissingExactly(db, trace, ops, n, rid, tg);
    }
  }

  /** And so does a call to 4000. */
  lemma DropPanicsExactly(
    db: map<Id, Repeater>, trace: seq<World>, ops: seq<Operation>, n: nat, rid: Id, slot: bool)
    requires IsRun(db, trace, ops) && n <= |ops|
    ensures Apply(trace[n], Drop(rid, slot)).1 == Panicked <==>
              && rid in trace[n].db
              && Dynamic(trace[n].db[rid], slot).Some?
              && IsMissing(trace, ops, n, rid, Dynamic(trace[n].db[rid], slot).value)
  {
    RepeatersKeepNumbers(db, trace, ops, n);
    if rid in trace[n].db && Dynamic(trace[n].db[rid], slot).Some? {
      LinkedOnSlot(trace[n].db[rid], Dynamic(trace[n].db[rid], slot).value);
      MissingExactly(db, trace, ops, n, rid, Dynamic(trace[n].db[rid], slot).value);
    }
  }

  // ---------------------------------------------------------------- the other panic

  /** The operation is a goroutine that listens for a whole repeater. */
  predicate ListensForAll(w: World, op: Operation, rid: Id) {
    op.Run? && op.task in w.waiting && op.task.ListenAll? && op.task.p.radioID == rid
  }

  lemma OpenStep(w: World, op: Operation, rid: Id)
    ensures rid in Apply(w, op).0.reg.subs <==> rid in w.reg.subs || ListensForAll(w, op, rid)
  {
    match op
    case Run(task) => if task.ListenAll? { OpenedForAll(w.reg, task.p); }
    case _ => MapsStay(w, op);
  }

  lemma OpenedForAll(s: Registry, p: Repeater)
    ensures Listened(s, p).subs.Keys == s.subs.Keys + {p.radioID}
  {
    ListenedKeys(Opened(s, p.radioID), p, WantedKeys(p));
  }

  lemma MapsStay(w: World, op: Operation)
    requires !op.Run?
    ensures Apply(w, op).0.reg.subs.Keys == w.reg.subs.Keys
  {}

  /** In every run a repeater has a map of its own if and only if a goroutine has listened for all of it. */
  lemma OpenExactly(db: map<Id, Repeater>, trace: seq<World>, ops: seq<Operation>, n: nat, rid: Id)
    requires IsRun(db, trace, ops) && n <= |ops|
    ensures rid in trace[n].reg.subs <==> exists i :: 0 <= i < n && ListensForAll(trace[i], ops[i], rid)
  {
    var state := seq(|trace|, i requires 0 <= i < |trace| => rid in trace[i].reg.subs);
    var on := seq(|ops|, i requires 0 <= i < |ops| => ListensForAll(trace[i], ops[i], rid));
    forall i | 0 <= i < |ops|
      ensures state[i + 1] <==> on[i] || state[i]
    {
      OpenStep(trace[i], ops[i], rid);
    }
    StaysOn(state, on, n);
    assert forall i :: 0 <= i < n ==> (on[i] <==> ListensForAll(trace[i], ops[i], rid));
  }

  /** In every run, a goroutine that listens on one key panics if and only if none has listened for all of
      its repeater before it. */
  lemma GoroutinePanicsExactly(
    db: map<Id, Repeater>, trace: seq<World>, ops: seq<Operation>, n: nat, p: Repeater, key: Id)
    requires IsRun(db, trace, ops) && n <= |ops|
    ensures Apply(trace[n], Run(ListenOn(p, key))).1 == Panicked <==>
              && ListenOn(p, key) in trace[n].waiting
              && forall i :: 0 <= i < n ==> !ListensForAll(trace[i], ops[i], p.radioID)
  {
    OpenExactly(db, trace, ops, n, p.radioID);
  }

  /** Nothing else panics. */
  lemma OthersDoNotPanic(w: World, op: Operation)
    requires !op.Unlink? && !op.Drop? && !(op.Run? && op.task.ListenOn?)
    ensures Apply(w, op).1 != Panicked
  {}

  // ---------------------------------------------------------------- runs with prompt cleanups

  /** No cleanup takes a key that has been listened on again. */
  ghost predicate Prompt(trace: seq<World>, ops: seq<Operation>, n: nat)
    requires n <= |ops| < |trace|
  {
    forall i, rid, key :: 0 <= i < n ==> !Loses(trace[i], ops[i], rid, key)
  }

  /** With prompt cleanups, and once its goroutines have had their turn, every link of a repeater is in the
      registry, and taking one away does not panic. */
  lemma RunsKeepLinksRegistered(db: map<Id, Repeater>, trace: seq<World>, ops: seq<Operation>, n: nat, rid: Id)
    requires IsRun(db, trace, ops) && n <= |ops| && Prompt(trace, ops, n) && rid in trace[n].db
    requires forall t :: t in trace[n].waiting ==> t.p.radioID != rid
    ensures trace[n].db[rid].Linked() <= trace[n].reg.Keys(rid)
    ensures forall op: Operation :: (op.Unlink? || op.Drop?) && op.rid == rid ==> Apply(trace[n], op).1 != Panicked
  {
    RepeatersKeepNumbers(db, trace, ops, n);
    forall key | key in trace[n].db[rid].Linked()
      ensures key in trace[n].reg.Keys(rid)
    {
      LinksAreKeptTrackOf(db, trace, ops, n, rid, key);
    }
    forall key
      ensures OnSlot(trace[n].db[rid], key, false) || OnSlot(trace[n].db[rid], key, true) ==>
                key in trace[n].reg.Keys(rid)
    {
      LinkedOnSlot(trace[n].db[rid], key);
    }
  }

  // ---------------------------------------------------------------- both ways to panic

  /** Between the storing of new links and the turn of their goroutine an unlink panics. */
  lemma UnlinkTooEarlyPanics(w: World, rid: Id, isStatic: bool, slot: bool, tg: Id)
    requires DbOK(w.db) && rid in w.db && tg !in w.reg.Keys(rid)
    ensures var w' := Apply(w, Link(rid, isStatic, slot, tg)).0;
            Apply(w', Unlink(rid, isStatic, slot, tg, {tg})).1 == Panicked
  {
    assert tg in Static(w.db[rid], slot) + [tg];
  }

  /** And so does a call to 4000. */
  lemma DropTooEarlyPanics(w: World, rid: Id, slot: bool, tg: Id)
    requires DbOK(w.db) && rid in w.db && tg !in w.reg.Keys(rid)
    ensures Apply(Apply(w, Switch(rid, tg, slot, {tg})).0, Drop(rid, slot)).1 == Panicked
  {}

  /** A link whose goroutine gets its turn at once. */
  ghost function LinkedNow(w: World, rid: Id, tg: Id): World
    requires rid in w.db
  {
    Apply(Apply(w, Link(rid, true, false, tg)).0, Run(ListenOn(WithLink(w.db[rid], true, false, tg), tg))).0
  }

  lemma LinkNow(w: World, rid: Id, tg: Id)
    requires DbOK(w.db) && rid in w.db && rid in w.reg.subs && tg !in w.reg.Keys(rid)
    ensures var p := WithLink(w.db[rid], true, false, tg);
            LinkedNow(w, rid, tg) == World(w.db[rid := p], ListenedOn(w.reg, p, tg), w.waiting)
  {
    var task := ListenOn(WithLink(w.db[rid], true, false, tg), tg);
    assert w.waiting + multiset{task} - multiset{task} == w.waiting;
  }

  lemma {:induction false} WithoutAbsent(tgs: seq<Id>, tg: Id)
    requires tg !in tgs
    ensures Without(tgs, tg) == tgs
  {
    if tgs == [] {
    } else {
      assert tgs == tgs[..|tgs| - 1] + [tgs[|tgs| - 1]];
      WithoutAbsent(tgs[..|tgs| - 1], tg);
    }
  }

  lemma WithAndWithout(p: Repeater, tg: Id)
    requires tg !in p.Linked()
    ensures WithoutLink(WithLink(p, true, false, tg), true, false, tg) == p
  {
    assert (p.ts1Static + [tg])[..|p.ts1Static|] == p.ts1Static;
    WithoutAbsent(p.ts1Static, tg);
  }

  lemma ListenAndCancel(s: Registry, p: Repeater, q: Repeater, key: Id)
    requires p.radioID == q.radioID && p.radioID in s.subs
    requires key !in s.Keys(p.radioID) && key !in q.Linked() && key != 0
    ensures key in ListenedOn(s, p, key).Keys(q.radioID)
    ensures var s' := Cancelled(ListenedOn(s, p, key), q, key);
            && p.radioID in s'.subs && key !in s'.Keys(p.radioID)
            && CanCleanUp(s', s.next) && s.next < s'.next && s'.running[s.next] == Subscriber(p, key)
  {}

  /** Unlinking takes back what linking did, but for the subscriber that is still to clean up. */
  lemma UnlinkTakesBack(w: World, rid: Id, tg: Id)
    requires DbOK(w.db) && rid in w.db && rid in w.reg.subs && tg != 0
    requires tg !in w.reg.Keys(rid) && tg !in w.db[rid].Linked()
    ensures var w' := Apply(LinkedNow(w, rid, tg), Unlink(rid, true, false, tg, {tg})).0;
            && w'.db == w.db && w'.waiting == w.waiting
            && rid in w'.reg.subs && tg !in w'.reg.Keys(rid)
            && CanCleanUp(w'.reg, w.reg.next) && w.reg.next < w'.reg.next
            && w'.reg.running[w.reg.next] == Subscriber(WithLink(w.db[rid], true, false, tg), tg)
  {
    var p := WithLink(w.db[rid], true, false, tg);
    LinkNow(w, rid, tg);
    WithAndWithout(w.db[rid], tg);
    ListenAndCancel(w.reg, p, w.db[rid], tg);
    assert w.db[rid := p][rid := w.db[rid]] == w.db;
  }

  lemma CleanUpTakes(s: Registry, p: Repeater, key: Id, h: Handle)
    requires CanCleanUp(s, h) && h < s.next && p.radioID in s.subs
    requires s.running[h].repeater.radioID == p.radioID && s.running[h].key == key
    ensures var s' := ListenedOn(s, p, key);
            CanCleanUp(s', h) && key !in CleanedUp(s', h).Keys(p.radioID)
  {}

  lemma RelinkAndCleanUp(w: World, rid: Id, tg: Id, h: Handle)
    requires DbOK(w.db) && rid in w.db && rid in w.reg.subs && tg !in w.reg.Keys(rid)
    requires CanCleanUp(w.reg, h) && h < w.reg.next
    requires w.reg.running[h].repeater.radioID == rid && w.reg.running[h].key == tg
    ensures var (w', answer) := Apply(LinkedNow(w, rid, tg), CleanUp(h));
            && answer == Done && w'.waiting == w.waiting && w'.db == w.db[rid := WithLink(w.db[rid], true, false, tg)]
            && tg !in w'.reg.Keys(rid)
  {
    LinkNow(w, rid, tg);
    CleanUpTakes(w.reg, WithLink(w.db[rid], true, false, tg), tg, h);
  }

  /** And so does an unlink after a late cleanup: link, unlink and link again, and let the first
      subscriber clean up last. Nothing is waited for then. */
  lemma LateCleanupPanics(w: World, rid: Id, tg: Id)
    requires DbOK(w.db) && rid in w.db && rid in w.reg.subs && tg != 0
    requires tg !in w.reg.Keys(rid) && tg !in w.db[rid].Linked()
    ensures var unlinked := Apply(LinkedNow(w, rid, tg), Unlink(rid, true, false, tg, {tg})).0;
            && unlinked.db == w.db
            && var w' := Apply(LinkedNow(unlinked, rid, tg), CleanUp(w.reg.next)).0;
               w'.waiting == w.waiting && Apply(w', Unlink(rid, true, false, tg, {tg})).1 == Panicked
  {
    var unlinked := Apply(LinkedNow(w, rid, tg), Unlink(rid, true, false, tg, {tg})).0;
    UnlinkTakesBack(w, rid, tg);
    RelinkAndCleanUp(unlinked, rid, tg, w.reg.next);
  }
}
