/** The handlers that change a repeater's links (internal/dmr/packet_handler.go,
    internal/http/api/controllers/v1/repeaters/repeaters.go), over the stored repeaters, the
    registry object and the goroutines they start. */
module LiveLinks {
  import opened Words
  import opened Packets
  import opened Links
  import opened Subscriptions
  import opened LiveRegistry
  import opened Linking
  import LinkRuns
  import Subscribers

  class Hub {
    var db: map<Id, Repeater>
    const registry: SubscriptionRegistry
    var waiting: multiset<Task>

    ghost predicate Valid()
      reads this, registry
    {
      registry.Valid() && DbOK(db)
    }

    ghost function State(): World
      reads this, registry
    {
      World(db, registry.State(), waiting)
    }

    /** Start-up: a goroutine for every stored repeater. */
    constructor (db: map<Id, Repeater>)
      requires DbOK(db)
      ensures Valid() && fresh(registry) && State() == LinkRuns.Boot(db)
    {
      this.db := db;
      registry := new SubscriptionRegistry();
      waiting := multiset(set rid | rid in db :: ListenAll(db[rid]));
    }

    /** What every operation keeps: entries are live subscribers' own, and snapshots ask for their keys. */
    ghost predicate Keeps(w: World)
      reads this, registry
    {
      Subscribers.WorldOK(w) ==> Subscribers.WorldOK(State())
    }

    static lemma Kept(w: World, op: Operation)
      ensures Subscribers.WorldOK(w) ==> Subscribers.WorldOK(Apply(w, op).0)
    {
      if Subscribers.WorldOK(w) {
        Subscribers.StepOK(w, op);
      }
    }

    method StoreAndStart(p: Repeater, task: Task)
      requires Valid()
      modifies this`db, this`waiting
      ensures Valid() && State() == StoreAndGo(old(State()), p, task)
    {
      waiting := waiting + multiset{task};
      db := db[p.radioID := p];
    }

    /** The end of taking a link away; `storedFirst` is whether the new links are written before the
        subscription is cancelled. */
    method Cancel(p: Repeater, tg: Id, storedFirst: bool) returns (answer: Answer)
      requires Valid()
      modifies this`db, registry
      ensures Valid() && (State(), answer) == CancelAndStore(old(State()), p, tg, storedFirst)
    {
      if storedFirst {
        db := db[p.radioID := p];
      }
      var crashed := registry.CancelSubscription(p, tg);
      if crashed {
        return Panicked;
      }
      assert db[p.radioID := p] == old(db)[p.radioID := p];
      db := db[p.radioID := p];
      return Done;
    }

    /** A group call on a slot links its talkgroup there; the old talkgroup's subscription stays. */
    method SwitchDynamicTalkgroup(rid: Id, dst: Id, slot: bool, talkgroups: set<Id>) returns (answer: Answer)
      requires Valid()
      modifies this`db, this`waiting
      ensures Valid() && (State(), answer) == Apply(old(State()), Switch(rid, dst, slot, talkgroups))
      ensures Keeps(old(State()))
      ensures registry.State() == old(registry.State())
      ensures answer == Done <==> rid in old(db) && dst in talkgroups
      ensures answer == Done && slot ==> db == old(db)[rid := old(db)[rid].(ts2Dynamic := Some(dst))]
      ensures answer == Done && !slot ==> db == old(db)[rid := old(db)[rid].(ts1Dynamic := Some(dst))]
      ensures answer != Done ==> db == old(db)
      ensures waiting == old(waiting) + if db == old(db) then multiset{} else multiset{ListenOn(db[rid], dst)}
    {
      Kept(State(), Switch(rid, dst, slot, talkgroups));
      if rid !in db || dst !in talkgroups {
        return Rejected;
      }
      var p := db[rid];
      if slot {
        if p.ts2Dynamic == Some(dst) {
          return Done;
        }
        p := p.(ts2Dynamic := Some(dst));
      } else {
        if p.ts1Dynamic == Some(dst) {
          return Done;
        }
        p := p.(ts1Dynamic := Some(dst));
      }
      StoreAndStart(p, ListenOn(p, dst));
      return Done;
    }

    /** A call to 4000 unlinks the slot's dynamic talkgroup. */
    method DropDynamicTalkgroup(rid: Id, slot: bool) returns (answer: Answer)
      requires Valid()
      modifies this`db, registry
      ensures Valid() && (State(), answer) == Apply(old(State()), Drop(rid, slot))
      ensures Keeps(old(State()))
      ensures rid in old(db) && slot ==> db == old(db)[rid := old(db)[rid].(ts2Dynamic := None)]
      ensures rid in old(db) && !slot ==> db == old(db)[rid := old(db)[rid].(ts1Dynamic := None)]
      ensures rid !in old(db) ==> answer == Rejected && db == old(db)
    {
      Kept(State(), Drop(rid, slot));
      if rid !in db {
        return Rejected;
      }
      var p := db[rid];
      var oldTG := if slot then p.ts2Dynamic else p.ts1Dynamic;
      if oldTG.None? {
        return Done;
      }
      if slot {
        p := p.(ts2Dynamic := None);
      } else {
        p := p.(ts1Dynamic := None);
      }
      answer := Cancel(p, oldTG.value, true);
    }

    method POSTRepeaterLink(rid: Id, isStatic: bool, slot: bool, tg: Id) returns (answer: Answer)
      requires Valid()
      modifies this`db, this`waiting
      ensures Valid() && (State(), answer) == Apply(old(State()), Link(rid, isStatic, slot, tg))
      ensures Keeps(old(State()))
      ensures answer == Done <==> rid in old(db)
      ensures answer == Done ==> rid in db && waiting == old(waiting) + multiset{ListenOn(db[rid], tg)}
      ensures answer == Done && isStatic && slot ==>
                db == old(db)[rid := old(db)[rid].(ts2Static := old(db)[rid].ts2Static + [tg])]
      ensures answer == Done && isStatic && !slot ==>
                db == old(db)[rid := old(db)[rid].(ts1Static := old(db)[rid].ts1Static + [tg])]
      ensures answer == Done && !isStatic && slot ==> db == old(db)[rid := old(db)[rid].(ts2Dynamic := Some(tg))]
      ensures answer == Done && !isStatic && !slot ==> db == old(db)[rid := old(db)[rid].(ts1Dynamic := Some(tg))]
    {
      Kept(State(), Link(rid, isStatic, slot, tg));
      if rid !in db {
        return Rejected;
      }
      var p := db[rid];
      if isStatic {
        if slot {
          p := p.(ts2Static := p.ts2Static + [tg]);
        } else {
          p := p.(ts1Static := p.ts1Static + [tg]);
        }
      } else if slot {
        p := p.(ts2Dynamic := Some(tg));
      } else {
        p := p.(ts1Dynamic := Some(tg));
      }
      StoreAndStart(p, ListenOn(p, tg));
      return Done;
    }

    method POSTRepeaterUnlink(rid: Id, isStatic: bool, slot: bool, tg: Id, talkgroups: set<Id>)
      returns (answer: Answer)
      requires Valid()
      modifies this`db, registry
      ensures Valid() && (State(), answer) == Apply(old(State()), Unlink(rid, isStatic, slot, tg, talkgroups))
      ensures Keeps(old(State()))
      ensures answer == Done ==> (tg in State().reg.Keys(rid) <==> tg in db[rid].Linked())
      ensures answer == Panicked && !isStatic ==> db == old(db)
      ensures answer == Rejected ==> db == old(db)
      ensures answer != Rejected && isStatic && slot ==>
                && rid in old(db) && rid in db
                && db == old(db)[rid := old(db)[rid].(ts2Static := db[rid].ts2Static)]
                && forall k :: k in db[rid].ts2Static <==> k in old(db)[rid].ts2Static && k != tg
      ensures answer != Rejected && isStatic && !slot ==>
                && rid in old(db) && rid in db
                && db == old(db)[rid := old(db)[rid].(ts1Static := db[rid].ts1Static)]
                && forall k :: k in db[rid].ts1Static <==> k in old(db)[rid].ts1Static && k != tg
      ensures answer == Done && !isStatic && slot ==> db == old(db)[rid := old(db)[rid].(ts2Dynamic := None)]
      ensures answer == Done && !isStatic && !slot ==> db == old(db)[rid := old(db)[rid].(ts1Dynamic := None)]
    {
      Kept(State(), Unlink(rid, isStatic, slot, tg, talkgroups));
      if tg !in talkgroups || rid !in db {
        return Rejected;
      }
      var p := db[rid];
      if isStatic {
        var found := InStaticTalkgroups(Static(p, slot), tg);
        if !found {
          return Rejected;
        }
        p := WithStatic(p, slot, Without(Static(p, slot), tg));
      } else {
        if Dynamic(p, slot) != Some(tg) {
          return Rejected;
        }
        p := WithDynamic(p, slot, None);
      }
      answer := Cancel(p, tg, isStatic);
    }

    method POSTRepeaterTalkgroups(rid: Id, ts1: seq<Id>, ts2: seq<Id>, dynamic1: Id, dynamic2: Id)
      returns (answer: Answer)
      requires Valid()
      modifies this, registry
      ensures Valid() && (State(), answer) == Apply(old(State()), Replace(rid, ts1, ts2, dynamic1, dynamic2))
      ensures Keeps(old(State()))
      ensures answer == Done <==> rid in old(db)
      ensures answer == Done ==>
                && db.Keys == old(db).Keys
                && db[rid].ts1Static == ts1 && db[rid].ts2Static == ts2
                && db[rid].ts1Dynamic == (if dynamic1 == 0 then None else Some(dynamic1))
                && db[rid].ts2Dynamic == (if dynamic2 == 0 then None else Some(dynamic2))
                && waiting == old(waiting) + multiset{ListenAll(db[rid])}
      ensures forall other :: other in old(db) && other != rid ==> other in db && db[other] == old(db)[other]
    {
      Kept(State(), Replace(rid, ts1, ts2, dynamic1, dynamic2));
      if rid !in db {
        return Rejected;
      }
      var p := db[rid].(ts1Static := ts1, ts2Static := ts2);
      if dynamic1 == 0 {
        p := p.(ts1Dynamic := None);
      } else {
        p := p.(ts1Dynamic := Some(dynamic1));
      }
      if dynamic2 == 0 {
        p := p.(ts2Dynamic := None);
      } else {
        p := p.(ts2Dynamic := Some(dynamic2));
      }
      db := db[rid := p];
      registry.CancelAllSubscriptions(p);
      waiting := waiting + multiset{ListenAll(p)};
      return Done;
    }

    /** The body of a goroutine. */
    method RunTask(task: Task) returns (crashed: bool)
      requires Valid()
      modifies registry
      ensures Valid()
      ensures crashed <==> task.ListenOn? && task.p.radioID !in old(registry.State()).subs
      ensures registry.State() == if crashed then old(registry.State())
                                  else if task.ListenAll? then Listened(old(registry.State()), task.p)
                                  else ListenedOn(old(registry.State()), task.p, task.key)
    {
      match task {
        case ListenOn(p, key) =>
          crashed := registry.ListenForCallsOn(p, key);
        case ListenAll(p) =>
          registry.ListenForCalls(p);
          crashed := false;
      }
    }

    /** A goroutine gets its turn. */
    method Listen(task: Task) returns (answer: Answer)
      requires Valid() && task in waiting
      modifies this`waiting, registry
      ensures Valid() && (State(), answer) == Apply(old(State()), Run(task))
      ensures Keeps(old(State()))
    {
      Kept(State(), Run(task));
      var crashed := RunTask(task);
      if crashed {
        return Panicked;
      }
      waiting := waiting - multiset{task};
      return Done;
    }
  }
}
