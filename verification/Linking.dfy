/** The operations on a repeater's links and the goroutines they start
    (internal/dmr/packet_handler.go, internal/http/api/controllers/v1/repeaters/repeaters.go, main.go). */
module Linking {
  import opened Words
  import opened Packets
  import opened Links
  import opened Subscriptions

  /** A goroutine that has been started and is yet to listen, with the repeater as it was then. */
  datatype Task =
    | ListenOn(p: Repeater, key: Id)
    | ListenAll(p: Repeater)

  /** The stored repeaters, the registry, and the goroutines that have not run yet. */
  datatype World = World(db: map<Id, Repeater>, reg: Registry, waiting: multiset<Task>)

  datatype Answer = Done | Rejected | Panicked

  /** An operation, or a goroutine getting its turn; `talkgroups` are those that exist. */
  datatype Operation =
    | Switch(rid: Id, dst: Id, slot: bool, talkgroups: set<Id>)
    | Drop(rid: Id, slot: bool)
    | Link(rid: Id, isStatic: bool, slot: bool, tg: Id)
    | Unlink(rid: Id, isStatic: bool, slot: bool, tg: Id, talkgroups: set<Id>)
    | Replace(rid: Id, ts1: seq<Id>, ts2: seq<Id>, dynamic1: Id, dynamic2: Id)
    | Add(rid: Id)
    | Run(task: Task)
    | CleanUp(h: Handle)

  function WithDynamic(p: Repeater, slot: bool, d: Option<Id>): Repeater {
    if slot then p.(ts2Dynamic := d) else p.(ts1Dynamic := d)
  }

  function WithStatic(p: Repeater, slot: bool, tgs: seq<Id>): Repeater {
    if slot then p.(ts2Static := tgs) else p.(ts1Static := tgs)
  }

  function Without(tgs: seq<Id>, tg: Id): (r: seq<Id>)
    ensures forall k :: k in r <==> k in tgs && k != tg
  {
    if tgs == [] then []
    else Without(tgs[..|tgs| - 1], tg) + if tgs[|tgs| - 1] == tg then [] else [tgs[|tgs| - 1]]
  }

  function Given(d: Id): Option<Id> {
    if d == 0 then None else Some(d)
  }

  // ---------------------------------------------------------------- the operations

  /** Stores a repeater and starts a goroutine for it. */
  function StoreAndGo(w: World, p: Repeater, task: Task): World {
    w.(db := w.db[p.radioID := p], waiting := w.waiting + multiset{task})
  }

  function StoreOnly(w: World, p: Repeater): World {
    w.(db := w.db[p.radioID := p])
  }

  /** Cancels one talkgroup of a repeater with new links, and stores them; some operations have
      stored them before they cancel. */
  ghost function CancelAndStore(w: World, p: Repeater, tg: Id, storedFirst: bool): (World, Answer) {
    if tg in w.reg.Keys(p.radioID) then (StoreOnly(w, p).(reg := Cancelled(w.reg, p, tg)), Done)
    else (if storedFirst then StoreOnly(w, p) else w, Panicked)
  }

  /** The repeater with a link more. */
  function WithLink(p: Repeater, isStatic: bool, slot: bool, tg: Id): Repeater {
    if isStatic then WithStatic(p, slot, Static(p, slot) + [tg]) else WithDynamic(p, slot, Some(tg))
  }

  /** The repeater with a link less. */
  function WithoutLink(p: Repeater, isStatic: bool, slot: bool, tg: Id): Repeater {
    if isStatic then WithStatic(p, slot, Without(Static(p, slot), tg)) else WithDynamic(p, slot, None)
  }

  /** The talkgroup is linked in this way. */
  predicate HasLink(p: Repeater, isStatic: bool, slot: bool, tg: Id) {
    if isStatic then tg in Static(p, slot) else Dynamic(p, slot) == Some(tg)
  }

  function Replaced(p: Repeater, ts1: seq<Id>, ts2: seq<Id>, dynamic1: Id, dynamic2: Id): Repeater {
    Repeater(p.radioID, ts1, ts2, Given(dynamic1), Given(dynamic2))
  }

  /** A talkgroup that is given for slot one alone is wanted on slot one from then on. */
  lemma NewLinksAreWanted(
    p: Repeater, ts1: seq<Id>, ts2: seq<Id>, dynamic1: Id, dynamic2: Id, tg: Id, arrival: bool, want: bool, slot: bool)
    requires WantsFor(Replaced(p, ts1, ts2, dynamic1, dynamic2), tg, arrival, want, slot)
    requires tg != p.radioID && tg != 0
    ensures (tg in ts1 || tg == dynamic1) && tg !in ts2 && tg != dynamic2 ==> want && !slot
    ensures (tg in ts2 || tg == dynamic2) && tg !in ts1 && tg != dynamic1 ==> want && slot
    ensures tg !in ts1 && tg !in ts2 && tg != dynamic1 && tg != dynamic2 ==> !want
  {
    LinkedOnSlot(Replaced(p, ts1, ts2, dynamic1, dynamic2), tg);
  }

  /** A goroutine gets its turn; one that panics never ends. */
  function Ran(w: World, task: Task): (World, Answer) {
    var rest := w.waiting - multiset{task};
    if task !in w.waiting then (w, Rejected)
    else match task
      case ListenOn(p, key) =>
        if p.radioID !in w.reg.subs then (w, Panicked)
        else (w.(reg := ListenedOn(w.reg, p, key), waiting := rest), Done)
      case ListenAll(p) => (w.(reg := Listened(w.reg, p), waiting := rest), Done)
  }

  /** A cancelled subscriber that has something to clean up. */
  predicate CanCleanUp(s: Registry, h: Handle) {
    h in s.running && h in s.cancelled && s.running[h].key != 0
  }

  ghost function Apply(w: World, op: Operation): (World, Answer) {
    match op
    case Switch(rid, dst, slot, talkgroups) =>
      if rid !in w.db || dst !in talkgroups then (w, Rejected)
      else if Dynamic(w.db[rid], slot) == Some(dst) then (w, Done)
      else
        var p := WithDynamic(w.db[rid], slot, Some(dst));
        (StoreAndGo(w, p, ListenOn(p, dst)), Done)
    case Drop(rid, slot) =>
      if rid !in w.db then (w, Rejected)
      else if Dynamic(w.db[rid], slot).None? then (w, Done)
      else CancelAndStore(w, WithDynamic(w.db[rid], slot, None), Dynamic(w.db[rid], slot).value, true)
    case Link(rid, isStatic, slot, tg) =>
      if rid !in w.db then (w, Rejected)
      else
        var p := WithLink(w.db[rid], isStatic, slot, tg);
        (StoreAndGo(w, p, ListenOn(p, tg)), Done)
    case Unlink(rid, isStatic, slot, tg, talkgroups) =>
      if tg !in talkgroups || rid !in w.db || !HasLink(w.db[rid], isStatic, slot, tg) then (w, Rejected)
      else CancelAndStore(w, WithoutLink(w.db[rid], isStatic, slot, tg), tg, isStatic)
    case Replace(rid, ts1, ts2, dynamic1, dynamic2) =>
      if rid !in w.db then (w, Rejected)
      else
        var p := Replaced(w.db[rid], ts1, ts2, dynamic1, dynamic2);
        (StoreAndGo(w, p, ListenAll(p)).(reg := CancelledAll(w.reg, p)), Done)
    case Add(rid) =>
      if rid in w.db then (w, Rejected)
      else
        var p := Repeater(rid, [], [], None, None);
        (StoreAndGo(w, p, ListenAll(p)), Done)
    case Run(task) => Ran(w, task)
    case CleanUp(h) =>
      if CanCleanUp(w.reg, h) then (w.(reg := CleanedUp(w.reg, h)), Done) else (w, Rejected)
  }

  // ---------------------------------------------------------------- listening and taking

  /** The goroutine is going to listen on this key of this repeater. */
  predicate Covers(t: Task, rid: Id, key: Id) {
    t.p.radioID == rid && match t case ListenOn(_, k) => k == key case ListenAll(p) => key in WantedKeys(p)
  }

  /** The operation is a goroutine that listens on the key; one for a single key can only do so when
      its repeater is listened for. */
  predicate Listens(w: World, op: Operation, rid: Id, key: Id) {
    && op.Run? && op.task in w.waiting && Covers(op.task, rid, key)
    && (op.task.ListenOn? ==> rid in w.reg.subs)
  }

  /** The operation unlinks the key for good, or is the cleanup of a subscriber of the key. */
  ghost predicate Takes(w: World, op: Operation, rid: Id, key: Id) {
    match op
    case Drop(r, slot) =>
      r == rid && rid in w.db && Dynamic(w.db[rid], slot) == Some(key)
      && key !in WithDynamic(w.db[rid], slot, None).Linked()
    case Unlink(r, isStatic, slot, tg, talkgroups) =>
      r == rid && rid in w.db && tg == key && key in talkgroups && HasLink(w.db[rid], isStatic, slot, key)
      && key !in WithoutLink(w.db[rid], isStatic, slot, key).Linked()
    case Replace(r, ts1, ts2, dynamic1, dynamic2) =>
      r == rid && rid in w.db && key !in Replaced(w.db[rid], ts1, ts2, dynamic1, dynamic2).Linked()
    case CleanUp(h) =>
      CanCleanUp(w.reg, h) && w.reg.running[h].repeater.radioID == rid && w.reg.running[h].key == key
    case _ => false
  }

  /** Repeaters are stored under their numbers. */
  predicate DbOK(db: map<Id, Repeater>) {
    forall rid :: rid in db ==> db[rid].radioID == rid
  }

  lemma ListeningKeys(s: Registry, p: Repeater, rid: Id, key: Id)
    ensures key in Listened(s, p).Keys(rid) <==> key in s.Keys(rid) || (rid == p.radioID && key in WantedKeys(p))
  {
    ListenedKeys(Opened(s, p.radioID), p, WantedKeys(p));
    assert key in WantedKeys(p) <==> key in (set k | k in WantedKeys(p));
  }

  lemma ApplyKeepsNumbers(w: World, op: Operation)
    requires DbOK(w.db)
    ensures DbOK(Apply(w, op).0.db)
  {}

  /** What one operation does to the keys of the registry. */
  lemma KeysStep(w: World, op: Operation, rid: Id, key: Id)
    requires DbOK(w.db)
    ensures key in Apply(w, op).0.reg.Keys(rid) <==>
              Listens(w, op, rid, key) || (key in w.reg.Keys(rid) && !Takes(w, op, rid, key))
  {
    match op
    case Run(task) => ListeningStep(w, task, rid, key);
    case _ => TakingStep(w, op, rid, key);
  }

  lemma ListeningStep(w: World, task: Task, rid: Id, key: Id)
    ensures key in Ran(w, task).0.reg.Keys(rid) <==> Listens(w, Run(task), rid, key) || key in w.reg.Keys(rid)
  {
    if task.ListenAll? { ListeningKeys(w.reg, task.p, rid, key); }
  }

  lemma TakingStep(w: World, op: Operation, rid: Id, key: Id)
    requires DbOK(w.db) && !op.Run?
    ensures key in Apply(w, op).0.reg.Keys(rid) <==> key in w.reg.Keys(rid) && !Takes(w, op, rid, key)
  {}
}
