/** The registry's two maps under every interleaving of the goroutines that change them
    (internal/models/repeater.go). Each statement that touches shared state is a step of its own. */
module Interleavings {
  import opened Words
  import opened Histories
  import Links
  import Subscriptions

  type Thread = nat

  type Handle = Subscriptions.Handle

  /** What a goroutine is doing: listening on a key, cancelling one, cleaning up after a
      cancelled subscription, or creating a repeater's inner maps. */
  datatype Task =
    | Listen(rid: Id, key: Id, handle: Handle)
    | Cancel(rid: Id, key: Id, linked: bool)
    | CleanUp(rid: Id, key: Id)
    | Open(rid: Id)

  /** Where it is. `InRead` and `Looked` hold the outer mutex for reading; `Locked` to
      `Cleared` hold it for writing. */
  datatype Place =
    | Start | InRead | Looked | Waiting
    | Locked | Ready | Inner | Stored | Left | Cleared
    | Finished

  /** `found` is the goroutine's last look at a map. */
  datatype Local = Local(task: Task, at: Place, found: bool)

  datatype System = System(
    subs: map<Id, map<Id, Handle>>,
    mutexes: map<Id, set<Id>>,
    threads: map<Thread, Local>)

  predicate Reads(l: Local) {
    l.at == InRead || l.at == Looked
  }

  predicate Writes(l: Local) {
    l.at != Start && l.at != Waiting && l.at != Finished && !Reads(l)
  }

  /** Holds the inner mutex of its key. */
  predicate HoldsInner(l: Local) {
    l.at == Inner || l.at == Stored
  }

  predicate HasSub(s: System, rid: Id, key: Id) {
    rid in s.subs && key in s.subs[rid]
  }

  predicate HasMutex(s: System, rid: Id, key: Id) {
    rid in s.mutexes && key in s.mutexes[rid]
  }

  predicate CanRead(s: System) {
    forall t :: t in s.threads ==> !Writes(s.threads[t])
  }

  predicate CanWrite(s: System) {
    forall t :: t in s.threads ==> !Writes(s.threads[t]) && !Reads(s.threads[t])
  }

  // ---------------------------------------------------------------- steps

  function Put(m: map<Id, map<Id, Handle>>, rid: Id, key: Id, h: Handle): map<Id, map<Id, Handle>>
    requires rid in m
  {
    var inner: map<Id, Handle> := m[rid];
    var more: map<Id, Handle> := inner[key := h];
    m[rid := more]
  }

  function Remove(m: map<Id, map<Id, Handle>>, rid: Id, key: Id): map<Id, map<Id, Handle>> {
    if rid in m then m[rid := m[rid] - {key}] else m
  }

  function RemoveMutex(m: map<Id, set<Id>>, rid: Id, key: Id): map<Id, set<Id>> {
    if rid in m then m[rid := m[rid] - {key}] else m
  }

  /** The next statement of a goroutine panics: it dereferences a mutex that is not there,
      or assigns into a repeater's map that is not there. */
  predicate Panics(s: System, l: Local) {
    match l.task
    case Listen(rid, key, _) => l.at == Locked && rid !in s.mutexes
    case Cancel(rid, key, _) => (l.at == InRead || l.at == Locked) && !HasMutex(s, rid, key)
    case CleanUp(_, _) => false
    case Open(_) => false
  }

  /** The next statement can run: nobody is in its way, and it does not panic. */
  predicate Enabled(s: System, l: Local) {
    && l.at != Finished
    && (l.at == Start && !l.task.CleanUp? ==> CanRead(s))
    && (l.at == Start && l.task.CleanUp? ==> CanWrite(s))
    && (l.at == Waiting ==> CanWrite(s))
    && !Panics(s, l)
  }

  /** Where the outer read lock is released: what the look decided. */
  function Decided(l: Local): Place {
    match l.task
    case Listen(_, _, _) => if l.found then Finished else Waiting
    case Cancel(_, _, linked) => if !l.found || linked then Finished else Waiting
    case CleanUp(_, _) => Waiting
    case Open(_) => if l.found then Finished else Waiting
  }

  /** What the look under the read lock finds. */
  predicate Found(s: System, task: Task) {
    if task.Open? then task.rid in s.subs else HasSub(s, task.rid, task.key)
  }

  /** Acquiring, looking and deciding are the same for all tasks but the cleanup, which only writes. */
  function Look(s: System, l: Local): Local {
    match l.at
    case Start => l.(at := if l.task.CleanUp? then Locked else InRead)
    case InRead => l.(at := Looked, found := Found(s, l.task))
    case Looked => l.(at := Decided(l))
    case _ => l.(at := Locked)
  }

  /** One statement of a goroutine: the new shared maps and its new local state. */
  function Run(s: System, l: Local): (System, Local)
    requires Enabled(s, l)
  {
    if !Writes(l) then (s, Look(s, l))
    else match l.task
      case Listen(rid, key, h) => RunListen(s, l, rid, key, h)
      case Cancel(rid, key, _) => RunCancel(s, l, rid, key)
      case CleanUp(rid, key) => RunCleanUp(s, l, rid, key)
      case Open(rid) => RunOpen(s, l, rid)
  }

  function RunListen(s: System, l: Local, rid: Id, key: Id, h: Handle): (System, Local)
    requires l.at == Locked ==> rid in s.mutexes
  {
    match l.at
    case Locked => (s.(mutexes := s.mutexes[rid := s.mutexes[rid] + {key}]), l.(at := Ready))
    case Ready => (s, l.(at := Inner))
    case Inner => (if rid in s.subs then s.(subs := Put(s.subs, rid, key, h)) else s, l.(at := Stored))
    case Stored => (s, l.(at := Left))
    case _ => (s, l.(at := Finished))
  }

  function RunCancel(s: System, l: Local, rid: Id, key: Id): (System, Local) {
    match l.at
    case Locked => (s, l.(at := Inner))
    case Inner => (s.(subs := Remove(s.subs, rid, key)), l.(at := Stored))
    case Stored => (s, l.(at := Left))
    case Left => (s.(mutexes := RemoveMutex(s.mutexes, rid, key)), l.(at := Cleared))
    case _ => (s, l.(at := Finished))
  }

  function RunCleanUp(s: System, l: Local, rid: Id, key: Id): (System, Local) {
    match l.at
    case Locked => (s, l.(at := Ready, found := HasMutex(s, rid, key)))
    case Ready => (s, l.(at := Inner))
    case Inner => (s.(subs := Remove(s.subs, rid, key)), l.(at := Stored))
    case Stored => (s, l.(at := Left))
    case Left => (if l.found then s.(mutexes := RemoveMutex(s.mutexes, rid, key)) else s, l.(at := Cleared))
    case _ => (s, l.(at := Finished))
  }

  function RunOpen(s: System, l: Local, rid: Id): (System, Local) {
    match l.at
    case Locked => (s.(subs := s.subs[rid := map[]]), l.(at := Stored))
    case Stored => (s.(mutexes := s.mutexes[rid := {}]), l.(at := Left))
    case _ => (s, l.(at := Finished))
  }

  /** Any goroutine may be started at any time; a started one may run its next statement. */
  ghost predicate Next(s: System, s': System) {
    (exists t, task :: t !in s.threads && s' == Spawned(s, t, task))
    || (exists t :: t in s.threads && Enabled(s, s.threads[t]) && s' == Moved(s, t))
  }

  function Spawned(s: System, t: Thread, task: Task): System {
    s.(threads := s.threads[t := Local(task, Start, false)])
  }

  function Moved(s: System, t: Thread): System
    requires t in s.threads && Enabled(s, s.threads[t])
  {
    var (s', l) := Run(s, s.threads[t]);
    s'.(threads := s.threads[t := l])
  }

  // ---------------------------------------------------------------- the invariant

  /** The two maps have the same keys. */
  ghost predicate Balanced(s: System) {
    s.subs.Keys == s.mutexes.Keys && forall r :: r in s.subs ==> s.subs[r].Keys == s.mutexes[r]
  }

  /** The two maps agree on every repeater but one. */
  ghost predicate BalancedElsewhere(s: System, rid: Id) {
    && s.subs.Keys - {rid} == s.mutexes.Keys - {rid}
    && forall r :: r in s.subs && r != rid ==> r in s.mutexes && s.subs[r].Keys == s.mutexes[r]
  }

  /** The two maps agree but for one key of one repeater. */
  ghost predicate BalancedBut(s: System, rid: Id, key: Id) {
    && BalancedElsewhere(s, rid)
    && (rid in s.subs <==> rid in s.mutexes)
    && (rid in s.subs ==> s.subs[rid].Keys - {key} == s.mutexes[rid] - {key})
  }

  /** What the writer has done to the maps so far. */
  ghost predicate WriterShape(s: System, l: Local) {
    match l.task
    case Listen(rid, key, _) =>
      if l.at == Ready || l.at == Inner then BalancedBut(s, rid, key) && HasMutex(s, rid, key)
      else Balanced(s)
    case Cancel(rid, key, _) =>
      if l.at == Inner then Balanced(s) && HasMutex(s, rid, key)
      else if l.at == Stored || l.at == Left then
        BalancedBut(s, rid, key) && HasMutex(s, rid, key) && !HasSub(s, rid, key)
      else Balanced(s)
    case CleanUp(rid, key) =>
      if l.at == Ready || l.at == Inner then Balanced(s) && (l.found <==> HasMutex(s, rid, key))
      else if l.at == Stored || l.at == Left then
        BalancedBut(s, rid, key) && (l.found <==> HasMutex(s, rid, key)) && !HasSub(s, rid, key)
      else Balanced(s)
    case Open(rid) =>
      if l.at == Stored then BalancedElsewhere(s, rid) && rid in s.subs && s.subs[rid] == map[]
      else Balanced(s)
  }

  ghost predicate Exclusive(s: System) {
    forall t, u :: t in s.threads && u in s.threads && t != u && Writes(s.threads[t]) ==>
      !Writes(s.threads[u]) && !Reads(s.threads[u])
  }

  ghost predicate Invariant(s: System) {
    && Exclusive(s)
    && (forall t :: t in s.threads && Writes(s.threads[t]) ==> WriterShape(s, s.threads[t]))
    && ((forall t :: t in s.threads ==> !Writes(s.threads[t])) ==> Balanced(s))
  }

  // ---------------------------------------------------------------- proof

  lemma PutBalances(s: System, rid: Id, key: Id, h: Handle)
    requires BalancedBut(s, rid, key) && HasMutex(s, rid, key)
    ensures rid in s.subs && Balanced(s.(subs := Put(s.subs, rid, key, h)))
  {
    var s' := s.(subs := Put(s.subs, rid, key, h));
    assert s'.subs[rid].Keys == s.subs[rid].Keys + {key};
    assert s.mutexes[rid] == s.mutexes[rid] - {key} + {key};
    assert s'.subs.Keys == s.subs.Keys == (s.subs.Keys - {rid}) + {rid};
    assert s.mutexes.Keys == (s.mutexes.Keys - {rid}) + {rid};
  }

  lemma RemoveMutexBalances(s: System, rid: Id, key: Id)
    requires BalancedBut(s, rid, key) && !HasSub(s, rid, key)
    ensures Balanced(s.(mutexes := RemoveMutex(s.mutexes, rid, key)))
    ensures !HasMutex(s, rid, key) ==> Balanced(s)
  {
    assert rid in s.subs ==> s.subs[rid].Keys - {key} == s.subs[rid].Keys;
    assert !HasMutex(s, rid, key) && rid in s.subs ==> s.mutexes[rid] - {key} == s.mutexes[rid];
    if rid in s.subs {
      assert s.subs.Keys == (s.subs.Keys - {rid}) + {rid} && s.mutexes.Keys == (s.mutexes.Keys - {rid}) + {rid};
    } else {
      assert s.subs.Keys == s.subs.Keys - {rid} && s.mutexes.Keys == s.mutexes.Keys - {rid};
    }
  }

  lemma OpenBalances(s: System, rid: Id)
    requires BalancedElsewhere(s, rid) && rid in s.subs && s.subs[rid] == map[]
    ensures Balanced(s.(mutexes := s.mutexes[rid := {}]))
  {
    assert s.subs.Keys == (s.subs.Keys - {rid}) + {rid};
    assert s.mutexes[rid := {}].Keys == (s.mutexes.Keys - {rid}) + {rid};
  }

  ghost predicate Arrives(s: System, l: Local) {
    !Reads(l) && if Writes(l) then WriterShape(s, l) else Balanced(s)
  }

  lemma ListenMoves(s: System, l: Local)
    requires l.task.Listen? && Writes(l) && WriterShape(s, l) && Enabled(s, l)
    ensures Arrives(Run(s, l).0, Run(s, l).1)
  {
    if l.at == Inner { PutBalances(s, l.task.rid, l.task.key, l.task.handle); }
  }

  lemma CancelMoves(s: System, l: Local)
    requires l.task.Cancel? && Writes(l) && WriterShape(s, l) && Enabled(s, l)
    ensures Arrives(Run(s, l).0, Run(s, l).1)
  {
    if l.at == Left { RemoveMutexBalances(s, l.task.rid, l.task.key); }
  }

  lemma CleanUpMoves(s: System, l: Local)
    requires l.task.CleanUp? && Writes(l) && WriterShape(s, l) && Enabled(s, l)
    ensures Arrives(Run(s, l).0, Run(s, l).1)
  {
    if l.at == Left { RemoveMutexBalances(s, l.task.rid, l.task.key); }
  }

  lemma OpenMoves(s: System, l: Local)
    requires l.task.Open? && Writes(l) && WriterShape(s, l) && Enabled(s, l)
    ensures Arrives(Run(s, l).0, Run(s, l).1)
  {
    if l.at == Stored { OpenBalances(s, l.task.rid); }
  }

  /** A statement inside a write section goes from shape to shape. */
  lemma WriterMoves(s: System, l: Local)
    requires Writes(l) && WriterShape(s, l) && Enabled(s, l)
    ensures Arrives(Run(s, l).0, Run(s, l).1)
  {
    match l.task
    case Listen(_, _, _) => ListenMoves(s, l);
    case Cancel(_, _, _) => CancelMoves(s, l);
    case CleanUp(_, _) => CleanUpMoves(s, l);
    case Open(_) => OpenMoves(s, l);
  }

  /** Outside a write section nothing is changed, and one is entered only when nobody reads or writes. */
  lemma Enters(s: System, l: Local)
    requires !Writes(l) && Enabled(s, l)
    ensures var (s', l') := Run(s, l);
            && s' == s
            && (Writes(l') ==> CanWrite(s) && l'.at == Locked)
            && (Reads(l') && !Reads(l) ==> CanRead(s))
  {}

  /** Shapes look at the maps only. */
  lemma ShapeIgnoresThreads(s: System, threads: map<Thread, Local>, l: Local)
    ensures Balanced(s) <==> Balanced(s.(threads := threads))
    ensures WriterShape(s, l) <==> WriterShape(s.(threads := threads), l)
  {}

  lemma SpawnKeeps(s: System, t: Thread, task: Task)
    requires Invariant(s) && t !in s.threads
    ensures Invariant(Spawned(s, t, task))
  {
    var s' := Spawned(s, t, task);
    assert forall u :: u in s.threads ==> u in s'.threads && s'.threads[u] == s.threads[u];
    forall u | u in s.threads { ShapeIgnoresThreads(s, s'.threads, s.threads[u]); }
    ShapeIgnoresThreads(s, s'.threads, s'.threads[t]);
  }

  lemma WriterKeeps(s: System, t: Thread)
    requires Invariant(s) && t in s.threads && Writes(s.threads[t]) && Enabled(s, s.threads[t])
    ensures Invariant(Moved(s, t))
  {
    var l := s.threads[t];
    var (s1, l') := Run(s, l);
    WriterMoves(s, l);
    ShapeIgnoresThreads(s1, s.threads[t := l'], l');
    var s' := Moved(s, t);
    forall u | u in s.threads && u != t
      ensures s'.threads[u] == s.threads[u] && !Writes(s'.threads[u]) && !Reads(s'.threads[u])
    {}
    assert s'.threads[t] == l';
  }

  lemma OutsiderKeeps(s: System, t: Thread)
    requires Invariant(s) && t in s.threads && !Writes(s.threads[t]) && Enabled(s, s.threads[t])
    ensures Invariant(Moved(s, t))
  {
    var l := s.threads[t];
    var l' := Run(s, l).1;
    Enters(s, l);
    var s' := Moved(s, t);
    assert forall u :: u in s.threads && u != t ==> s'.threads[u] == s.threads[u];
    forall u | u in s.threads { ShapeIgnoresThreads(s, s.threads[t := l'], s.threads[u]); }
    ShapeIgnoresThreads(s, s.threads[t := l'], l');
  }

  lemma MoveKeeps(s: System, t: Thread)
    requires Invariant(s) && t in s.threads && Enabled(s, s.threads[t])
    ensures Invariant(Moved(s, t))
  {
    if Writes(s.threads[t]) {
      WriterKeeps(s, t);
    } else {
      OutsiderKeeps(s, t);
    }
  }

  /** `trace` is an interleaving from empty maps and no goroutine. */
  ghost predicate IsRun(trace: seq<System>) {
    && |trace| > 0
    && trace[0] == System(map[], map[], map[])
    && forall i :: 0 <= i < |trace| - 1 ==> Next(trace[i], trace[i + 1])
  }

  lemma {:induction false} RunsKeepInvariant(trace: seq<System>, n: nat)
    requires IsRun(trace) && n < |trace|
    ensures Invariant(trace[n])
  {
    if n > 0 {
      RunsKeepInvariant(trace, n - 1);
      var s, s' := trace[n - 1], trace[n];
      assert Next(s, s');
      if t, task :| t !in s.threads && s' == Spawned(s, t, task) {
        SpawnKeeps(s, t, task);
      } else {
        var t :| t in s.threads && Enabled(s, s.threads[t]) && s' == Moved(s, t);
        MoveKeeps(s, t);
      }
    }
  }

  /** In every interleaving, whenever the outer mutex is not held for writing, the map of cancel
      functions and the map of mutexes have exactly the same keys for every repeater. */
  lemma KeysAgree(trace: seq<System>, n: nat)
    requires IsRun(trace) && n < |trace|
    requires forall t :: t in trace[n].threads ==> !Writes(trace[n].threads[t])
    ensures trace[n].subs.Keys == trace[n].mutexes.Keys
    ensures forall r, k :: HasSub(trace[n], r, k) <==> HasMutex(trace[n], r, k)
  {
    RunsKeepInvariant(trace, n);
  }

  /** The inner mutexes add nothing: nobody else is inside the registry when one is taken. */
  lemma InnerIsNeverContended(trace: seq<System>, n: nat, t: Thread, u: Thread)
    requires IsRun(trace) && n < |trace|
    requires t in trace[n].threads && u in trace[n].threads && t != u
    requires Writes(trace[n].threads[t])
    ensures !HoldsInner(trace[n].threads[u]) && !Reads(trace[n].threads[u])
  {
    RunsKeepInvariant(trace, n);
  }

  /** A canceller that is about to look, or has the write lock, panics exactly when its key is not
      in the registry: it was never there, or has gone since the look. */
  lemma CancellerPanics(trace: seq<System>, n: nat, t: Thread)
    requires IsRun(trace) && n < |trace| && t in trace[n].threads && trace[n].threads[t].task.Cancel?
    requires trace[n].threads[t].at == InRead || trace[n].threads[t].at == Locked
    ensures var l := trace[n].threads[t];
            Panics(trace[n], l) <==> !HasSub(trace[n], l.task.rid, l.task.key)
  {
    RunsKeepInvariant(trace, n);
  }

  // ---------------------------------------------------------------- after a panic

  /** A goroutine that panics keeps the outer mutex, so nobody can change anything. */
  lemma PanicBlocksStep(s: System, s': System, t: Thread)
    requires Invariant(s) && Next(s, s') && t in s.threads && Panics(s, s.threads[t])
    ensures s'.subs == s.subs && s'.mutexes == s.mutexes
    ensures t in s'.threads && s'.threads[t] == s.threads[t]
  {
    if u, task :| u !in s.threads && s' == Spawned(s, u, task) {
    } else {
      var u :| u in s.threads && Enabled(s, s.threads[u]) && s' == Moved(s, u);
      assert u != t && !Writes(s.threads[u]);
      Enters(s, s.threads[u]);
    }
  }

  /** From a panic on, in every interleaving, both maps stay as they are and no other goroutine writes;
      after a panic with the write lock no other goroutine reads the registry either. */
  lemma {:induction false} PanicFreezesRegistry(trace: seq<System>, n: nat, m: nat, t: Thread)
    requires IsRun(trace) && n <= m < |trace| && t in trace[n].threads && Panics(trace[n], trace[n].threads[t])
    ensures trace[m].subs == trace[n].subs && trace[m].mutexes == trace[n].mutexes
    ensures t in trace[m].threads && trace[m].threads[t] == trace[n].threads[t]
    ensures forall u :: u in trace[m].threads && u != t ==>
              && !Writes(trace[m].threads[u])
              && (trace[n].threads[t].at == Locked ==> !Reads(trace[m].threads[u]))
  {
    if m > n {
      PanicFreezesRegistry(trace, n, m - 1, t);
      RunsKeepInvariant(trace, m - 1);
      PanicBlocksStep(trace[m - 1], trace[m], t);
    }
    RunsKeepInvariant(trace, m);
    PanicExcludes(trace[m], t);
  }

  lemma PanicExcludes(s: System, t: Thread)
    requires Invariant(s) && t in s.threads && Panics(s, s.threads[t])
    ensures forall u :: u in s.threads && u != t ==>
              !Writes(s.threads[u]) && (s.threads[t].at == Locked ==> !Reads(s.threads[u]))
  {
    assert if s.threads[t].at == Locked then Writes(s.threads[t]) else Reads(s.threads[t]);
  }

  // ---------------------------------------------------------------- one goroutine on its own

  function Rank(at: Place): nat {
    match at
    case Start => 10 case InRead => 9 case Looked => 8 case Waiting => 7
    case Locked => 6 case Ready => 5 case Inner => 4 case Stored => 3 case Left => 2 case Cleared => 1
    case Finished => 0
  }

  /** A goroutine run as far as it gets, with nobody in between. */
  function RunOut(s: System, l: Local): (System, Local)
    decreases Rank(l.at)
  {
    if Enabled(s, l) then
      var (s', l') := Run(s, l);
      RunOut(s', l')
    else (s, l)
  }

  lemma OneStep(s: System, l: Local)
    requires Enabled(s, l)
    ensures RunOut(s, l) == RunOut(Run(s, l).0, Run(s, l).1)
  {}

  /** The look under the read lock, and what it decides. */
  lemma ReadSection(s: System, l: Local)
    requires CanWrite(s) && l.at == Start && !l.task.CleanUp?
    requires l.task.Cancel? ==> HasMutex(s, l.task.rid, l.task.key)
    ensures var found := Found(s, l.task);
            RunOut(s, l) == RunOut(s, Local(l.task, Decided(Local(l.task, Looked, found)), found))
  {
    var l1 := Run(s, l).1;
    var l2 := Run(s, l1).1;
    OneStep(s, l);
    OneStep(s, l1);
    OneStep(s, l2);
  }

  /** After the entry is made only locks are left to be released. */
  lemma ListenEnds(s: System, l: Local)
    requires l.at == Stored && l.task.Listen?
    ensures RunOut(s, l) == (s, l.(at := Finished))
  {
    var (s1, l1) := Run(s, l);
    OneStep(s, l);
    OneStep(s1, l1);
  }

  lemma ListenSection(s: System, l: Local)
    requires CanWrite(s) && l.at == Waiting && l.task.Listen? && l.task.rid in s.mutexes && l.task.rid in s.subs
    ensures RunOut(s, l).0.subs == Put(s.subs, l.task.rid, l.task.key, l.task.handle)
    ensures RunOut(s, l).1.at == Finished
  {
    var (s1, l1) := Run(s, l);
    var (s2, l2) := Run(s1, l1);
    var (s3, l3) := Run(s2, l2);
    var (s4, l4) := Run(s3, l3);
    OneStep(s, l);
    OneStep(s1, l1);
    OneStep(s2, l2);
    OneStep(s3, l3);
    ListenEnds(s4, l4);
  }

  /** After the removal only the mutex is left to be dealt with. */
  lemma RemovalEnds(s: System, l: Local)
    requires l.at == Stored && (l.task.Cancel? || l.task.CleanUp?)
    ensures RunOut(s, l).0.subs == s.subs && RunOut(s, l).1.at == Finished
  {
    var (s1, l1) := Run(s, l);
    var (s2, l2) := Run(s1, l1);
    OneStep(s, l);
    OneStep(s1, l1);
    OneStep(s2, l2);
  }

  lemma CancelSection(s: System, l: Local)
    requires CanWrite(s) && l.task.Cancel? && l.at == Waiting && HasMutex(s, l.task.rid, l.task.key)
    ensures RunOut(s, l).0.subs == Remove(s.subs, l.task.rid, l.task.key) && RunOut(s, l).1.at == Finished
  {
    var (s1, l1) := Run(s, l);
    var (s2, l2) := Run(s1, l1);
    var (s3, l3) := Run(s2, l2);
    OneStep(s, l);
    OneStep(s1, l1);
    OneStep(s2, l2);
    RemovalEnds(s3, l3);
  }

  lemma CleanUpSection(s: System, l: Local)
    requires CanWrite(s) && l.task.CleanUp? && l.at == Start
    ensures RunOut(s, l).0.subs == Remove(s.subs, l.task.rid, l.task.key) && RunOut(s, l).1.at == Finished
  {
    var (s1, l1) := Run(s, l);
    var (s2, l2) := Run(s1, l1);
    var (s3, l3) := Run(s2, l2);
    var (s4, l4) := Run(s3, l3);
    OneStep(s, l);
    OneStep(s1, l1);
    OneStep(s2, l2);
    OneStep(s3, l3);
    RemovalEnds(s4, l4);
  }

  lemma OpenSection(s: System, l: Local)
    requires CanWrite(s) && l.task.Open? && l.at == Waiting
    ensures RunOut(s, l).0.subs == s.subs[l.task.rid := map[]] && RunOut(s, l).1.at == Finished
  {
    var (s1, l1) := Run(s, l);
    var (s2, l2) := Run(s1, l1);
    var (s3, l3) := Run(s2, l2);
    OneStep(s, l);
    OneStep(s1, l1);
    OneStep(s2, l2);
    OneStep(s3, l3);
  }

  /** Without interruption, listening, cancelling and cleaning up change the map of cancel
      functions as the sequential registry says, whatever other goroutines wait outside. */
  lemma AloneListens(s: System, p: Links.Repeater, key: Id, reg: Subscriptions.Registry)
    requires Balanced(s) && CanWrite(s) && reg.subs == s.subs && p.radioID in s.subs
    ensures var (s', l') := RunOut(s, Local(Listen(p.radioID, key, reg.next), Start, false));
            s'.subs == Subscriptions.ListenedOn(reg, p, key).subs && l'.at == Finished
  {
    var task := Listen(p.radioID, key, reg.next);
    ReadSection(s, Local(task, Start, false));
    if !HasSub(s, p.radioID, key) {
      ListenSection(s, Local(task, Waiting, false));
    }
  }

  lemma AloneCancels(s: System, p: Links.Repeater, key: Id, reg: Subscriptions.Registry)
    requires Balanced(s) && CanWrite(s) && reg.subs == s.subs && key in reg.Keys(p.radioID)
    ensures var (s', l') := RunOut(s, Local(Cancel(p.radioID, key, key in p.Linked()), Start, false));
            s'.subs == Subscriptions.Cancelled(reg, p, key).subs && l'.at == Finished
  {
    var task := Cancel(p.radioID, key, key in p.Linked());
    ReadSection(s, Local(task, Start, false));
    if key !in p.Linked() {
      CancelSection(s, Local(task, Waiting, true));
    }
  }

  lemma AloneCleansUp(s: System, h: Handle, reg: Subscriptions.Registry)
    requires Balanced(s) && CanWrite(s) && reg.subs == s.subs && h in reg.running && reg.running[h].key != 0
    ensures var task := CleanUp(reg.running[h].repeater.radioID, reg.running[h].key);
            var (s', l') := RunOut(s, Local(task, Start, false));
            s'.subs == Subscriptions.CleanedUp(reg, h).subs && l'.at == Finished
  {
    var sub := reg.running[h];
    CleanUpSection(s, Local(CleanUp(sub.repeater.radioID, sub.key), Start, false));
  }

  // ---------------------------------------------------------------- reaching a panic

  function Last(trace: seq<System>): System
    requires |trace| > 0
  {
    trace[|trace| - 1]
  }

  lemma Grows(trace: seq<System>, s: System) returns (trace': seq<System>)
    requires IsRun(trace) && Next(Last(trace), s)
    ensures IsRun(trace') && Last(trace') == s && trace <= trace'
  {
    trace' := trace + [s];
  }

  function Placed(s: System, t: Thread, l: Local): System {
    s.(threads := s.threads[t := l])
  }

  /** A goroutine that nobody interrupts gets as far in the system as on its own. */
  lemma {:induction false} RunOutIsReached(trace: seq<System>, s: System, t: Thread, l: Local)
    returns (trace': seq<System>)
    requires IsRun(trace) && CanWrite(s) && Last(trace) == Placed(s, t, l)
    ensures IsRun(trace') && trace <= trace' && Last(trace') == Placed(RunOut(s, l).0, t, RunOut(s, l).1)
    decreases Rank(l.at)
  {
    if Enabled(s, l) {
      trace' := MoveIsReached(trace, s, t, l);
      RankFalls(s, l);
      trace' := RunOutIsReached(trace', Run(s, l).0, t, Run(s, l).1);
      OneStep(s, l);
    } else {
      trace' := trace;
    }
  }

  lemma RankFalls(s: System, l: Local)
    requires Enabled(s, l)
    ensures Rank(Run(s, l).1.at) < Rank(l.at)
  {}

  /** Statements look at the maps only, and change the maps only. */
  lemma RunIgnoresThreads(s: System, threads: map<Thread, Local>, l: Local)
    requires Enabled(s, l) && Enabled(s.(threads := threads), l)
    ensures Run(s, l).0.threads == s.threads
    ensures Run(s.(threads := threads), l) == (Run(s, l).0.(threads := threads), Run(s, l).1)
  {}

  lemma MoveIsReached(trace: seq<System>, s: System, t: Thread, l: Local) returns (trace': seq<System>)
    requires IsRun(trace) && CanWrite(s) && Last(trace) == Placed(s, t, l) && Enabled(s, l)
    ensures IsRun(trace') && trace <= trace' && Last(trace') == Placed(Run(s, l).0, t, Run(s, l).1)
    ensures CanWrite(Run(s, l).0)
  {
    var threads := s.threads[t := l];
    assert forall u :: u in threads && u != t ==> threads[u] == s.threads[u];
    RunIgnoresThreads(s, threads, l);
    assert threads[t := Run(s, l).1] == s.threads[t := Run(s, l).1];
    trace' := Grows(trace, Moved(Placed(s, t, l), t));
  }

  /** A new goroutine runs out. */
  lemma StartedRunsOut(trace: seq<System>, t: Thread, task: Task) returns (trace': seq<System>)
    requires IsRun(trace) && CanWrite(Last(trace)) && t !in Last(trace).threads
    ensures var (s, l) := RunOut(Last(trace), Local(task, Start, false));
            && IsRun(trace') && trace <= trace'
            && Last(trace') == Placed(s, t, l)
            && Last(trace').threads == Last(trace).threads[t := l]
            && (l.at == Finished ==> CanWrite(Last(trace')))
  {
    var s, l := Last(trace), Local(task, Start, false);
    trace' := Grows(trace, Spawned(s, t, task));
    trace' := RunOutIsReached(trace', s, t, l);
    QuietAfter(s, l);
  }

  lemma {:induction false} QuietAfter(s: System, l: Local)
    requires CanWrite(s)
    ensures RunOut(s, l).0.threads == s.threads
    decreases Rank(l.at)
  {
    if Enabled(s, l) {
      RunIgnoresThreads(s, s.threads, l);
      QuietAfter(Run(s, l).0, Run(s, l).1);
    }
  }

  /** An opener and a listener, one after the other, put an entry into a repeater's new map. */
  lemma OpenAndListen(trace: seq<System>, rid: Id, key: Id, h: Handle, u: Thread, v: Thread)
    returns (trace': seq<System>)
    requires IsRun(trace) && CanWrite(Last(trace)) && rid !in Last(trace).subs
    requires u !in Last(trace).threads && v !in Last(trace).threads && u != v
    ensures IsRun(trace') && trace <= trace' && CanWrite(Last(trace')) && HasSub(Last(trace'), rid, key)
    ensures forall t :: t in Last(trace).threads ==>
              t in Last(trace').threads && Last(trace').threads[t] == Last(trace).threads[t]
  {
    var open, listen := Open(rid), Listen(rid, key, h);
    trace' := StartedRunsOut(trace, u, open);
    ReadSection(Last(trace), Local(open, Start, false));
    OpenSection(Last(trace), Local(open, Waiting, false));
    var s := Last(trace');
    KeysAgree(trace', |trace'| - 1);
    trace' := StartedRunsOut(trace', v, listen);
    ReadSection(s, Local(listen, Start, false));
    ListenSection(s, Local(listen, Waiting, false));
  }

  /** A key of a repeater can come into the registry. */
  lemma KeyIsReached(rid: Id, key: Id, h: Handle) returns (trace: seq<System>)
    ensures IsRun(trace) && CanWrite(Last(trace)) && HasSub(Last(trace), rid, key)
  {
    trace := OpenAndListen([System(map[], map[], map[])], rid, key, h, 0, 1);
  }

  /** From any point of any interleaving where nobody is inside the registry, two cancellers of a
      key that is there can interleave so that one panics: it looks and finds the key, the other
      runs from start to end, and the first one takes the write lock. */
  lemma TwoCancellersPanic(trace: seq<System>, rid: Id, key: Id, t: Thread, u: Thread) returns (trace': seq<System>)
    requires IsRun(trace) && CanWrite(Last(trace)) && HasSub(Last(trace), rid, key)
    requires t !in Last(trace).threads && u !in Last(trace).threads && t != u
    ensures IsRun(trace') && trace <= trace' && t in Last(trace').threads
    ensures Last(trace').threads[t] == Local(Cancel(rid, key, false), Locked, true)
    ensures Panics(Last(trace'), Last(trace').threads[t])
  {
    var task := Cancel(rid, key, false);
    KeysAgree(trace, |trace| - 1);
    trace' := FirstLooks(trace, task, t);
    trace' := SecondCancels(trace', rid, key, u);
    var s' := Last(trace');
    assert s'.threads[t] == Local(task, Waiting, true);
    trace' := Grows(trace', Moved(s', t));
    CancellerPanics(trace', |trace'| - 1, t);
  }

  /** A canceller runs from start to end. */
  lemma SecondCancels(trace: seq<System>, rid: Id, key: Id, u: Thread) returns (trace': seq<System>)
    requires IsRun(trace) && CanWrite(Last(trace)) && HasSub(Last(trace), rid, key) && u !in Last(trace).threads
    ensures IsRun(trace') && trace <= trace' && CanWrite(Last(trace')) && !HasSub(Last(trace'), rid, key)
    ensures forall t :: t in Last(trace).threads ==>
              t in Last(trace').threads && Last(trace').threads[t] == Last(trace).threads[t]
  {
    var s, task := Last(trace), Cancel(rid, key, false);
    KeysAgree(trace, |trace| - 1);
    trace' := StartedRunsOut(trace, u, task);
    ReadSection(s, Local(task, Start, false));
    CancelSection(s, Local(task, Waiting, true));
  }

  /** A goroutine looks, and waits for the write lock. */
  lemma FirstLooks(trace: seq<System>, task: Task, t: Thread) returns (trace': seq<System>)
    requires IsRun(trace) && CanWrite(Last(trace)) && t !in Last(trace).threads && !task.CleanUp?
    requires Decided(Local(task, Looked, Found(Last(trace), task))) == Waiting
    requires task.Cancel? ==> HasMutex(Last(trace), task.rid, task.key)
    ensures IsRun(trace') && trace <= trace' && CanWrite(Last(trace'))
    ensures Last(trace') == Placed(Last(trace), t, Local(task, Waiting, Found(Last(trace), task)))
  {
    var s := Last(trace);
    trace' := Grows(trace, Spawned(s, t, task));
    trace' := MoveIsReached(trace', s, t, Local(task, Start, false));
    trace' := MoveIsReached(trace', s, t, Local(task, InRead, false));
    trace' := MoveIsReached(trace', s, t, Local(task, Looked, Found(s, task)));
  }

  // ---------------------------------------------------------------- entries that are lost

  /** The goroutine's next statement puts something else, or nothing, in the place of an entry. */
  predicate Displaces(s: System, l: Local, rid: Id, key: Id)
    requires HasSub(s, rid, key)
  {
    match l.task
    case Listen(r, k, h) => l.at == Inner && r == rid && k == key && s.subs[rid][key] != h
    case Cancel(r, k, _) => l.at == Inner && r == rid && k == key
    case CleanUp(r, k) => l.at == Inner && r == rid && k == key
    case Open(r) => l.at == Locked && r == rid
  }

  /** A stored cancel function goes exactly when a canceller or a cleanup of its key removes it, a
      listener of its key overwrites it, or an opener of its repeater wipes the whole map. */
  lemma EntryGoesExactly(s: System, t: Thread, rid: Id, key: Id)
    requires t in s.threads && Enabled(s, s.threads[t]) && HasSub(s, rid, key)
    ensures var s' := Moved(s, t);
            !HasSub(s', rid, key) || s'.subs[rid][key] != s.subs[rid][key] <==> Displaces(s, s.threads[t], rid, key)
  {
    var l := s.threads[t];
    if !Writes(l) {
      Enters(s, l);
    } else {
      match l.task
      case Listen(_, _, _) =>
      case Cancel(_, _, _) =>
      case CleanUp(_, _) =>
      case Open(_) =>
    }
  }

  /** The goroutine is about to look. */
  predicate LooksAt(s: System, t: Thread, task: Task) {
    t in s.threads && s.threads[t].task == task && s.threads[t].at == InRead
  }

  predicate HasLooked(l: Local) {
    !l.task.CleanUp? && l.at != Start && l.at != InRead
  }

  /** What its look found was so when it looked. */
  ghost predicate Remembers(trace: seq<System>, n: nat, t: Thread)
    requires n < |trace|
  {
    t in trace[n].threads && HasLooked(trace[n].threads[t]) ==>
      var l := trace[n].threads[t];
      && (l.task.Listen? || l.task.Open? ==> !l.found || l.at == Looked || l.at == Finished)
      && exists m: nat :: m < n && LooksAt(trace[m], t, l.task) && l.found == Found(trace[m], l.task)
  }

  /** One statement: a goroutine keeps its task, starts at the start, and looks once. */
  lemma LocalStep(s: System, s': System, t: Thread)
    requires Next(s, s') && t in s'.threads && HasLooked(s'.threads[t])
    ensures t in s.threads && s'.threads[t].task == s.threads[t].task
    ensures var l, l' := s.threads[t], s'.threads[t];
            if HasLooked(l) then
              && l'.found == l.found
              && (l'.at == Looked ==> l.at == Looked)
              && (l.at == Finished ==> l'.at == Finished)
              && (l.at == Looked && l'.at != Looked ==> l'.at == Decided(l))
            else l.at == InRead && l'.at == Looked && l'.found == Found(s, l.task)
  {
    if u, task :| u !in s.threads && s' == Spawned(s, u, task) {
    } else {
      var u :| u in s.threads && Enabled(s, s.threads[u]) && s' == Moved(s, u);
      assert s'.threads == s.threads[u := Run(s, s.threads[u]).1];
      if u == t { OwnStep(s, s.threads[t]); }
    }
  }

  lemma OwnStep(s: System, l: Local)
    requires Enabled(s, l) && !l.task.CleanUp?
    ensures var l' := Run(s, l).1;
            && l'.task == l.task && l'.at != Start
            && if HasLooked(l) then
                 && l'.found == l.found && l'.at != Looked && l'.at != InRead
                 && (l.at == Looked ==> l'.at == Decided(l))
               else if l.at == InRead then l'.at == Looked && l'.found == Found(s, l.task)
               else l'.at == InRead
  {}

  lemma RemembersStep(trace: seq<System>, n: nat, t: Thread)
    requires n + 1 < |trace| && Next(trace[n], trace[n + 1]) && Remembers(trace, n, t)
    ensures Remembers(trace, n + 1, t)
  {
    if t in trace[n + 1].threads && HasLooked(trace[n + 1].threads[t]) {
      LocalStep(trace[n], trace[n + 1], t);
      if HasLooked(trace[n].threads[t]) {
        var m: nat :|
          m < n && LooksAt(trace[m], t, trace[n].threads[t].task)
          && trace[n].threads[t].found == Found(trace[m], trace[n].threads[t].task);
        assert LooksAt(trace[m], t, trace[n + 1].threads[t].task);
      } else {
        assert LooksAt(trace[n], t, trace[n + 1].threads[t].task);
      }
    }
  }

  lemma LooksAreRemembered(trace: seq<System>, n: nat, t: Thread)
    requires IsRun(trace) && n < |trace|
    ensures Remembers(trace, n, t)
  {
    var holds := seq(|trace|, i requires 0 <= i < |trace| => Remembers(trace, i, t));
    forall i | 0 <= i < |trace| - 1 && holds[i]
      ensures holds[i + 1]
    {
      assert Next(trace[i], trace[i + 1]);
      RemembersStep(trace, i, t);
    }
    Always(holds, n);
  }

  /** In every interleaving, a listener or an opener displaces an entry only if the entry, or the whole
      map, was not there yet when it looked. */
  lemma DisplacerLookedFirst(trace: seq<System>, n: nat, t: Thread, rid: Id, key: Id)
    requires IsRun(trace) && n < |trace| && t in trace[n].threads && HasSub(trace[n], rid, key)
    requires Displaces(trace[n], trace[n].threads[t], rid, key)
    requires trace[n].threads[t].task.Listen? || trace[n].threads[t].task.Open?
    ensures exists m: nat ::
              m < n && LooksAt(trace[m], t, trace[n].threads[t].task) && !HasSub(trace[m], rid, key)
  {
    LooksAreRemembered(trace, n, t);
  }

  /** A listener runs from start to end. */
  lemma SecondListens(trace: seq<System>, rid: Id, key: Id, h: Handle, u: Thread) returns (trace': seq<System>)
    requires IsRun(trace) && CanWrite(Last(trace)) && rid in Last(trace).subs && !HasSub(Last(trace), rid, key)
    requires u !in Last(trace).threads
    ensures IsRun(trace') && trace <= trace' && CanWrite(Last(trace'))
    ensures HasSub(Last(trace'), rid, key) && Last(trace').subs[rid][key] == h
    ensures forall t :: t in Last(trace).threads ==>
              t in Last(trace').threads && Last(trace').threads[t] == Last(trace).threads[t]
  {
    var s, task := Last(trace), Listen(rid, key, h);
    KeysAgree(trace, |trace| - 1);
    trace' := StartedRunsOut(trace, u, task);
    ReadSection(s, Local(task, Start, false));
    ListenSection(s, Local(task, Waiting, false));
  }

  /** From any point where nobody is inside and the key is not there, two listeners can interleave so
      that the cancel function of one is overwritten, and neither removed nor called. */
  lemma ListenerOverwrites(trace: seq<System>, rid: Id, key: Id, h: Handle, h': Handle, t: Thread, u: Thread)
    returns (between: seq<System>, trace': seq<System>)
    requires IsRun(trace) && CanWrite(Last(trace)) && rid in Last(trace).subs && !HasSub(Last(trace), rid, key)
    requires t !in Last(trace).threads && u !in Last(trace).threads && t != u
    ensures IsRun(trace') && trace <= between <= trace'
    ensures |between| > 0 && HasSub(Last(between), rid, key) && Last(between).subs[rid][key] == h'
    ensures HasSub(Last(trace'), rid, key) && Last(trace').subs[rid][key] == h
  {
    var first := Listen(rid, key, h);
    between := FirstLooks(trace, first, t);
    between := SecondListens(between, rid, key, h', u);
    var s' := Last(between);
    KeysAgree(between, |between| - 1);
    assert Placed(s', t, Local(first, Waiting, false)) == s';
    trace' := RunOutIsReached(between, s', t, Local(first, Waiting, false));
    ListenSection(s', Local(first, Waiting, false));
  }

  /** From any point where nobody is inside and the repeater has no map, two openers can interleave so
      that one wipes an entry made in between. */
  lemma OpenerWipes(trace: seq<System>, rid: Id, key: Id, h: Handle, t: Thread, u: Thread, v: Thread)
    returns (between: seq<System>, trace': seq<System>)
    requires IsRun(trace) && CanWrite(Last(trace)) && rid !in Last(trace).subs
    requires t !in Last(trace).threads && u !in Last(trace).threads && v !in Last(trace).threads
    requires t != u && t != v && u != v
    ensures IsRun(trace') && trace <= between <= trace'
    ensures |between| > 0 && HasSub(Last(between), rid, key) && !HasSub(Last(trace'), rid, key)
  {
    var open := Local(Open(rid), Waiting, false);
    between := FirstLooks(trace, Open(rid), t);
    between := OpenAndListen(between, rid, key, h, u, v);
    var s := Last(between);
    assert Placed(s, t, open) == s;
    trace' := RunOutIsReached(between, s, t, open);
    OpenSection(s, open);
  }
}
