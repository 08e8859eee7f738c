/** The repeater login of the Homebrew protocol over a store whose records expire
    (internal/dmr/packet_handler.go, internal/dmr/repeater_redis.go). */
module Logins {
  import opened Words

  /** The states a repeater's record goes through. */
  datatype Connection = RPTLReceived | ChallengeSent | WaitingConfig | Yes | Disconnected

  datatype Record = Record(ip: Address, salt: nat, connection: Connection, deadline: int)

  /** Records live for five minutes after each write; times are in seconds. */
  const LIFETIME: int := 300

  /** What a repeater sends and what the database says at that moment; `password` is `None`
      for a repeater the database does not know. `Ping` stands for every packet that a
      connected repeater keeps its record alive with. The others are the server's own Stop, the
      deletion of a record, and time passing. */
  datatype Event =
    | RPTL(rid: Id, ip: Address, known: bool, salt: nat)
    | RPTK(rid: Id, ip: Address, response: nat, password: Option<seq<Octet>>)
    | RPTC(rid: Id, ip: Address, acceptable: bool)
    | Ping(rid: Id, ip: Address)
    | Stop(rids: set<Id>)
    | Delete(rid: Id)
    | Pass(seconds: nat)

  datatype Store = Store(records: map<Id, Record>, now: int)
  {
    /** What a read finds: nothing once the record has expired. */
    function Get(rid: Id): Option<Record> {
      if rid in records && now < records[rid].deadline then Some(records[rid]) else None
    }

    function Put(rid: Id, r: Record): Store {
      this.(records := records[rid := r.(deadline := now + LIFETIME)])
    }

    /** Reading the record and writing it back, if it is there. */
    function Refreshed(rid: Id): Store {
      if Get(rid).Some? then Put(rid, Get(rid).value) else this
    }

    function WithConnection(rid: Id, c: Connection): Store {
      if Get(rid).Some? then Put(rid, Get(rid).value.(connection := c)) else this
    }

    predicate Valid(rid: Id, c: Connection, ip: Address) {
      Get(rid).Some? && Get(rid).value.ip == ip && Get(rid).value.connection == c
    }
  }

  /** A byte as a number. */
  type Octet = x: nat | x < 256

  /** SHA-256 cut to its first word: any function of the bytes. */
  type Hash = seq<Octet> -> nat

  /** The four bytes of a salt, most significant first, as they are hashed. */
  function SaltBytes(salt: nat): seq<Octet> {
    [salt / 0x100_0000 % 256, salt / 0x1_0000 % 256, salt / 0x100 % 256, salt % 256]
  }

  /** The value of four bytes, most significant first. */
  function BigEndian4(b: seq<Octet>): nat
    requires |b| == 4
  {
    b[0] as int * 0x100_0000 + b[1] as int * 0x1_0000 + b[2] as int * 0x100 + b[3] as int
  }

  lemma SaltIsBigEndian(salt: nat)
    requires salt < 0x1_0000_0000
    ensures BigEndian4(SaltBytes(salt)) == salt
  {
    var a, b := salt / 0x100, salt / 0x1_0000;
    assert salt == a * 0x100 + salt % 0x100 && a == b * 0x100 + a % 0x100;
    assert b == salt / 0x100_0000 * 0x100 + b % 0x100;
  }

  lemma BytesOfSalt(bytes: seq<Octet>, salt: nat)
    requires |bytes| == 4 && BigEndian4(bytes) == salt
    ensures SaltBytes(salt) == bytes
  {
    assert salt / 0x100_0000 == bytes[0];
    assert salt / 0x1_0000 == bytes[0] as int * 0x100 + bytes[1] as int;
    assert salt / 0x100 == bytes[0] as int * 0x1_0000 + bytes[1] as int * 0x100 + bytes[2] as int;
  }

  function Stopped(s: Store, rids: set<Id>): Store {
    s.(records := map rid | rid in s.records ::
         if rid in rids && s.now < s.records[rid].deadline
         then s.records[rid].(connection := Disconnected, deadline := s.now + LIFETIME)
         else s.records[rid])
  }

  function Handled(s: Store, e: Event, hash: Hash): Store {
    match e
    case RPTL(rid, ip, known, salt) =>
      if known then s.Put(rid, Record(ip, salt, RPTLReceived, 0)).WithConnection(rid, ChallengeSent)
      else s.Put(rid, Record(ip, 0, RPTLReceived, 0))
    case RPTK(rid, ip, response, password) =>
      if !s.Valid(rid, ChallengeSent, ip) || password.None? || password.value == [] then s
      else
        var s' := s.Refreshed(rid);
        if hash(SaltBytes(s.Get(rid).value.salt) + password.value) == response then
          s'.WithConnection(rid, WaitingConfig)
        else s'
    case RPTC(rid, ip, acceptable) =>
      if !s.Valid(rid, WaitingConfig, ip) then s
      else
        var s' := s.Refreshed(rid);
        if acceptable then s'.Put(rid, s'.Get(rid).value.(connection := Yes)) else s'
    case Ping(rid, ip) =>
      if s.Valid(rid, Yes, ip) then s.Refreshed(rid) else s
    case Stop(rids) => Stopped(s, rids)
    case Delete(rid) => s.(records := s.records - {rid})
    case Pass(seconds) => s.(now := s.now + seconds)
  }

  function After(h: seq<Event>, hash: Hash): Store {
    if h == [] then Store(map[], 0) else Handled(After(h[..|h| - 1], hash), h[|h| - 1], hash)
  }

  // ---------------------------------------------------------------- history

  /** The event is a login request of this repeater. */
  predicate IsLogin(e: Event, rid: Id) {
    e.RPTL? && e.rid == rid
  }

  /** The position of the repeater's latest login request, or -1. */
  function LastLogin(h: seq<Event>, rid: Id): (i: int)
    ensures -1 <= i < |h|
    ensures i >= 0 ==> IsLogin(h[i], rid)
    ensures forall j :: i < j < |h| ==> !IsLogin(h[j], rid)
  {
    if h == [] then -1
    else if IsLogin(h[|h| - 1], rid) then |h| - 1
    else LastLogin(h[..|h| - 1], rid)
  }

  /** The bytes a known repeater is sent in answer to its login request. */
  function Challenge(e: Event): (bytes: seq<Octet>)
    requires e.RPTL?
    ensures |bytes| == 4
    ensures e.salt < 0x1_0000_0000 ==> BigEndian4(bytes) == e.salt
  {
    if e.salt < 0x1_0000_0000 then SaltIsBigEndian(e.salt); SaltBytes(e.salt) else SaltBytes(e.salt)
  }

  /** Event `j` answers the challenge of login `i` from the same address: it is the hash of the bytes
      that were sent, followed by the stored password. */
  predicate Answers(h: seq<Event>, i: int, j: int, hash: Hash)
    requires 0 <= i < |h| && h[i].RPTL?
  {
    && i < j < |h|
    && h[j].RPTK?
    && h[j].rid == h[i].rid && h[j].ip == h[i].ip
    && h[j].password.Some? && h[j].password.value != []
    && hash(Challenge(h[i]) + h[j].password.value) == h[j].response
  }

  /** Event `k` is an acceptable configuration from the address of login `i`. */
  predicate Configures(h: seq<Event>, i: int, k: int)
    requires 0 <= i < |h| && h[i].RPTL?
  {
    i < k < |h| && h[k].RPTC? && h[k].rid == h[i].rid && h[k].ip == h[i].ip && h[k].acceptable
  }

  /** The server was stopped, for this repeater, after login `i`. */
  ghost predicate StoppedSince(h: seq<Event>, i: int, rid: Id) {
    exists j :: 0 <= j < |h| && i < j && h[j].Stop? && rid in h[j].rids
  }

  ghost predicate Answered(h: seq<Event>, i: int, n: int, hash: Hash)
    requires 0 <= i < |h| && h[i].RPTL?
  {
    h[i].known && exists j :: j < n && Answers(h, i, j, hash)
  }

  ghost predicate Configured(h: seq<Event>, i: int, hash: Hash)
    requires 0 <= i < |h| && h[i].RPTL?
  {
    h[i].known && exists j, k :: j < k && Answers(h, i, j, hash) && Configures(h, i, k)
  }

  /** What the history says the connection of a repeater with a live record is. */
  ghost function Expected(h: seq<Event>, i: int, rid: Id, hash: Hash): Connection
    requires 0 <= i < |h| && h[i].RPTL?
  {
    if StoppedSince(h, i, rid) then Disconnected
    else if !h[i].known then RPTLReceived
    else if Configured(h, i, hash) then Yes
    else if Answered(h, i, |h|, hash) then WaitingConfig
    else ChallengeSent
  }

  /** The record of a repeater, if it is still there, says what the history says. */
  ghost predicate Faithful(h: seq<Event>, rid: Id, hash: Hash) {
    var r := After(h, hash).Get(rid);
    r.Some? ==>
      var i := LastLogin(h, rid);
      && i >= 0
      && r.value.ip == h[i].ip
      && (h[i].known ==> r.value.salt == h[i].salt)
      && r.value.connection == Expected(h, i, rid, hash)
  }

  /** One more event that is not a login request of the repeater. */
  lemma Grow(h: seq<Event>, e: Event, i: int, rid: Id, hash: Hash)
    requires 0 <= i < |h| && IsLogin(h[i], rid)
    ensures var h' := h + [e];
            && (StoppedSince(h', i, rid) <==> StoppedSince(h, i, rid) || (e.Stop? && rid in e.rids))
            && (Answered(h', i, |h'|, hash) <==>
                  Answered(h, i, |h|, hash) || (h[i].known && Answers(h', i, |h|, hash)))
            && (Configured(h', i, hash) <==>
                  Configured(h, i, hash) || (Answered(h, i, |h|, hash) && Configures(h', i, |h|)))
  {
    var h' := h + [e];
    assert forall j :: 0 <= j < |h| ==> h'[j] == h[j];
    assert forall j :: j < |h| ==> (Answers(h', i, j, hash) <==> Answers(h, i, j, hash));
    assert forall k :: k < |h| ==> (Configures(h', i, k) <==> Configures(h, i, k));
    if StoppedSince(h, i, rid) {
      var j :| 0 <= j < |h| && i < j && h[j].Stop? && rid in h[j].rids;
      assert h'[j].Stop?;
    }
    if e.Stop? && rid in e.rids {
      assert h'[|h|].Stop?;
    }
  }

  lemma LoginIsFaithful(h: seq<Event>, e: Event, rid: Id, hash: Hash)
    requires IsLogin(e, rid)
    ensures Faithful(h + [e], rid, hash)
  {
    var h' := h + [e];
    assert h'[..|h|] == h && h'[|h|] == e;
    assert LastLogin(h', rid) == |h|;
  }

  lemma OneMore(h: seq<Event>, e: Event, rid: Id, hash: Hash)
    requires !IsLogin(e, rid)
    ensures After(h + [e], hash) == Handled(After(h, hash), e, hash)
    ensures LastLogin(h + [e], rid) == LastLogin(h, rid)
    ensures forall i :: 0 <= i < |h| ==> (h + [e])[i] == h[i]
  {
    assert (h + [e])[..|h|] == h;
  }

  lemma ResponseIsFaithful(h: seq<Event>, e: Event, rid: Id, hash: Hash)
    requires Faithful(h, rid, hash) && e.RPTK? && e.rid == rid
    ensures Faithful(h + [e], rid, hash)
  {
    OneMore(h, e, rid, hash);
    if After(h, hash).Get(rid).Some? {
      Grow(h, e, LastLogin(h, rid), rid, hash);
    }
  }

  lemma ConfigurationIsFaithful(h: seq<Event>, e: Event, rid: Id, hash: Hash)
    requires Faithful(h, rid, hash) && e.RPTC? && e.rid == rid
    ensures Faithful(h + [e], rid, hash)
  {
    OneMore(h, e, rid, hash);
    if After(h, hash).Get(rid).Some? {
      Grow(h, e, LastLogin(h, rid), rid, hash);
    }
  }

  lemma StopIsFaithful(h: seq<Event>, e: Event, rid: Id, hash: Hash)
    requires Faithful(h, rid, hash) && e.Stop?
    ensures Faithful(h + [e], rid, hash)
  {
    OneMore(h, e, rid, hash);
    if After(h, hash).Get(rid).Some? {
      Grow(h, e, LastLogin(h, rid), rid, hash);
    }
  }

  /** The event says nothing about the repeater's login. */
  predicate Foreign(e: Event, rid: Id) {
    !IsLogin(e, rid) && !e.Stop? && (e.RPTK? || e.RPTC? ==> e.rid != rid)
  }

  lemma ForeignKeepsRecord(s: Store, e: Event, rid: Id, hash: Hash)
    requires Foreign(e, rid)
    ensures var r, r' := s.Get(rid), Handled(s, e, hash).Get(rid);
            r'.Some? ==> r.Some? && r'.value == r.value.(deadline := r'.value.deadline)
  {}

  lemma ForeignKeepsExpected(h: seq<Event>, e: Event, i: int, rid: Id, hash: Hash)
    requires 0 <= i < |h| && IsLogin(h[i], rid) && Foreign(e, rid)
    ensures Expected(h + [e], i, rid, hash) == Expected(h, i, rid, hash)
  {
    Grow(h, e, i, rid, hash);
  }

  /** Everything else keeps the connection of a record that stays. */
  lemma OthersAreFaithful(h: seq<Event>, e: Event, rid: Id, hash: Hash)
    requires Faithful(h, rid, hash) && Foreign(e, rid)
    ensures Faithful(h + [e], rid, hash)
  {
    OneMore(h, e, rid, hash);
    ForeignKeepsRecord(After(h, hash), e, rid, hash);
    if After(h, hash).Get(rid).Some? {
      ForeignKeepsExpected(h, e, LastLogin(h, rid), rid, hash);
    }
  }

  lemma StepIsFaithful(h: seq<Event>, e: Event, rid: Id, hash: Hash)
    requires Faithful(h, rid, hash) && !IsLogin(e, rid)
    ensures Faithful(h + [e], rid, hash)
  {
    if e.RPTK? && e.rid == rid {
      ResponseIsFaithful(h, e, rid, hash);
    } else if e.RPTC? && e.rid == rid {
      ConfigurationIsFaithful(h, e, rid, hash);
    } else if e.Stop? {
      StopIsFaithful(h, e, rid, hash);
    } else {
      OthersAreFaithful(h, e, rid, hash);
    }
  }

  /** In every history, a repeater whose record is still there is connected if and only if, since
      its latest login request, a challenge response from that request's address matched the hash
      of that login's salt and the stored password, an acceptable configuration came from the same
      address after it, the repeater was known when it logged in, and the server was not stopped
      in between. A repeater unknown at its login request never gets past it. */
  lemma {:induction false} HistoriesAreFaithful(h: seq<Event>, rid: Id, hash: Hash)
    ensures Faithful(h, rid, hash)
  {
    if h != [] {
      var n := |h| - 1;
      assert h == h[..n] + [h[n]];
      HistoriesAreFaithful(h[..n], rid, hash);
      if IsLogin(h[n], rid) {
        LoginIsFaithful(h[..n], h[n], rid, hash);
      } else {
        StepIsFaithful(h[..n], h[n], rid, hash);
      }
    }
  }

  /** A repeater that was unknown at its latest login request is not challenged, let alone connected. */
  lemma UnknownNeverLeaves(h: seq<Event>, rid: Id, hash: Hash)
    requires LastLogin(h, rid) >= 0 && !h[LastLogin(h, rid)].known
    ensures var r := After(h, hash).Get(rid);
            r.Some? ==> r.value.connection == RPTLReceived || r.value.connection == Disconnected
  {
    HistoriesAreFaithful(h, rid, hash);
  }

  ghost predicate Timely(s: Store) {
    forall rid :: rid in s.records ==> s.records[rid].deadline <= s.now + LIFETIME
  }

  lemma {:induction false} RecordsAreTimely(h: seq<Event>, hash: Hash)
    ensures Timely(After(h, hash))
  {
    if h != [] {
      RecordsAreTimely(h[..|h| - 1], hash);
    }
  }

  /** The event writes the repeater's record. A response with the wrong hash does, and so does a
      configuration that is not acceptable, for the record is kept alive before they are looked at. */
  predicate Prolongs(s: Store, e: Event, rid: Id) {
    match e
    case RPTL(r, _, _, _) => r == rid
    case RPTK(r, ip, _, password) =>
      r == rid && s.Valid(rid, ChallengeSent, ip) && password.Some? && password.value != []
    case RPTC(r, ip, _) => r == rid && s.Valid(rid, WaitingConfig, ip)
    case Ping(r, ip) => r == rid && s.Valid(rid, Yes, ip)
    case Stop(rids) => rid in rids && s.Get(rid).Some?
    case Delete(_) => false
    case Pass(_) => false
  }

  /** Whatever comes in `g` after `h`, from this repeater or any other, none of it prolongs the record. */
  ghost predicate Silent(h: seq<Event>, g: seq<Event>, rid: Id, hash: Hash) {
    forall k :: 0 <= k < |g| ==> !Prolongs(After(h + g[..k], hash), g[k], rid)
  }

  function Seconds(e: Event): nat {
    if e.Pass? then e.seconds else 0
  }

  function Elapsed(g: seq<Event>): nat {
    if g == [] then 0 else Elapsed(g[..|g| - 1]) + Seconds(g[|g| - 1])
  }

  lemma ProlongedLasts(s: Store, e: Event, rid: Id, hash: Hash)
    requires Prolongs(s, e, rid)
    ensures var s' := Handled(s, e, hash);
            s'.now == s.now && rid in s'.records && s'.records[rid].deadline == s'.now + LIFETIME
  {}

  /** From `s` to `s'`, in `elapsed` seconds, the repeater's record stayed what it was, or was deleted. */
  ghost predicate Untouched(s: Store, s': Store, rid: Id, elapsed: nat, deleted: bool) {
    && s'.now == s.now + elapsed
    && (rid in s'.records ==> rid in s.records && s'.records[rid] == s.records[rid])
    && (rid in s.records && !deleted ==> rid in s'.records)
  }

  lemma UnprolongedStays(s: Store, e: Event, rid: Id, hash: Hash)
    requires !Prolongs(s, e, rid)
    ensures Untouched(s, Handled(s, e, hash), rid, Seconds(e), e == Delete(rid))
  {}

  lemma AfterOneMore(h: seq<Event>, e: Event, hash: Hash)
    ensures After(h + [e], hash) == Handled(After(h, hash), e, hash)
  {
    assert (h + [e])[..|h|] == h;
  }

  /** Steps that leave the record untouched add up. */
  lemma {:induction false} UntouchedAlong(states: seq<Store>, g: seq<Event>, rid: Id)
    requires |states| == |g| + 1
    requires forall k :: 0 <= k < |g| ==> Untouched(states[k], states[k + 1], rid, Seconds(g[k]), g[k] == Delete(rid))
    ensures Untouched(states[0], states[|g|], rid, Elapsed(g), Delete(rid) in g)
  {
    if g == [] {
    } else {
      var n := |g| - 1;
      assert g[n] in g;
      UntouchedAlong(states[..n + 1], g[..n], rid);
    }
  }

  /** Through a silence the record stays what it was, unless it is deleted, while the clock runs. */
  lemma SilenceChangesNothing(h: seq<Event>, g: seq<Event>, rid: Id, hash: Hash)
    requires Silent(h, g, rid, hash)
    ensures Untouched(After(h, hash), After(h + g, hash), rid, Elapsed(g), Delete(rid) in g)
  {
    var states := seq(|g| + 1, k requires 0 <= k <= |g| => After(h + g[..k], hash));
    forall k | 0 <= k < |g|
      ensures Untouched(states[k], states[k + 1], rid, Seconds(g[k]), g[k] == Delete(rid))
    {
      SilentStep(h, g, k, rid, hash);
    }
    UntouchedAlong(states, g, rid);
    assert h + g[..0] == h && g[..|g|] == g;
  }

  lemma SilentStep(h: seq<Event>, g: seq<Event>, k: nat, rid: Id, hash: Hash)
    requires k < |g| && Silent(h, g, rid, hash)
    ensures Untouched(After(h + g[..k], hash), After(h + g[..k + 1], hash), rid, Seconds(g[k]), g[k] == Delete(rid))
  {
    assert h + g[..k + 1] == h + g[..k] + [g[k]];
    AfterOneMore(h + g[..k], g[k], hash);
    UnprolongedStays(After(h + g[..k], hash), g[k], rid, hash);
  }

  /** Five minutes in which nothing prolongs its record log a repeater out, whatever it or others send. */
  lemma SilenceLogsOut(h: seq<Event>, g: seq<Event>, rid: Id, hash: Hash)
    requires Silent(h, g, rid, hash) && Elapsed(g) >= 300
    ensures After(h + g, hash).Get(rid).None?
  {
    RecordsAreTimely(h, hash);
    SilenceChangesNothing(h, g, rid, hash);
  }

  /** And not before: after an event that prolongs it, a record that is not deleted is found exactly
      as long as the silence is shorter than five minutes. */
  lemma SilenceIsExact(h: seq<Event>, e: Event, g: seq<Event>, rid: Id, hash: Hash)
    requires Prolongs(After(h, hash), e, rid)
    requires Silent(h + [e], g, rid, hash) && Delete(rid) !in g
    ensures After(h + [e] + g, hash).Get(rid).Some? <==> Elapsed(g) < 300
  {
    AfterOneMore(h, e, hash);
    ProlongedLasts(After(h, hash), e, rid, hash);
    SilenceChangesNothing(h + [e], g, rid, hash);
  }

  lemma LoginIsChallenged(h: seq<Event>, rid: Id, ip: Address, salt: nat, hash: Hash)
    ensures var s := After(h + [RPTL(rid, ip, true, salt)], hash);
            s.Get(rid) == Some(Record(ip, salt, ChallengeSent, s.now + 300))
  {
    AfterOneMore(h, RPTL(rid, ip, true, salt), hash);
  }

  /** A challenge of four bytes, left alone for less than five minutes, is met by the hash of just these
      bytes and the password, and by nothing else. */
  lemma ChallengeIsMet(
    h: seq<Event>, g: seq<Event>, rid: Id, ip: Address, salt: nat, bytes: seq<Octet>,
    response: nat, password: seq<Octet>, hash: Hash)
    requires |bytes| == 4 && BigEndian4(bytes) == salt
    requires Silent(h + [RPTL(rid, ip, true, salt)], g, rid, hash) && Elapsed(g) < 300 && Delete(rid) !in g
    ensures var answered := h + [RPTL(rid, ip, true, salt)] + g + [RPTK(rid, ip, response, Some(password))];
            var r := After(answered, hash).Get(rid);
            && r.Some?
            && r.value.connection == if password != [] && hash(bytes + password) == response then WaitingConfig
                                     else ChallengeSent
  {
    var login := h + [RPTL(rid, ip, true, salt)];
    LoginIsChallenged(h, rid, ip, salt, hash);
    SilenceChangesNothing(login, g, rid, hash);
    AfterOneMore(login + g, RPTK(rid, ip, response, Some(password)), hash);
    BytesOfSalt(bytes, salt);
  }
}
