/** The record store and the login branches of the packet handler
    (internal/dmr/repeater_redis.go, internal/dmr/packet_handler.go). */
module LiveLogins {
  import opened Words
  import opened Logins
  import Expiry

  /** Every method that writes is one access of `Expiry`, whose lemmas say what reads then find. */
  class RepeaterStore {
    var records: map<Id, Record>
    var now: int

    ghost function State(): Store
      reads this
    {
      Store(records, now)
    }

    constructor ()
      ensures State() == Store(map[], 0)
    {
      records, now := map[], 0;
    }

    method Get(rid: Id) returns (r: Option<Record>)
      ensures r == State().Get(rid)
    {
      if rid !in records {
        return None;
      }
      if now >= records[rid].deadline {
        return None;
      }
      return Some(records[rid]);
    }

    method Exists(rid: Id) returns (there: bool)
      ensures there <==> State().Get(rid).Some?
    {
      var r := Get(rid);
      return r.Some?;
    }

    method Put(rid: Id, r: Record)
      modifies this`records
      ensures State() == Expiry.Accessed(old(State()), Expiry.Put(rid, r))
      ensures State().Get(rid) == Some(r.(deadline := now + LIFETIME))
      ensures forall other :: other != rid ==> State().Get(other) == old(State()).Get(other)
    {
      records := records[rid := r.(deadline := now + LIFETIME)];
    }

    method Ping(rid: Id)
      modifies this`records
      ensures State() == Expiry.Accessed(old(State()), Expiry.Ping(rid))
      ensures forall other :: State().Get(other).Some? <==> old(State()).Get(other).Some?
    {
      var r := Get(rid);
      if r.None? {
        return;
      }
      Put(rid, r.value);
    }

    method UpdateConnection(rid: Id, c: Connection)
      modifies this`records
      ensures State() == Expiry.Accessed(old(State()), Expiry.UpdateConnection(rid, c))
      ensures forall other :: State().Get(other).Some? <==> old(State()).Get(other).Some?
    {
      var r := Get(rid);
      if r.None? {
        return;
      }
      Put(rid, r.value.(connection := c));
    }

    method Delete(rid: Id) returns (there: bool)
      modifies this`records
      ensures there <==> old(State()).Get(rid).Some?
      ensures State() == Expiry.Accessed(old(State()), Expiry.Delete(rid))
      ensures State().Get(rid).None?
      ensures forall other :: other != rid ==> State().Get(other) == old(State()).Get(other)
    {
      there := Exists(rid);
      records := records - {rid};
    }
  }

  /** The command sent back. */
  datatype Reply = Challenge(salt: seq<Octet>) | ACK | NAK | PONG | Silence

  class LoginServer {
    const redis: RepeaterStore

    constructor ()
      ensures fresh(redis) && redis.State() == Store(map[], 0)
    {
      redis := new RepeaterStore();
    }

    /** Collects every reason, as the handler does, and answers no if there is one. */
    method ValidRepeater(rid: Id, c: Connection, ip: Address) returns (valid: bool)
      ensures valid <==> redis.State().Valid(rid, c, ip)
    {
      valid := true;
      var there := redis.Exists(rid);
      if !there {
        valid := false;
      }
      var r := redis.Get(rid);
      if r.None? {
        valid := false;
      } else {
        if r.value.ip != ip {
          valid := false;
        }
        if r.value.connection != c {
          valid := false;
        }
      }
    }

    /** A login request; `salt` is the random number drawn for a known repeater. */
    method HandleRPTL(rid: Id, ip: Address, known: bool, salt: nat, ghost hash: Hash) returns (reply: Reply)
      requires salt < 0x1_0000_0000
      modifies redis`records
      ensures redis.State() == Handled(old(redis.State()), RPTL(rid, ip, known, salt), hash)
      ensures reply == if known then Challenge(SaltBytes(salt)) else NAK
      ensures known ==> reply.Challenge? && |reply.salt| == 4 && BigEndian4(reply.salt) == salt
    {
      if !known {
        redis.Put(rid, Record(ip, 0, RPTLReceived, 0));
        return NAK;
      }
      redis.Put(rid, Record(ip, salt, RPTLReceived, 0));
      var bytes := ChallengeBytes(salt);
      SaltIsBigEndian(salt);
      redis.UpdateConnection(rid, ChallengeSent);
      return Challenge(bytes);
    }

    /** A challenge response. */
    method HandleRPTK(rid: Id, ip: Address, response: nat, password: Option<seq<Octet>>, hash: Hash)
      returns (reply: Reply)
      modifies redis`records
      ensures redis.State() == Handled(old(redis.State()), RPTK(rid, ip, response, password), hash)
      ensures reply == ACK <==>
                && old(redis.State()).Valid(rid, ChallengeSent, ip)
                && password.Some? && password.value != []
                && hash(SaltBytes(old(redis.State()).Get(rid).value.salt) + password.value) == response
      ensures old(redis.State()).Valid(rid, ChallengeSent, ip) && password.Some? && password.value != [] ==>
                forall bytes: seq<Octet> ::
                  |bytes| == 4 && BigEndian4(bytes) == old(redis.State()).Get(rid).value.salt ==>
                    (reply == ACK <==> hash(bytes + password.value) == response)
      ensures reply == ACK || reply == NAK
    {
      var valid := ValidRepeater(rid, ChallengeSent, ip);
      if !valid || password.None? {
        return NAK;
      }
      if password.value == [] {
        return NAK;
      }
      redis.Ping(rid);
      var r := redis.Get(rid);
      var saltBytes := SaltBytes(r.value.salt);
      forall bytes: seq<Octet> | |bytes| == 4 && BigEndian4(bytes) == r.value.salt
        ensures bytes == saltBytes
      {
        BytesOfSalt(bytes, r.value.salt);
      }
      if hash(saltBytes + password.value) == response {
        redis.UpdateConnection(rid, WaitingConfig);
        return ACK;
      }
      return NAK;
    }

    /** A configuration; `acceptable` stands for the checks of its fields. */
    method HandleRPTC(rid: Id, ip: Address, acceptable: bool, ghost hash: Hash) returns (reply: Reply)
      modifies redis`records
      ensures redis.State() == Handled(old(redis.State()), RPTC(rid, ip, acceptable), hash)
      ensures reply == ACK <==> acceptable && old(redis.State()).Valid(rid, WaitingConfig, ip)
    {
      var valid := ValidRepeater(rid, WaitingConfig, ip);
      if !valid {
        return NAK;
      }
      redis.Ping(rid);
      var r := redis.Get(rid);
      if !acceptable {
        return Silence;
      }
      redis.Put(rid, r.value.(connection := Yes));
      return ACK;
    }

    /** A keep-alive; `known` is whether the database still knows the repeater. */
    method HandleRPTPING(rid: Id, ip: Address, known: bool, ghost hash: Hash) returns (reply: Reply)
      modifies redis`records
      ensures redis.State() == Handled(old(redis.State()), Event.Ping(rid, ip), hash)
      ensures reply == PONG <==> known && old(redis.State()).Valid(rid, Yes, ip)
    {
      var valid := ValidRepeater(rid, Yes, ip);
      if !valid {
        return NAK;
      }
      redis.Ping(rid);
      if !known {
        return Silence;
      }
      var r := redis.Get(rid);
      redis.Put(rid, r.value);
      return PONG;
    }
  }

  // ---------------------------------------------------------------- the challenge

  /** The bytes of a number without leading zeros, as big integers print them. */
  function MinimalBytes(n: nat): seq<Octet> {
    if n == 0 then [] else MinimalBytes(n / 256) + [n % 256]
  }

  /** The four bytes sent: the minimal bytes, copied to the end of a zeroed array. */
  method ChallengeBytes(salt: nat) returns (bytes: seq<Octet>)
    requires salt < 0x1_0000_0000
    ensures bytes == SaltBytes(salt)
  {
    var minimal := MinimalBytes(salt);
    PaddedIsFixed(salt);
    var saltBytes := new Octet[4](_ => 0);
    for i := 0 to |minimal|
      invariant saltBytes[..] == Zeros(4 - |minimal|) + minimal[..i] + Zeros(|minimal| - i)
    {
      saltBytes[4 - |minimal| + i] := minimal[i];
    }
    return saltBytes[..];
  }

  function Zeros(n: nat): seq<Octet> {
    seq(n, _ => 0)
  }

  /** `n` has at most `k` bytes. */
  predicate Fits(n: nat, k: nat) {
    if k == 0 then n == 0 else Fits(n / 256, k - 1)
  }

  /** The last `k` bytes of a number. */
  function FixedBytes(n: nat, k: nat): seq<Octet> {
    if k == 0 then [] else FixedBytes(n / 256, k - 1) + [n % 256]
  }

  lemma {:induction false} Padding(n: nat, k: nat)
    requires Fits(n, k)
    ensures |MinimalBytes(n)| <= k
    ensures Zeros(k - |MinimalBytes(n)|) + MinimalBytes(n) == FixedBytes(n, k)
  {
    if k > 0 {
      Padding(n / 256, k - 1);
      if n == 0 {
        assert Zeros(k) == Zeros(k - 1) + [0];
      }
    }
  }

  /** For every 32-bit salt, the bytes sent as the challenge are the bytes that are hashed. */
  lemma PaddedIsFixed(salt: nat)
    requires salt < 0x1_0000_0000
    ensures |MinimalBytes(salt)| <= 4
    ensures Zeros(4 - |MinimalBytes(salt)|) + MinimalBytes(salt) == SaltBytes(salt)
  {
    var a, b, c := salt / 256, salt / 0x1_0000, salt / 0x100_0000;
    assert a / 256 == b && b / 256 == c && c / 256 == 0;
    assert Fits(c, 1) && Fits(b, 2) && Fits(a, 3);
    Padding(salt, 4);
    assert FixedBytes(c, 1) == [c % 256] && FixedBytes(b, 2) == [c % 256, b % 256];
    assert FixedBytes(a, 3) == [c % 256, b % 256, a % 256];
  }
}
