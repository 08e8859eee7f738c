/** What a repeater's record is read as, after any writes (internal/dmr/repeater_redis.go). */
module Expiry {
  import opened Words
  import opened Logins

  /** The accesses to the store, and time passing. */
  datatype Access =
    | Put(rid: Id, r: Record)
    | Ping(rid: Id)
    | UpdateConnection(rid: Id, connection: Connection)
    | Delete(rid: Id)
    | Pass(seconds: nat)

  function Accessed(s: Store, a: Access): Store {
    match a
    case Put(rid, r) => s.Put(rid, r)
    case Ping(rid) => s.Refreshed(rid)
    case UpdateConnection(rid, c) => s.WithConnection(rid, c)
    case Delete(rid) => s.(records := s.records - {rid})
    case Pass(seconds) => s.(now := s.now + seconds)
  }

  function Served(h: seq<Access>): Store {
    if h == [] then Store(map[], 0) else Accessed(Served(h[..|h| - 1]), h[|h| - 1])
  }

  // ---------------------------------------------------------------- histories

  /** The time of access `k`. */
  function Clock(h: seq<Access>, k: nat): int
    requires k <= |h|
  {
    if k == 0 then 0 else Clock(h, k - 1) + if h[k - 1].Pass? then h[k - 1].seconds else 0
  }

  predicate IsPut(a: Access, rid: Id) {
    a.Put? && a.rid == rid
  }

  predicate IsChange(a: Access, rid: Id) {
    a.UpdateConnection? && a.rid == rid
  }

  /** A write to the record, which has no effect when the record has expired. */
  predicate IsWrite(a: Access, rid: Id) {
    IsPut(a, rid) || IsChange(a, rid) || (a.Ping? && a.rid == rid)
  }

  /** The position of the last access that puts the record, or -1. */
  function LastPut(h: seq<Access>, rid: Id): (i: int)
    ensures -1 <= i < |h|
    ensures i >= 0 ==> IsPut(h[i], rid)
    ensures forall j :: i < j < |h| ==> !IsPut(h[j], rid)
  {
    if h == [] then -1
    else if IsPut(h[|h| - 1], rid) then |h| - 1
    else LastPut(h[..|h| - 1], rid)
  }

  function LastWrite(h: seq<Access>, rid: Id): (i: int)
    ensures -1 <= i < |h|
    ensures i >= 0 ==> IsWrite(h[i], rid)
    ensures forall j :: i < j < |h| ==> !IsWrite(h[j], rid)
  {
    if h == [] then -1
    else if IsWrite(h[|h| - 1], rid) then |h| - 1
    else LastWrite(h[..|h| - 1], rid)
  }

  /** The position of the last change of the connection, or -1. */
  function LastChange(h: seq<Access>, rid: Id): (i: int)
    ensures -1 <= i < |h|
    ensures i >= 0 ==> IsChange(h[i], rid)
    ensures forall j :: i < j < |h| ==> !IsChange(h[j], rid)
  {
    if h == [] then -1
    else if IsChange(h[|h| - 1], rid) then |h| - 1
    else LastChange(h[..|h| - 1], rid)
  }

  /** Before access `k`, the record was written less than five minutes ago. */
  ghost predicate Recent(h: seq<Access>, k: nat, rid: Id)
    requires k <= |h|
  {
    exists j: nat :: j < k && IsWrite(h[j], rid) && Clock(h, k) - Clock(h, j) < LIFETIME
  }

  /** The record was put, not deleted since, and never left unwritten for five minutes since. */
  ghost predicate Alive(h: seq<Access>, rid: Id) {
    var i := LastPut(h, rid);
    && i >= 0
    && (forall j :: i < j < |h| ==> h[j] != Access.Delete(rid))
    && (forall k :: i < k <= |h| ==> Recent(h, k, rid))
  }

  /** The record that was put, with the connection it was last changed to. */
  ghost predicate Reads(h: seq<Access>, rid: Id, r: Record)
    requires LastPut(h, rid) >= 0
  {
    var i, j := LastPut(h, rid), LastChange(h, rid);
    && r.ip == h[i].r.ip
    && r.salt == h[i].r.salt
    && r.connection == if j > i then h[j].connection else h[i].r.connection
  }

  // ---------------------------------------------------------------- one more access

  lemma {:induction false} ClockStays(h: seq<Access>, a: Access, k: nat)
    requires k <= |h|
    ensures Clock(h + [a], k) == Clock(h, k)
  {
    if k > 0 {
      ClockStays(h, a, k - 1);
    }
  }

  lemma {:induction false} ClockRuns(h: seq<Access>, j: nat, k: nat)
    requires j <= k <= |h|
    ensures Clock(h, j) <= Clock(h, k)
  {
    if j < k {
      ClockRuns(h, j, k - 1);
    }
  }

  lemma RecentStays(h: seq<Access>, a: Access, k: nat, rid: Id)
    requires k <= |h|
    ensures Recent(h + [a], k, rid) <==> Recent(h, k, rid)
  {
    forall j: nat | j <= k { ClockStays(h, a, j); }
    if Recent(h, k, rid) {
      var j: nat :| j < k && IsWrite(h[j], rid) && Clock(h, k) - Clock(h, j) < LIFETIME;
      assert IsWrite((h + [a])[j], rid);
    }
  }

  /** The last write decides. */
  lemma RecentByLastWrite(h: seq<Access>, rid: Id)
    requires LastWrite(h, rid) >= 0
    ensures Recent(h, |h|, rid) <==> Clock(h, |h|) - Clock(h, LastWrite(h, rid)) < LIFETIME
  {
    var t := LastWrite(h, rid);
    forall j: nat | j < |h| && IsWrite(h[j], rid)
      ensures Clock(h, j) <= Clock(h, t)
    {
      ClockRuns(h, j, t);
    }
  }

  lemma LastsGrow(h: seq<Access>, a: Access, rid: Id)
    ensures var h' := h + [a];
            && LastPut(h', rid) == (if IsPut(a, rid) then |h| else LastPut(h, rid))
            && LastWrite(h', rid) == (if IsWrite(a, rid) then |h| else LastWrite(h, rid))
            && LastChange(h', rid) == (if IsChange(a, rid) then |h| else LastChange(h, rid))
  {
    assert (h + [a])[..|h|] == h;
  }

  lemma AliveGrows(h: seq<Access>, a: Access, rid: Id)
    requires !IsPut(a, rid)
    ensures Alive(h + [a], rid) <==> Alive(h, rid) && a != Access.Delete(rid) && Recent(h + [a], |h| + 1, rid)
  {
    var h' := h + [a];
    LastsGrow(h, a, rid);
    forall k: nat | k <= |h|
      ensures Recent(h', k, rid) <==> Recent(h, k, rid)
    {
      RecentStays(h, a, k, rid);
    }
    if Alive(h', rid) {
      assert h'[|h|] == a;
      assert forall j :: 0 <= j < |h| ==> h[j] == h'[j];
    }
  }

  lemma AliveOncePut(h: seq<Access>, a: Access, rid: Id)
    requires IsPut(a, rid)
    ensures Alive(h + [a], rid)
  {
    var h' := h + [a];
    LastsGrow(h, a, rid);
    RecentByLastWrite(h', rid);
    assert h'[|h|] == a;
  }

  // ---------------------------------------------------------------- what is read

  /** The store tells the time and holds what the history says, up to five minutes after the last write. */
  ghost predicate Remembers(h: seq<Access>, rid: Id) {
    var s := Served(h);
    && s.now == Clock(h, |h|)
    && (s.Get(rid).Some? <==> Alive(h, rid))
    && (Alive(h, rid) ==>
          && Reads(h, rid, s.records[rid])
          && LastWrite(h, rid) >= 0
          && s.records[rid].deadline == Clock(h, LastWrite(h, rid)) + LIFETIME)
  }

  lemma PutRemembers(h: seq<Access>, a: Access, rid: Id)
    requires Remembers(h, rid) && IsPut(a, rid)
    ensures Remembers(h + [a], rid)
  {
    assert (h + [a])[..|h|] == h;
    LastsGrow(h, a, rid);
    ClockStays(h, a, |h|);
    AliveOncePut(h, a, rid);
  }

  /** An access of another record, or one that does not write. */
  lemma OtherRemembers(h: seq<Access>, a: Access, rid: Id)
    requires Remembers(h, rid) && !IsWrite(a, rid)
    ensures Remembers(h + [a], rid)
  {
    assert (h + [a])[..|h|] == h;
    LastsGrow(h, a, rid);
    ClockStays(h, a, |h|);
    AliveGrows(h, a, rid);
    if LastWrite(h, rid) >= 0 {
      ClockStays(h, a, LastWrite(h, rid));
      RecentByLastWrite(h + [a], rid);
    }
  }

  lemma RewriteRemembers(h: seq<Access>, a: Access, rid: Id)
    requires Remembers(h, rid) && IsWrite(a, rid) && !IsPut(a, rid)
    ensures Remembers(h + [a], rid)
  {
    assert (h + [a])[..|h|] == h;
    LastsGrow(h, a, rid);
    ClockStays(h, a, |h|);
    AliveGrows(h, a, rid);
    RecentByLastWrite(h + [a], rid);
  }

  /** After any accesses, a record is found if and only if it was put, not deleted since, and never
      left unwritten for five minutes since; and what is found is what was put, with the connection
      it was last changed to. */
  lemma {:induction false} ReadsFollowWrites(h: seq<Access>, rid: Id)
    ensures Remembers(h, rid)
  {
    if h != [] {
      var n := |h| - 1;
      assert h == h[..n] + [h[n]];
      ReadsFollowWrites(h[..n], rid);
      if IsPut(h[n], rid) {
        PutRemembers(h[..n], h[n], rid);
      } else if IsWrite(h[n], rid) {
        RewriteRemembers(h[..n], h[n], rid);
      } else {
        OtherRemembers(h[..n], h[n], rid);
      }
    }
  }

  /** A write keeps a record for five minutes more, if it puts the record or finds it; pinging an
      expired record or changing its connection does not bring it back. */
  lemma WriteLasts(h: seq<Access>, a: Access, g: seq<Access>, rid: Id)
    requires IsWrite(a, rid)
    requires forall x :: x in g ==> !IsWrite(x, rid) && x != Access.Delete(rid)
    ensures var h' := h + [a] + g;
            Served(h').Get(rid).Some? <==>
              && (IsPut(a, rid) || Served(h).Get(rid).Some?)
              && Clock(h', |h'|) - Clock(h', |h|) < LIFETIME
  {
    ReadsFollowWrites(h, rid);
    ReadsFollowWrites(h + [a] + g, rid);
    AliveAfterWrite(h, a, g, rid);
  }

  lemma {:induction false} AliveAfterWrite(h: seq<Access>, a: Access, g: seq<Access>, rid: Id)
    requires IsWrite(a, rid)
    requires forall x :: x in g ==> !IsWrite(x, rid) && x != Access.Delete(rid)
    ensures var h' := h + [a] + g;
            && LastWrite(h', rid) == |h|
            && (Alive(h', rid) <==>
                  (IsPut(a, rid) || Alive(h, rid)) && Clock(h', |h'|) - Clock(h', |h|) < LIFETIME)
  {
    if g == [] {
      assert h + [a] + g == h + [a];
      WrittenNow(h, a, rid);
    } else {
      var n := |g| - 1;
      var h1 := h + [a] + g[..n];
      assert h + [a] + g == h1 + [g[n]];
      AliveAfterWrite(h, a, g[..n], rid);
      OneMorePasses(h1, g[n], |h|, rid);
    }
  }

  lemma WrittenNow(h: seq<Access>, a: Access, rid: Id)
    requires IsWrite(a, rid)
    ensures LastWrite(h + [a], rid) == |h| && Clock(h + [a], |h| + 1) == Clock(h + [a], |h|)
    ensures Alive(h + [a], rid) <==> IsPut(a, rid) || Alive(h, rid)
  {
    LastsGrow(h, a, rid);
    RecentByLastWrite(h + [a], rid);
    if IsPut(a, rid) {
      AliveOncePut(h, a, rid);
    } else {
      AliveGrows(h, a, rid);
    }
  }

  /** After an access that does not write or delete, the last write still decides. */
  lemma OneMorePasses(h: seq<Access>, a: Access, t: nat, rid: Id)
    requires LastWrite(h, rid) == t && !IsWrite(a, rid) && a != Access.Delete(rid)
    ensures var h' := h + [a];
            && LastWrite(h', rid) == t
            && Clock(h', t) == Clock(h, t)
            && Clock(h', |h'|) >= Clock(h, |h|)
            && (Alive(h', rid) <==> Alive(h, rid) && Clock(h', |h'|) - Clock(h', t) < LIFETIME)
  {
    LastsGrow(h, a, rid);
    ClockStays(h, a, t);
    ClockStays(h, a, |h|);
    AliveGrows(h, a, rid);
    RecentByLastWrite(h + [a], rid);
  }
}
