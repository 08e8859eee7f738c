/** Which repeaters a private call is published to (internal/dmr/packet_handler.go). */
module PrivateRouting {
  import opened Words
  import opened Packets
  import opened Codec

  /** What the database knows of a user: the repeaters owned, and the repeater of the last
      call, zero when there is none or the lookup failed. */
  datatype User = User(owned: seq<Id>, lastCallRepeater: Id)

  predicate IsUserNumber(dst: Uint) {
    1_000_000 <= dst < 10_000_000
  }

  /** The repeaters whose channels the packet is published on, in order. */
  method RoutePrivate(dst: Uint, user: Option<User>, online: set<Id>) returns (published: seq<Id>)
    ensures dst < 1_000_000 || dst > 99_999_999 ==> published == [dst as nat]
    ensures 10_000_000 <= dst <= 99_999_999 || (IsUserNumber(dst) && user.None?) ==> published == []
    ensures IsUserNumber(dst) && user.Some? ==>
              var u := user.value;
              forall r :: r in published <==>
                r in online && if r == u.lastCallRepeater then r != 0 else r in u.owned
    ensures IsUserNumber(dst) && user.Some? && Distinct(user.value.owned) ==> Distinct(published)
  {
    if dst < 1_000_000 || dst > 99_999_999 {
      return [dst as nat];
    }
    published := [];
    if dst < 10_000_000 && user.Some? {
      var last := user.value.lastCallRepeater;
      if last != 0 && last in online {
        published := published + [last];
      }
      var owned := user.value.owned;
      for i := 0 to |owned|
        invariant forall r :: r in published <==>
                    r in online && ((r == last && last != 0) || (r != last && r in owned[..i]))
        invariant Distinct(owned) ==> Distinct(published)
      {
        if owned[i] != last && owned[i] in online {
          published := published + [owned[i]];
        }
      }
    }
  }

  /** A decoded destination is a 24-bit number, so no call goes to a nine-digit repeater: what is
      not a six-digit repeater or a seven-digit user is dropped. */
  lemma NineDigitsAreUnreachable(d: seq<Byte>)
    requires |d| >= 53
    ensures Parse(d).dst <= 99_999_999
  {
    ParsedFits(d);
  }
}
