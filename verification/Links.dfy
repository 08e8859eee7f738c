/** What a repeater is linked to, and which packets it wants (internal/models/repeater.go). */
module Links {
  import opened Words
  import opened Packets

  datatype Repeater = Repeater(
    radioID: Id,
    ts1Static: seq<Id>,
    ts2Static: seq<Id>,
    ts1Dynamic: Option<Id>,
    ts2Dynamic: Option<Id>)
  {
    /** The talkgroups linked on either slot. */
    ghost function Linked(): set<Id> {
      (set tg | tg in ts1Static) + (set tg | tg in ts2Static) + Held(ts1Dynamic) + Held(ts2Dynamic)
    }
  }

  function Held(dynamic: Option<Id>): set<Id> {
    if dynamic.Some? then {dynamic.value} else {}
  }

  /** Slot two is `true`, as on the wire. */
  function Dynamic(p: Repeater, slot: bool): Option<Id> {
    if slot then p.ts2Dynamic else p.ts1Dynamic
  }

  function Static(p: Repeater, slot: bool): seq<Id> {
    if slot then p.ts2Static else p.ts1Static
  }

  /** Whether the repeater wants a packet, and on which slot. */
  ghost predicate Wants(p: Repeater, packet: Packet, want: bool, slot: bool) {
    WantsFor(p, packet.dst as nat, packet.slot, want, slot)
  }

  /** The same for a destination and the slot the packet came in on. */
  ghost predicate WantsFor(p: Repeater, dst: Id, arrival: bool, want: bool, slot: bool) {
    if dst == p.radioID then want && slot == arrival
    else if want then OnSlot(p, dst, slot) && (OnSlot(p, dst, !slot) ==> Precedes(p, dst, slot))
    else !slot && dst !in p.Linked()
  }

  /** The talkgroup is linked on this slot. */
  ghost predicate OnSlot(p: Repeater, tg: Id, slot: bool) {
    Dynamic(p, slot) == Some(tg) || tg in Static(p, slot)
  }

  /** Linked on both slots: a dynamic link goes before a static one, then slot two before slot one. */
  ghost predicate Precedes(p: Repeater, tg: Id, slot: bool) {
    if slot then Dynamic(p, true) == Some(tg) || Dynamic(p, false) != Some(tg)
    else Dynamic(p, false) == Some(tg) && Dynamic(p, true) != Some(tg)
  }

  method InStaticTalkgroups(talkgroups: seq<Id>, dest: Id) returns (found: bool)
    ensures found <==> dest in talkgroups
  {
    for i := 0 to |talkgroups|
      invariant dest !in talkgroups[..i]
    {
      if dest == talkgroups[i] {
        return true;
      }
    }
    return false;
  }

  method WantRX(p: Repeater, packet: Packet) returns (want: bool, slot: bool)
    ensures Wants(p, packet, want, slot)
  {
    var dst := packet.dst as nat;
    if dst == p.radioID {
      return true, packet.slot;
    }
    if p.ts2Dynamic.Some? && dst == p.ts2Dynamic.value {
      return true, true;
    }
    if p.ts1Dynamic.Some? && dst == p.ts1Dynamic.value {
      return true, false;
    }
    var inTS2 := InStaticTalkgroups(p.ts2Static, dst);
    if inTS2 {
      return true, true;
    }
    var inTS1 := InStaticTalkgroups(p.ts1Static, dst);
    if inTS1 {
      return true, false;
    }
    return false, false;
  }

  /** A talkgroup is linked when it is linked on some slot. */
  lemma LinkedOnSlot(p: Repeater, tg: Id)
    ensures tg in p.Linked() <==> OnSlot(p, tg, false) || OnSlot(p, tg, true)
  {}

  /** A packet of a talkgroup that is linked on slot one alone is wanted on slot one. */
  lemma OnlyOnSlotOne(p: Repeater, dst: Id, arrival: bool, want: bool, slot: bool)
    requires WantsFor(p, dst, arrival, want, slot) && dst != p.radioID
    requires dst in p.ts1Static || p.ts1Dynamic == Some(dst)
    requires dst !in p.ts2Static && p.ts2Dynamic != Some(dst)
    ensures want && !slot
  {
    LinkedOnSlot(p, dst);
  }

  lemma OnlyOnSlotTwo(p: Repeater, dst: Id, arrival: bool, want: bool, slot: bool)
    requires WantsFor(p, dst, arrival, want, slot) && dst != p.radioID
    requires dst in p.ts2Static || p.ts2Dynamic == Some(dst)
    requires dst !in p.ts1Static && p.ts1Dynamic != Some(dst)
    ensures want && slot
  {
    LinkedOnSlot(p, dst);
  }

  /** One that is linked on both slots is wanted on slot one only for a dynamic link there that slot two has not. */
  lemma OnBothSlots(p: Repeater, dst: Id, arrival: bool, want: bool, slot: bool)
    requires WantsFor(p, dst, arrival, want, slot) && dst != p.radioID
    requires dst in p.ts1Static || p.ts1Dynamic == Some(dst)
    requires dst in p.ts2Static || p.ts2Dynamic == Some(dst)
    ensures want
    ensures slot <==> p.ts1Dynamic != Some(dst) || p.ts2Dynamic == Some(dst)
  {
    LinkedOnSlot(p, dst);
  }

  /** What is for the repeater itself is wanted on the slot it came in on, and what is neither for it nor
      linked is not wanted. */
  lemma OwnAndForeign(p: Repeater, dst: Id, arrival: bool, want: bool, slot: bool)
    requires WantsFor(p, dst, arrival, want, slot)
    ensures dst == p.radioID ==> want && slot == arrival
    ensures want ==>
              dst == p.radioID || dst in p.ts1Static + p.ts2Static || Some(dst) in [p.ts1Dynamic, p.ts2Dynamic]
  {
    LinkedOnSlot(p, dst);
  }

  /** The answer is determined by the links: no two answers are right. */
  lemma WantsIsUnique(p: Repeater, packet: Packet, want: bool, slot: bool, want': bool, slot': bool)
    requires Wants(p, packet, want, slot) && Wants(p, packet, want', slot')
    ensures want == want' && slot == slot'
  {
    AnswerIsUnique(p, packet.dst as nat, packet.slot, want, slot, want', slot');
  }

  lemma AnswerIsUnique(p: Repeater, dst: Id, arrival: bool, want: bool, slot: bool, want': bool, slot': bool)
    requires WantsFor(p, dst, arrival, want, slot) && WantsFor(p, dst, arrival, want', slot')
    ensures want == want' && slot == slot'
  {
    LinkedOnSlot(p, dst);
    assert !(Precedes(p, dst, true) && Precedes(p, dst, false));
  }
}
