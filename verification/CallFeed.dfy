/** Who is told about a call (internal/dmr/call_tracker.go, the loop of `publishCall`). */
module CallFeed {
  import opened Words
  import opened Packets
  import opened Links

  datatype Owned = Owned(repeater: Repeater, ownerID: Id)

  ghost predicate Wanted(o: Owned, packet: Packet) {
    packet.dst as nat == o.repeater.radioID || packet.dst as nat in o.repeater.Linked()
  }

  /** How many of the repeaters belong to an owner. */
  function OwnedBy(repeaters: seq<Owned>, owner: Id): nat {
    if repeaters == [] then 0
    else
      var n := |repeaters| - 1;
      OwnedBy(repeaters[..n], owner) + if repeaters[n].ownerID == owner then 1 else 0
  }

  ghost predicate SomeWants(repeaters: seq<Owned>, owner: Id, packet: Packet) {
    exists i :: 0 <= i < |repeaters| && repeaters[i].ownerID == owner && Wanted(repeaters[i], packet)
  }

  /** How often each owner is published to: the caller once per repeater, the others once if
      one of their repeaters wants the packet. */
  ghost function Publishes(repeaters: seq<Owned>, caller: Id, packet: Packet, owner: Id): nat {
    if owner == caller then OwnedBy(repeaters, owner)
    else if SomeWants(repeaters, owner, packet) then 1 else 0
  }

  /** The owners the call is published to, in order. */
  method PublishCall(repeaters: seq<Owned>, caller: Id, packet: Packet) returns (published: seq<Id>)
    ensures forall owner :: multiset(published)[owner] == Publishes(repeaters, caller, packet, owner)
  {
    published := [];
    var alreadyPublished: set<Id> := {};
    for i := 0 to |repeaters|
      invariant forall owner :: multiset(published)[owner] == Publishes(repeaters[..i], caller, packet, owner)
      invariant forall owner :: owner in alreadyPublished <==> owner in published
    {
      var r := repeaters[i];
      var want, _ := WantRX(r.repeater, packet);
      LinkedOnSlot(r.repeater, packet.dst as nat);
      ghost var before := published;
      if want && r.ownerID !in alreadyPublished {
        published := published + [r.ownerID];
        alreadyPublished := alreadyPublished + {r.ownerID};
      } else if r.ownerID == caller {
        published := published + [r.ownerID];
        alreadyPublished := alreadyPublished + {r.ownerID};
      }
      forall owner
        ensures multiset(published)[owner] == Publishes(repeaters[..i + 1], caller, packet, owner)
      {
        OneMore(repeaters, i, caller, packet, owner);
      }
    }
    assert repeaters[..|repeaters|] == repeaters;
  }

  lemma OneMore(repeaters: seq<Owned>, i: nat, caller: Id, packet: Packet, owner: Id)
    requires i < |repeaters|
    ensures OwnedBy(repeaters[..i + 1], owner)
         == OwnedBy(repeaters[..i], owner) + if repeaters[i].ownerID == owner then 1 else 0
    ensures SomeWants(repeaters[..i + 1], owner, packet)
       <==> SomeWants(repeaters[..i], owner, packet)
            || (repeaters[i].ownerID == owner && Wanted(repeaters[i], packet))
  {
    var now, next := repeaters[..i], repeaters[..i + 1];
    assert next[..i] == now;
    if SomeWants(now, owner, packet) {
      var j :| 0 <= j < |now| && now[j].ownerID == owner && Wanted(now[j], packet);
      assert next[j] == now[j];
    }
    if repeaters[i].ownerID == owner && Wanted(repeaters[i], packet) {
      assert next[i] == repeaters[i];
    }
  }
}
