/** A group call from the bytes that come in to the datagrams that go out: routing, the subscribers of
    its talkgroup, and the queue of packets without an address (internal/dmr/packet_handler.go,
    internal/models/repeater.go, internal/dmr/server.go). */
module Delivery {
  import opened Words
  import opened Packets
  import opened Codec
  import opened Links
  import opened Subscriptions
  import opened Relay
  import Linking
  import LinkRuns
  import Subscribers

  /** The word is the repeater's number, as it goes into four bytes. */
  predicate Names(number: Uint, id: Id) {
    number as nat == id && number < 0x1_0000_0000 && id < 0x1_0000_0000
  }

  ghost predicate HasNumber(p: Repeater) {
    exists number :: Names(number, p.radioID)
  }

  lemma NumberOfWord(number: Uint)
    ensures (number as nat) as Uint == number
  {}

  lemma SameNumber(number: Uint, rid: Uint, id: Id)
    requires Names(number, id)
    ensures id as Uint == number
    ensures rid == number <==> rid as nat == id
  {
    NumberOfWord(number);
    NumberOfWord(rid);
  }

  /** The slot on which a repeater that wants a packet gets it. */
  ghost predicate WantedSlot(p: Repeater, packet: Packet) {
    if packet.dst as nat == p.radioID then packet.slot
    else
      OnSlot(p, packet.dst as nat, true)
      && (OnSlot(p, packet.dst as nat, false) ==> Precedes(p, packet.dst as nat, true))
  }

  lemma WantedSlotIsRight(p: Repeater, packet: Packet)
    requires packet.dst as nat == p.radioID || packet.dst as nat in p.Linked()
    ensures Wants(p, packet, true, WantedSlot(p, packet))
  {
    LinkedOnSlot(p, packet.dst as nat);
  }

  /** What a repeater is sent of a group call. */
  ghost function Relayed(p: Repeater, data: seq<Byte>): (out: seq<Byte>)
    requires 53 <= |data| <= 55 && HasNumber(p)
    ensures |out| == |data|
  {
    Reslotted(Readdressed(data, p.radioID as Uint), WantedSlot(p, Parse(data)))
  }

  /** Subscribers of a talkgroup, in the order in which they get a message. */
  ghost predicate AreSubscribers(s: Registry, order: seq<Handle>, tg: Id) {
    forall h :: h in order ==>
      && h in s.running && s.running[h].key == tg
      && HasNumber(s.running[h].repeater)
      && Subscribers.AsksForKey(s.running[h])
  }

  /** What one subscriber puts on the queue: one message, unless it is the source's. */
  ghost function MessageOf(p: Repeater, data: seq<Byte>): (queue: seq<seq<Byte>>)
    requires 53 <= |data| <= 55 && HasNumber(p)
    ensures forall m :: m in queue ==> 53 <= |m| <= 55
  {
    if p.radioID == Parse(data).repeater as nat then [] else [Relayed(p, data)]
  }

  ghost function Queued(s: Registry, order: seq<Handle>, data: seq<Byte>): (queue: seq<seq<Byte>>)
    requires 53 <= |data| <= 55 && AreSubscribers(s, order, Parse(data).dst as nat)
    ensures forall m :: m in queue ==> 53 <= |m| <= 55
  {
    if order == [] then []
    else
      Queued(s, order[..|order| - 1], data) + MessageOf(s.running[order[|order| - 1]].repeater, data)
  }

  method RelayOne(p: Repeater, data: seq<Byte>) returns (queue: seq<seq<Byte>>)
    requires 53 <= |data| <= 55 && HasNumber(p)
    requires Parse(data).dst as nat == p.radioID || Parse(data).dst as nat in p.Linked()
    ensures queue == MessageOf(p, data)
  {
    WantedSlotIsRight(p, Parse(data));
    var out := RelayTalkgroup(p, data);
    queue := if out.Some? then [out.value] else [];
  }

  /** A message on a talkgroup's channel, at all its subscribers. */
  method Broadcast(s: Registry, order: seq<Handle>, data: seq<Byte>) returns (queue: seq<seq<Byte>>)
    requires 53 <= |data| <= 55 && AreSubscribers(s, order, Parse(data).dst as nat)
    ensures queue == Queued(s, order, data)
  {
    queue := [];
    for i := 0 to |order|
      invariant queue == Queued(s, order[..i], data)
    {
      assert order[..i + 1][..i] == order[..i] && order[i] in order;
      var out := RelayOne(s.running[order[i]].repeater, data);
      queue := queue + out;
    }
    assert order[..|order|] == order;
  }

  // ---------------------------------------------------------------- who gets what

  function Filter<T>(s: seq<T>, f: T -> bool): seq<T> {
    if s == [] then [] else Filter(s[..|s| - 1], f) + if f(s[|s| - 1]) then [s[|s| - 1]] else []
  }

  lemma FilterMore<T>(s: seq<T>, x: T, f: T -> bool)
    ensures Filter(s + [x], f) == Filter(s, f) + if f(x) then [x] else []
  {
    assert (s + [x])[..|s|] == s;
  }

  lemma {:induction false} FilterMembers<T>(s: seq<T>, f: T -> bool, x: T)
    ensures x in Filter(s, f) <==> x in s && f(x)
  {
    if s == [] {
    } else {
      var before, last := s[..|s| - 1], s[|s| - 1];
      assert s == before + [last];
      FilterMembers(before, f, x);
    }
  }

  function CarriesNumber(rid: Uint): Datagram -> bool {
    (d: Datagram) => |d.data| >= 53 && Parse(d.data).repeater == rid
  }

  /** The datagrams that carry a repeater's number. */
  function DatagramsFor(sent: seq<Datagram>, rid: Uint): seq<Datagram> {
    Filter(sent, CarriesNumber(rid))
  }

  function IsOf(s: Registry, rid: Uint): Handle -> bool {
    (h: Handle) => h in s.running && s.running[h].repeater.radioID == rid as nat
  }

  /** The subscribers of a repeater. */
  function SubscribersOf(s: Registry, order: seq<Handle>, rid: Uint): seq<Handle> {
    Filter(order, IsOf(s, rid))
  }

  lemma SubscriberIsOf(s: Registry, order: seq<Handle>, rid: Uint, h: Handle)
    requires h in SubscribersOf(s, order, rid)
    ensures h in order && h in s.running && s.running[h].repeater.radioID == rid as nat
  {
    FilterMembers(order, IsOf(s, rid), h);
  }

  lemma SubscribersOfOne(s: Registry, order: seq<Handle>, rid: Uint, tg: Id)
    requires AreSubscribers(s, order, tg)
    ensures AreSubscribers(s, SubscribersOf(s, order, rid), tg)
  {
    forall h | h in SubscribersOf(s, order, rid)
      ensures h in order
    {
      SubscriberIsOf(s, order, rid, h);
    }
  }

  /** One datagram for each subscriber, on the slot its own snapshot asks for. */
  ghost function Expected(s: Registry, order: seq<Handle>, data: seq<Byte>, address: Address): seq<Datagram>
    requires 53 <= |data| <= 55 && AreSubscribers(s, order, Parse(data).dst as nat)
  {
    if order == [] then []
    else
      Expected(s, order[..|order| - 1], data, address)
      + [Datagram(address, Relayed(s.running[order[|order| - 1]].repeater, data))]
  }

  lemma RelayedNumber(p: Repeater, number: Uint, data: seq<Byte>)
    requires 53 <= |data| <= 55 && Names(number, p.radioID)
    ensures HasNumber(p) && Parse(Relayed(p, data)).repeater == number
  {
    SameNumber(number, number, p.radioID);
    RelayedParses(data, number, WantedSlot(p, Parse(data)));
  }

  lemma SentOne(m: seq<Byte>, online: map<Uint, Address>)
    requires 53 <= |m| <= 55
    ensures var rid := Parse(m).repeater;
            Sent([m], online) == if rid in online then [Datagram(online[rid], m)] else []
  {
    var queue := [m];
    assert queue[..0] == [];
  }

  /** What one subscriber's message comes to. */
  lemma OneIsDelivered(p: Repeater, data: seq<Byte>, online: map<Uint, Address>) returns (number: Uint)
    requires 53 <= |data| <= 55 && HasNumber(p)
    ensures Names(number, p.radioID)
    ensures Sent(MessageOf(p, data), online)
         == if Parse(data).repeater != number && number in online
            then [Datagram(online[number], Relayed(p, data))] else []
    ensures Parse(Relayed(p, data)).repeater == number
  {
    number :| Names(number, p.radioID);
    SameNumber(number, Parse(data).repeater, p.radioID);
    RelayedNumber(p, number, data);
    if Parse(data).repeater != number {
      SentOne(Relayed(p, data), online);
    }
  }

  /** One more message. */
  lemma SentAdds(queue: seq<seq<Byte>>, p: Repeater, data: seq<Byte>, online: map<Uint, Address>)
    requires 53 <= |data| <= 55 && HasNumber(p)
    requires forall m :: m in queue ==> 53 <= |m| <= 55
    ensures Sent(queue + MessageOf(p, data), online) == Sent(queue, online) + Sent(MessageOf(p, data), online)
  {
    var more := MessageOf(p, data);
    if more == [] {
      assert queue + more == queue;
    } else {
      assert (queue + more)[..|queue|] == queue && more[..0] == [];
    }
  }

  /** What is expected of the subscribers of one repeater. */
  ghost function ExpectedOf(
    s: Registry, order: seq<Handle>, data: seq<Byte>, rid: Uint, online: map<Uint, Address>): seq<Datagram>
    requires 53 <= |data| <= 55 && AreSubscribers(s, order, Parse(data).dst as nat)
  {
    SubscribersOfOne(s, order, rid, Parse(data).dst as nat);
    if Parse(data).repeater == rid || rid !in online then []
    else Expected(s, SubscribersOf(s, order, rid), data, online[rid])
  }

  lemma ExpectedMore(s: Registry, order: seq<Handle>, h: Handle, data: seq<Byte>, address: Address)
    requires 53 <= |data| <= 55 && AreSubscribers(s, order + [h], Parse(data).dst as nat)
    ensures AreSubscribers(s, order, Parse(data).dst as nat) && h in s.running && HasNumber(s.running[h].repeater)
    ensures Expected(s, order + [h], data, address)
         == Expected(s, order, data, address) + [Datagram(address, Relayed(s.running[h].repeater, data))]
  {
    assert (order + [h])[..|order|] == order && h in order + [h];
    assert forall g :: g in order ==> g in order + [h];
  }

  /** What is expected of one subscriber. */
  ghost function Share(p: Repeater, data: seq<Byte>, rid: Uint, online: map<Uint, Address>): seq<Datagram>
    requires 53 <= |data| <= 55 && HasNumber(p)
  {
    if p.radioID == rid as nat && Parse(data).repeater != rid && rid in online
    then [Datagram(online[rid], Relayed(p, data))] else []
  }

  lemma OneMoreSubscriber(s: Registry, order: seq<Handle>, h: Handle, rid: Uint)
    requires h in s.running
    ensures SubscribersOf(s, order + [h], rid)
         == SubscribersOf(s, order, rid) + if s.running[h].repeater.radioID == rid as nat then [h] else []
  {
    FilterMore(order, h, IsOf(s, rid));
  }

  lemma OneMoreExpected(
    s: Registry, order: seq<Handle>, h: Handle, data: seq<Byte>, rid: Uint, online: map<Uint, Address>)
    requires 53 <= |data| <= 55 && AreSubscribers(s, order + [h], Parse(data).dst as nat)
    requires AreSubscribers(s, order, Parse(data).dst as nat) && h in s.running && HasNumber(s.running[h].repeater)
    ensures ExpectedOf(s, order + [h], data, rid, online)
         == ExpectedOf(s, order, data, rid, online) + Share(s.running[h].repeater, data, rid, online)
  {
    var of := SubscribersOf(s, order, rid);
    OneMoreSubscriber(s, order, h, rid);
    SubscribersOfOne(s, order + [h], rid, Parse(data).dst as nat);
    SubscribersOfOne(s, order, rid, Parse(data).dst as nat);
    if Parse(data).repeater != rid && rid in online {
      if s.running[h].repeater.radioID == rid as nat {
        ExpectedMore(s, of, h, data, online[rid]);
      } else {
        assert of + [] == of;
      }
    }
  }

  lemma OneMoreCarries(sent: seq<Datagram>, d: Datagram, rid: Uint)
    requires |d.data| >= 53
    ensures DatagramsFor(sent + [d], rid) == DatagramsFor(sent, rid) + if Parse(d.data).repeater == rid then [d] else []
  {
    FilterMore(sent, d, CarriesNumber(rid));
  }

  lemma OneMoreDelivered(
    sent: seq<Datagram>, p: Repeater, data: seq<Byte>, rid: Uint, online: map<Uint, Address>)
    requires 53 <= |data| <= 55 && HasNumber(p)
    ensures DatagramsFor(sent + Sent(MessageOf(p, data), online), rid)
         == DatagramsFor(sent, rid) + Share(p, data, rid, online)
  {
    var number := OneIsDelivered(p, data, online);
    SameNumber(number, rid, p.radioID);
    if Parse(data).repeater != number && number in online {
      OneMoreCarries(sent, Datagram(online[number], Relayed(p, data)), rid);
    } else {
      assert sent + [] == sent;
    }
  }

  /** End to end: a group call with these bytes comes to a repeater once for each of its subscribers of the
      talkgroup, unless it is the source or is not online, changed in the repeater's number and the slot. */
  lemma {:induction false} CallIsDelivered(
    s: Registry, order: seq<Handle>, data: seq<Byte>, rid: Uint, online: map<Uint, Address>)
    requires 53 <= |data| <= 55 && AreSubscribers(s, order, Parse(data).dst as nat)
    ensures DatagramsFor(Sent(Queued(s, order, data), online), rid) == ExpectedOf(s, order, data, rid, online)
  {
    if order == [] {
    } else {
      var before, h := order[..|order| - 1], order[|order| - 1];
      assert order == before + [h] && h in order;
      OneMoreExpected(s, before, h, data, rid, online);
      CallIsDelivered(s, before, data, rid, online);
      SentAdds(Queued(s, before, data), s.running[h].repeater, data, online);
      OneMoreDelivered(Sent(Queued(s, before, data), online), s.running[h].repeater, data, rid, online);
    }
  }

  // ---------------------------------------------------------------- once

  lemma {:induction false} FilterKeepsDistinct<T>(s: seq<T>, f: T -> bool)
    requires Distinct(s)
    ensures Distinct(Filter(s, f))
  {
    if s == [] {
    } else {
      var before, last := s[..|s| - 1], s[|s| - 1];
      FilterKeepsDistinct(before, f);
      FilterMembers(before, f, last);
    }
  }

  /** The live subscribers of a talkgroup, each once; a repeater's own number is not a talkgroup's. */
  ghost predicate AreAllSubscribers(s: Registry, order: seq<Handle>, tg: Id) {
    && Distinct(order)
    && forall h :: h in order <==>
         Subscribers.IsLive(s, h) && s.running[h].key == tg && s.running[h].repeater.radioID != tg
  }

  lemma SubscriberIsLive(s: Registry, order: seq<Handle>, tg: Id, rid: Uint, h: Handle)
    requires AreAllSubscribers(s, order, tg) && h in SubscribersOf(s, order, rid)
    ensures Subscribers.IsLive(s, h) && s.running[h].key == tg
    ensures s.running[h].repeater.radioID == rid as nat && rid as nat != tg
  {
    SubscriberIsOf(s, order, rid, h);
    assert h in order;
  }

  lemma StoredIsSubscriber(s: Registry, order: seq<Handle>, tg: Id, rid: Uint, id: Id)
    requires AreAllSubscribers(s, order, tg) && Subscribers.Owns(s, id, tg)
    requires id == rid as nat && tg in s.Keys(id) && id != tg
    ensures s.subs[id][tg] in SubscribersOf(s, order, rid)
  {
    FilterMembers(order, IsOf(s, rid), s.subs[id][tg]);
  }

  /** The stored subscriber of the talkgroup, if the registry has it for the repeater, and nobody else. */
  predicate IsTheStored(of: seq<Handle>, s: Registry, id: Id, tg: Id) {
    of == if tg in s.Keys(id) && id != tg then [s.subs[id][tg]] else []
  }

  /** With prompt cleanups a repeater that has the talkgroup in the registry has one subscriber of it, the stored
      one, and any other has none. */
  lemma OneSubscriberEach(
    db: map<Id, Repeater>, trace: seq<Linking.World>, ops: seq<Linking.Operation>, n: nat,
    order: seq<Handle>, tg: Id, rid: Uint, id: Id)
    requires LinkRuns.IsRun(db, trace, ops) && n <= |ops| && LinkRuns.Prompt(trace, ops, n)
    requires AreAllSubscribers(trace[n].reg, order, tg) && id == rid as nat
    ensures IsTheStored(SubscribersOf(trace[n].reg, order, rid), trace[n].reg, id, tg)
  {
    var s := trace[n].reg;
    var of := SubscribersOf(s, order, rid);
    FilterKeepsDistinct(order, IsOf(s, rid));
    forall h | h in of
      ensures id != tg && tg in s.Keys(id) && h == s.subs[id][tg]
    {
      SubscriberIsLive(s, order, tg, rid, h);
      Subscribers.PromptIsStored(db, trace, ops, n, h);
    }
    if tg in s.Keys(id) && id != tg {
      assert Subscribers.Owns(s, id, tg) by { Subscribers.RunsAreOK(db, trace, ops, n); }
      StoredIsSubscriber(s, order, tg, rid, id);
      OneAtMost(of, s.subs[id][tg]);
    } else {
      OneAtMost(of, 0);
    }
  }

  lemma OneAtMost(s: seq<Handle>, h: Handle)
    requires Distinct(s) && forall x :: x in s ==> x == h
    ensures s == if h in s then [h] else []
  {
    if |s| > 0 {
      assert s[0] in s && s[|s| - 1] in s;
      assert s == [s[0]];
    }
  }

  /** In every run with prompt cleanups, in whatever order its live subscribers get it, a group call comes to
      a repeater exactly once if the talkgroup is registered for it, it is online and it is not the source;
      and not at all otherwise. */
  lemma CallComesOnce(
    db: map<Id, Repeater>, trace: seq<Linking.World>, ops: seq<Linking.Operation>, n: nat,
    order: seq<Handle>, data: seq<Byte>, rid: Uint, id: Id, online: map<Uint, Address>)
    requires LinkRuns.IsRun(db, trace, ops) && n <= |ops| && LinkRuns.Prompt(trace, ops, n)
    requires 53 <= |data| <= 55 && AreAllSubscribers(trace[n].reg, order, Parse(data).dst as nat)
    requires id == rid as nat && forall h :: h in order ==> HasNumber(trace[n].reg.running[h].repeater)
    ensures AreSubscribers(trace[n].reg, order, Parse(data).dst as nat)
    ensures var s, tg := trace[n].reg, Parse(data).dst as nat;
            |DatagramsFor(Sent(Queued(s, order, data), online), rid)| ==
              if tg in s.Keys(id) && id != tg && rid in online && Parse(data).repeater != rid then 1 else 0
  {
    var s, tg := trace[n].reg, Parse(data).dst as nat;
    Subscribers.RunsAreOK(db, trace, ops, n);
    CallIsDelivered(s, order, data, rid, online);
    OneSubscriberEach(db, trace, ops, n, order, tg, rid, id);
    SubscribersOfOne(s, order, rid, tg);
    if rid in online { ExpectedLength(s, SubscribersOf(s, order, rid), data, online[rid]); }
  }

  lemma {:induction false} ExpectedLength(s: Registry, order: seq<Handle>, data: seq<Byte>, address: Address)
    requires 53 <= |data| <= 55 && AreSubscribers(s, order, Parse(data).dst as nat)
    ensures |Expected(s, order, data, address)| == |order|
  {
    if order == [] {
    } else {
      ExpectedLength(s, order[..|order| - 1], data, address);
    }
  }

  // ---------------------------------------------------------------- the slot

  /** A link more to a talkgroup that is registered already. */
  lemma LinkAgain(w: Linking.World, rid: Id, tg: Id)
    requires Linking.DbOK(w.db) && rid in w.db && tg in w.reg.Keys(rid)
    ensures var both := Linking.WithLink(w.db[rid], true, true, tg);
            var linked := Linking.Apply(w, Linking.Link(rid, true, true, tg)).0;
            Linking.Apply(linked, Linking.Run(Linking.ListenOn(both, tg))).0 == w.(db := w.db[rid := both])
  {
    var task := Linking.ListenOn(Linking.WithLink(w.db[rid], true, true, tg), tg);
    assert w.waiting + multiset{task} - multiset{task} == w.waiting;
  }

  /** A talkgroup that is linked on slot one, then also on slot two, and then no longer on slot one, keeps its
      first subscriber, whose snapshot still asks for slot one. */
  lemma StaleSlot(w: Linking.World, rid: Id, tg: Id)
    requires Linking.DbOK(w.db) && rid in w.db && rid in w.reg.subs
    requires tg !in w.reg.Keys(rid) && tg !in w.db[rid].Linked()
    ensures var first := LinkRuns.LinkedNow(w, rid, tg);
            var both := Linking.WithLink(first.db[rid], true, true, tg);
            var second := Linking.Apply(first, Linking.Link(rid, true, true, tg)).0;
            var listened := Linking.Apply(second, Linking.Run(Linking.ListenOn(both, tg))).0;
            var (w', answer) := Linking.Apply(listened, Linking.Unlink(rid, true, false, tg, {tg}));
            && answer == Linking.Done && w'.reg == first.reg
            && OnSlot(w'.db[rid], tg, true) && !OnSlot(w'.db[rid], tg, false)
            && tg in w'.reg.Keys(rid) && w'.reg.subs[rid][tg] in w'.reg.running
            && var snapshot := w'.reg.running[w'.reg.subs[rid][tg]].repeater;
               OnSlot(snapshot, tg, false) && !OnSlot(snapshot, tg, true)
  {
    var first := LinkRuns.LinkedNow(w, rid, tg);
    LinkRuns.LinkNow(w, rid, tg);
    LinkAgain(first, rid, tg);
    LinkedOnSlot(w.db[rid], tg);
    UnlinkOne(first.(db := first.db[rid := Linking.WithLink(first.db[rid], true, true, tg)]), rid, tg);
  }

  lemma UnlinkOne(w: Linking.World, rid: Id, tg: Id)
    requires Linking.DbOK(w.db) && rid in w.db && tg in w.reg.Keys(rid)
    requires tg in w.db[rid].ts1Static && tg in w.db[rid].ts2Static
    ensures var p := Linking.WithoutLink(w.db[rid], true, false, tg);
            Linking.Apply(w, Linking.Unlink(rid, true, false, tg, {tg})) == (w.(db := w.db[rid := p]), Linking.Done)
  {}
}
