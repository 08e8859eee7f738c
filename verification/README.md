# Verified model of DMRHub's stateful core

DMRHub is a server for a DMR radio network: repeaters log in over UDP, send voice packets, and the
server counts each call, relays the packets to the repeaters that want them, keeps a registry of who
listens to which talkgroup, and says back what is said to its parrot. This project models that core
and proves what it keeps over all packet sequences, all runs and all interleavings.

* **Call accounting** (`Accounting`, `LossyChannel`, `CallTracking`, `LiveTracker`, `TrackerRuns`,
  `SavedCalls`).
  A call counts bursts in wrapping 64-bit words. The history of a call is the sequence of bursts it
  heard; `Count` gives its unbounded counters, and the call object is proved to hold the same numbers
  modulo 2^64 (`Stored`). `LossyChannel` compares the counters with what was really sent, and `SavedCalls` follows
  them from the frame types and numbers of the packets to the saved row.
* **Subscription registry** (`Links`, `Subscriptions`, `LiveRegistry`, `Linking`, `LinkRuns`, `Subscribers`,
  `LiveLinks`, `Interleavings`). The two nested maps, sequentially as an object and statement by statement
  under every interleaving of goroutines; the operations that change a repeater's links, with the goroutines
  they start as steps of their own; and what every run of them makes of the registry (`Histories` holds the
  facts about runs of any kind).
* **Login protocol** (`Logins`, `Expiry`, `LiveLogins`). The RPTL/RPTK/RPTC handshake over records that expire.
* **Packets** (`Packets`, `Codec`, `Relay`, `Delivery`, `PrivateRouting`, `Parrots`, `CallFeed`). The wire
  format, the relays a packet crosses, a group call end to end, private routing, the parrot and the call feed.

Conventions. Go's `uint` is taken as 64 bits: packet fields are bit vectors (`Uint`), counters are
numbers with an explicit remainder (`Word`). Redis, the database, UDP and the clock are maps, queues and
parameters; a row number, a salt or the order in which Go iterates over a map is any value. A nil
dereference, an assignment into a nil map and a division by zero are results of the modelled call
(`crashed`, `Crashed`, `Panicked`), not preconditions. Where the source's comments and code differ, the
code is followed: the timeout is two seconds, not the one second of the comment at
internal/dmr/call_tracker.go:138, and a duplicate frame number is never booked as six lost packets unless
the clock moves by 60 ms between lines 255 and 262 (`Burst.stalled`).

What turned out not to hold, and exactly when it does:

* The finished counters of a call are the true ones plus `CallError`, so they are exact if and only if
  that is zero; with the header delivered and no terminator right after frame 2, if and only if the drops
  are `Clean`. One lost burst in six positions, the one after a sync frame, is never noticed.
* The stored loss of a call is an integer quotient: zero exactly when fewer packets are booked as lost than
  in total.
* A repeated frame number that is booked as six packets adds five to the difference of total and lost, not one;
  that difference is the number of counted packets exactly when no repeat was stalled (`Conservation`).
* After a key-up the call stays in flight without its timer. A packet all of whose matching calls are such
  panics, whichever is visited first; with others among them it may (`KeyUpsStick`, `PanicsExactlyAfterKeyUp`).
* A run has two active calls for one key exactly when a start on it filed a call while one was active
  (`UniqueIffNoDuplicates`); the playback of the parrot does not ask first.
* The cleanup of a cancelled subscriber does harm exactly when its key was listened on after the cancel, and not
  taken again before the cleanup (`CleanupHarmsExactly`). After new talkgroups are stored, it takes the entry of the
  repeater's own number (`ReconciliationLosesOwnNumber`), and the next listening starts a second subscriber
  (`OwnNumberTwice`).
* A link of a stored repeater is missing from the registry exactly when its goroutine has not had its turn, or a
  late cleanup has taken its key (`MissingExactly`); exactly then unlinking it panics (`UnlinkPanicsExactly`,
  `DropPanicsExactly`). Both happen (`UnlinkTooEarlyPanics`, `LateCleanupPanics`).
* A cancel function in the registry can be lost without being called: overwritten by a listener, or wiped by an
  opener, that looked before it was there (`EntryGoesExactly`, `DisplacerLookedFirst`, `ListenerOverwrites`,
  `OpenerWipes`).
* A subscriber relays on the slot its talkgroup was linked on when it was started (`StaleSlot`).
* Two cancellers of one key can panic, from any point at which the key is there (`TwoCancellersPanic`): exactly
  when it has gone since the second one looked (`CancellerPanics`). The panic leaves the outer mutex locked, and
  from then on nothing in the registry changes (`PanicFreezesRegistry`).

## Model

| member | source | states |
|---|---|---|
| Packets.UnpackPacket | internal/models/packet.go:73-106 | reading a packet field by field gives the packet the bytes stand for, with BER and RSSI -1 when absent |
| Packets.Encode | internal/models/packet.go:115-153 | the buffer filled in place, plus the optional trailing bytes, is the wire form of the packet, for every packet, oversized fields included |
| Packets.Packet.Equal | internal/models/packet.go:30-71 | the thirteen comparisons decide equality of packets |
| Codec.ParseOfWire | internal/models/packet.go:73-153 | decoding an encoded packet gives it back if and only if every field fits its wire width and RSSI comes only with BER |
| Codec.WireOfParse | internal/models/packet.go:73-153 | encoding decoded bytes gives them back if and only if they are 53 to 55 long |
| Codec.FieldsAreBigEndian | internal/models/packet.go:77-91 | signature, sequence number, source, destination, repeater, stream, payload, BER and RSSI are each the big-endian value, or the bytes, at their own place |
| Codec.FlagsAddUp | internal/models/packet.go:80-90 | byte 15 is the sum of slot, private flag, frame type and number at their places |
| Codec.ParsedFits | internal/models/packet.go:73-106 | whatever is decoded fits the wire |
| Accounting.Conservation | internal/dmr/call_tracker.go:260-451 | for every history in any order, total minus lost is the number of packets that took a counting branch plus four for every stalled repeat, so it is that number if and only if no repeat was stalled; ending the call keeps it |
| Accounting.ConservationOfWords | internal/dmr/call_tracker.go:260-451 | the difference of the wrapping words is that same count modulo 2^64 |
| Accounting.TotalIsBounded | internal/dmr/call_tracker.go:260-451 | the total stays at least what the last frame number implies and at most seven per packet, and is at least one after the call ends |
| Accounting.TotalNeverWraps | internal/dmr/call_tracker.go:260-455 | while seven times the history fits a word, the stored total is the unbounded one and the final division is not by zero |
| Accounting.WrapsExactlyBackward | internal/dmr/call_tracker.go:297-376 | a subtraction wraps if and only if a voice frame 1..4 arrives below a last frame number 1..4; otherwise 0 to 6 losses are added |
| Accounting.ForwardLosses | internal/dmr/call_tracker.go:260-451 | without such frames the losses are between zero and six per packet and below the total once a packet counts |
| Accounting.StoredLossIsZero | internal/dmr/call_tracker.go:455 | the stored loss is zero if and only if lost is below total, so for every history without wrapping |
| Accounting.SecondHeader | internal/dmr/call_tracker.go:286-289 | a second header, unless right after frame 1, adds one packet and changes nothing else in all that follows |
| Accounting.RepeatedNumber | internal/dmr/call_tracker.go:260-280 | a repeat of the last frame number adds one packet, or six and one loss when stalled, and changes nothing else in all that follows |
| Accounting.DataIsIgnored | internal/dmr/call_tracker.go:286-376 | data frames count for nothing, unless they repeat the last number |
| LossyChannel.VoiceStep | internal/dmr/call_tracker.go:291-370 | the losses inferred at a voice burst are the gap in the channel less the under-count of the pair |
| LossyChannel.CountOverChannel | internal/dmr/call_tracker.go:260-451 | for every call length and every set of dropped bursts the finished counters are the true ones plus the call's error, so exact if and only if the error is zero |
| LossyChannel.ExactIffClean | internal/dmr/call_tracker.go:260-451 | with the header delivered and no terminator right after frame 2, the counters are exact if and only if no pair is under-counted and no whole superframe is missing |
| LossyChannel.LosslessIsExact | internal/dmr/call_tracker.go:260-451 | a call of any length that loses nothing books no loss |
| LossyChannel.SingleDrop | internal/dmr/call_tracker.go:334-335 | one dropped voice burst is noticed if and only if it is not the one after a sync frame |
| LossyChannel.OnlyHeaderLost | internal/dmr/call_tracker.go:291-308 | a call of k superframes that loses just its header is booked k losses and 7k + 1 packets |
| LossyChannel.EndAfterFrameTwo | internal/dmr/call_tracker.go:260-262 | a call that loses its last three voice frames is booked one loss and one packet too many |
| LossyChannel.SavedCounts | internal/dmr/call_tracker.go:435-456 | the row saved for a call over the channel holds the true counts plus the error, and loss zero even when the counts are exact |
| CallTracking.Call.LostBeforeVoice | internal/dmr/call_tracker.go:319-340 | the lost bursts before a voice frame, in wrapping words |
| CallTracking.Call.Book | internal/dmr/call_tracker.go:260-388 | the branching in wrapping words keeps the counters those of the history with this burst added |
| CallTracking.Call.CloseCounters | internal/dmr/call_tracker.go:435-451 | ending adds the missing terminator and the rest of the superframe |
| CallTracking.Call.Finish | internal/dmr/call_tracker.go:435-455 | the closed counters are those of the history and the loss is their integer quotient; division by zero needs a history too long for a word |
| LiveTracker.CallTracker.StartCall | internal/dmr/call_tracker.go:40-140 | a call and its timer are filed exactly when both ends are known and the row was created, with the kind of its destination |
| LiveTracker.CallTracker.IsCallActive | internal/dmr/call_tracker.go:143-150 | true if and only if an active call with the same five fields is in flight |
| LiveTracker.CallTracker.UpdateCall | internal/dmr/call_tracker.go:250-396 | the packet's frame type and number are added to the call's history and its timer set to two seconds from now, and the call is published if and only if its new total is even; a missing timer panics, and only that |
| LiveTracker.CallTracker.ProcessCallPacket | internal/dmr/call_tracker.go:399-408 | one matching call, in any order of iteration, is updated, and nothing happens if none matches |
| LiveTracker.CallTracker.EndCall | internal/dmr/call_tracker.go:418-463 | in any order of iteration: matching calls are closed, saved and taken out; a young one stops the loop as a key-up, losing its timer and row but staying in flight |
| LiveTracker.CallTracker.FireTimer | internal/dmr/call_tracker.go:410-415 | a timeout ends calls through the packet captured at the start |
| LiveTracker.CallTracker.TrackPacket | internal/dmr/packet_handler.go:187-205 | voice, except to 0 and 4000, starts a call only when none is active, is booked on an active one and ends it on a terminator; it panics only on a call without a timer or too long to count |
| TrackerRuns.PacketStepsAreGuarded | internal/dmr/packet_handler.go:187-205 | the packet step is a path of tracker steps that starts calls only when none is active |
| TrackerRuns.RunsAreRegistered | internal/dmr/call_tracker.go:40-463 | in every run all calls in flight are active, timers are of calls in flight and match them, and the calls without one are exactly the key-ups |
| TrackerRuns.TimeoutMatchesItsCall | internal/dmr/call_tracker.go:138-140 | a firing timeout's packet matches its own call, which is never a key-up |
| TrackerRuns.PanicsExactlyAfterKeyUp | internal/dmr/call_tracker.go:424-433 | in every run a packet meets a call without a timer if and only if it meets one that was ended as a key-up, and meets no other if and only if it meets only such calls |
| TrackerRuns.KeyUpsStick | internal/dmr/call_tracker.go:250-252 | in every run a packet can neither be booked nor end a call without a panic if and only if it matches calls and all of them were ended as key-ups |
| TrackerRuns.KeyUpRun | internal/dmr/call_tracker.go:428-433 | a call that is ended after 50 ms is such a run |
| TrackerRuns.EndWithoutYoung | internal/dmr/call_tracker.go:418-463 | with no young matching call, ending removes exactly the matching calls and leaves the rest |
| TrackerRuns.NewCallIsKnownBy | internal/dmr/call_tracker.go:399-404 | a call is active for the packets with its stream, source, destination, slot and call type; the destination is not looked at when a packet is booked or ends a call |
| TrackerRuns.CallIsFound | internal/dmr/call_tracker.go:143-150 | after one start, these are exactly the packets for which a call is active, and which find one |
| TrackerRuns.DestinationIsKnown | internal/dmr/call_tracker.go:74-110 | a group call is to the talkgroup of its number, failing that to a repeater, a private call to a user |
| TrackerRuns.TimersFollowPackets | internal/dmr/call_tracker.go:138-252 | in every run the timeout of a call is two seconds after its start or its latest packet |
| TrackerRuns.EndingGoesByAge | internal/dmr/call_tracker.go:424-456 | a call whose timer an end stops is saved and leaves its flight if it is at least 100 ms old, and otherwise stays in flight unsaved |
| TrackerRuns.TerminatorsEnd | internal/dmr/packet_handler.go:200-202 | the packets that end a call are those booked as terminators, and those right after frame 2, which are booked as repeats |
| TrackerRuns.StartIsUniqueIffInactive | internal/dmr/call_tracker.go:132 | a start that files a call keeps uniqueness if and only if no call was active for the packet |
| TrackerRuns.UniqueIffNoDuplicates | internal/dmr/call_tracker.go:132-150 | every state of a run has at most one active call per stream, source, destination, slot and call type if and only if no start on it filed a call while one was active |
| TrackerRuns.RunsAreUnique | internal/dmr/packet_handler.go:194-205 | so with guarded starts every run has at most one |
| TrackerRuns.UnguardedStartsDuplicate | internal/dmr/packet_handler.go:228-232 | after one start, a second one that does not ask leaves two active calls, whatever its row and time |
| SavedCalls.SavedRow | internal/dmr/call_tracker.go:250-456 | end to end: in every run, a call that is started, hears what got through of the header, superframes and terminator of a call, and leaves its flight, is saved with the numbers of packets sent and dropped, each plus the error of the call, and their quotient |
| SavedCalls.LosslessCallIsSaved | internal/dmr/call_tracker.go:250-456 | when all packets get through it is saved with 6k + 2 packets, no loss counted and none stored |
| SavedCalls.CallRuns | internal/dmr/packet_handler.go:192-205 | any packets with one stream, source, destination, slot and call type make such a run |
| SavedCalls.PacketIsHeard | internal/dmr/call_tracker.go:399-408 | a tracked packet with an active call is heard, with its frame type and number, by a call that it matches |
| SavedCalls.TerminatorEndsCalls | internal/dmr/packet_handler.go:200-202 | a packet of frame type 2 and number 2 leaves no call that it matches, when none is young, and any other leaves all calls in flight |
| SavedCalls.TrackedByBytes | internal/dmr/packet_handler.go:156-193 | by the bytes received, the packets that are tracked are voice to any destination but 0 and 4000 |
| SavedCalls.FramesAreVoice | internal/dmr/packet_handler.go:156-348 | every packet of a call is tracked and routed as voice, and only the last one ends it |
| CallFeed.PublishCall | internal/dmr/call_tracker.go:229-247 | the caller is published to once per repeater owned, every other owner once if one of their repeaters wants the packet and not at all otherwise |
| Links.WantRX | internal/models/repeater.go:420-444 | a repeater wants what is for itself on the slot it came in, and its links on their slot, dynamic before static, slot two before one |
| Links.InStaticTalkgroups | internal/models/repeater.go:446-462 | the loop finds a talkgroup if and only if it is in the list |
| Links.WantsIsUnique | internal/models/repeater.go:420-444 | the links leave one answer only |
| Links.OnlyOnSlotOne | internal/models/repeater.go:429-441 | a talkgroup linked on slot one alone is wanted on slot one |
| Links.OnlyOnSlotTwo | internal/models/repeater.go:425-438 | and one linked on slot two alone on slot two |
| Links.OnBothSlots | internal/models/repeater.go:424-441 | one linked on both is wanted on slot one exactly when slot one has it as a dynamic link and slot two has not |
| Links.OwnAndForeign | internal/models/repeater.go:420-444 | what is for the repeater itself keeps its slot, and what is neither for it nor linked is not wanted |
| LiveRegistry.SubscriptionRegistry.CancelSubscription | internal/models/repeater.go:62-95 | a key still linked stays, any other loses its entry in both maps and its function is called; it panics exactly on a key without a mutex |
| LiveRegistry.SubscriptionRegistry.CancelAllSubscriptions | internal/models/repeater.go:97-108 | in any order, exactly the keys not linked are cancelled |
| LiveRegistry.SubscriptionRegistry.ListenForCallsOn | internal/models/repeater.go:110-127 | a new key gets a subscriber, an old one keeps its own; it panics exactly when the repeater has no maps |
| LiveRegistry.SubscriptionRegistry.ListenForCalls | internal/models/repeater.go:129-233 | the maps are created if needed and every wanted key is listened on in order |
| LiveRegistry.SubscriptionRegistry.CleanUp | internal/models/repeater.go:306-321 | a cancelled subscriber takes its key out of both maps, whoever holds it |
| LiveRegistry.SubscriptionRegistry.Reconcile | internal/http/api/controllers/v1/repeaters/repeaters.go:160-162 | cancelling all and listening leaves exactly the repeater's own number and its links |
| Subscriptions.ListenedKeys | internal/models/repeater.go:160-232 | listening adds exactly the wanted keys and keeps every old cancel function |
| Subscriptions.ReconciledKeys | internal/models/repeater.go:97-233 | from any registry the keys become the own number and the links, surviving links keep their cancel function, and other repeaters are not touched |
| Subscriptions.ReconciledTwice | internal/models/repeater.go:97-233 | doing it twice changes no key and no link's cancel function |
| Subscriptions.ReconciliationLosesOwnNumber | internal/models/repeater.go:257-267 | the cleanup of the old subscriber of the own number, after reconciling, removes the new one's entry |
| Linking.KeysStep | internal/models/repeater.go:62-127 | an operation adds to the registry exactly the keys its goroutine listens on, and removes a key only by a cleanup or when no slot and no static list holds it any more |
| Linking.NewLinksAreWanted | internal/http/api/controllers/v1/repeaters/repeaters.go:113-150 | of new talkgroups, those given for one slot alone are wanted on that slot, and those not given are not wanted |
| LinkRuns.KeysFollow | internal/models/repeater.go:62-233 | in every run, from any point of it, a key is registered if and only if it was listened on and not taken since, or was there and has not been taken |
| LinkRuns.KeysFollowHistory | internal/models/repeater.go:62-233 | in every run a key is registered if and only if some goroutine has listened on it and nothing has taken it since |
| LinkRuns.LinksAreKeptTrackOf | internal/http/api/controllers/v1/repeaters/repeaters.go:325-357 | in every run each link of a stored repeater is registered, awaited by a goroutine, or lost to a late cleanup |
| LinkRuns.MissingExactly | internal/http/api/controllers/v1/repeaters/repeaters.go:325-357 | and it is not registered if and only if it is lost or awaited for the first time |
| LinkRuns.UnlinkPanicsExactly | internal/http/api/controllers/v1/repeaters/repeaters.go:406-486 | in every run unlinking panics if and only if the talkgroup exists, is linked in that way, and is lost or awaited for the first time |
| LinkRuns.DropPanicsExactly | internal/dmr/packet_handler.go:258-284 | the same for a call to 4000 |
| LinkRuns.GoroutinePanicsExactly | internal/models/repeater.go:110-122 | in every run a goroutine that listens on one key panics if and only if none has listened for all of its repeater before |
| LinkRuns.LateCleanupPanics | internal/models/repeater.go:310-320 | linked, unlinked and linked again, with the first subscriber's cleanup last, a talkgroup is linked but unlinking it panics, though nothing is awaited |
| LinkRuns.UnlinkTooEarlyPanics | internal/http/api/controllers/v1/repeaters/repeaters.go:357 | right after a link, before its goroutine has listened, unlinking panics |
| LinkRuns.DropTooEarlyPanics | internal/dmr/packet_handler.go:67-75 | right after a switch, before its goroutine has listened, a call to 4000 panics |
| LinkRuns.RunsKeepLinksRegistered | main.go:261-265 | in every run with prompt cleanups, a repeater whose goroutines have had their turn has all its links registered, and taking one away does not panic |
| Subscribers.SubscribersWantTheirPackets | internal/models/repeater.go:335-353 | in every run, late cleanups included, each subscriber's snapshot wants every packet of its talkgroup, so it never unsubscribes itself |
| Subscribers.CleanupHarmsExactly | internal/models/repeater.go:310-320 | in every run the cleanup of a cancelled subscriber changes the registry if and only if, since the cancel, its key was listened on and not taken after that |
| Subscribers.StoredExactly | internal/models/repeater.go:110-127 | in every run a live subscriber is the one stored under its repeater and key if and only if no other's cleanup has taken its entry |
| Subscribers.EndsByItsCleanup | internal/models/repeater.go:306-321 | in every run a subscriber stops running exactly by its own cleanup, once it has been cancelled, and never runs again |
| Subscribers.AtMostOneSubscriber | internal/models/repeater.go:110-127 | with prompt cleanups there is at most one live subscriber for each repeater and key |
| Subscribers.OwnNumberTwice | internal/models/repeater.go:257-267 | after the late cleanup of the own number's old subscriber, the next listening starts a second one beside the first |
| LiveLinks.Hub.SwitchDynamicTalkgroup | internal/dmr/packet_handler.go:47-82 | a group call to another known talkgroup puts it into the dynamic link of its own slot, changes nothing else that is stored, and starts a goroutine for it, even if it is registered already; the registry is not touched, so the old subscription stays |
| LiveLinks.Hub.DropDynamicTalkgroup | internal/dmr/packet_handler.go:258-284 | a call to 4000 empties its own slot's dynamic link and no other, even when it then panics, and cancels the talkgroup unless still linked |
| LiveLinks.Hub.POSTRepeaterLink | internal/http/api/controllers/v1/repeaters/repeaters.go:286-359 | a static link is added after those its slot has, a dynamic one replaces that of its slot, nothing else stored changes, and a goroutine is started for it |
| LiveLinks.Hub.POSTRepeaterUnlink | internal/http/api/controllers/v1/repeaters/repeaters.go:361-488 | a link that is not there is rejected; any other is removed from its slot and nothing else stored changes, and its key stays registered if and only if it is still linked elsewhere; a panic leaves a dynamic link stored and a static one removed |
| LiveLinks.Hub.POSTRepeaterTalkgroups | internal/http/api/controllers/v1/repeaters/repeaters.go:105-162 | each list and each dynamic link is stored on its own slot of this repeater alone, identifier zero meaning none; what is no longer linked is cancelled, and a goroutine is started to listen for all |
| LiveLinks.Hub.Listen | internal/models/repeater.go:110-233 | a goroutine that gets its turn listens for the repeater as it was when it was started, or panics if that has no maps |
| Interleavings.RunsKeepInvariant | internal/models/repeater.go:62-233 | in every interleaving the writer is alone and what it has done so far fits its place |
| Interleavings.KeysAgree | internal/models/repeater.go:58-60 | whenever the outer mutex is not held for writing, both maps have the same keys for every repeater |
| Interleavings.InnerIsNeverContended | internal/models/repeater.go:87-92 | while one goroutine writes nobody else is inside the registry or holds an inner mutex |
| Interleavings.CancellerPanics | internal/models/repeater.go:63-89 | a canceller, at its first look or with the write lock, panics if and only if its key is not in the registry |
| Interleavings.KeyIsReached | internal/models/repeater.go:110-158 | every key of every repeater comes into the registry in some interleaving |
| Interleavings.TwoCancellersPanic | internal/models/repeater.go:62-95 | from any point of any interleaving where nobody is inside, two cancellers of a key that is there can interleave so that one panics |
| Interleavings.PanicFreezesRegistry | internal/models/repeater.go:63-93 | after a panic both maps stay as they are for ever, nobody else writes, and after one with the write lock nobody else reads |
| Interleavings.EntryGoesExactly | internal/models/repeater.go:87-93 | a stored cancel function goes in one statement if and only if that is a cancel or cleanup of its key, a listener's overwriting it, or an opener's wiping the repeater's map |
| Interleavings.DisplacerLookedFirst | internal/models/repeater.go:110-122 | in every interleaving a listener or opener displaces an entry only if it was not there when it looked |
| Interleavings.ListenerOverwrites | internal/models/repeater.go:110-122 | from any quiet point where the key is absent, two listeners can interleave so that one's cancel function is overwritten |
| Interleavings.OpenerWipes | internal/models/repeater.go:134-142 | from any quiet point where the repeater has no map, two openers can interleave so that an entry made in between is wiped |
| Interleavings.AloneListens | internal/models/repeater.go:110-127 | without interruption, with others waiting outside, the statements of listening do what the sequential registry says |
| Interleavings.AloneCancels | internal/models/repeater.go:62-95 | the same for cancelling |
| Interleavings.AloneCleansUp | internal/models/repeater.go:310-321 | the same for the cleanup |
| Logins.HistoriesAreFaithful | internal/dmr/packet_handler.go:389-653 | in every history a repeater with a live record is connected if and only if its latest login was known, answered from its address with the hash of that login's salt and the stored password, then configured from the same address, and the server was not stopped since |
| Logins.ChallengeIsMet | internal/dmr/packet_handler.go:424-499 | after any history, a challenge of four bytes left alone for less than five minutes is met by a non-empty password and the hash of just these bytes and that password, and by nothing else |
| Logins.UnknownNeverLeaves | internal/dmr/packet_handler.go:398-407 | a repeater unknown at its latest login is never challenged or connected |
| Logins.SilenceLogsOut | internal/dmr/repeater_redis.go:50-58 | after five minutes in which nothing prolongs its record, whatever it or others send, a repeater has no record |
| Logins.SilenceIsExact | internal/dmr/repeater_redis.go:25-58 | after an event that prolongs it, a record that is not deleted is found if and only if the silence is shorter than five minutes |
| Expiry.ReadsFollowWrites | internal/dmr/repeater_redis.go:60-73 | after any accesses a record is found if and only if it was stored, not deleted since and never left unwritten for five minutes; it is what was stored with the connection it was last changed to |
| LiveLogins.RepeaterStore.Exists | internal/dmr/repeater_redis.go:75-77 | true exactly while a read would find the record |
| Expiry.WriteLasts | internal/dmr/repeater_redis.go:25-58 | a store, a ping or a change of connection keeps a record for five minutes if it stores it or finds it; no ping and no change brings an expired record back |
| LiveLogins.RepeaterStore.Delete | internal/dmr/repeater_redis.go:46-48 | the record is gone, the others are not touched, and the answer says whether there was one |
| LiveLogins.LoginServer.ValidRepeater | internal/dmr/packet_handler.go:25-45 | valid if and only if a live record has this address and connection |
| LiveLogins.LoginServer.HandleRPTL | internal/dmr/packet_handler.go:389-433 | a known repeater is sent the four bytes whose value is its salt, an unknown one is refused, and the record is the one of this login |
| LiveLogins.LoginServer.HandleRPTK | internal/dmr/packet_handler.go:434-499 | accepted if and only if challenged, from the same address, with a password and the hash of the four bytes of the salt followed by that password |
| LiveLogins.LoginServer.HandleRPTC | internal/dmr/packet_handler.go:516-674 | accepted if and only if the configuration is acceptable and was waited for from this address |
| LiveLogins.LoginServer.HandleRPTPING | internal/dmr/packet_handler.go:676-706 | answered if and only if connected from this address and still known; a connected record is refreshed |
| LiveLogins.ChallengeBytes | internal/dmr/packet_handler.go:424-431 | the zero-padded minimal bytes are the four bytes of the salt |
| LiveLogins.PaddedIsFixed | internal/dmr/packet_handler.go:424-484 | for every 32-bit salt the bytes sent are the bytes hashed |
| Relay.RouteOf | internal/dmr/packet_handler.go:128-353 | a bad length, a sender not logged in and one not in the database are dropped, in this order; any other packet is routed by its bytes as RoutesOfBytes says |
| Relay.RoutesOfBytes | internal/dmr/packet_handler.go:156-348 | frames of type 0 and 1, and of type 2 with number 1 or 2, are voice; to 9990 and 4000 they stay on the server, otherwise they go to the talkgroup or private destination of bytes 8 to 10, by bit 0x40; nothing else is routed |
| Relay.RelayTalkgroup | internal/models/repeater.go:322-353 | the source repeater gets nothing; any other that wants the packet gets the received bytes with its own number and the slot of its link |
| Relay.RelayPrivate | internal/models/repeater.go:269-280 | a private relay changes bytes 11 to 14 only |
| Relay.SendNoAddr | internal/dmr/server.go:110-133 | every queued message of 53 to 55 bytes goes unchanged to the address of the repeater it names, if that one is online |
| Relay.RelayedWire | internal/models/repeater.go:339-341 | encoding the packet with another repeater and slot changes just those bytes |
| Relay.RelayedIsDelivered | internal/dmr/server.go:118-128 | a relayed message reaches its repeater's address, and equals the bytes received but for bytes 11 to 14 and the slot bit |
| Delivery.Broadcast | internal/models/repeater.go:322-353 | the subscribers of a talkgroup, in their order, queue what each of them relays |
| Delivery.CallIsDelivered | internal/models/repeater.go:322-353 | end to end a group call comes to an online repeater other than the source once for each of its subscribers, on the slot that subscriber's snapshot asks for |
| Delivery.CallComesOnce | internal/dmr/packet_handler.go:286-299 | in every run with prompt cleanups a group call comes to a repeater exactly once if the talkgroup is registered for it, it is online and not the source, and not at all otherwise |
| Delivery.StaleSlot | internal/models/repeater.go:110-116 | a talkgroup moved from slot one to slot two by a second link and an unlink is still relayed on slot one |
| PrivateRouting.RoutePrivate | internal/dmr/packet_handler.go:317-348 | a user's call goes to exactly the online ones among the repeaters owned and the last call's, each once; a six-digit destination to that repeater |
| PrivateRouting.NineDigitsAreUnreachable | internal/dmr/packet_handler.go:318 | no decoded destination is above 99999999 |
| Parrots.Parrot.StartStream | internal/dmr/parrot.go:29-36 | a stream is started once and keeps its first repeater |
| Parrots.Parrot.RecordPacket | internal/dmr/parrot.go:39-61 | if the stream is started, the packet goes to the end of its list with source and destination exchanged, as a private call for the repeater that started the stream, on the same slot |
| Parrots.StartedIffNotStopped | internal/dmr/parrot.go:29-66 | after any operations a stream is started if and only if one of its starts has had no stop since, and it goes back to the repeater of the earliest such start |
| Parrots.StopFreezesList | internal/dmr/parrot.go:39-66 | after a stop the stream's list stays as it is until it is read or the stream is started again: what is recorded on it is lost |
| Parrots.Parrot.GetStream | internal/dmr/parrot_redis.go:62-92 | the list is read in order and emptied |
| Parrots.Parrot.HandleVoice | internal/dmr/packet_handler.go:208-219 | voice to the parrot is recorded, and a terminator plays the stream back |
| Parrots.StreamsAreSeparate | internal/dmr/parrot.go:29-66 | whatever streams are interleaved, each holds exactly its own packets since its last terminator |
| Parrots.TerminatorPlaysBack | internal/dmr/packet_handler.go:208-219 | a terminator plays back its stream's packets in order, mirrored to the repeater of the first, and leaves nothing behind |
| Parrots.CallComesBack | internal/dmr/parrot_redis.go:62-92 | a whole call on one stream is played back at its terminator: all its packets in order, mirrored to the repeater of the first |
| Parrots.BytesComeBack | internal/dmr/parrot.go:39-61 | the same in bytes: for each packet of the call one of 53 bytes goes out, in order, with bytes 5 to 7 and 8 to 10 exchanged, those of the starter's repeater, the private bit set, and every other byte as it came in |
| Parrots.MirroredFits | internal/dmr/parrot.go:49-55 | a recorded packet goes out as 53 bytes that decode to it |

## Left out

- LiveTracker.CallTracker.UpdateCall: jitter, duration, BER and RSSI averages are not modelled.
- LiveTracker.CallTracker.StartCall: the copies of the database rows of both ends are not kept.
- LiveTracker.CallTracker.TrackPacket: the step is atomic; the source runs it in a goroutine without a lock.
- LiveLinks.Hub.POSTRepeaterLink: the talkgroup is taken as found; the source's query names a column `talkgroup_id` that the table does not have.
- LinkRuns.RunsKeepLinksRegistered: each operation and each goroutine is one step, as in a run without interruption (Interleavings takes them apart). A panic is an answer, and a run may go on after it; in the server it ends the process or, in a web handler, leaves the mutex locked (PanicFreezesRegistry). Deleting repeaters and talkgroups is not an operation.
- Delivery.CallComesOnce: the subscribers get a message at one moment, and a cancelled one that has not noticed may get it too (CallIsDelivered counts whoever gets it). A talkgroup with the number of the repeater itself is not followed.
- Interleavings.RunsKeepInvariant: cancelling all is any number of single cancels, and listening for calls any number of single listens; taking and releasing an inner mutex under the outer read lock is one step with the read between.
- Interleavings.PanicFreezesRegistry: a panic stops its own goroutine, as under the recovery of the web framework (internal/http/server.go:47); in other goroutines it ends the server.
- LiveLogins.LoginServer.HandleRPTC: the checks of the fields of a configuration are one bit, and the fields are not stored.
- Logins.HistoriesAreFaithful: each packet is handled at one instant, so no record expires inside a handler; `Stop` disconnects any set of repeaters; the address is the IP without the port, as the source compares it.
- Parrots.Parrot.HandleVoice: streams do not expire, the reading goroutine runs at once, and the pacing of playback and the MessagePack form of stored packets are not modelled.
- Relay.RelayTalkgroup: repeater numbers are below 2^32, as the registration patterns of six, seven and nine digits imply.
- RPTCL, RPTO and DMRA packets, and the scan that lists repeaters.
- Redis, gorm, UDP, MessagePack, tracing and logging; the web interface, users, talkgroups and their databases.
