# Darmie, verified

Darmie is a chat server whose Go hub keeps track of who is in which room and relays WebRTC
signalling, and whose browsers keep a replica of the member list, negotiate peer connections,
exchange files directly and replay a bounded chat history. This project models that behaviour
in Dafny and proves what it is meant to guarantee, over every run of each model.

Verify everything with `dafny verify dfyconfig.toml`.

## The models

**Room presence, handler by handler** (`Presence`, `PresenceHub`, `Notices`, `PresenceSystem`,
`SignalOrigin`, `StrayedSignal`, `App`).
`Presence` says what each hub handler does to connections, registry, rooms and send queues, and
what each app.js handler does to the member list. `PresenceHub` has the hub in its own form: the
classes `Client`, `LiveRoom`, `Registry` and `Hub`, with maps updated in place and loops over
snapshots. Every method is proved to take the hub's abstract state exactly where the function in
`Presence` takes it, and `App` does the same for app.js. `Notices` says of each hub handler, apart
from how it is computed, who is told what, in which order, and what is left in rooms and registry.
`PresenceSystem` puts hub, sockets and browsers together as a step system (connect, log in, join,
leave, relay, close, write, read, leave by click, log out, lose the socket, ...) and proves one
invariant of all its steps, from which the main results follow:

- folding a member's unread messages into its browser's list gives exactly the room's other
  members, once each, although `user_joined` and `user_left` handlers ignore the room id;
- every relayed signal that did not itself go astray (below) comes from a listed user when the
  browser takes it off its queue;
- every signal that is read was sent by a page of its sender, with that kind and to that user (`SignalOrigin`);
- room maps, room sets and registry agree, and no connection is in two rooms.

The steps assume what the hub's design assumes: a connection logs in as one user only, a closed
connection routes no further frame, and when a connection handles a request or its own close, no
other connection of the same user is still in a room. The last follows if the close of an evicted
connection finishes before its successor's next request or close; it is needed because
`Registry.Leave` and the ghost scan go by user, not by connection. Should a reconnected page close
before its evicted predecessor does, its ghost scan takes the predecessor's entry out of the room and
leaves the predecessor's own room set as it was, so that agreement fails; nothing is claimed of such
runs. `PresenceSystem.LeaveAgreesExactly`, `JoinAgreesExactly` and `CloseAgreesExactly` give the exact
conditions. Usernames travel with ids and are not modelled, Go's map order is an arbitrary order, and
a send queue holds 256 messages, after which the connection counts as overflowed.

**The same registry, section by section** (`LockSections`, `SectionDebts`). Each critical section is
one step, any number of connections interleave, of one user or of several, and each has a reader
routing frames and a closer cleaning up. Capacity, unique names, conservation of membership, one
initiator per pair, exactly when a disconnect leaves a ghost behind, and that no frame or clean-up
ends before it has done what it began.

**Blocking** (`Deadlock`). The hub's handlers and clean-ups as sequences of lock operations of any
length, on any number of goroutines, under Go's read-write locks (a waiting writer keeps out new
readers) and `sync.Once`. While anything is unfinished, something can go on, and no connection is
cleaned up twice.

**Perfect negotiation** (`Negotiation`, `IceBuffer`, `WebRTC`). Two endpoints and two FIFO relays, with
the start and the finish of `onnegotiationneeded` as separate steps, implicit rollback, and ignored
offers. The signalling states are those of section 3.2 of RFC 8829, rollback is section 5.7 of
RFC 8829, and the pattern is section 10.7 of W3C WebRTC 1.0. `IceBuffer` splits every handler of
candidates at its awaits. `WebRTC` has the peer manager as classes whose handlers, each run to
completion, are proved to follow `Negotiation` and to be sequences of the steps of `IceBuffer`.

**Chat history** (`History`). The messages table as a set of rows with atomic statements, any
interleaving of inserts and prunes by concurrent `SaveText` calls, failing statements and clocks
in any order; the merged read as the set of results SQL allows when timestamps tie.

**File transfer** (`FileTransfer`) and **rate limiter** (`RateLimit`): classes with the source's loops, and
the theorems about whole channels and whole timestamp sequences.

## What the proofs brought out

- *Strayed signals.* `peerClient` relays to the registered connection of the target although the room
  may still hold that user's evicted connection. The signal then reaches a page that is not in
  the room. Each such signal is noted where it lands, and every other one is from a listed user.
  `PresenceSystem.StraysExactly` says exactly when, and `StrayedSignal.SignalMayStray` is a run in which it happens.
- *Ghosts.* A frame still being routed while its connection closes may insert the user after the
  ghost scan has passed the room. The user then stays listed until a later connection of theirs
  leaves that room or closes, since both go by user; one who does not come back stays for good.
  `LockSections.GhostCleanup` and `LockSections.GhostsExactly` say when, and `LockSections.LeakHappens` is
  such a run.
- *Files.* "File sent" is announced once for every fully sent file except an empty one, for which it is
  never announced (`FileTransfer.AnnouncedOnce`).
- *History.* Pruning is invisible for limits up to the cap. For any limit, a read of a table that lost
  rows answers as the unpruned log exactly if table and files still hold as many items as the limit
  that are no older than the newest lost row (`History.InvisibleExactly`); in a room without files no
  limit beyond the cap passes right after a prune that removed anything (`History.LimitBeyondCapShows`).
- *Rate limit.* Ten per second is really up to 10·k + 9 messages in k seconds, since a window may end
  with nine and each later one begin with ten; no interval holds more, and every length has attempts
  that reach the bound (`RateLimit.AtMost`, `RateLimit.MostReached`).
- *Offers from unlisted users.* In a room, an offer leaves an orphan peer connection exactly if
  its sender is not in the member list (`App.App.OnOffer`), which is why the second presence
  result matters.
- webrtc.js describes its pattern as section 4.3 of RFC 8829; perfect negotiation is described in W3C WebRTC 1.0.

## Model

| member | source | states |
|---|---|---|
| PresenceSystem.StepOk | internal/transport/ws/hub.go:73-143 | Every step of hub, sockets and browsers keeps the invariant: the three views agree, the registry names live connections, and every replica is in step with its room once it has read its queue. |
| PresenceSystem.RunOk | internal/transport/ws/hub.go:60-143 | The invariant holds in every state of every run from an empty hub. |
| PresenceSystem.ReplicaRefinesRoom | static/js/app.js:104-139 | For a member that lost no message, has no leave of that room in flight and whose page still has its socket, folding its unread messages into its list gives the room's other members, exactly and without duplicates. |
| PresenceSystem.SignalsComeFromListedPeers | static/js/app.js:161-163 | A browser showing a room that takes a relayed signal off its queue lists the sender, unless that very signal was relayed astray or a message to the browser was lost. |
| PresenceSystem.StraysAreRelayed | internal/transport/ws/handlers_signal.go:9-80 | A message counts as strayed only if it is a signal that some earlier relay sent to a connection sharing no room with the sender. |
| SignalOrigin.SignalsReadWereSent | internal/transport/ws/handlers_signal.go:9-52 | Every signal a page reads was sent earlier, with that kind, by a page of the user it names, to the user logged in on the reading connection, and was routed while that was the user's registered connection. |
| SignalOrigin.SignalsWereAsked | internal/transport/ws/handlers_signal.go:9-52 | In every run each unread signal, by its place in the receiver's stream of messages, comes from the routing of a request with that kind and sender. |
| Notices.SignalTells | internal/transport/ws/handlers_signal.go:9-80 | A relayed signal reaches the registered connection of its target alone, exactly if the target is another registered user whom a room of the sender lists. |
| Notices.LeaveTells | internal/transport/ws/handlers_room.go:76-112 | A member that leaves: exactly that user is taken out of exactly that room; those who stay get the departure, then the leaver the confirmation, then all other users the room list, and nobody anything else. Nothing happens for an unknown room or a non-member. |
| Notices.RefusedTells | internal/transport/ws/handlers_room.go:34-74 | A join of an unknown or full room leaves the old rooms, announcing each departure to those who stay, and then tells the caller alone of the failure. |
| Notices.JoinTells | internal/transport/ws/handlers_room.go:34-74 | Any other join leaves the old rooms in the same way, enters exactly the caller, and tells in this order the caller who is there, those of the newcomer, and all other users the room list. |
| Notices.CloseTells | internal/transport/ws/hub.go:126-143 | A close announces the departures to those who stay in each room, then sends all other users the room list, and marks the connection closed. |
| Notices.ClosedIsNowhere | internal/transport/ws/hub.go:126-138 | After a close no room lists the user, through whatever connection, and everyone else is listed as before. |
| Notices.GoneRooms | internal/transport/ws/hub.go:126-138 | A close unregisters the user exactly if the connection is the registered one. |
| Notices.CreateTells | internal/transport/ws/handlers_room.go:15-32 | A creation adds an empty room and tells the creator and then all other users, exactly if the trimmed name has 1 to 50 characters, no room has it up to case and the cap is not reached; otherwise the caller alone is told of the failure. |
| Notices.LoginTells | internal/transport/ws/handlers_auth.go:65-79 | A login binds the user, takes over the registration, marks the displaced connection, and is confirmed to the caller alone. |
| PresenceSystem.ThreeWayAgreement | internal/transport/ws/registry.go:59-66 | A room maps u to c exactly if c belongs to u and holds the room; then c is open, in that room alone, and registered or evicted. |
| PresenceSystem.StraysExactly | internal/transport/ws/handlers_signal.go:63-80 | A relay strays exactly if the room's entry for the target is not the registered connection; that entry has been evicted. |
| PresenceSystem.RelayVisible | internal/transport/ws/handlers_signal.go:9-52 | A relay that does not stray is, once read, a signal from a listed user. |
| PresenceSystem.LeaveShape | internal/transport/ws/handlers_room.go:102-112 | Leaving removes exactly the pair of connection and room from both views and notifies exactly the members that stay. |
| PresenceSystem.EnterShape | internal/transport/ws/handlers_room.go:41-70 | Joining adds exactly that pair to both views, sends the joiner the snapshot, and notifies exactly the members already present. |
| PresenceSystem.LeaveAgreesExactly | internal/transport/ws/registry.go:192-207 | Leaving, which goes by user, keeps the views in agreement exactly if the entry it deletes is the leaver's own connection. |
| PresenceSystem.JoinAgreesExactly | internal/transport/ws/registry.go:174-187 | Joining keeps them in agreement exactly if the room has no entry for the joiner's user yet. |
| PresenceSystem.CloseAgreesExactly | internal/transport/ws/hub.go:126-138 | Closing, with its ghost scan by user, keeps them in agreement exactly if no room maps the user to another connection. |
| PresenceSystem.JoinedInStep | static/js/app.js:125-130 | A `user_joined` naming any room at all keeps a replica in step with its room, once that room has gained the user. |
| PresenceSystem.FoldForgets | static/js/app.js:290-294 | Emptying the list by the leave button changes what the unread messages lead to at most by the room shown, until a reset among them. |
| PresenceSystem.NoGhosts | internal/transport/ws/hub.go:134-138 | Handler by handler, once a connection has left the rooms it knows, no room maps its user. |
| PresenceSystem.RejectOk | internal/transport/ws/handlers_auth.go:24-35 | A failed login, which logs the page out, keeps the invariant: such a connection is in no room. |
| StrayedSignal.SignalMayStray | internal/transport/ws/handlers_signal.go:63-80 | A run from an empty hub in which a page loses its socket, logs in on a new one and, having lost no message there and showing its room, is sent a strayed signal from a user it does not list. |
| PresenceSystem.LeaveEachOk | internal/transport/ws/handlers_room.go:94-98 | Leaving rooms one after another takes exactly those rooms out of the connection's set and keeps the invariant. |
| Presence.Without | static/js/app.js:135-136 | Filtering a user out of the list leaves exactly the other users in it, and no new duplicates. |
| Presence.WithoutAppend | static/js/app.js:135-136 | The filter works user by user, so every other user stays as often as before and in the same order. |
| PresenceHub.Client.Push | internal/transport/ws/client.go:155-161 | A push appends to a queue of fewer than 256 messages, and otherwise only marks the connection for closing. |
| PresenceHub.LiveRoom.Snapshot | internal/transport/ws/registry.go:37-45 | A snapshot lists every member's connection once. |
| PresenceHub.Registry.AddClient | internal/transport/ws/registry.go:80-89 | Registers the connection and returns the one it displaces, if another. |
| PresenceHub.Registry.RemoveClient | internal/transport/ws/registry.go:92-98 | Unregisters only the live connection of the user. |
| PresenceHub.Registry.AuthedClientsExcept | internal/transport/ws/registry.go:151-161 | Lists every registered connection but that of one user. |
| PresenceHub.Registry.Join | internal/transport/ws/registry.go:166-188 | Refuses exactly unknown and full rooms, saying which, and then leaves everything alone; otherwise adds to both views and returns who was there before. |
| PresenceHub.Registry.Leave | internal/transport/ws/registry.go:192-207 | Removes by user from the room and by room from the connection, exactly if the user was a member, and returns who remains. |
| PresenceHub.Registry.RoomsOf | internal/transport/ws/registry.go:210-221 | Lists the connection's rooms that the registry holds, once each. |
| PresenceHub.Registry.GhostRooms | internal/transport/ws/registry.go:226-238 | Lists every room mapping the connection's user, whatever the connection's own set says. |
| PresenceHub.Registry.CreateRoom | internal/transport/ws/registry.go:109-127 | Creates exactly if the trimmed name has 1 to 50 characters, the cap is not reached and no room has that name up to case; the room's name is the given one without white space at either end. |
| PresenceHub.Hub.DoLeaveRoom | internal/transport/ws/handlers_room.go:102-112 | The objects end as `Presence.LeaveRoom` says; true exactly if the user was a member. |
| PresenceHub.Hub.LeaveAllRooms | internal/transport/ws/handlers_room.go:94-98 | Leaves each room of the connection once. |
| PresenceHub.Hub.HandleJoinRoom | internal/transport/ws/handlers_room.go:34-74 | The objects end as `Presence.HandleJoin` says: old rooms left, then refused with an error, or entered with the joiner's snapshot, the members' notices and the room list sent. |
| PresenceHub.Hub.HandleLeaveRoom | internal/transport/ws/handlers_room.go:76-91 | The objects end as `Presence.HandleLeave` says; nothing happens for an unknown room or a non-member. |
| PresenceHub.Hub.PeerClient | internal/transport/ws/handlers_signal.go:63-80 | Returns the target's registered connection exactly if the target is another user listed by a room of the sender that the registry holds. |
| PresenceHub.Hub.HandleRelay | internal/transport/ws/handlers_signal.go:9-52 | If the target is another user with a registered connection and some room of the sender lists them, the signal, of the kind requested and under the sender's name, is put at the end of the queue of that connection, and nothing else changes; otherwise nothing changes at all. |
| PresenceHub.Hub.Accept | internal/transport/ws/hub.go:60-69 | A new socket is a connection nobody is logged in on. |
| PresenceHub.Hub.Login | internal/transport/ws/handlers_auth.go:65-79 | Binds the session, swaps the registered connection, marks the displaced one for closing and confirms, whoever was logged in on the connection; a first login, or one as the same user, keeps every map naming connections of the right users. |
| PresenceHub.Hub.Close | internal/transport/ws/hub.go:126-143 | The objects end as `Presence.Disconnect` says: unregistered, rooms left, ghosts left, the others told. |
| PresenceHub.Hub.HandleCreateRoom | internal/transport/ws/handlers_room.go:15-32 | The objects end as `Presence.HandleCreate` says: an error to the caller, or an empty room and the refreshed list to everyone else. |
| PresenceHub.Hub.PushRoomList | internal/transport/ws/handlers_room.go:116-122 | Pushes the room list to exactly the registered connections of other users. |
| App.App.OnMessage | static/js/app.js:81-139 | Each message of the protocol changes room shown, member list and peer connections as its handler does; a failed login empties the replica and closes every connection; peer connections still lead only to listed members. |
| App.App.OnUserLeft | static/js/app.js:135-139 | The filter loop removes the user and nothing else, and its peer connection with it. |
| App.App.OnOffer | static/js/app.js:161 | An offer leaves an orphan peer connection exactly if a room is shown that does not list its sender. |
| App.App.ClickLeave | static/js/app.js:290-294 | The leave button names the room shown and empties the replica at once; outside a room it does nothing. |
| LockSections.SectionOk | internal/transport/ws/hub.go:126-138 | Every critical section of the only connection of a user keeps that connection's accounts and cleanup promises. |
| LockSections.RunOk | internal/transport/ws/registry.go:109-238 | The invariant of the registry holds after any interleaving of critical sections of any connections, several of one user included. |
| LockSections.CapacityAndNames | internal/transport/ws/registry.go:109-188 | In every interleaving, with any number of connections for each user, the room cap and each room's cap hold, names have 1 to 50 characters, and any two of them differ in length or in some character after case folding. |
| LockSections.SetsAgree | internal/transport/ws/registry.go:166-207 | For a user with one connection, between frames and until it closes, the connection's own set is exactly the rooms listing the user, one at most. |
| LockSections.Conservation | internal/transport/ws/registry.go:166-207 | For a user with one connection, successful joins minus removals is 1 for a member and 0 otherwise, so racing leaves and cleanups announce each departure once. |
| LockSections.OneInitiator | internal/transport/ws/registry.go:174-187 | Of two current members, however often and through whichever connections they joined, the earlier stay is in the later one's join snapshot and not conversely, so exactly one is told to initiate. |
| LockSections.GhostCleanup | internal/transport/ws/registry.go:223-238 | Whatever connections and users do meanwhile, a user still listed in a room that the ghost scan of one of their connections is past was inserted there afterwards: an insertion before the scan's visit is undone. |
| LockSections.GhostsExactly | internal/transport/ws/hub.go:126-138 | After the finished disconnect of a user's only connection, a room lists the user exactly if an insertion came when the ghost scan was past that room. |
| LockSections.LeakHappens | internal/transport/ws/hub.go:134-138 | A run in which a user stays listed after its disconnect has finished. |
| SectionDebts.SectionEffect | internal/transport/ws/registry.go:166-207 | A removing section takes exactly the acting user out of exactly its room, an insertion enters exactly that user in exactly the room joined, and every other section leaves all rooms as they are. |
| SectionDebts.WhatIsBegunIsDone | internal/transport/ws/hub.go:126-138 | In every interleaving a leave leaves its room, a join leaves every room held and then enters or is refused, a sweep visits every room held, a scan every room there is, and every ghost found is removed, before the connection is past it. |
| SectionDebts.CreateEffect | internal/transport/ws/registry.go:109-127 | A creation adds exactly one empty room under the trimmed name, exactly if name and caps allow it. |
| Deadlock.OpsOk | internal/transport/ws/registry.go:138-161 | Any sequence of the hub's critical sections and room sweeps takes locks in the order once, registry, room, connection, and releases all it took. |
| Deadlock.HandlersOk | internal/transport/ws/handlers_room.go:11-122 | No handler, for any loop lengths and branches, takes the Once of a connection as a lock; only close does. |
| Deadlock.Progress | internal/transport/ws/client.go:84-89 | In any state whose goroutines keep the lock order, if one is unfinished then some goroutine can go on. |
| Deadlock.DeadlockFree | internal/transport/ws/registry.go:80-238 | In every reachable state with an unfinished goroutine, a step other than starting new work is enabled. |
| Deadlock.PushesHoldNoLock | internal/transport/ws/handlers_auth.go:71-73 | In every reachable state a goroutine that pushes or starts a close holds no lock but the Once of a clean-up it is running. |
| Deadlock.CleanupRunsOnce | internal/transport/ws/client.go:83-89 | However many pumps and pushes close a connection, its cleanup begins at most once. |
| Deadlock.ClosingInPlaceDeadlocks | internal/transport/ws/client.go:155-161 | If a push to a full buffer called close itself, a run of a frame and two cleanups would end with both cleanups waiting for each other and nothing able to go on: why `trySend` closes in a fresh goroutine. |
| Negotiation.StepOk | static/js/webrtc.js:128-167 | Every local change, offer and delivery keeps the joint invariant of both endpoints and both relays. |
| Negotiation.OnOfferMeans | static/js/webrtc.js:128-149 | An offer is ignored exactly if it collides at the impolite end, which it then leaves as it is; any other offer is answered and leaves the end stable with nothing of its own outstanding. |
| Negotiation.NoStuckGlare | static/js/webrtc.js:128-167 | With both relays empty and no offer being made, both endpoints are stable and hold the same completed exchange. |
| Negotiation.AnswersMatch | static/js/webrtc.js:151-160 | Every answer in flight answers its receiver's outstanding offer, and at most three and two signals are in flight. |
| Negotiation.StepWorks | static/js/webrtc.js:373-386 | Every step decreases a measure of changes to come, changes unsettled and signalling in hand. |
| Negotiation.RunsAreShort | static/js/webrtc.js:373-386 | A run has at most 26 steps for each local change, and 12 more. |
| Negotiation.RunsEndDone | static/js/webrtc.js:128-167 | A run can go no further exactly if all changes are spent, both ends are stable with the same exchange, and every change was carried by an offer the other end answered. |
| IceBuffer.CandidatesConserved | static/js/webrtc.js:169-182 | Every candidate received is in exactly one of buffer, active flush and connection, and none is handed over before a remote description exists. |
| IceBuffer.BufferedKeepOrder | static/js/webrtc.js:416-424 | What was handed over merges a prefix of the early candidates with all the late ones, each in arrival order. |
| IceBuffer.ReceivedAreKept | static/js/webrtc.js:169-182 | The candidates of a run are those received before the remote description followed by those after it. |
| IceBuffer.HandlersAreSteps | static/js/webrtc.js:128-182 | A whole handler amounts to a sequence of the steps split at awaits. |
| IceBuffer.NothingStaysBuffered | static/js/webrtc.js:169-182 | After any handlers, without a remote description all candidates are buffered in the order they came; with one, all were handed over, the early ones in order and the late ones in order. |
| WebRTC.ExactlyOnePolite | static/js/webrtc.js:132 | Of two users exactly one is polite towards the other. |
| WebRTC.LessMeans | static/js/webrtc.js:132 | The comparison of ids is the lexicographic one: a proper prefix, or smaller at the first difference. |
| WebRTC.Peer.BeginOffering | static/js/webrtc.js:373-376 | The negotiation handler up to its await goes where `Negotiation.BeginOffer` says. |
| WebRTC.Peer.FinishOffering | static/js/webrtc.js:377-386 | From its await on it goes where `Negotiation.FinishOffer` says, sending the offer. |
| WebRTC.WebRTCManager.AddLocalTrack | static/js/webrtc.js:188-199 | A new local track is one more change to negotiate with every peer, present or to come, and nothing else. |
| WebRTC.WebRTCManager.InitiatePeer | static/js/webrtc.js:82-88 | Opens a connection with the local tracks and the control channel to negotiate, unless there is one already. |
| WebRTC.WebRTCManager.ClosePeer | static/js/webrtc.js:90-97 | Forgets the peer with its buffer; without a peer nothing happens, and a buffer stays. |
| WebRTC.WebRTCManager.CloseAll | static/js/webrtc.js:99-107 | Closes every peer and drops the local tracks; buffers of users without a peer survive. |
| WebRTC.WebRTCManager.FlushPending | static/js/webrtc.js:416-424 | Hands over everything buffered, oldest first, and nothing of other users. |
| WebRTC.WebRTCManager.HandleOffer | static/js/webrtc.js:128-149 | Ends and answers as `Negotiation.OnOffer` says; an ignored offer touches neither candidates nor the remote description, an accepted one sets it and flushes all candidates, as the steps of `IceBuffer` do; other users are left alone. |
| WebRTC.WebRTCManager.HandleAnswer | static/js/webrtc.js:151-167 | An answer to an outstanding offer makes the peer stable with a remote description, settles what the offer carried, and hands over all that was buffered, as the steps of `IceBuffer` do; any other answer changes nothing. |
| WebRTC.WebRTCManager.HandleICECandidate | static/js/webrtc.js:169-182 | Buffers until there is a peer with a remote description, and hands over after; a step of `IceBuffer` that keeps the remote description and other users as they are. |
| History.RetentionHolds | internal/adapter/sqlite/message.go:17-38 | Whatever calls interleave, fail or carry old timestamps, the table holds the newest rows ever inserted in each room up to the cap, and at most one more for each insert since the last successful prune. |
| History.PruneIsExact | internal/adapter/sqlite/message.go:28-36 | A successful prune leaves exactly the newest rows of its room up to the cap, and other rooms alone. |
| History.PruneKeepsLatest | internal/adapter/sqlite/message.go:28-36 | In every run a prune keeps as many rows as the cap, or all, and each of them has a later timestamp, or the same and a higher key, than each row not kept. |
| History.LastInsertsStay | internal/adapter/sqlite/message.go:28-36 | With a clock that never goes back, a prune that keeps a row keeps every row inserted after it. |
| History.TopSize | internal/adapter/sqlite/message.go:34-35 | The rows with fewer than n newer ones number n, or are all there are: the rows LIMIT n selects. |
| History.TopSandwich | internal/adapter/sqlite/message.go:31-36 | Any table between the top of a log and the log has the same top. |
| History.PruningInvisible | internal/adapter/sqlite/message.go:40-87 | For a limit within the cap, every result the read may give over the pruned table it may give over the full log. |
| History.PruningInvisibleInRuns | main.go:53 | The same for the table of any run, with the limit the server configures. |
| History.InvisibleExactly | internal/adapter/sqlite/message.go:40-87 | For any limit and any files, a read of a table that lost rows answers as the full log would exactly if the table and the files still hold as many items as the limit, none older than the newest lost row. |
| History.InvisibleExactlyInRuns | internal/adapter/sqlite/message.go:17-87 | The same for the table of any run, which answers as the log in any case if it lost nothing of the room. |
| History.LimitBeyondCapShows | internal/adapter/sqlite/message.go:63-65 | In a room without files, after a prune that removed anything, no read with a limit beyond the cap answers as the full log would. |
| History.PrunedIsOld | internal/adapter/sqlite/message.go:63-66 | A pruned row is no newer than anything the read chose. |
| History.MessageRepo.SaveText | internal/adapter/sqlite/message.go:17-38 | Stores the row even if the prune fails and changes nothing if the insert fails. After a prune each row kept in the room has a later timestamp, or the same and a higher key, than each row ever inserted there and not kept; a message no older than the rest is among those kept; other rooms are left alone. |
| History.MessageRepo.Load | internal/adapter/sqlite/message.go:40-87 | Each entry is a message or a file of that room, none twice, with every column that row's or file's; oldest first; what is left out of the room is no newer than any entry, and nothing is left out below the limit. |
| FileTransfer.ChunkAt | static/js/filetransfer.js:70-90 | Chunk i is the file's bytes from i times the chunk size to the next multiple or the end. |
| FileTransfer.FramesAre | static/js/filetransfer.js:62-95 | A file goes out as its metadata, with the default type if it has none, then ceil(size / 16384) chunks of its bytes in order, then the end message. |
| FileTransfer.TransferDelivers | static/js/filetransfer.js:103-130 | A transfer cut short delivers nothing, a whole one exactly its file, whatever was held before. |
| FileTransfer.RoundTrip | static/js/filetransfer.js:62-130 | Over any transfers on one channel, some cut short anywhere, the receiver delivers exactly the whole files, byte for byte and in order. |
| FileTransfer.Receiver.OnMessage | static/js/filetransfer.js:109-130 | The message handler goes where the receiver's specification says and delivers what it says. |
| FileTransfer.SendChunk | static/js/filetransfer.js:71-85 | One turn sends the chunk, except that a closed channel stops it, or a channel that closes before the send, or a buffer above 262144 bytes that stays above 65536; a chunk never fills the buffer above the former plus one chunk. |
| FileTransfer.SendFile | static/js/filetransfer.js:62-97 | Sends a prefix of the file's frames, and all ceil(size / 16384) chunks with both messages exactly if the outcome says so, as it does if the channel ends open and drained to 65536 bytes; it can get stuck only on more than 262144 bytes; bounds the buffer; reports exactly the fractions of the chunks sent. |
| FileTransfer.Chunks | static/js/filetransfer.js:70-90 | A file has ceil(size / CHUNK_SIZE) chunks. |
| FileTransfer.ReportedAt | static/js/filetransfer.js:87-89 | After chunk i the progress reported is the bytes of i + 1 chunks over the size, or 1 if those cover the file. |
| FileTransfer.ProgressIsMonotone | static/js/filetransfer.js:87-89 | Progress rises strictly from chunk to chunk and never exceeds 1. |
| FileTransfer.FullOnlyAtLastByte | static/js/filetransfer.js:87-89 | Progress is 1 exactly on the chunk covering the last byte. |
| FileTransfer.AnnouncedOnce | static/js/app.js:66-68 | "File sent" is announced once if every chunk was sent and there was one, and never otherwise. |
| RateLimit.Limiter.AllowMessage | internal/transport/ws/client.go:172-182 | A second after its window opened a message opens a new one and otherwise counts in it; it is allowed exactly if the count is at most 10. |
| RateLimit.AtMostTenPerSecondPlusTen | internal/transport/ws/client.go:172-182 | Any half-open interval, over any nondecreasing timestamps, holds at most ten accepted messages for each second begun and ten more. |
| RateLimit.AtMost | internal/transport/ws/client.go:172-182 | Of a limiter that has seen a message, or sees none in the first second of year 1, an interval of any length accepts at most ten for each second begun, or nine and ten for each second begun after its first instant, whichever is more. |
| RateLimit.MostReached | internal/transport/ws/client.go:172-182 | For every length and every later place of the interval, a new limiter accepts exactly that many of some nondecreasing attempts. |
| RateLimit.MostOfWholeSeconds | internal/transport/ws/client.go:172-182 | For k whole seconds the exact bound is 10·k + 9. |
| RateLimit.ModerateNeverRefused | internal/transport/ws/client.go:172-182 | A sender with at most ten attempts in every half-open second is never refused. |

## Left out

- PresenceSystem.SignalsComeFromListedPeers: says nothing of signals that were themselves relayed astray, because those may come from a user the browser does not list; `PresenceSystem.StraysExactly` gives the exact condition of a relay.
- PresenceSystem.ReplicaRefinesRoom: leaves out pages whose socket is closed, which read nothing more, and connections that lost a message to a full queue; the claim is about members, so a page after a failed join is not covered, since the server has left its old room without telling it.
- Notices.JoinTells: like the other lemmas of `Notices`, speaks of a connection with space in its queue; one whose queue is full is marked for closing and misses the message (`PresenceHub.Client.Push`).
- LockSections.GhostsExactly: states what remains after a late insertion instead of its absence, because the code does leave it there.
- LockSections.Conservation: covers users with one connection; when a second connection of a user joins a room that lists the user already, it takes the entry over and no departure is announced.
- Negotiation.RunsEndDone: handlers of offers and answers run to completion, because an offer that arrives while an answer is being applied counts as a collision in the code, and then may be lost.
- FileTransfer.SendFile: reads of the file do not fail, and the close 600 ms after the end is not modelled.
- History.MessageRepo.Load: a read that fails, and a negative limit, which SQL takes as none.
- In the presence step system: logging in as another user on one connection, a failed login on a connection already logged in, and an evicted connection's cleanup overlapping a request or the close of its successor.
- A failed `setLocalDescription`, a failed connection closing its peer, SDP contents, removed and replaced media tracks, RNNoise.
- What a room list, an error or a chat message says; an error or a confirmation is told apart from other messages by its kind alone.
- Video-stopped and chat messages enter the step system only as pushes that leave the member list alone.
- Fair scheduling: `Deadlock.DeadlockFree` says that some goroutine can go on, not that each one finishes.
- JSON, the WebSocket library, HTTP upload and download, disk storage, SQLite itself, password hashing and tokens: calls into code outside the repository, or parameters of the models.
- Validators, sessions, the account and file services, and the user interface.
