# Room store and signaling gateway of a two-party voice-call backend

This project models the backend of a peer-to-peer voice-call app. It covers two parts:

- `RoomsService`, an in-memory table of call rooms. Each room has an id, a creation time and a set of participant socket ids. A room holds at most two participants.
- `SignalingGateway`, the socket.io handlers. They join and leave rooms, relay WebRTC negotiation messages (offer, answer, ICE candidate) between two sockets, relay chat, and clean up when a socket disconnects.

The model covers two versions of the gateway. The newer one is the compiled JavaScript. It adds a reverse index `socketToRoom`, a chat handler and a disconnect handler. The older one is the TypeScript source, which has only join, leave and the three relays. The service appears twice in the repository, as TypeScript source and as compiled JavaScript. Both copies have the same logic, so the model has one service class. Some rows below cite the source copy and some cite the compiled copy.

Files:

- `rooms.dfy` (module `Rooms`) holds the room table, its well-formedness (`Consistent`: each room is filed under its own id and has at most `MaxParticipantsPerRoom` = 2 participants) and the transitions `Admit` (addParticipant) and `RemovedFrom` (removeParticipant). It also holds the class `RoomsService`, whose methods update the `rooms` field in place. A second field, `order`, gives the Map's insertion order, which is the order `listRooms` reports rooms in.
- `protocol.dfy` (module `Protocol`) holds the emitted events. An event is a set of recipients plus a payload, and the payload determines the event name. This module also holds the join, leave and relay behaviour that both gateway versions share.
- `signaling.dfy` (module `Signaling`) holds the newer gateway. Its state is `World` (the rooms plus `socketToRoom`), and each handler is a function from a `World` to a new `World` and a list of events. It also holds the invariant `Tracked` (each tracked socket is a participant of the room it is tracked in), the lemmas proved about the handlers, and the class `SignalingGateway`. Every method of that class is proved against the handler functions.
- `legacy_signaling.dfy` (module `LegacySignaling`) holds the older gateway class.

Inputs and collaborators:

- The room id that uuid generates and the current time (`new Date()`, `Date.now()`) are inputs of the model.
- socket.io broadcasting is modelled from the store's member sets. `client.to(roomId)` sends to the room's participants except the client. `server.to(roomId)` sends to all of the room's participants. `server.to(socketId)` and `client.emit` send to that one socket.

The model follows the code. It proves four behaviours of the code that a reader might not expect:

- A chat message goes to every participant of the room, including the sender, because the code uses `server.to(roomId)`.
- A second `leave-room` for the same room changes no state. It does, however, send `user-left` again to whoever is still in the room (`LeaveTwice`). A disconnect after a leave emits nothing (`DisconnectAfterLeave`).
- The reverse index keeps only the last room joined. Suppose a socket joins a second room without leaving the first. After it disconnects, it still holds a seat in the first room, and nothing will free that seat (`RejoinLeavesStaleSeat`). The same happens when a socket sends `leave-room` naming a room other than its own: the leave drops its index entry, so a later disconnect leaves its seat behind (`LeaveOtherRoomLeavesStaleSeat`).
- The server does not decide which peer sends the offer. Both `room-users` and `user-joined` are emitted, and the client acts on either. The model therefore assumes no single-initiator rule.

## Model

| member | source | states |
|---|---|---|
| `Rooms.Summaries` | backend/dist/rooms/rooms.service.js:25-31 | the projection has one entry per given id, and each entry is (id, createdAt, participant count) of that room |
| `Rooms.AsList` | backend/src/rooms/rooms.service.ts:48 | a set of at most one id becomes an array of the same length holding exactly its elements |
| `Rooms.Admit` | backend/dist/rooms/rooms.service.js:39-47 | success exactly when the room exists and holds fewer than 2 participants; NotFound ("Room not found") exactly when the room is unknown; "Room is full" exactly when it exists but is full. On success only that room changes: it gains `socketId`, keeps id, createdAt and all earlier members, and stays within 2; the returned ids are exactly its earlier members other than `socketId` (at most one, never the caller); capacity consistency is preserved |
| `Rooms.RemovedFrom` | backend/dist/rooms/rooms.service.js:48-56 | an unknown room leaves the table unchanged; otherwise the room loses `socketId` and is deleted exactly when no one else is left; every other room is kept; consistency is preserved |
| `Rooms.RemoveIdempotent` | backend/src/rooms/rooms.service.ts:52-59 | removing the same socket from the same room twice equals removing it once |
| `Rooms.RemoveNeverKeepsEmptyRoom` | backend/src/rooms/rooms.service.ts:55-58 | after a removal, the room, if still stored, has at least one participant |
| `Rooms.FreshRoomRemovedOnFirstLeave` | backend/src/rooms/rooms.service.ts:56-58 | a freshly created room that never had members is deleted by the first removal from it, whoever is named |
| `Rooms.Erase` | backend/dist/rooms/rooms.service.js:54 | deleting a key removes exactly that id from the Map's iteration order, keeps the order free of repetitions, and leaves an order without the key unchanged |
| `Rooms.EraseKeepsOrder` | backend/dist/rooms/rooms.service.js:54 | deleting a key removes exactly its one position from the iteration order and keeps every other key where it was, in the same relative order |
| `Rooms.DistinctCardinality` | backend/src/rooms/rooms.service.ts:27 | an iteration order without repetitions has as many entries as there are keys, which is what makes `listRooms` one entry per room |
| `Rooms.RoomsService.constructor` | backend/src/rooms/rooms.service.ts:12-13 | the service starts with no rooms |
| `Rooms.RoomsService.CreateRoom` | backend/src/rooms/rooms.service.ts:15-24 | the returned room has the given id and time and no participants; it is stored under its id and every other room is unchanged; a new id is appended to the iteration order |
| `Rooms.RoomsService.ListRooms` | backend/src/rooms/rooms.service.ts:26-32 | one summary per stored room, each carrying the room's id, createdAt and participant count; every stored room appears; it reads only |
| `Rooms.RoomsService.GetRoom` | backend/src/rooms/rooms.service.ts:34-40 | fails with NotFound "Room not found" exactly when the id is not stored, otherwise returns the stored room; it changes nothing |
| `Rooms.RoomsService.AddParticipant` | backend/src/rooms/rooms.service.ts:42-50 | the new table and result are `Admit`'s; on failure nothing changes and the service's exception is returned |
| `Rooms.RoomsService.RemoveParticipant` | backend/src/rooms/rooms.service.ts:52-59 | the new table is `RemovedFrom`'s; a deleted room also leaves the iteration order; validity is kept |
| `Protocol.Peers` | backend/dist/signaling/signaling.gateway.js:35 | a room broadcast from a client reaches exactly the room's other participants and never the client |
| `Protocol.Forward` | backend/dist/signaling/signaling.gateway.js:48-65 | a relayed offer, answer or candidate goes to the named target only, under its own kind and event name ("offer", "answer", "ice-candidate"), with the body unchanged and `fromSocketId` set to the sender |
| `Protocol.JoinRoom` | backend/src/signaling/signaling.gateway.ts:21-34 | the join that both gateways share, as the room store sees it; it has no contract of its own, and `JoinRoomOutcome` and `Signaling.JoinTracking` state its properties |
| `Protocol.LeaveRoom` | backend/src/signaling/signaling.gateway.ts:37-45 | the leave that both gateways share, as the room store sees it; it has no contract of its own, and `LeaveRoomOutcome` and `LeaveRoomTwice` state its properties |
| `Protocol.ReplyReachesSender` | backend/src/signaling/signaling.gateway.ts:48-61 | a reply addressed to the received `fromSocketId` reaches the original sender with the reply body unchanged |
| `Protocol.JoinRoomOutcome` | backend/src/signaling/signaling.gateway.ts:21-34 | a successful join adds the requester, sends `room-users` to the requester alone, and sends `user-joined` naming the requester to exactly the earlier members. Those members are exactly the ids listed in `room-users`, at most one. A failed join leaves the rooms unchanged and emits only `join-error` to the requester, with "Room is full" or "Room not found" |
| `Protocol.LeaveRoomOutcome` | backend/src/signaling/signaling.gateway.ts:37-45 | a leave applies `removeParticipant` and emits one `user-left` naming the client. It goes to the room's members other than the client, or to no one when the room is unknown. Consistency is preserved |
| `Protocol.LeaveRoomTwice` | backend/dist/signaling/signaling.gateway.js:41-47 | the rooms and events of a repeated leave equal those of the first leave |
| `Signaling.Join` | backend/dist/signaling/signaling.gateway.js:26-40 | `handleJoin` as a transition of rooms and index; it has no contract of its own, and `JoinTracking`, `JoinPreservesInv` and `Protocol.JoinRoomOutcome` state its properties |
| `Signaling.Leave` | backend/dist/signaling/signaling.gateway.js:41-47 | `handleLeave` as a transition of rooms and index; it has no contract of its own, and `LeavePreservesInv`, `LeaveTwice`, `DisconnectAfterLeave` and `Protocol.LeaveRoomOutcome` state its properties |
| `Signaling.Disconnect` | backend/dist/signaling/signaling.gateway.js:83-90 | `handleDisconnect` as a transition of rooms and index; it has no contract of its own, and `DisconnectIsLeave`, `DisconnectPreservesInv`, `DisconnectAfterLeave` and `DisconnectTwice` state its properties |
| `Signaling.Members` | backend/dist/signaling/signaling.gateway.js:81 | `server.to(roomId)` reaches exactly the stored participants of the room, the sender included, and no one for an unknown room |
| `Signaling.Chat` | backend/dist/signaling/signaling.gateway.js:66-82 | `handleChatMessage` as the events it emits; it has no contract of its own, and `ChatAdmission` and `ChatNeedsMembership` state its properties |
| `Signaling.JoinTracking` | backend/dist/signaling/signaling.gateway.js:26-40 | a socket is recorded in `socketToRoom` only when `addParticipant` succeeds, and then it is a member of the room. A failed join leaves rooms and index unchanged and emits only a `join-error` to the requester |
| `Signaling.JoinPreservesInv` | backend/dist/signaling/signaling.gateway.js:29-31 | join keeps capacity and keeps every tracked socket a participant of its tracked room |
| `Signaling.LeavePreservesInv` | backend/dist/signaling/signaling.gateway.js:44-46 | leave keeps capacity and keeps every tracked socket a participant of its tracked room, whatever room the leave names |
| `Signaling.CreateRoomKeepsInv` | backend/src/rooms/rooms.service.ts:16-22 | creating a room under an unused id keeps the invariant |
| `Signaling.DisconnectIsLeave` | backend/dist/signaling/signaling.gateway.js:83-90 | a disconnect of a socket tracked in a room does exactly what a leave of that room does |
| `Signaling.DisconnectPreservesInv` | backend/dist/signaling/signaling.gateway.js:86-88 | disconnect keeps capacity and the tracking invariant |
| `Signaling.DisconnectAfterLeave` | backend/dist/signaling/signaling.gateway.js:84-85 | after a leave, a disconnect changes nothing and emits nothing |
| `Signaling.DisconnectTwice` | backend/dist/signaling/signaling.gateway.js:84-89 | a second disconnect changes nothing and emits nothing |
| `Signaling.LeaveTwice` | backend/dist/signaling/signaling.gateway.js:41-47 | a repeated leave leaves state and events exactly as the first leave did, which means `user-left` is sent again |
| `Signaling.ChatAdmission` | backend/dist/signaling/signaling.gateway.js:66-82 | a chat is relayed exactly when room id and text are non-empty strings and the sender is tracked in that room. It is then one `chat-message` of (roomId, text, sender, time) sent to all of the room's participants, sender included |
| `Signaling.ChatNeedsMembership` | backend/dist/signaling/signaling.gateway.js:71-74 | a socket that is not a participant of the named room never gets a chat relayed there |
| `Signaling.TwoPartyCall` | backend/dist/signaling/signaling.gateway.js:26-90 | scenario: A joins and gets an empty `room-users`; B joins and gets `[A]` while A gets `user-joined B`. C gets `join-error "Room is full"` and nothing changes. A's disconnect sends `user-left A` to B and leaves `{B}`. B's leave deletes the room |
| `Signaling.RejoinLeavesStaleSeat` | backend/dist/signaling/signaling.gateway.js:31 | a socket that joins a second room without leaving the first, then disconnects, is untracked but still a participant of the first room |
| `Signaling.LeaveOtherRoomLeavesStaleSeat` | backend/dist/signaling/signaling.gateway.js:41-47 | a socket tracked in one room that leaves a different room, then disconnects, is untracked but still a participant of its room |
| `Signaling.SignalingGateway.constructor` | backend/dist/signaling/signaling.gateway.js:22-25 | the gateway starts with an empty `socketToRoom` over a valid room service |
| `Signaling.SignalingGateway.HandleJoin` | backend/dist/signaling/signaling.gateway.js:26-40 | new rooms, new index and events are those of `Join`; the invariant is kept; the Map order of rooms is unchanged |
| `Signaling.SignalingGateway.HandleLeave` | backend/dist/signaling/signaling.gateway.js:41-47 | new rooms, new index and events are those of `Leave`; the invariant is kept; a deleted room leaves the Map order through `Erase` and the order is otherwise unchanged |
| `Signaling.SignalingGateway.HandleOffer` | backend/dist/signaling/signaling.gateway.js:48-52 | emits exactly the forwarded offer and changes no state |
| `Signaling.SignalingGateway.HandleAnswer` | backend/dist/signaling/signaling.gateway.js:53-57 | emits exactly the forwarded answer and changes no state |
| `Signaling.SignalingGateway.HandleIceCandidate` | backend/dist/signaling/signaling.gateway.js:58-65 | emits exactly the forwarded candidate and changes no state |
| `Signaling.SignalingGateway.HandleChatMessage` | backend/dist/signaling/signaling.gateway.js:66-82 | emits exactly what `Chat` gives for the current state and changes no state |
| `Signaling.SignalingGateway.HandleDisconnect` | backend/dist/signaling/signaling.gateway.js:83-90 | new rooms, new index and events are those of `Disconnect`; the invariant is kept; a deleted tracked room leaves the Map order through `Erase` and the order is otherwise unchanged |
| `LegacySignaling.LegacySignalingGateway.constructor` | backend/src/signaling/signaling.gateway.ts:18 | the gateway is bound to the given room service |
| `LegacySignaling.LegacySignalingGateway.HandleJoin` | backend/src/signaling/signaling.gateway.ts:21-34 | new rooms and events are those of the shared store-level join; room validity is kept; the Map order is unchanged |
| `LegacySignaling.LegacySignalingGateway.HandleLeave` | backend/src/signaling/signaling.gateway.ts:37-45 | new rooms and events are those of the shared store-level leave; room validity is kept; a deleted room leaves the Map order through `Erase` |
| `LegacySignaling.LegacySignalingGateway.HandleOffer` | backend/src/signaling/signaling.gateway.ts:48-53 | emits exactly one event, the forwarded offer, and changes no state |
| `LegacySignaling.LegacySignalingGateway.HandleAnswer` | backend/src/signaling/signaling.gateway.ts:56-61 | emits exactly one event, the forwarded answer, and changes no state |
| `LegacySignaling.LegacySignalingGateway.HandleIceCandidate` | backend/src/signaling/signaling.gateway.ts:64-71 | emits exactly one event, the forwarded candidate, and changes no state |

## Left out

- Aliasing of room objects is not modelled. `createRoom` and `getRoom` return the stored room object, which later joins and leaves change in place. The model returns a `RoomInfo` value, a snapshot taken at the time of the call.
- The fallback message "Join failed" is not modelled. It can only appear when the caught error has no message, and both exceptions the service throws carry one ("Room not found", "Room is full"). The model emits the exception's message.
- Ids that are not strings are not modelled. A `join-room` or `leave-room` with a non-string room id is modelled as an id that is not stored: the Map lookup misses, so join fails with NotFound, and in a leave `removeParticipant` does nothing. The leave still emits `user-left` and, in the newer gateway, still drops the socket's `socketToRoom` entry, as `Signaling.Leave` does. A missing or malformed message body, which makes destructuring throw before the handler's `try`, is not modelled either.
- socket.io's own room membership (`client.join`, `client.leave`, automatic removal on disconnect) is not modelled. Recipients come from the store's member sets.
- `Protocol.Peers`, `Protocol.LeaveRoomOutcome`, `Protocol.Forward`: recipients are taken to be what the handler means the id to name, a call room for a broadcast and a socket for a relay. socket.io also puts every socket in a room named by its own id, and `to(x)` addresses any room. So a `leave-room` whose room id is another live socket's id sends `user-left` to that socket, and a relay whose `targetSocketId` is a call-room id reaches every socket.io member of that room, the sender included. Neither case is modelled: the model gives no recipients for the first and only `{targetSocketId}` for the second.
- Delivery is not modelled: emits are fire-and-forget, and a message to a socket that is gone is dropped by the transport.
- UUID generation and the clock are inputs. The model does not assume generated ids are unique; `CreateRoomKeepsInv` needs an unused id.
- The HTTP controller, the Nest module wiring and dependency injection, and the whole frontend (UI, WebRTC peer connections, audio levels, HTTP client) are outside this model.
- Concurrency is not modelled. Node runs each handler to completion on one thread, so every handler is one atomic step.
