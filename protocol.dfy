/** The events the signaling gateway emits, and the parts of its handlers
    that both versions of the gateway share: join and leave as seen by the
    room store, and the one-to-one relay of negotiation messages.

    An emitted event is a set of recipient socket ids and a payload; the
    payload's constructor fixes the event name. A socket.io broadcast to a
    room "except the sender" is modelled by the room's participant set in
    the store minus the sender; an emit to a socket id reaches that id.
    An id is taken to name what the handler means it to name: a call room
    for a broadcast, a socket for a relay. */
module Protocol {
  import opened Rooms

  /** A negotiation body (session description or ICE candidate), as the
      client serialised it. The relay never looks inside. */
  type Blob = seq<char>

  datatype NegotiationKind = OfferKind | AnswerKind | IceCandidateKind

  datatype Payload =
    | RoomUsers(existingParticipantSocketIds: seq<SocketId>)
    | UserJoined(socketId: SocketId)
    | UserLeft(socketId: SocketId)
    | JoinError(message: string)
    | Negotiation(kind: NegotiationKind, fromSocketId: SocketId, body: Blob)
    | ChatMessage(roomId: RoomId, text: string, fromSocketId: SocketId, ts: Timestamp)
  {
    /** The socket.io event name the payload travels under. */
    function Name(): string
    {
      match this
      case RoomUsers(_) => "room-users"
      case UserJoined(_) => "user-joined"
      case UserLeft(_) => "user-left"
      case JoinError(_) => "join-error"
      case Negotiation(kind, _, _) =>
        (match kind
         case OfferKind => "offer"
         case AnswerKind => "answer"
         case IceCandidateKind => "ice-candidate")
      case ChatMessage(_, _, _, _) => "chat-message"
    }
  }

  datatype Event = Event(recipients: set<SocketId>, payload: Payload)

  /** `client.to(roomId)`: the room's participants other than the client. */
  function Peers(rooms: RoomTable, roomId: RoomId, client: SocketId): (r: set<SocketId>)
    ensures client !in r
    ensures forall s :: s in r <==> roomId in rooms && s in rooms[roomId].participantSocketIds && s != client
  {
    if roomId in rooms then rooms[roomId].participantSocketIds - {client} else {}
  }

  /** What a handler leaves in the room store and what it emits. */
  datatype Outcome = Outcome(rooms: RoomTable, events: seq<Event>)

  /** `handleJoin` as the room store sees it: on success the requester alone
      gets `room-users` with the ids `addParticipant` returned and the rest
      of the room gets `user-joined`; on failure only `join-error` with the
      exception's message, and the store is left as it was. */
  function JoinRoom(rooms: RoomTable, roomId: RoomId, client: SocketId): Outcome
  {
    match Admit(rooms, roomId, client)
    case Err(e) =>
      Outcome(rooms, [Event({client}, JoinError(e.message))])
    case Ok(a) =>
      Outcome(a.rooms, [Event({client}, RoomUsers(a.existingParticipantIds)),
                        Event(Peers(a.rooms, roomId, client), UserJoined(client))])
  }

  /** `handleLeave` as the room store sees it: remove the participant, then
      tell the rest of the named room. */
  function LeaveRoom(rooms: RoomTable, roomId: RoomId, client: SocketId): Outcome
  {
    var after := RemovedFrom(rooms, roomId, client);
    Outcome(after, [Event(Peers(after, roomId, client), UserLeft(client))])
  }

  /** The inbound shape of `offer`, `answer` and `ice-candidate`. */
  datatype RelayRequest = RelayRequest(targetSocketId: SocketId, body: Blob)

  /** `server.to(targetSocketId).emit(kind, {fromSocketId, body})`. */
  function Forward(kind: NegotiationKind, request: RelayRequest, client: SocketId): (e: Event)
    ensures e.recipients == {request.targetSocketId}
    ensures e.payload.Negotiation? && e.payload.kind == kind
    ensures e.payload.body == request.body && e.payload.fromSocketId == client
    ensures e.payload.Name() == match kind
      case OfferKind => "offer"
      case AnswerKind => "answer"
      case IceCandidateKind => "ice-candidate"
  {
    Event({request.targetSocketId}, Negotiation(kind, client, request.body))
  }

  /** The recipient of a relayed message can address a reply to the sender
      with the `fromSocketId` it received, and the sender gets the reply's
      body unchanged. */
  lemma ReplyReachesSender(kind: NegotiationKind, request: RelayRequest, client: SocketId,
                           replyKind: NegotiationKind, reply: Blob)
    ensures var e := Forward(kind, request, client);
      var back := Forward(replyKind, RelayRequest(e.payload.fromSocketId, reply), request.targetSocketId);
      && back.recipients == {client}
      && back.payload == Negotiation(replyKind, request.targetSocketId, reply)
  {
  }

  /** The store-level outcome of a join: which case applies, what it
      changes and who hears what. */
  lemma JoinRoomOutcome(rooms: RoomTable, roomId: RoomId, client: SocketId)
    requires Consistent(rooms)
    ensures var o := JoinRoom(rooms, roomId, client);
      && Consistent(o.rooms)
      && o.events[0].recipients == {client}
      && (if roomId in rooms && |rooms[roomId].participantSocketIds| < MaxParticipantsPerRoom then
            && |o.events| == 2
            && o.rooms[roomId].participantSocketIds == rooms[roomId].participantSocketIds + {client}
            && o.events[0].payload.RoomUsers?
            && o.events[1] == Event(rooms[roomId].participantSocketIds - {client}, UserJoined(client))
            && (forall s :: s in o.events[0].payload.existingParticipantSocketIds <==> s in o.events[1].recipients)
            && |o.events[0].payload.existingParticipantSocketIds| <= 1
          else
            && o.rooms == rooms
            && o.events == [Event({client}, JoinError(
                 if roomId in rooms then "Room is full" else "Room not found"))])
  {
    var o := JoinRoom(rooms, roomId, client);
    var r := Admit(rooms, roomId, client);
    if r.Ok? {
      var before := rooms[roomId].participantSocketIds;
      assert Peers(r.value.rooms, roomId, client) == before - {client};
    }
  }

  /** The store-level outcome of a leave: the room loses the participant,
      disappears when empty, and the remaining participants hear of it. */
  lemma LeaveRoomOutcome(rooms: RoomTable, roomId: RoomId, client: SocketId)
    requires Consistent(rooms)
    ensures var o := LeaveRoom(rooms, roomId, client);
      && Consistent(o.rooms)
      && o.rooms == RemovedFrom(rooms, roomId, client)
      && |o.events| == 1
      && o.events[0].payload == UserLeft(client)
      && client !in o.events[0].recipients
      && (roomId in rooms ==>
            o.events[0].recipients == rooms[roomId].participantSocketIds - {client})
      && (roomId !in rooms ==> o.events[0].recipients == {})
  {
    var after := RemovedFrom(rooms, roomId, client);
    if roomId in rooms && roomId !in after {
      assert rooms[roomId].participantSocketIds - {client} == {};
    }
  }

  /** Leaving twice: the second leave changes nothing in the store but
      emits the same `user-left` to the same remaining participants. */
  lemma LeaveRoomTwice(rooms: RoomTable, roomId: RoomId, client: SocketId)
    ensures var first := LeaveRoom(rooms, roomId, client);
      LeaveRoom(first.rooms, roomId, client) == first
  {
    RemoveIdempotent(rooms, roomId, client);
  }
}
