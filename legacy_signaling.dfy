/** The older signaling gateway: join, leave and the three negotiation
    relays over the room service, with no reverse index, no chat and no
    disconnect handler. */
module LegacySignaling {
  import opened Rooms
  import opened Protocol

  class LegacySignalingGateway {
    const roomsService: RoomsService

    constructor (roomsService: RoomsService)
      ensures this.roomsService == roomsService
    {
      this.roomsService := roomsService;
    }

    /** `handleJoin`: `addParticipant`, then `room-users` to the requester
        and `user-joined` to the rest of the room, or only `join-error`. */
    method HandleJoin(roomId: RoomId, client: SocketId) returns (events: seq<Event>)
      requires roomsService.Valid()
      modifies roomsService
      ensures roomsService.Valid()
      ensures Outcome(roomsService.rooms, events) == JoinRoom(old(roomsService.rooms), roomId, client)
      ensures roomsService.order == old(roomsService.order)
    {
      var r := roomsService.AddParticipant(roomId, client);
      match r
      case Err(e) =>
        events := [Event({client}, JoinError(e.message))];
      case Ok(existing) =>
        events := [Event({client}, RoomUsers(existing)),
                   Event(Peers(roomsService.rooms, roomId, client), UserJoined(client))];
    }

    /** `handleLeave`: `removeParticipant`, then `user-left` to the rest of
        the room, whether or not the client was in it. */
    method HandleLeave(roomId: RoomId, client: SocketId) returns (events: seq<Event>)
      requires roomsService.Valid()
      modifies roomsService
      ensures roomsService.Valid()
      ensures Outcome(roomsService.rooms, events) == LeaveRoom(old(roomsService.rooms), roomId, client)
      ensures roomsService.order ==
        if roomId in roomsService.rooms then old(roomsService.order) else Erase(old(roomsService.order), roomId)
    {
      roomsService.RemoveParticipant(roomId, client);
      events := [Event(Peers(roomsService.rooms, roomId, client), UserLeft(client))];
    }

    method HandleOffer(request: RelayRequest, client: SocketId) returns (events: seq<Event>)
      ensures |events| == 1 && events[0] == Forward(OfferKind, request, client)
    {
      events := [Forward(OfferKind, request, client)];
    }

    method HandleAnswer(request: RelayRequest, client: SocketId) returns (events: seq<Event>)
      ensures |events| == 1 && events[0] == Forward(AnswerKind, request, client)
    {
      events := [Forward(AnswerKind, request, client)];
    }

    method HandleIceCandidate(request: RelayRequest, client: SocketId) returns (events: seq<Event>)
      ensures |events| == 1 && events[0] == Forward(IceCandidateKind, request, client)
    {
      events := [Forward(IceCandidateKind, request, client)];
    }
  }
}
