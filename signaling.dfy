/** The newer signaling gateway: the room store plus a reverse index from
    socket id to the room the socket last joined, kept up to date by join,
    leave and disconnect, and used to admit chat messages. */
module Signaling {
  import opened Rooms
  import opened Protocol

  datatype Option<T> = None | Some(value: T)

  /** The gateway's state: the service's rooms and `socketToRoom`. */
  datatype World = World(rooms: RoomTable, socketToRoom: map<SocketId, RoomId>)

  /** What a handler leaves behind and what it emits. */
  datatype Transition = Transition(world: World, events: seq<Event>)

  /** Every tracked socket is a participant of the room it is tracked in. */
  ghost predicate Tracked(w: World)
  {
    forall s :: s in w.socketToRoom ==>
      w.socketToRoom[s] in w.rooms && s in w.rooms[w.socketToRoom[s]].participantSocketIds
  }

  ghost predicate Inv(w: World)
  {
    Consistent(w.rooms) && Tracked(w)
  }

  /** `handleJoin`: the store-level join; the socket is tracked in the room
      only once `addParticipant` has succeeded. */
  function Join(w: World, roomId: RoomId, client: SocketId): Transition
  {
    var o := JoinRoom(w.rooms, roomId, client);
    var tracked := if Admit(w.rooms, roomId, client).Ok? then w.socketToRoom[client := roomId] else w.socketToRoom;
    Transition(World(o.rooms, tracked), o.events)
  }

  /** `handleLeave`: the store-level leave of the named room; the socket's
      entry is dropped whatever room it named. */
  function Leave(w: World, roomId: RoomId, client: SocketId): Transition
  {
    var o := LeaveRoom(w.rooms, roomId, client);
    Transition(World(o.rooms, w.socketToRoom - {client}), o.events)
  }

  /** `handleDisconnect`: a socket tracked in a room (a non-empty id, the
      source tests it for truthiness) is cleaned up exactly as by a leave of
      that room; any other disconnect does nothing. */
  function Disconnect(w: World, client: SocketId): Transition
  {
    if client in w.socketToRoom && w.socketToRoom[client] != "" then
      var o := LeaveRoom(w.rooms, w.socketToRoom[client], client);
      Transition(World(o.rooms, w.socketToRoom - {client}), o.events)
    else
      Transition(w, [])
  }

  /** The inbound `chat-message` body. A field that is missing or not a
      string is `None`; a non-string room id can never equal a tracked one,
      so it is dropped like a missing one. */
  datatype ChatRequest = ChatRequest(roomId: Option<RoomId>, text: Option<string>)

  /** `server.to(roomId)`: every participant of the room, sender included. */
  function Members(rooms: RoomTable, roomId: RoomId): (r: set<SocketId>)
    ensures forall s :: s in r <==> roomId in rooms && s in rooms[roomId].participantSocketIds
  {
    if roomId in rooms then rooms[roomId].participantSocketIds else {}
  }

  /** `handleChatMessage`: drops a request without a non-empty room id and
      a non-empty text, and one whose room is not the sender's tracked room;
      otherwise broadcasts it to the room stamped with sender and time. */
  function Chat(w: World, request: ChatRequest, client: SocketId, now: Timestamp): seq<Event>
  {
    if request.roomId.None? || request.roomId.value == "" || request.text.None? || request.text.value == "" then []
    else if client !in w.socketToRoom || w.socketToRoom[client] != request.roomId.value then []
    else
      var roomId := request.roomId.value;
      [Event(Members(w.rooms, roomId), ChatMessage(roomId, request.text.value, client, now))]
  }

  /** A successful join tracks the requester in the room; a failed one
      changes neither the rooms nor the index and only answers the requester. */
  lemma JoinTracking(w: World, roomId: RoomId, client: SocketId)
    requires Consistent(w.rooms)
    ensures var t := Join(w, roomId, client);
      if roomId in w.rooms && |w.rooms[roomId].participantSocketIds| < MaxParticipantsPerRoom then
        && t.world.socketToRoom == w.socketToRoom[client := roomId]
        && client in t.world.rooms[roomId].participantSocketIds
      else
        && t.world == w
        && |t.events| == 1
        && t.events[0].recipients == {client}
        && t.events[0].payload.JoinError?
  {
    JoinRoomOutcome(w.rooms, roomId, client);
  }

  lemma JoinPreservesInv(w: World, roomId: RoomId, client: SocketId)
    requires Inv(w)
    ensures Inv(Join(w, roomId, client).world)
  {
    var a := Admit(w.rooms, roomId, client);
    if a.Ok? {
      var w' := Join(w, roomId, client).world;
      forall s | s in w'.socketToRoom
        ensures w'.socketToRoom[s] in w'.rooms && s in w'.rooms[w'.socketToRoom[s]].participantSocketIds
      {
        if s != client {
          var r := w.socketToRoom[s];
          assert r in w.rooms && s in w.rooms[r].participantSocketIds;
        }
      }
    }
  }

  lemma LeavePreservesInv(w: World, roomId: RoomId, client: SocketId)
    requires Inv(w)
    ensures Inv(Leave(w, roomId, client).world)
  {
    var w' := Leave(w, roomId, client).world;
    forall s | s in w'.socketToRoom
      ensures w'.socketToRoom[s] in w'.rooms && s in w'.rooms[w'.socketToRoom[s]].participantSocketIds
    {
      var r := w.socketToRoom[s];
      assert s != client && r in w.rooms && s in w.rooms[r].participantSocketIds;
      if r == roomId {
        assert s in w.rooms[roomId].participantSocketIds - {client};
      }
    }
  }

  /** Creating a room under an id not in use (the service draws a random
      UUID) keeps every tracked socket in its room. */
  lemma CreateRoomKeepsInv(w: World, id: RoomId, now: Timestamp)
    requires Inv(w) && id !in w.rooms
    ensures Inv(World(w.rooms[id := RoomInfo(id, now, {})], w.socketToRoom))
  {
    var w' := World(w.rooms[id := RoomInfo(id, now, {})], w.socketToRoom);
    forall s | s in w'.socketToRoom
      ensures w'.socketToRoom[s] in w'.rooms && s in w'.rooms[w'.socketToRoom[s]].participantSocketIds
    {
      assert w.socketToRoom[s] in w.rooms;
    }
  }

  /** A disconnect of a tracked socket is the leave of its tracked room. */
  lemma DisconnectIsLeave(w: World, client: SocketId)
    requires client in w.socketToRoom && w.socketToRoom[client] != ""
    ensures Disconnect(w, client) == Leave(w, w.socketToRoom[client], client)
  {
  }

  lemma DisconnectPreservesInv(w: World, client: SocketId)
    requires Inv(w)
    ensures Inv(Disconnect(w, client).world)
  {
    if client in w.socketToRoom && w.socketToRoom[client] != "" {
      LeavePreservesInv(w, w.socketToRoom[client], client);
    }
  }

  /** After a leave the socket is untracked, so a later disconnect changes
      nothing and emits nothing. */
  lemma DisconnectAfterLeave(w: World, roomId: RoomId, client: SocketId)
    ensures var left := Leave(w, roomId, client).world;
      Disconnect(left, client) == Transition(left, [])
  {
  }

  /** Disconnecting twice: the second disconnect is a no-op. */
  lemma DisconnectTwice(w: World, client: SocketId)
    ensures var gone := Disconnect(w, client).world;
      Disconnect(gone, client) == Transition(gone, [])
  {
  }

  /** A repeated leave leaves the state as the first one did and repeats
      the first one's `user-left` to whoever is still in the room. */
  lemma LeaveTwice(w: World, roomId: RoomId, client: SocketId)
    ensures var first := Leave(w, roomId, client);
      Leave(first.world, roomId, client) == first
  {
    LeaveRoomTwice(w.rooms, roomId, client);
  }

  /** A chat message is relayed exactly when its fields are non-empty
      strings and the sender is tracked in the room it names; the relayed
      message reaches every participant of that room, the sender included. */
  lemma ChatAdmission(w: World, request: ChatRequest, client: SocketId, now: Timestamp)
    requires Tracked(w)
    ensures var es := Chat(w, request, client, now);
      && (es != [] <==>
            && request.roomId.Some? && request.roomId.value != ""
            && request.text.Some? && request.text.value != ""
            && client in w.socketToRoom && w.socketToRoom[client] == request.roomId.value)
      && (es != [] ==>
            && |es| == 1
            && es[0].payload == ChatMessage(request.roomId.value, request.text.value, client, now)
            && request.roomId.value in w.rooms
            && es[0].recipients == w.rooms[request.roomId.value].participantSocketIds
            && client in es[0].recipients)
  {
  }

  /** A socket that is not a participant of the named room cannot chat in it. */
  lemma ChatNeedsMembership(w: World, request: ChatRequest, client: SocketId, now: Timestamp)
    requires Tracked(w)
    requires request.roomId.Some?
    requires request.roomId.value !in w.rooms || client !in w.rooms[request.roomId.value].participantSocketIds
    ensures Chat(w, request, client, now) == []
  {
    if client in w.socketToRoom {
      assert w.socketToRoom[client] in w.rooms;
    }
  }

  /** The call-setup scenario: A joins room S and hears of nobody; B joins
      and hears of A while A hears of B; C is refused because S is full;
      A drops off and B hears of it; B leaves and S is gone. */
  lemma TwoPartyCall(s: RoomId, now: Timestamp, a: SocketId, b: SocketId, c: SocketId)
    requires a != b && b != c && a != c && s != ""
    ensures
      var w0 := World(map[s := RoomInfo(s, now, {})], map[]);
      var t1 := Join(w0, s, a);
      var t2 := Join(t1.world, s, b);
      var t3 := Join(t2.world, s, c);
      var t4 := Disconnect(t3.world, a);
      var t5 := Leave(t4.world, s, b);
      && t1.events == [Event({a}, RoomUsers([])), Event({}, UserJoined(a))]
      && t2.events == [Event({b}, RoomUsers([a])), Event({a}, UserJoined(b))]
      && t3.events == [Event({c}, JoinError("Room is full"))]
      && t3.world == t2.world
      && t4.events == [Event({b}, UserLeft(a))]
      && t4.world.rooms[s].participantSocketIds == {b}
      && s !in t5.world.rooms
  {
    var w0 := World(map[s := RoomInfo(s, now, {})], map[]);
    var t1 := Join(w0, s, a);
    JoinRoomOutcome(w0.rooms, s, a);
    assert t1.world.rooms[s].participantSocketIds == {a};
    var t2 := Join(t1.world, s, b);
    JoinRoomOutcome(t1.world.rooms, s, b);
    var ids := t2.events[0].payload.existingParticipantSocketIds;
    assert ids == [a] by {
      assert a in ids && |ids| <= 1;
    }
    assert t2.world.rooms[s].participantSocketIds == {a, b};
    var t3 := Join(t2.world, s, c);
    JoinRoomOutcome(t2.world.rooms, s, c);
    var t4 := Disconnect(t3.world, a);
    LeaveRoomOutcome(t3.world.rooms, s, a);
    assert {a, b} - {a} == {b};
    var t5 := Leave(t4.world, s, b);
    assert {b} - {b} == {};
  }

  /** A socket that joins a second room without leaving the first is
      tracked only in the second; after it disconnects it still occupies a
      seat in the first room, which nothing will ever clear. */
  lemma RejoinLeavesStaleSeat(r1: RoomId, r2: RoomId, now: Timestamp, a: SocketId)
    requires r1 != r2 && r2 != ""
    ensures
      var w0 := World(map[r1 := RoomInfo(r1, now, {}), r2 := RoomInfo(r2, now, {})], map[]);
      var w := Disconnect(Join(Join(w0, r1, a).world, r2, a).world, a).world;
      && a !in w.socketToRoom
      && r1 in w.rooms && a in w.rooms[r1].participantSocketIds
  {
    var w0 := World(map[r1 := RoomInfo(r1, now, {}), r2 := RoomInfo(r2, now, {})], map[]);
    var w1 := Join(w0, r1, a).world;
    JoinRoomOutcome(w0.rooms, r1, a);
    var w2 := Join(w1, r2, a).world;
    JoinRoomOutcome(w1.rooms, r2, a);
    assert w2.socketToRoom[a] == r2;
    var w3 := Disconnect(w2, a).world;
    assert w3.rooms == RemovedFrom(w2.rooms, r2, a);
  }

  /** A socket tracked in one room that sends `leave-room` naming another
      room loses its tracking entry but keeps its seat; after it disconnects
      nothing will clear that seat. */
  lemma LeaveOtherRoomLeavesStaleSeat(r1: RoomId, r2: RoomId, now: Timestamp, a: SocketId)
    requires r1 != r2
    ensures
      var w0 := World(map[r1 := RoomInfo(r1, now, {})], map[]);
      var w := Disconnect(Leave(Join(w0, r1, a).world, r2, a).world, a).world;
      && a !in w.socketToRoom
      && r1 in w.rooms && a in w.rooms[r1].participantSocketIds
  {
    var w0 := World(map[r1 := RoomInfo(r1, now, {})], map[]);
    var w1 := Join(w0, r1, a).world;
    JoinRoomOutcome(w0.rooms, r1, a);
    var w2 := Leave(w1, r2, a).world;
    assert w2.rooms == w1.rooms;
  }

  /** The gateway object. It shares the room service with the HTTP layer. */
  class SignalingGateway {
    const roomsService: RoomsService
    var socketToRoom: map<SocketId, RoomId>

    ghost function State(): World
      reads this, roomsService
    {
      World(roomsService.rooms, socketToRoom)
    }

    ghost predicate Valid()
      reads this, roomsService
    {
      roomsService.Valid() && Tracked(State())
    }

    constructor (roomsService: RoomsService)
      requires roomsService.Valid()
      ensures Valid()
      ensures this.roomsService == roomsService && socketToRoom == map[]
    {
      this.roomsService := roomsService;
      socketToRoom := map[];
    }

    method HandleJoin(roomId: RoomId, client: SocketId) returns (events: seq<Event>)
      requires Valid()
      modifies this, roomsService
      ensures Valid()
      ensures Transition(State(), events) == Join(old(State()), roomId, client)
      ensures roomsService.order == old(roomsService.order)
    {
      JoinPreservesInv(State(), roomId, client);
      var r := roomsService.AddParticipant(roomId, client);
      match r
      case Err(e) =>
        events := [Event({client}, JoinError(e.message))];
      case Ok(existing) =>
        socketToRoom := socketToRoom[client := roomId];
        events := [Event({client}, RoomUsers(existing)),
                   Event(Peers(roomsService.rooms, roomId, client), UserJoined(client))];
    }

    method HandleLeave(roomId: RoomId, client: SocketId) returns (events: seq<Event>)
      requires Valid()
      modifies this, roomsService
      ensures Valid()
      ensures Transition(State(), events) == Leave(old(State()), roomId, client)
      ensures roomsService.order ==
        if roomId in roomsService.rooms then old(roomsService.order) else Erase(old(roomsService.order), roomId)
    {
      LeavePreservesInv(State(), roomId, client);
      roomsService.RemoveParticipant(roomId, client);
      events := [Event(Peers(roomsService.rooms, roomId, client), UserLeft(client))];
      socketToRoom := socketToRoom - {client};
    }

    method HandleOffer(request: RelayRequest, client: SocketId) returns (events: seq<Event>)
      ensures events == [Forward(OfferKind, request, client)]
    {
      events := [Forward(OfferKind, request, client)];
    }

    method HandleAnswer(request: RelayRequest, client: SocketId) returns (events: seq<Event>)
      ensures events == [Forward(AnswerKind, request, client)]
    {
      events := [Forward(AnswerKind, request, client)];
    }

    method HandleIceCandidate(request: RelayRequest, client: SocketId) returns (events: seq<Event>)
      ensures events == [Forward(IceCandidateKind, request, client)]
    {
      events := [Forward(IceCandidateKind, request, client)];
    }

    /** Reads the index and the rooms and changes nothing. */
    method HandleChatMessage(request: ChatRequest, client: SocketId, now: Timestamp) returns (events: seq<Event>)
      ensures events == Chat(State(), request, client, now)
    {
      events := Chat(World(roomsService.rooms, socketToRoom), request, client, now);
    }

    method HandleDisconnect(client: SocketId) returns (events: seq<Event>)
      requires Valid()
      modifies this, roomsService
      ensures Valid()
      ensures Transition(State(), events) == Disconnect(old(State()), client)
      ensures roomsService.order ==
        if client in old(socketToRoom) && old(socketToRoom)[client] != "" && old(socketToRoom)[client] !in roomsService.rooms
        then Erase(old(roomsService.order), old(socketToRoom)[client])
        else old(roomsService.order)
    {
      DisconnectPreservesInv(State(), client);
      events := [];
      if client in socketToRoom && socketToRoom[client] != "" {
        var roomId := socketToRoom[client];
        roomsService.RemoveParticipant(roomId, client);
        events := [Event(Peers(roomsService.rooms, roomId, client), UserLeft(client))];
        socketToRoom := socketToRoom - {client};
      }
    }
  }
}
