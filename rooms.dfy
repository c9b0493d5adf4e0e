/** The in-memory room store of the signaling backend (`RoomsService`).

    A room has an id, a creation time and the set of socket ids of its
    participants. The store admits at most `MaxParticipantsPerRoom`
    participants per room and deletes a room as soon as a removal leaves
    it without participants. Fresh ids and the clock are inputs here. */
module Rooms {

  type RoomId = string
  type SocketId = string
  /** Milliseconds since the epoch. */
  type Timestamp = int

  /** The capacity of every room. */
  const MaxParticipantsPerRoom: nat := 2

  datatype RoomInfo = RoomInfo(id: RoomId, createdAt: Timestamp, participantSocketIds: set<SocketId>)

  /** One entry of `listRooms`: the room's participant set is reported by its size. */
  datatype RoomSummary = RoomSummary(id: RoomId, createdAt: Timestamp, participants: nat)

  /** The two HTTP exceptions the service throws, each with its message. */
  datatype Error = NotFoundException(message: string) | BadRequestException(message: string)

  const RoomNotFound := NotFoundException("Room not found")
  const RoomIsFull := BadRequestException("Room is full")

  datatype Result<T> = Ok(value: T) | Err(error: Error)

  type RoomTable = map<RoomId, RoomInfo>

  /** Every stored room is filed under its own id and is within capacity. */
  ghost predicate Consistent(rooms: RoomTable)
  {
    forall id :: id in rooms ==>
      rooms[id].id == id && |rooms[id].participantSocketIds| <= MaxParticipantsPerRoom
  }

  function Summary(room: RoomInfo): RoomSummary
  {
    RoomSummary(room.id, room.createdAt, |room.participantSocketIds|)
  }

  /** `listRooms`' projection, in the order the ids are given. */
  function Summaries(ids: seq<RoomId>, rooms: RoomTable): (r: seq<RoomSummary>)
    requires forall i :: 0 <= i < |ids| ==> ids[i] in rooms
    ensures |r| == |ids|
    ensures forall i :: 0 <= i < |r| ==> r[i] == Summary(rooms[ids[i]])
  {
    if ids == [] then [] else [Summary(rooms[ids[0]])] + Summaries(ids[1..], rooms)
  }

  /** A set of at most one socket id, as an array. */
  function AsList(s: set<SocketId>): (r: seq<SocketId>)
    requires |s| <= 1
    ensures |r| == |s|
    ensures forall x :: x in r <==> x in s
  {
    if s == {} then []
    else
      var x :| x in s;
      SingletonIsUnique(s, x);
      [x]
  }

  lemma SingletonIsUnique(s: set<SocketId>, x: SocketId)
    requires |s| <= 1 && x in s
    ensures s == {x}
  {
    assert |s - {x}| == |s| - 1;
    assert s - {x} == {};
  }

  /** What a successful `addParticipant` leaves behind: the new table and
      the ids of the room's participants other than the newcomer. */
  datatype Admission = Admission(rooms: RoomTable, existingParticipantIds: seq<SocketId>)

  /** `addParticipant(roomId, socketId)` as a transition on the table: look
      the room up, refuse it when full, else insert and report the others. */
  function Admit(rooms: RoomTable, roomId: RoomId, socketId: SocketId): (r: Result<Admission>)
    ensures r.Ok? <==> roomId in rooms && |rooms[roomId].participantSocketIds| < MaxParticipantsPerRoom
    ensures r.Err? ==> (r.error == RoomNotFound <==> roomId !in rooms)
    ensures r.Err? ==> (r.error == RoomIsFull <==> roomId in rooms)
    ensures r.Ok? ==>
      var after := r.value.rooms;
      && after.Keys == rooms.Keys
      && after[roomId].participantSocketIds == rooms[roomId].participantSocketIds + {socketId}
      && after[roomId].id == rooms[roomId].id
      && after[roomId].createdAt == rooms[roomId].createdAt
      && |after[roomId].participantSocketIds| <= MaxParticipantsPerRoom
      && (forall id :: id in rooms && id != roomId ==> after[id] == rooms[id])
    ensures r.Ok? ==>
      var ids := r.value.existingParticipantIds;
      && socketId !in ids
      && |ids| <= 1
      && (forall x :: x in ids <==> x in rooms[roomId].participantSocketIds && x != socketId)
    ensures r.Ok? && Consistent(rooms) ==> Consistent(r.value.rooms)
  {
    if roomId !in rooms then Err(RoomNotFound)
    else
      var room := rooms[roomId];
      if |room.participantSocketIds| >= MaxParticipantsPerRoom then Err(RoomIsFull)
      else
        var members := room.participantSocketIds + {socketId};
        var others := members - {socketId};
        assert others <= room.participantSocketIds;
        Ok(Admission(rooms[roomId := room.(participantSocketIds := members)], AsList(others)))
  }

  /** `removeParticipant(roomId, socketId)` as a transition on the table:
      nothing happens for an unknown room; otherwise the socket id is taken
      out and the room is deleted when no participant is left. */
  function RemovedFrom(rooms: RoomTable, roomId: RoomId, socketId: SocketId): (r: RoomTable)
    ensures roomId !in rooms ==> r == rooms
    ensures r.Keys <= rooms.Keys
    ensures roomId in rooms ==>
      (roomId in r <==> rooms[roomId].participantSocketIds - {socketId} != {})
    ensures roomId in r ==>
      r[roomId] == rooms[roomId].(participantSocketIds := rooms[roomId].participantSocketIds - {socketId})
    ensures forall id :: id in rooms && id != roomId ==> id in r && r[id] == rooms[id]
    ensures Consistent(rooms) ==> Consistent(r)
  {
    if roomId !in rooms then rooms
    else
      var room := rooms[roomId];
      var left := room.participantSocketIds - {socketId};
      if |left| == 0 then rooms - {roomId}
      else rooms[roomId := room.(participantSocketIds := left)]
  }

  /** Removal is idempotent: the second of two identical calls changes nothing. */
  lemma RemoveIdempotent(rooms: RoomTable, roomId: RoomId, socketId: SocketId)
    ensures RemovedFrom(RemovedFrom(rooms, roomId, socketId), roomId, socketId)
         == RemovedFrom(rooms, roomId, socketId)
  {
    var once := RemovedFrom(rooms, roomId, socketId);
    if roomId in once {
      var left := once[roomId].participantSocketIds;
      assert left - {socketId} == left;
      assert once[roomId := once[roomId].(participantSocketIds := left)] == once;
    }
  }

  /** No room without participants survives a removal from it. */
  lemma RemoveNeverKeepsEmptyRoom(rooms: RoomTable, roomId: RoomId, socketId: SocketId)
    ensures var r := RemovedFrom(rooms, roomId, socketId);
      roomId in r ==> |r[roomId].participantSocketIds| > 0
  {
    var r := RemovedFrom(rooms, roomId, socketId);
    if roomId in r {
      var s := r[roomId].participantSocketIds;
      assert s != {};
      var x :| x in s;
      assert {x} <= s;
    }
  }

  /** A room that was created and never joined is deleted by the first
      removal from it, whoever is named. */
  lemma FreshRoomRemovedOnFirstLeave(rooms: RoomTable, id: RoomId, now: Timestamp, socketId: SocketId)
    ensures RemovedFrom(rooms[id := RoomInfo(id, now, {})], id, socketId) == rooms - {id}
  {
    var created := rooms[id := RoomInfo(id, now, {})];
    assert created - {id} == rooms - {id};
  }

  /** No two positions of `s` hold the same id. */
  ghost predicate Distinct(s: seq<RoomId>)
  {
    forall i, j :: 0 <= i < j < |s| ==> s[i] != s[j]
  }

  /** `s` without `x`; models the Map forgetting a deleted key's position. */
  function Erase(s: seq<RoomId>, x: RoomId): (r: seq<RoomId>)
    ensures forall y :: y in r <==> y in s && y != x
    ensures Distinct(s) ==> Distinct(r)
    ensures x !in s ==> r == s
  {
    if s == [] then []
    else if s[0] == x then Erase(s[1..], x)
    else
      var rest := Erase(s[1..], x);
      assert Distinct(s) ==> s[0] !in rest by {
        if Distinct(s) {
          forall k | 0 <= k < |s[1..]| ensures s[1..][k] != s[0] {
            assert s[1..][k] == s[k + 1];
          }
        }
      }
      [s[0]] + rest
  }

  /** Deleting a key keeps every other key in its place: the order loses
      exactly the one position that held the key. */
  lemma {:induction false} EraseKeepsOrder(s: seq<RoomId>, k: nat, x: RoomId)
    requires Distinct(s) && k < |s| && s[k] == x
    ensures Erase(s, x) == s[..k] + s[k + 1..]
  {
    if k == 0 {
      forall j | 0 <= j < |s[1..]| ensures s[1..][j] != x {
        assert s[1..][j] == s[j + 1];
      }
      assert s[..0] + s[1..] == s[1..];
    } else {
      assert s[0] != x;
      EraseKeepsOrder(s[1..], k - 1, x);
      assert s[..k] + s[k + 1..] == [s[0]] + (s[1..][..k - 1] + s[1..][k..]);
    }
  }

  /** A repetition-free sequence has as many elements as the set of its elements. */
  lemma {:induction false} DistinctCardinality(s: seq<RoomId>)
    requires Distinct(s)
    ensures |set x | x in s| == |s|
  {
    if s != [] {
      DistinctCardinality(s[1..]);
      assert (set x | x in s) == (set x | x in s[1..]) + {s[0]};
      assert s[0] !in s[1..];
    }
  }

  /** The service: the Map from room id to room, and the order in which the
      Map iterates its entries (insertion order), which `listRooms` reports. */
  class RoomsService {
    var rooms: RoomTable
    var order: seq<RoomId>

    ghost predicate Valid()
      reads this
    {
      && Consistent(rooms)
      && Distinct(order)
      && (forall id :: id in rooms <==> id in order)
    }

    constructor ()
      ensures Valid() && rooms == map[] && order == []
    {
      rooms := map[];
      order := [];
    }

    /** `createRoom` with the generated id and the current time as inputs:
        the room is stored under `id` with no participants; a Map keeps the
        position of a key that is set again. */
    method CreateRoom(id: RoomId, now: Timestamp) returns (room: RoomInfo)
      requires Valid()
      modifies this
      ensures Valid()
      ensures room == RoomInfo(id, now, {})
      ensures rooms == old(rooms)[id := room]
      ensures order == if id in old(rooms) then old(order) else old(order) + [id]
    {
      room := RoomInfo(id, now, {});
      if id !in rooms {
        order := order + [id];
      }
      rooms := rooms[id := room];
    }

    /** `listRooms`: one summary per stored room, in Map order. */
    function ListRooms(): (r: seq<RoomSummary>)
      reads this
      requires Valid()
      ensures |r| == |rooms|
      ensures forall i :: 0 <= i < |r| ==> r[i].id in rooms && r[i] == Summary(rooms[r[i].id])
      ensures forall id :: id in rooms ==> exists i :: 0 <= i < |r| && r[i].id == id
    {
      DistinctCardinality(order);
      assert (set x | x in order) == rooms.Keys;
      var r := Summaries(order, rooms);
      assert forall id :: id in rooms ==> exists i :: 0 <= i < |order| && order[i] == id;
      r
    }

    /** `getRoom`: the stored room, or NotFound for an unknown id. */
    method GetRoom(id: RoomId) returns (r: Result<RoomInfo>)
      ensures r.Ok? <==> id in rooms
      ensures r.Ok? ==> r.value == rooms[id]
      ensures r.Err? ==> r.error == RoomNotFound
    {
      if id in rooms {
        r := Ok(rooms[id]);
      } else {
        r := Err(RoomNotFound);
      }
    }

    /** `addParticipant`: fails as `Admit` says and leaves everything as it
        was; otherwise inserts the socket id and returns the other members. */
    method AddParticipant(roomId: RoomId, socketId: SocketId) returns (r: Result<seq<SocketId>>)
      requires Valid()
      modifies this
      ensures Valid()
      ensures order == old(order)
      ensures match Admit(old(rooms), roomId, socketId)
        case Ok(a) => rooms == a.rooms && r == Ok(a.existingParticipantIds)
        case Err(e) => rooms == old(rooms) && r == Err(e)
    {
      var found := GetRoom(roomId);
      if found.Err? {
        return Err(found.error);
      }
      var room := found.value;
      if |room.participantSocketIds| >= MaxParticipantsPerRoom {
        return Err(RoomIsFull);
      }
      var members := room.participantSocketIds + {socketId};
      rooms := rooms[roomId := room.(participantSocketIds := members)];
      r := Ok(AsList(members - {socketId}));
    }

    /** `removeParticipant`: a no-op for an unknown room; deletes the room
        (and its place in the Map order) once it has no participants. */
    method RemoveParticipant(roomId: RoomId, socketId: SocketId)
      requires Valid()
      modifies this
      ensures Valid()
      ensures rooms == RemovedFrom(old(rooms), roomId, socketId)
      ensures order == if roomId in old(rooms) && roomId !in rooms then Erase(old(order), roomId) else old(order)
    {
      if roomId !in rooms {
        return;
      }
      var room := rooms[roomId];
      var left := room.participantSocketIds - {socketId};
      rooms := rooms[roomId := room.(participantSocketIds := left)];
      if |left| == 0 {
        rooms := rooms - {roomId};
        order := Erase(order, roomId);
      }
    }
  }
}
