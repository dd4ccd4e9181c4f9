/** Room bookkeeping (server/rooms.js): a table from room id to the room's
    members and the drawing state bound to it. The room 'default' is created
    with the table and never deleted; any other room is created by the first
    join and deleted when its last member leaves.

    The operations are first given as functions on the table; the class
    `RoomManager` at the end updates its table in place, as the source does. */
module Rooms {
  import opened Strokes
  import opened OrderedSets
  import opened Options
  import Drawing

  type RoomId = string

  const DefaultRoom: RoomId := "default"

  /** A room: its id, its members in join order (a JavaScript Set), and the
      drawing state bound to it (`null` until one is set). */
  datatype Room = Room(id: RoomId, users: seq<UserId>, drawingState: Drawing.DrawingState?)

  type Registry = map<RoomId, Room>

  function EmptyRoom(id: RoomId): Room {
    Room(id, [], null)
  }

  /** The default room is present, every room is filed under its own id and
      lists each member once, and only the default room may be empty. */
  predicate WellFormed(rooms: Registry) {
    DefaultRoom in rooms &&
    forall id :: id in rooms ==>
      rooms[id].id == id && NoDup(rooms[id].users) && (id != DefaultRoom ==> rooms[id].users != [])
  }

  /** `joinRoom`: the room is created (with no drawing state) if absent, the
      user is added to it, and the room is returned; an existing room keeps
      its id, its other members in their order and its drawing state, and no
      other room changes. */
  function AfterJoin(rooms: Registry, userId: UserId, roomId: RoomId): (r: (Registry, Room))
    ensures roomId in r.0 && r.0[roomId] == r.1
    ensures userId in r.1.users
    ensures roomId in rooms ==>
      r.1.id == rooms[roomId].id && r.1.drawingState == rooms[roomId].drawingState &&
      r.1.users == Insert(rooms[roomId].users, userId)
    ensures roomId !in rooms ==> r.1 == Room(roomId, [userId], null)
    ensures forall id :: id != roomId ==> (id in r.0 <==> id in rooms) && (id in rooms ==> r.0[id] == rooms[id])
    ensures WellFormed(rooms) ==> WellFormed(r.0)
  {
    var room := if roomId in rooms then rooms[roomId] else EmptyRoom(roomId);
    var joined := room.(users := Insert(room.users, userId));
    (rooms[roomId := joined], joined)
  }

  /** `leaveRoom`: the user is removed from the room, and the room is deleted
      exactly when it is then empty and is not the default room; leaving a room
      that does not exist changes nothing. */
  function AfterLeave(rooms: Registry, userId: UserId, roomId: RoomId): (r: Registry)
    ensures roomId !in rooms ==> r == rooms
    ensures roomId in rooms ==>
      (roomId !in r <==> roomId != DefaultRoom && forall v :: v in rooms[roomId].users ==> v == userId)
    ensures roomId in rooms && roomId in r ==>
      r[roomId].id == rooms[roomId].id && r[roomId].drawingState == rooms[roomId].drawingState &&
      r[roomId].users == Remove(rooms[roomId].users, userId)
    ensures forall id :: id != roomId ==> (id in r <==> id in rooms) && (id in rooms ==> r[id] == rooms[id])
    ensures DefaultRoom in rooms ==> DefaultRoom in r
    ensures WellFormed(rooms) ==> WellFormed(r)
  {
    if roomId !in rooms then rooms
    else
      var room := rooms[roomId].(users := Remove(rooms[roomId].users, userId));
      assert room.users != [] ==> room.users[0] in room.users;
      if room.users == [] && roomId != DefaultRoom then rooms - {roomId}
      else rooms[roomId := room]
  }

  /** `setDrawingState`: binds `ds` to the room if it exists; nothing else
      changes, and nothing at all for an absent room. */
  function AfterSetDrawingState(rooms: Registry, roomId: RoomId, ds: Drawing.DrawingState?): (r: Registry)
    ensures r.Keys == rooms.Keys
    ensures roomId in rooms ==>
      r[roomId].drawingState == ds && r[roomId].id == rooms[roomId].id && r[roomId].users == rooms[roomId].users
    ensures forall id :: id in rooms && id != roomId ==> r[id] == rooms[id]
    ensures WellFormed(rooms) ==> WellFormed(r)
  {
    if roomId in rooms then rooms[roomId := rooms[roomId].(drawingState := ds)] else rooms
  }

  /** Joining twice is the same as joining once. */
  lemma JoinIdempotent(rooms: Registry, userId: UserId, roomId: RoomId)
    ensures var once := AfterJoin(rooms, userId, roomId);
      AfterJoin(once.0, userId, roomId) == once
  {
    var once := AfterJoin(rooms, userId, roomId);
    assert once.0[roomId := once.1] == once.0;
  }

  /** A member who leaves a room that stays is cut out of its member list at
      the position it joined in; the others keep their join order. */
  lemma LeaveKeepsJoinOrder(rooms: Registry, userId: UserId, roomId: RoomId, k: nat)
    requires WellFormed(rooms) && roomId in rooms
    requires k < |rooms[roomId].users| && rooms[roomId].users[k] == userId
    ensures var r := AfterLeave(rooms, userId, roomId);
      roomId in r ==> r[roomId].users == rooms[roomId].users[..k] + rooms[roomId].users[k + 1..]
  {
    RemoveKeepsOrder(rooms[roomId].users, userId, k);
  }

  /** A user who joins a room it was not in and leaves again leaves the table
      exactly as it found it: a room the join created is deleted again, and an
      existing room gets back its member list in the same order. */
  lemma {:induction false} LeaveUndoesJoin(rooms: Registry, userId: UserId, roomId: RoomId)
    requires WellFormed(rooms)
    requires roomId in rooms ==> userId !in rooms[roomId].users
    ensures AfterLeave(AfterJoin(rooms, userId, roomId).0, userId, roomId) == rooms
  {
    var joined := AfterJoin(rooms, userId, roomId).0;
    var left := AfterLeave(joined, userId, roomId);
    if roomId in rooms {
      var room := rooms[roomId];
      RemoveUndoesInsert(room.users, userId);
      assert joined[roomId].users == Insert(room.users, userId);
      assert roomId in left;
      assert left[roomId] == room;
      assert left == rooms;
    } else {
      assert Remove([userId], userId) == [];
      assert left == rooms;
    }
  }

  /** One call into the table, as a caller of `RoomManager` makes it. */
  datatype RoomOp =
    | JoinOp(userId: UserId, roomId: RoomId)
    | LeaveOp(userId: UserId, roomId: RoomId)
    | SetDrawingStateOp(roomId: RoomId, ds: Drawing.DrawingState?)

  function Apply(rooms: Registry, op: RoomOp): Registry {
    match op
    case JoinOp(u, id) => AfterJoin(rooms, u, id).0
    case LeaveOp(u, id) => AfterLeave(rooms, u, id)
    case SetDrawingStateOp(id, ds) => AfterSetDrawingState(rooms, id, ds)
  }

  function Run(rooms: Registry, ops: seq<RoomOp>): Registry
    decreases |ops|
  {
    if ops == [] then rooms else Run(Apply(rooms, ops[0]), ops[1..])
  }

  /** Whatever joins, leaves and bindings arrive, the default room stays and
      no other room is ever left empty. */
  lemma {:induction false} DefaultRoomPersists(rooms: Registry, ops: seq<RoomOp>)
    requires WellFormed(rooms)
    ensures WellFormed(Run(rooms, ops))
    ensures DefaultRoom in Run(rooms, ops)
    decreases |ops|
  {
    if ops != [] {
      DefaultRoomPersists(Apply(rooms, ops[0]), ops[1..]);
    }
  }

  class RoomManager {
    var rooms: Registry
    const defaultRoom: RoomId

    predicate Valid()
      reads this
    {
      defaultRoom == DefaultRoom && WellFormed(rooms)
    }

    /** A new manager holds the default room alone, with no members and no
        drawing state. */
    constructor ()
      ensures Valid()
      ensures rooms == map[DefaultRoom := EmptyRoom(DefaultRoom)]
    {
      rooms := map[];
      defaultRoom := DefaultRoom;
      new;
      InitializeDefaultRoom();
    }

    method InitializeDefaultRoom()
      modifies this
      ensures rooms == old(rooms)[defaultRoom := EmptyRoom(defaultRoom)]
    {
      rooms := rooms[defaultRoom := EmptyRoom(defaultRoom)];
    }

    method JoinRoom(userId: UserId, roomId: RoomId := DefaultRoom) returns (room: Room)
      requires Valid()
      modifies this
      ensures Valid() && (rooms, room) == AfterJoin(old(rooms), userId, roomId)
    {
      if roomId !in rooms {
        rooms := rooms[roomId := EmptyRoom(roomId)];
      }
      room := rooms[roomId];
      room := room.(users := Insert(room.users, userId));
      rooms := rooms[roomId := room];
      assert rooms == old(rooms)[roomId := room];
    }

    method LeaveRoom(userId: UserId, roomId: RoomId := DefaultRoom)
      requires Valid()
      modifies this
      ensures Valid() && rooms == AfterLeave(old(rooms), userId, roomId)
    {
      if roomId in rooms {
        var room := rooms[roomId];
        room := room.(users := Remove(room.users, userId));
        rooms := rooms[roomId := room];
        if |room.users| == 0 && roomId != defaultRoom {
          rooms := rooms - {roomId};
        }
      }
    }

    /** The room, or nothing for an absent id. */
    function GetRoom(roomId: RoomId := DefaultRoom): (r: Option<Room>)
      reads this
      ensures r.Some? <==> roomId in rooms
      ensures r.Some? ==> r.value == rooms[roomId]
    {
      if roomId in rooms then Some(rooms[roomId]) else None
    }

    /** The members in join order, each once; no one for an absent room. */
    function GetRoomUsers(roomId: RoomId := DefaultRoom): (users: seq<UserId>)
      reads this
      ensures roomId !in rooms ==> users == []
      ensures roomId in rooms ==> users == rooms[roomId].users
      ensures Valid() ==> NoDup(users)
    {
      if roomId in rooms then rooms[roomId].users else []
    }

    method SetDrawingState(roomId: RoomId, drawingState: Drawing.DrawingState?)
      requires Valid()
      modifies this
      ensures Valid() && rooms == AfterSetDrawingState(old(rooms), roomId, drawingState)
    {
      if roomId in rooms {
        var room := rooms[roomId];
        rooms := rooms[roomId := room.(drawingState := drawingState)];
      }
    }

    /** The drawing state bound to the room; `null` for an absent room. */
    function GetDrawingState(roomId: RoomId := DefaultRoom): (ds: Drawing.DrawingState?)
      reads this
      ensures roomId !in rooms ==> ds == null
      ensures roomId in rooms ==> ds == rooms[roomId].drawingState
    {
      if roomId in rooms then rooms[roomId].drawingState else null
    }
  }
}
