/** The server's connection handlers (server/server.js) as one state machine.

    Its state is the table of connected users (a JavaScript Map, so kept in
    insertion order), the colour counter, the room table and the one drawing
    state, which is bound to the room 'default' only. Every handler changes
    that state and then emits messages; instead of writing to sockets, each
    handler here returns the messages it emits, in order, each addressed to
    the sender alone (`socket.emit`), to every other connection
    (`socket.broadcast.emit`) or to every connection (`io.emit`).

    The handlers are first given as functions on a `ServerState` value; the
    class `Server` at the end holds the room manager and the drawing state as
    objects, as the source does, and each of its methods is proved to do
    exactly what the corresponding function says. */
module Server {
  import opened Strokes
  import opened OrderedSets
  import opened Options
  import Drawing
  import Rooms

  /** A connected user as the `users` table records it (the socket object
      itself is not modelled). */
  datatype User = User(id: UserId, name: string, color: string, room: Rooms.RoomId)

  /** A roster entry as it travels in 'init', 'user_joined' and 'user_left'. */
  datatype UserInfo = UserInfo(id: UserId, name: string, color: string)

  /** The palette users are coloured from, round robin. */
  const Colors: seq<string> :=
    ["#FF6B6B", "#4ECDC4", "#45B7D1", "#FFA07A", "#98D8C8", "#F7DC6F", "#BB8FCE", "#85C1E2"]

  /** Who receives a message: `socket.emit`, `socket.broadcast.emit`, `io.emit`. */
  datatype Audience = Sender | Others | Everyone

  /** The payload of a 'cursor_move' message from a client. */
  datatype CursorData = CursorData(x: real, y: real)

  datatype Payload =
    | InitPayload(userId: UserId, history: seq<Stroke>, users: seq<UserInfo>)
    | RosterPayload(users: seq<UserInfo>)
      /** the client's segment with the sender's id added (`{...data, userId}`) */
    | SegmentPayload(data: Segment, userId: UserId)
    | UserIdPayload(userId: UserId)
    | CursorPayload(userId: UserId, x: real, y: real, color: string, name: string)
    | HistoryPayload(history: seq<Stroke>)
    | NoPayload
    | UserLeftPayload(userId: UserId, users: seq<UserInfo>)

  /** One emitted message: audience, event name, payload. */
  datatype Emit = Emit(to: Audience, event: string, payload: Payload)

  // ---------------------------------------------------------------------------
  // The users table: a JavaScript Map, that is, a dictionary whose keys keep
  // their insertion order

  datatype UserTable = UserTable(order: seq<UserId>, entries: map<UserId, User>)

  /** The keys in `order` are the dictionary's keys, each listed once, and
      every entry is filed under its own id. */
  predicate TableValid(t: UserTable) {
    NoDup(t.order) &&
    (forall id :: id in t.order ==> id in t.entries) &&
    (forall id :: id in t.entries ==> id in t.order) &&
    (forall id :: id in t.entries ==> t.entries[id].id == id)
  }

  /** The users table as the Map it models: always consistent. */
  type Users = t: UserTable | TableValid(t) witness UserTable([], map[])

  const NoUsers: Users := UserTable([], map[])

  /** `users.size` */
  function Size(t: UserTable): nat {
    |t.order|
  }

  /** `users.get(id)` */
  function Lookup(t: UserTable, id: UserId): (r: Option<User>)
    ensures r.Some? <==> id in t.entries
    ensures r.Some? ==> r.value == t.entries[id]
  {
    if id in t.entries then Some(t.entries[id]) else None
  }

  /** `users.set(u.id, u)`: a new key goes to the end of the order, an existing
      one keeps its place and gets the new entry; no other entry changes. */
  function Put(t: Users, u: User): (r: Users)
    ensures r.order == Insert(t.order, u.id)
    ensures Lookup(r, u.id) == Some(u)
    ensures forall id :: id != u.id ==> Lookup(r, id) == Lookup(t, id)
  {
    UserTable(Insert(t.order, u.id), t.entries[u.id := u])
  }

  /** `users.delete(id)`: the key leaves the order and the entry goes; no other
      entry changes. */
  function Delete(t: Users, id: UserId): (r: Users)
    ensures r.order == Remove(t.order, id)
    ensures Lookup(r, id) == None
    ensures forall v :: v != id ==> Lookup(r, v) == Lookup(t, v)
  {
    UserTable(Remove(t.order, id), t.entries - {id})
  }

  function Info(u: User): UserInfo {
    UserInfo(u.id, u.name, u.color)
  }

  /** The roster entries for the ids in `order`, in that order. */
  function RosterOf(order: seq<UserId>, entries: map<UserId, User>): (r: seq<UserInfo>)
    requires forall id :: id in order ==> id in entries
    ensures |r| == |order|
    ensures forall i :: 0 <= i < |order| ==> r[i] == Info(entries[order[i]])
  {
    if order == [] then [] else [Info(entries[order[0]])] + RosterOf(order[1..], entries)
  }

  /** `Array.from(users.values()).map(u => ({id, name, color}))`: one entry per
      connected user, in connection order, with the id, name and colour the
      table records. */
  function Roster(t: Users): (r: seq<UserInfo>)
    ensures |r| == Size(t)
    ensures forall i :: 0 <= i < |r| ==> r[i].id == t.order[i] && r[i] == Info(t.entries[t.order[i]])
  {
    RosterOf(t.order, t.entries)
  }

  // ---------------------------------------------------------------------------
  // Display names

  function Digit(d: nat): (c: char)
    requires d < 10
  {
    ('0' as int + d) as char
  }

  /** The decimal numeral a template literal prints for `n`. */
  function Decimal(n: nat): (s: string)
    ensures |s| >= 1
    ensures forall i :: 0 <= i < |s| ==> '0' <= s[i] <= '9'
    decreases n
  {
    if n < 10 then [Digit(n)] else Decimal(n / 10) + [Digit(n % 10)]
  }

  /** The number a string of decimal digits denotes. */
  function DecimalValue(s: string): nat
    requires forall i :: 0 <= i < |s| ==> '0' <= s[i] <= '9'
    decreases |s|
  {
    if s == [] then 0
    else 10 * DecimalValue(s[..|s| - 1]) + (s[|s| - 1] as int - '0' as int)
  }

  lemma {:induction false} DecimalRoundTrip(n: nat)
    ensures DecimalValue(Decimal(n)) == n
    decreases n
  {
    var s := Decimal(n);
    if n >= 10 {
      DecimalRoundTrip(n / 10);
      assert s[..|s| - 1] == Decimal(n / 10);
    }
  }

  /** The name given to a user who connects while `count` users are connected. */
  function NameFor(count: nat): string {
    "User " + Decimal(count + 1)
  }

  /** Two connections get the same name exactly when they find the same number
      of users connected: names are unique among users who connect while the
      table only grows, and repeat once someone has left. */
  lemma NamesDifferByCount(a: nat, b: nat)
    ensures NameFor(a) == NameFor(b) <==> a == b
  {
    if NameFor(a) == NameFor(b) {
      assert NameFor(a)[5..] == Decimal(a + 1);
      assert NameFor(b)[5..] == Decimal(b + 1);
      DecimalRoundTrip(a + 1);
      DecimalRoundTrip(b + 1);
    }
  }

  // ---------------------------------------------------------------------------
  // The state machine

  datatype ServerState = ServerState(users: Users, colorIndex: nat,
                                     rooms: Rooms.Registry, drawing: Drawing.State)

  /** The state after start-up: no users, colour counter 0, the default room
      bound to the drawing state `ds`, and an empty drawing. */
  function Initial(ds: Drawing.DrawingState?): ServerState {
    ServerState(NoUsers, 0, map[Rooms.DefaultRoom := Rooms.Room(Rooms.DefaultRoom, [], ds)], Drawing.Empty)
  }

  /** The state every handler keeps: the default room is the only room, its
      members are the connected users in connection order, every user is
      recorded in that room, and the drawing state is well formed. */
  predicate Inv(m: ServerState) {
    Rooms.WellFormed(m.rooms) &&
    m.rooms.Keys == {Rooms.DefaultRoom} &&
    m.rooms[Rooms.DefaultRoom].users == m.users.order &&
    (forall id :: id in m.users.entries ==> m.users.entries[id].room == Rooms.DefaultRoom) &&
    Drawing.WellFormed(m.drawing)
  }

  /** 'connection': the user takes the next palette colour and a name from the
      current number of users, joins the default room and enters the table;
      the snapshot goes to the new connection alone, the roster to the others. */
  function AfterConnection(m: ServerState, userId: UserId): (r: (ServerState, seq<Emit>))
    ensures r.0.colorIndex == m.colorIndex + 1
    ensures Lookup(r.0.users, userId)
         == Some(User(userId, NameFor(Size(m.users)), Colors[m.colorIndex % 8], Rooms.DefaultRoom))
    ensures r.0.users.order == Insert(m.users.order, userId)
    ensures forall v :: v != userId ==> Lookup(r.0.users, v) == Lookup(m.users, v)
    ensures r.0.rooms == Rooms.AfterJoin(m.rooms, userId, Rooms.DefaultRoom).0
    ensures r.0.drawing == m.drawing
    ensures r.1 == [Emit(Sender, "init", InitPayload(userId, m.drawing.history, Roster(r.0.users))),
                    Emit(Others, "user_joined", RosterPayload(Roster(r.0.users)))]
    ensures UserInfo(userId, NameFor(Size(m.users)), Colors[m.colorIndex % 8]) in Roster(r.0.users)
  {
    var color := Colors[m.colorIndex % |Colors|];
    var name := NameFor(Size(m.users));
    var rooms := Rooms.AfterJoin(m.rooms, userId, Rooms.DefaultRoom).0;
    var users := Put(m.users, User(userId, name, color, Rooms.DefaultRoom));
    var roster := Roster(users);
    ghost var i :| 0 <= i < |users.order| && users.order[i] == userId;
    assert roster[i] == UserInfo(userId, name, color);
    (m.(users := users, colorIndex := m.colorIndex + 1, rooms := rooms),
     [Emit(Sender, "init", InitPayload(userId, m.drawing.history, roster)),
      Emit(Others, "user_joined", RosterPayload(roster))])
  }

  /** 'drawing': the segment goes into the sender's open stroke, then to every
      other connection, tagged with the sender's id. */
  function AfterDrawing(m: ServerState, userId: UserId, data: Segment): (r: (ServerState, seq<Emit>))
    ensures r.0 == m.(drawing := Drawing.AfterSegment(m.drawing, userId, data))
    ensures r.1 == [Emit(Others, "drawing", SegmentPayload(data, userId))]
  {
    (m.(drawing := Drawing.AfterSegment(m.drawing, userId, data)),
     [Emit(Others, "drawing", SegmentPayload(data, userId))])
  }

  /** 'draw_end': the sender's stroke is finalized, then every other
      connection is told whose stroke ended. */
  function AfterDrawEnd(m: ServerState, userId: UserId): (r: (ServerState, seq<Emit>))
    ensures r.0 == m.(drawing := Drawing.AfterEndStroke(m.drawing, userId))
    ensures r.1 == [Emit(Others, "draw_end", UserIdPayload(userId))]
  {
    (m.(drawing := Drawing.AfterEndStroke(m.drawing, userId)),
     [Emit(Others, "draw_end", UserIdPayload(userId))])
  }

  /** 'cursor_move': no state changes; the other connections get the position
      with the sender's recorded colour and name. For an id missing from the
      table the source fails on `user.color` before emitting anything. */
  function AfterCursorMove(m: ServerState, userId: UserId, data: CursorData): (r: (ServerState, seq<Emit>))
    ensures r.0 == m
    ensures userId !in m.users.entries ==> r.1 == []
    ensures userId in m.users.entries ==>
      var u := m.users.entries[userId];
      r.1 == [Emit(Others, "cursor_move", CursorPayload(userId, data.x, data.y, u.color, u.name))]
  {
    match Lookup(m.users, userId)
    case None => (m, [])
    case Some(u) => (m, [Emit(Others, "cursor_move", CursorPayload(userId, data.x, data.y, u.color, u.name))])
  }

  /** 'undo': the drawing state undoes first, then every connection, the
      sender included, gets the whole resulting history. */
  function AfterUndo(m: ServerState): (r: (ServerState, seq<Emit>))
    ensures r.0 == m.(drawing := Drawing.AfterUndo(m.drawing))
    ensures r.1 == [Emit(Everyone, "undo", HistoryPayload(r.0.drawing.history))]
  {
    var drawing := Drawing.AfterUndo(m.drawing);
    (m.(drawing := drawing), [Emit(Everyone, "undo", HistoryPayload(drawing.history))])
  }

  /** 'redo': as 'undo', with the redo step. */
  function AfterRedo(m: ServerState): (r: (ServerState, seq<Emit>))
    ensures r.0 == m.(drawing := Drawing.AfterRedo(m.drawing))
    ensures r.1 == [Emit(Everyone, "redo", HistoryPayload(r.0.drawing.history))]
  {
    var drawing := Drawing.AfterRedo(m.drawing);
    (m.(drawing := drawing), [Emit(Everyone, "redo", HistoryPayload(drawing.history))])
  }

  /** 'clear_canvas': the drawing state is cleared, then every connection, the
      sender included, is told so. */
  function AfterClearCanvas(m: ServerState): (r: (ServerState, seq<Emit>))
    ensures r.0 == m.(drawing := Drawing.AfterClear(m.drawing))
    ensures r.1 == [Emit(Everyone, "clear_canvas", NoPayload)]
  {
    (m.(drawing := Drawing.AfterClear(m.drawing)), [Emit(Everyone, "clear_canvas", NoPayload)])
  }

  /** 'disconnect': the user leaves the room it is recorded in and the table;
      the drawing state is not touched, so an open stroke stays open; the
      others get a roster without the user. */
  function AfterDisconnect(m: ServerState, userId: UserId): (r: (ServerState, seq<Emit>))
    ensures r.0.drawing == m.drawing && r.0.colorIndex == m.colorIndex
    ensures r.0.users.order == Remove(m.users.order, userId)
    ensures userId !in r.0.users.entries
    ensures forall v :: v != userId ==> Lookup(r.0.users, v) == Lookup(m.users, v)
    ensures userId in m.users.entries ==>
      r.0.rooms == Rooms.AfterLeave(m.rooms, userId, m.users.entries[userId].room)
    ensures userId !in m.users.entries ==> r.0.rooms == m.rooms
    ensures r.1 == [Emit(Others, "user_left", UserLeftPayload(userId, Roster(r.0.users)))]
    ensures forall i :: 0 <= i < |Roster(r.0.users)| ==> Roster(r.0.users)[i].id != userId
  {
    var rooms := match Lookup(m.users, userId)
                 case Some(u) => Rooms.AfterLeave(m.rooms, userId, u.room)
                 case None => m.rooms;
    var users := Delete(m.users, userId);
    assert forall i :: 0 <= i < |users.order| ==> users.order[i] in users.order;
    (m.(users := users, rooms := rooms),
     [Emit(Others, "user_left", UserLeftPayload(userId, Roster(users)))])
  }

  /** One event as it arrives at the server, with the connection it came on. */
  datatype Event =
    | Connect(userId: UserId)
    | DrawSegment(userId: UserId, data: Segment)
    | DrawEnd(userId: UserId)
    | CursorMove(userId: UserId, cursor: CursorData)
    | Undo(userId: UserId)
    | Redo(userId: UserId)
    | ClearCanvas(userId: UserId)
    | Disconnect(userId: UserId)

  function Handle(m: ServerState, e: Event): (ServerState, seq<Emit>) {
    match e
    case Connect(u) => AfterConnection(m, u)
    case DrawSegment(u, d) => AfterDrawing(m, u, d)
    case DrawEnd(u) => AfterDrawEnd(m, u)
    case CursorMove(u, c) => AfterCursorMove(m, u, c)
    case Undo(_) => AfterUndo(m)
    case Redo(_) => AfterRedo(m)
    case ClearCanvas(_) => AfterClearCanvas(m)
    case Disconnect(u) => AfterDisconnect(m, u)
  }

  /** The state after the events `es`, handled one at a time in arrival order. */
  function Run(m: ServerState, es: seq<Event>): ServerState
    decreases |es|
  {
    if es == [] then m else Run(Handle(m, es[0]).0, es[1..])
  }

  // ---------------------------------------------------------------------------
  // The invariant

  lemma InitialInv(ds: Drawing.DrawingState?)
    ensures Inv(Initial(ds))
  {
  }

  lemma ConnectionKeepsInv(m: ServerState, userId: UserId)
    requires Inv(m)
    ensures Inv(AfterConnection(m, userId).0)
  {
  }

  /** The steps the 'connection' handler takes, one after the other, arrive at
      the state and the messages `AfterConnection` gives, and keep the invariant. */
  lemma ConnectionSteps(m: ServerState, userId: UserId, m': ServerState, out: seq<Emit>)
    requires Inv(m)
    requires m'.colorIndex == m.colorIndex + 1
    requires m'.rooms == Rooms.AfterJoin(m.rooms, userId, Rooms.DefaultRoom).0
    requires m'.users == Put(m.users, User(userId, NameFor(Size(m.users)), Colors[m.colorIndex % 8], Rooms.DefaultRoom))
    requires m'.drawing == m.drawing
    requires out == [Emit(Sender, "init", InitPayload(userId, m.drawing.history, Roster(m'.users))),
                     Emit(Others, "user_joined", RosterPayload(Roster(m'.users)))]
    ensures Inv(m') && (m', out) == AfterConnection(m, userId)
  {
    var r := AfterConnection(m, userId);
    assert m' == r.0 by {
      assert m'.users == r.0.users;
      assert m'.rooms == r.0.rooms;
    }
    assert out == r.1;
    ConnectionKeepsInv(m, userId);
  }

  /** A disconnect cuts the user out of the table at the position it
      connected in; everyone else keeps their connection order, and so does the
      roster sent to them. */
  lemma DisconnectKeepsConnectionOrder(m: ServerState, userId: UserId, k: nat)
    requires k < |m.users.order| && m.users.order[k] == userId
    ensures var r := AfterDisconnect(m, userId).0;
      r.users.order == m.users.order[..k] + m.users.order[k + 1..] &&
      |Roster(r.users)| == |m.users.order| - 1
  {
    RemoveKeepsOrder(m.users.order, userId, k);
  }

  lemma DisconnectKeepsInv(m: ServerState, userId: UserId)
    requires Inv(m)
    ensures Inv(AfterDisconnect(m, userId).0)
  {
  }

  /** Every handler keeps the invariant. */
  lemma HandleKeepsInv(m: ServerState, e: Event)
    requires Inv(m)
    ensures Inv(Handle(m, e).0)
  {
    match e
    case Connect(u) => ConnectionKeepsInv(m, u);
    case Disconnect(u) => DisconnectKeepsInv(m, u);
    case _ =>
  }

  /** From start-up on, whatever events arrive, the invariant holds: the
      default room is never deleted and its members are always exactly the
      connected users, in connection order. */
  lemma {:induction false} RunKeepsInv(m: ServerState, es: seq<Event>)
    requires Inv(m)
    ensures Inv(Run(m, es))
    decreases |es|
  {
    if es != [] {
      HandleKeepsInv(m, es[0]);
      RunKeepsInv(Handle(m, es[0]).0, es[1..]);
    }
  }

  // ---------------------------------------------------------------------------
  // Colours and names

  /** The number of connections among `es`. */
  function Connections(es: seq<Event>): nat {
    if es == [] then 0 else (if es[0].Connect? then 1 else 0) + Connections(es[1..])
  }

  /** The colour counter counts connections and never goes back. */
  lemma {:induction false} ColorIndexCountsConnections(m: ServerState, es: seq<Event>)
    ensures Run(m, es).colorIndex == m.colorIndex + Connections(es)
    decreases |es|
  {
    if es != [] {
      ColorIndexCountsConnections(Handle(m, es[0]).0, es[1..]);
    }
  }

  /** The connection that follows `n` earlier connections since start-up gets
      palette colour `n mod 8`, whoever has left in between. */
  lemma NthConnectionColor(ds: Drawing.DrawingState?, es: seq<Event>, userId: UserId)
    ensures var m := Run(Initial(ds), es);
      Lookup(AfterConnection(m, userId).0.users, userId).value.color == Colors[Connections(es) % 8]
  {
    var m0 := Initial(ds);
    var m := Run(m0, es);
    assert m.colorIndex == Connections(es) by {
      ColorIndexCountsConnections(m0, es);
    }
    ConnectionColor(m, userId);
  }

  /** A connection takes the colour the counter points at. */
  lemma ConnectionColor(m: ServerState, userId: UserId)
    ensures Lookup(AfterConnection(m, userId).0.users, userId).Some?
    ensures Lookup(AfterConnection(m, userId).0.users, userId).value.color == Colors[m.colorIndex % 8]
  {
  }

  /** Running `[e] + rest` handles `e`, then runs `rest`. */
  /** Names repeat after churn: with "a" and "b" connected, "a" leaves and "c"
      connects; "b" and "c" are both called "User 2". */
  lemma NamesRepeatAfterChurn(ds: Drawing.DrawingState?)
    ensures var m := Run(Initial(ds), [Connect("a"), Connect("b"), Disconnect("a"), Connect("c")]);
      Lookup(m.users, "b").Some? && Lookup(m.users, "c").Some? &&
      Lookup(m.users, "b").value.name == Lookup(m.users, "c").value.name == "User 2"
  {
    SecondName();
    var m0 := Initial(ds);
    var m2 := Handle(Handle(m0, Connect("a")).0, Connect("b")).0;
    ChurnConnectTwo(m0);
    var m3 := Handle(m2, Disconnect("a")).0;
    ChurnLeave(m2);
    ChurnConnectThird(m3);
    ChurnRun(m0);
  }

  /** A new id joins the end of the table under the name its position gives. */
  lemma ConnectNew(m: ServerState, userId: UserId)
    requires userId !in m.users.order
    ensures var r := Handle(m, Connect(userId)).0;
      r.users.order == m.users.order + [userId] &&
      Lookup(r.users, userId).Some? && Lookup(r.users, userId).value.name == NameFor(|m.users.order|)
  {
  }

  lemma ChurnConnectTwo(m0: ServerState)
    requires m0.users.order == []
    ensures var m2 := Handle(Handle(m0, Connect("a")).0, Connect("b")).0;
      m2.users.order == ["a", "b"] && Lookup(m2.users, "b").Some? && Lookup(m2.users, "b").value.name == NameFor(1)
  {
    ConnectNew(m0, "a");
    var m1 := Handle(m0, Connect("a")).0;
    assert m1.users.order == ["a"];
    ConnectNew(m1, "b");
  }

  lemma ChurnLeave(m2: ServerState)
    requires m2.users.order == ["a", "b"]
    ensures var m3 := Handle(m2, Disconnect("a")).0;
      m3.users.order == ["b"] && Lookup(m3.users, "b") == Lookup(m2.users, "b")
  {
    assert ["a", "b"][1..] == ["b"] && ["b"][1..] == [];
    assert Remove(["a", "b"], "a") == Remove(["b"], "a");
    assert Remove(["b"], "a") == ["b"] + Remove([], "a");
  }

  lemma ChurnConnectThird(m3: ServerState)
    requires m3.users.order == ["b"]
    ensures var m4 := Handle(m3, Connect("c")).0;
      Lookup(m4.users, "c").Some? && Lookup(m4.users, "c").value.name == NameFor(1) &&
      Lookup(m4.users, "b") == Lookup(m3.users, "b")
  {
  }

  lemma ChurnRun(m0: ServerState)
    ensures Run(m0, [Connect("a"), Connect("b"), Disconnect("a"), Connect("c")])
         == Handle(Handle(Handle(Handle(m0, Connect("a")).0, Connect("b")).0, Disconnect("a")).0, Connect("c")).0
  {
    var es := [Connect("a"), Connect("b"), Disconnect("a"), Connect("c")];
    assert es[1..][1..][1..][1..] == [];
  }

  /** "User 2" is the name `NameFor(1)` produces. */
  lemma SecondName()
    ensures NameFor(1) == "User 2"
  {
  }

  // ---------------------------------------------------------------------------
  // The drawing state under the handlers

  /** The calls the handler for `e` makes into the drawing state. */
  function CallsOf(e: Event): (ops: seq<Drawing.Op>)
    ensures |ops| <= 1
  {
    match e
    case DrawSegment(u, d) => [Drawing.SegmentOp(u, d)]
    case DrawEnd(u) => [Drawing.EndStrokeOp(u)]
    case Undo(_) => [Drawing.UndoOp]
    case Redo(_) => [Drawing.RedoOp]
    case ClearCanvas(_) => [Drawing.ClearOp]
    case _ => []
  }

  /** The calls the handlers make into the drawing state for `es`, in order. */
  function DrawingOps(es: seq<Event>): seq<Drawing.Op> {
    if es == [] then [] else CallsOf(es[0]) + DrawingOps(es[1..])
  }

  /** Handling one event runs the drawing state on that event's calls. */
  lemma HandleDrawingStep(m: ServerState, e: Event)
    ensures Handle(m, e).0.drawing == Drawing.Run(m.drawing, CallsOf(e))
  {
    match e
    case DrawSegment(u, d) => assert [Drawing.SegmentOp(u, d)][1..] == [];
    case DrawEnd(u) => assert [Drawing.EndStrokeOp(u)][1..] == [];
    case Undo(_) => assert [Drawing.UndoOp][1..] == [];
    case Redo(_) => assert [Drawing.RedoOp][1..] == [];
    case ClearCanvas(_) => assert [Drawing.ClearOp][1..] == [];
    case Connect(u) =>
    case CursorMove(u, c) =>
    case Disconnect(u) =>
  }

  /** The server's drawing state is the drawing state run on the calls the
      handlers make: connecting, moving the cursor and disconnecting never
      touch it. */
  lemma {:induction false} DrawingFollowsEvents(m: ServerState, es: seq<Event>)
    ensures Run(m, es).drawing == Drawing.Run(m.drawing, DrawingOps(es))
    decreases |es|
  {
    if es != [] {
      var next := Handle(m, es[0]).0;
      DrawingFollowsEvents(next, es[1..]);
      var head := CallsOf(es[0]);
      HandleDrawingStep(m, es[0]);
      RunConcat(m.drawing, head, DrawingOps(es[1..]));
    }
  }

  lemma RunConcat(s: Drawing.State, a: seq<Drawing.Op>, b: seq<Drawing.Op>)
    requires |a| <= 1
    ensures Drawing.Run(s, a + b) == Drawing.Run(Drawing.Run(s, a), b)
  {
    if a != [] {
      assert (a + b)[1..] == b;
    } else {
      assert a + b == b;
    }
  }

  /** Events from other connections only: none that draws or ends a stroke on
      `userId`'s connection. */
  predicate NothingFrom(es: seq<Event>, userId: UserId) {
    forall i :: 0 <= i < |es| ==> es[i] != DrawEnd(userId) && !(es[i].DrawSegment? && es[i].userId == userId)
  }

  lemma {:induction false} NothingFromSilent(es: seq<Event>, userId: UserId)
    requires NothingFrom(es, userId)
    ensures Drawing.SilentAuthor(DrawingOps(es), userId)
    decreases |es|
  {
    if es != [] {
      assert NothingFrom(es[1..], userId) by {
        forall i | 0 <= i < |es[1..]|
          ensures es[1..][i] != DrawEnd(userId) && !(es[1..][i].DrawSegment? && es[1..][i].userId == userId)
        {
          assert es[1..][i] == es[i + 1];
        }
      }
      NothingFromSilent(es[1..], userId);
      var head := CallsOf(es[0]);
      assert es[0] != DrawEnd(userId) && !(es[0].DrawSegment? && es[0].userId == userId);
      forall i | 0 <= i < |DrawingOps(es)|
        ensures !(DrawingOps(es)[i].SegmentOp? && DrawingOps(es)[i].userId == userId) &&
                DrawingOps(es)[i] != Drawing.EndStrokeOp(userId)
      {
        if i >= |head| {
          assert DrawingOps(es)[i] == DrawingOps(es[1..])[i - |head|];
        }
      }
    }
  }

  /** A stroke left open at disconnect is never finalized: once a connection
      has gone, the number of its strokes in the history and redo stack
      together never grows, whatever the remaining connections do. */
  lemma DisconnectedAuthorNeverFinalizes(m: ServerState, userId: UserId, es: seq<Event>)
    requires Inv(m)
    requires NothingFrom(es, userId)
    ensures var before := AfterDisconnect(m, userId).0.drawing;
            var after := Run(AfterDisconnect(m, userId).0, es).drawing;
      Drawing.Authored(userId, after.history + after.undoneHistory)
        <= Drawing.Authored(userId, before.history + before.undoneHistory)
  {
    var left := AfterDisconnect(m, userId).0;
    DrawingFollowsEvents(left, es);
    NothingFromSilent(es, userId);
    Drawing.SilentAuthorGainsNoStroke(left.drawing, DrawingOps(es), userId);
  }

  // ---------------------------------------------------------------------------
  // The server object

  class Server {
    var users: Users
    var colorIndex: nat
    const roomManager: Rooms.RoomManager
    const drawingState: Drawing.DrawingState

    function Model(): ServerState
      reads this, roomManager, drawingState
    {
      ServerState(users, colorIndex, roomManager.rooms, drawingState.Model())
    }

    /** The handler invariant, and the one drawing state is the one bound to
        the default room. */
    predicate Valid()
      reads this, roomManager, drawingState
    {
      Inv(Model()) && roomManager.Valid() && drawingState.Valid() &&
      roomManager.rooms[Rooms.DefaultRoom].drawingState == drawingState
    }

    /** Start-up: a room manager, one drawing state bound to 'default', no
        users, colour counter 0. */
    constructor ()
      ensures Valid() && Model() == Initial(drawingState)
      ensures fresh(roomManager) && fresh(drawingState)
    {
      var rm := new Rooms.RoomManager();
      var ds := new Drawing.DrawingState();
      rm.SetDrawingState(Rooms.DefaultRoom, ds);
      roomManager := rm;
      drawingState := ds;
      users := NoUsers;
      colorIndex := 0;
      new;
      InitialInv(ds);
    }

    method OnConnection(userId: UserId) returns (out: seq<Emit>)
      requires Valid()
      modifies this, roomManager
      ensures Valid() && (Model(), out) == AfterConnection(old(Model()), userId)
    {
      ghost var m := Model();
      var userColor := Colors[colorIndex % |Colors|];
      colorIndex := colorIndex + 1;
      var userName := "User " + Decimal(Size(users) + 1);
      var _ := roomManager.JoinRoom(userId, Rooms.DefaultRoom);
      users := Put(users, User(userId, userName, userColor, Rooms.DefaultRoom));
      assert users == Put(m.users, User(userId, NameFor(Size(m.users)), Colors[m.colorIndex % 8], Rooms.DefaultRoom));
      var history := drawingState.GetHistory();
      out := [Emit(Sender, "init", InitPayload(userId, history, Roster(users))),
              Emit(Others, "user_joined", RosterPayload(Roster(users)))];
      assert roomManager.rooms == Rooms.AfterJoin(m.rooms, userId, Rooms.DefaultRoom).0;
      ConnectionSteps(m, userId, Model(), out);
    }

    method OnDrawing(userId: UserId, data: Segment) returns (out: seq<Emit>)
      requires Valid()
      modifies drawingState
      ensures Valid() && (Model(), out) == AfterDrawing(old(Model()), userId, data)
    {
      drawingState.AddDrawingPoint(userId, data);
      out := [Emit(Others, "drawing", SegmentPayload(data, userId))];
    }

    method OnDrawEnd(userId: UserId) returns (out: seq<Emit>)
      requires Valid()
      modifies drawingState
      ensures Valid() && (Model(), out) == AfterDrawEnd(old(Model()), userId)
    {
      drawingState.EndStroke(userId);
      out := [Emit(Others, "draw_end", UserIdPayload(userId))];
    }

    /** Changes nothing; see `AfterCursorMove` for what it sends. */
    method OnCursorMove(userId: UserId, data: CursorData) returns (out: seq<Emit>)
      requires Valid()
      ensures (Model(), out) == AfterCursorMove(Model(), userId, data)
    {
      var user := Lookup(users, userId);
      if user.None? {
        out := [];
      } else {
        out := [Emit(Others, "cursor_move",
                     CursorPayload(userId, data.x, data.y, user.value.color, user.value.name))];
      }
    }

    method OnUndo() returns (out: seq<Emit>)
      requires Valid()
      modifies drawingState
      ensures Valid() && (Model(), out) == AfterUndo(old(Model()))
    {
      var newHistory := drawingState.Undo();
      out := [Emit(Everyone, "undo", HistoryPayload(newHistory))];
    }

    method OnRedo() returns (out: seq<Emit>)
      requires Valid()
      modifies drawingState
      ensures Valid() && (Model(), out) == AfterRedo(old(Model()))
    {
      var newHistory := drawingState.Redo();
      out := [Emit(Everyone, "redo", HistoryPayload(newHistory))];
    }

    method OnClearCanvas() returns (out: seq<Emit>)
      requires Valid()
      modifies drawingState
      ensures Valid() && (Model(), out) == AfterClearCanvas(old(Model()))
    {
      drawingState.Clear();
      out := [Emit(Everyone, "clear_canvas", NoPayload)];
    }

    method OnDisconnect(userId: UserId) returns (out: seq<Emit>)
      requires Valid()
      modifies this, roomManager
      ensures Valid() && (Model(), out) == AfterDisconnect(old(Model()), userId)
    {
      ghost var m := Model();
      var user := Lookup(users, userId);
      if user.Some? {
        roomManager.LeaveRoom(userId, user.value.room);
      }
      users := Delete(users, userId);
      out := [Emit(Others, "user_left", UserLeftPayload(userId, Roster(users)))];
      DisconnectKeepsInv(m, userId);
    }
  }
}
