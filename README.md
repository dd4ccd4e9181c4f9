# Collaborative canvas: a verified model of the server and the client mirror

This project models the core of a small real-time collaborative drawing board in Dafny.
Every connection draws strokes as a stream of two-point segments. The server keeps one
authoritative drawing: the finalized strokes in order, a redo stack, and at most one open
stroke per author. It relays every segment to the other connections. Undo, redo and clear act
on the one shared history. After an undo or a redo the server sends the resulting history to
everyone; after a clear it sends everyone a bare `clear_canvas` notice.

Each client keeps a mirror of that history. The mirror follows one remote stroke at a time and
adopts the server's history whenever the server sends it.

The model has five parts:

- **Strokes** (`strokes.dfy`): points, segments and strokes as they travel. It also gives the
  stroke a run of segments builds: the first segment's pen and every endpoint.
- **Drawing** (`drawing.dfy`, from `server/drawing-state.js`): the drawing state.
  - It is first given as pure transition functions on a `State` value.
  - Lemmas state what those functions promise: undo/redo round trips, no stroke lost or made
    up, finalization order, isolation between authors' open strokes, and authors who have gone
    silent.
  - The class `DrawingState` updates its fields in place. Each method is proved to move them
    exactly as the matching function says.
- **Rooms** (`rooms.dfy`, from `server/rooms.js`): the room table and its operations. It has
  the same split into functions, lemmas and the class `RoomManager`.
- **Server** (`server.dfy`, from `server/server.js`): the connection handlers as one state
  machine over the users table, the colour counter, the room table and the drawing state.
  - A handler does not write to sockets. It returns the messages it emits, in order, each
    addressed to the sender, to every other connection, or to everyone.
  - The class `Server` holds a `RoomManager` and a `DrawingState` object, as the source does.
    Only the room `default` is bound to the drawing state.
- **Client** (`client.dfy`, from `client/websocket.js`): the state the `WebSocketManager`
  keeps: its own id, the followed stroke, the stroke history and the redo list. It has
  functions for each handler, lemmas, and the class `WebSocketManager`.

`ordered_sets.dfy` models a JavaScript `Set` as a duplicate-free sequence in insertion order.
`options.dfy` holds an `Option` type. `sync.dfy` states what a client holds after it applies
the messages the server emits.

Where the source and the written description of the system disagree, the model follows the
source:

- **Disconnect keeps the open stroke.** On disconnect the server does not discard the
  departing user's open stroke. The stroke stays in the table of open strokes until a clear,
  and it is never finalized (`Server.DisconnectedAuthorNeverFinalizes`).

## Model

| member | source | states |
|---|---|---|
| Strokes.Extend | server/drawing-state.js:19-21 | appending a segment adds its start point and then its end point; author and pen are untouched; a stroke of whole segments stays whole |
| Strokes.Endpoints | client/websocket.js:43-44 | the points a run of segments contributes: two per segment, start then end, in order |
| Strokes.EndpointsAppend | server/drawing-state.js:19-21 | the endpoints of two runs of segments, one after the other, are the two lists of endpoints concatenated |
| Strokes.Built | server/drawing-state.js:9-21 | the stroke an uninterrupted run of segments builds is whole (at least two points, an even number) |
| OrderedSets.Insert | server/rooms.js:26 | `Set.add`: membership gains `x`; a present element leaves the order unchanged; a new one goes to the end; no duplicates appear |
| OrderedSets.Remove | server/rooms.js:33 | `Set.delete`: membership loses exactly `x`; an absent `x` changes nothing; the size drops by one when `x` was present |
| OrderedSets.RemoveKeepsOrder | server/rooms.js:33 | deleting a present element cuts it out at its position; the elements before and after it keep their order |
| OrderedSets.RemoveUndoesInsert | server/rooms.js:26-33 | adding an absent element and deleting it again gives back the same set in the same order |
| OrderedSets.InsertIdempotent | server/rooms.js:26 | adding an element twice is the same as adding it once |
| Drawing.AfterSegment | server/drawing-state.js:8-22 | `addDrawingPoint`: the author's stroke gains start then end point; a new stroke takes this segment's pen, an open one keeps its pen; other strokes, history and redo stack are unchanged; well-formedness is kept |
| Drawing.AfterEndStroke | server/drawing-state.js:24-31 | `endStroke`: the open stroke goes to the end of the history, leaves the open table, and the redo stack is emptied; without an open stroke nothing changes |
| Drawing.AfterUndo | server/drawing-state.js:37-43 | `undo`: the last stroke moves to the top of the redo stack; an empty history changes nothing; both stacks together keep the same multiset of strokes |
| Drawing.AfterRedo | server/drawing-state.js:45-51 | `redo`: the top of the redo stack goes back to the end of the history; an empty redo stack changes nothing; the multiset of strokes is kept |
| Drawing.AfterClear | server/drawing-state.js:53-57 | `clear`: history, redo stack and every open stroke are gone |
| Drawing.Run | server/drawing-state.js:8-57 | any sequence of calls keeps the state well formed: open strokes filed under their author, every stroke made of whole segments |
| Drawing.UndoThenRedo | server/drawing-state.js:37-51 | on a non-empty history, undo then redo restores both stacks exactly |
| Drawing.RedoThenUndo | server/drawing-state.js:37-51 | on a non-empty redo stack, redo then undo restores both stacks exactly |
| Drawing.EndStrokeDisablesRedo | server/drawing-state.js:24-31 | after a stroke is finalized, redo is a no-op even if strokes had been undone |
| Drawing.NewStrokeAfterUndoDropsRedo | server/drawing-state.js:24-43 | a stroke finalized after an undo replaces the undone stroke at the end of the history, and redo can no longer bring the undone stroke back |
| Drawing.ClearedStateIsQuiet | server/drawing-state.js:53-57 | after a clear, undo, redo and ending any stroke change nothing |
| Drawing.HistoryIsFinalizationOrder | server/drawing-state.js:24-31 | finalizing the open strokes of distinct authors appends them to the history in exactly the order the calls arrive |
| Drawing.OpenStrokeCollectsOwnSegments | server/drawing-state.js:8-22 | whatever other authors do in between, an author's open stroke gains exactly the endpoints of that author's own segments, in arrival order |
| Drawing.OpenStrokeKeepsFirstPen | server/drawing-state.js:9-17 | an open stroke keeps the pen it was opened with; a closed one is opened with the pen of the author's first segment, or stays closed if there is none |
| Drawing.FreshStrokeIsBuilt | server/drawing-state.js:8-22 | an author with no open stroke who sends a run of segments ends up with exactly the stroke that run builds, whatever others send in between |
| Drawing.SilentAuthorKeepsOpenStroke | server/drawing-state.js:8-31 | while an author sends nothing, the open stroke it left stays exactly as it was until a clear |
| Drawing.SilentAuthorGainsNoStroke | server/drawing-state.js:24-51 | an author who sends nothing more never gains a stroke in history and redo stack taken together |
| Drawing.DrawingState.constructor | server/drawing-state.js:2-6 | a new drawing state is empty and well formed |
| Drawing.DrawingState.AddDrawingPoint | server/drawing-state.js:8-22 | updates the fields in place exactly as `AfterSegment` says and keeps them well formed |
| Drawing.DrawingState.EndStroke | server/drawing-state.js:24-31 | updates the fields exactly as `AfterEndStroke` says |
| Drawing.DrawingState.GetHistory | server/drawing-state.js:33-35 | returns the history, every stroke in it whole |
| Drawing.DrawingState.Undo | server/drawing-state.js:37-43 | updates the fields exactly as `AfterUndo` says and returns the new history |
| Drawing.DrawingState.Redo | server/drawing-state.js:45-51 | updates the fields exactly as `AfterRedo` says and returns the new history |
| Drawing.DrawingState.Clear | server/drawing-state.js:53-57 | updates the fields exactly as `AfterClear` says |
| Rooms.AfterJoin | server/rooms.js:16-28 | `joinRoom`: an absent room is created with no drawing state; the user is added to the room's set; the room is returned; an existing room keeps id and drawing state; no other room changes; the table stays well formed |
| Rooms.AfterLeave | server/rooms.js:30-39 | `leaveRoom`: the user leaves the room; the room is deleted exactly when it is then empty and is not `default`; an absent room changes nothing; `default` is never deleted |
| Rooms.AfterSetDrawingState | server/rooms.js:50-55 | `setDrawingState`: binds the drawing state to an existing room; keeps its members; is a no-op for an absent room |
| Rooms.LeaveKeepsJoinOrder | server/rooms.js:30-39 | a member who leaves a room that stays is cut out at its position; the other members keep their join order |
| Rooms.JoinIdempotent | server/rooms.js:16-28 | joining the same room twice is the same as joining once |
| Rooms.LeaveUndoesJoin | server/rooms.js:16-39 | a user who joins a room it was not in and then leaves returns the table to exactly its previous state, including a created room's deletion and the member order |
| Rooms.DefaultRoomPersists | server/rooms.js:2-39 | whatever joins, leaves and bindings arrive, the default room stays and no other room is left empty |
| Rooms.RoomManager.constructor | server/rooms.js:2-6 | a new manager holds the default room alone, with no members and no drawing state |
| Rooms.RoomManager.InitializeDefaultRoom | server/rooms.js:8-14 | (re)creates the default room empty, with no drawing state |
| Rooms.RoomManager.JoinRoom | server/rooms.js:16-28 | updates the table as `AfterJoin` says and returns the joined room |
| Rooms.RoomManager.LeaveRoom | server/rooms.js:30-39 | updates the table as `AfterLeave` says |
| Rooms.RoomManager.GetRoom | server/rooms.js:41-43 | the room if present, nothing otherwise |
| Rooms.RoomManager.GetRoomUsers | server/rooms.js:45-48 | the members in join order, without duplicates; none for an absent room |
| Rooms.RoomManager.SetDrawingState | server/rooms.js:50-55 | updates the table as `AfterSetDrawingState` says |
| Rooms.RoomManager.GetDrawingState | server/rooms.js:57-60 | the bound drawing state; `null` for an absent room |
| Server.Lookup | server/server.js:79 | `users.get`: an entry exactly for the connected ids, and it is the recorded one |
| Server.Put | server/server.js:39-45 | `users.set`: a new id goes to the end of the order; the entry is recorded; no other entry changes |
| Server.Delete | server/server.js:109 | `users.delete`: the id leaves the order and the table; no other entry changes |
| Server.Roster | server/server.js:50-54 | the roster has one entry per connected user, in connection order, with the recorded id, name and colour |
| Server.DecimalRoundTrip | server/server.js:34 | the decimal numeral printed for a count reads back as that count |
| Server.NamesDifferByCount | server/server.js:34 | two connections get the same display name exactly when they find the same number of users connected |
| Server.AfterConnection | server/server.js:29-63 | 'connection': next palette colour, counter +1, name from the number of connected users, the user joins `default` and is appended to the table; the snapshot of the history and the roster go to the sender, the roster to the others |
| Server.AfterDrawing | server/server.js:65-71 | 'drawing': the segment goes into the sender's open stroke; it is relayed to the others with the sender's id |
| Server.AfterDrawEnd | server/server.js:73-76 | 'draw_end': the sender's stroke is finalized; the others learn whose stroke ended |
| Server.AfterCursorMove | server/server.js:78-87 | 'cursor_move': no state changes; the others get the position with the sender's recorded colour and name; nothing is sent for an unknown sender |
| Server.AfterUndo | server/server.js:89-92 | 'undo': the drawing state undoes; everyone, the sender included, gets the new history |
| Server.AfterRedo | server/server.js:94-97 | 'redo': the drawing state redoes; everyone gets the new history |
| Server.AfterClearCanvas | server/server.js:99-102 | 'clear_canvas': the drawing state is cleared; everyone is told |
| Server.AfterDisconnect | server/server.js:104-118 | 'disconnect': the user leaves its recorded room and the table; the drawing state is untouched; the others get a roster that no longer lists the user |
| Server.DisconnectKeepsConnectionOrder | server/server.js:104-118 | a disconnect cuts the user out of the table at its position; the others keep their connection order, and the roster sent to them is one shorter |
| Server.InitialInv | server/server.js:16-27 | the start-up state satisfies the handler invariant |
| Server.HandleKeepsInv | server/server.js:29-118 | every handler keeps the invariant: `default` is the only room, its members are the connected users in connection order, every user is recorded in `default`, and the drawing state is well formed |
| Server.RunKeepsInv | server/server.js:29-118 | the invariant holds after any sequence of events |
| Server.ColorIndexCountsConnections | server/server.js:27-32 | the colour counter grows by exactly the number of connections and never goes back |
| Server.NthConnectionColor | server/server.js:22-32 | the connection after `n` earlier connections since start-up gets palette colour `n mod 8`, whoever has left meanwhile |
| Server.NamesRepeatAfterChurn | server/server.js:34 | after "a" and "b" connect, "a" leaves and "c" connects, "b" and "c" are both named "User 2" |
| Server.DrawingFollowsEvents | server/server.js:65-102 | the server's drawing state is the drawing state run on the calls the handlers make; connecting, moving the cursor and disconnecting never touch it |
| Server.DisconnectedAuthorNeverFinalizes | server/server.js:104-118 | once a connection has gone, the number of its strokes in history and redo stack never grows, whatever the others do |
| Server.Server.constructor | server/server.js:16-27 | start-up: a room manager with `default` bound to a fresh drawing state, no users, counter 0; the invariant holds |
| Server.Server.OnConnection | server/server.js:29-63 | updates the table, the counter and the rooms, and returns the messages, exactly as `AfterConnection` says |
| Server.Server.OnDrawing | server/server.js:65-71 | as `AfterDrawing` says |
| Server.Server.OnDrawEnd | server/server.js:73-76 | as `AfterDrawEnd` says |
| Server.Server.OnCursorMove | server/server.js:78-87 | changes nothing and returns what `AfterCursorMove` says |
| Server.Server.OnUndo | server/server.js:89-92 | as `AfterUndo` says |
| Server.Server.OnRedo | server/server.js:94-97 | as `AfterRedo` says |
| Server.Server.OnClearCanvas | server/server.js:99-102 | as `AfterClearCanvas` says |
| Server.Server.OnDisconnect | server/server.js:104-118 | as `AfterDisconnect` says |
| Client.AfterInit | client/websocket.js:22-27 | 'init': the id is learnt; the history becomes the server's, or empty when none is sent; the followed stroke and redo list are kept |
| Client.AfterDrawing | client/websocket.js:29-46 | 'drawing': an own segment is ignored; otherwise the sender's followed stroke is extended, or a new stroke with this segment's pen replaces whatever was followed; history and redo list are kept |
| Client.AfterDrawEnd | client/websocket.js:48-54 | 'draw_end': a followed stroke of the sender joins the history, nothing is followed and the redo list empties; any other sender changes nothing |
| Client.AfterClear | client/websocket.js:77-81 | 'clear_canvas': history and redo list are emptied; the followed stroke stays |
| Client.AfterResync | client/websocket.js:83-91 | 'undo'/'redo': the history is replaced by the server's; nothing else changes |
| Client.AfterLocalDrawEnd | client/websocket.js:123-129 | `emitDrawEnd`: any followed stroke joins the history, whoever its author; nothing is followed and the redo list empties |
| Client.RedoListStaysEmpty | client/websocket.js:9 | the redo list, empty at construction, is empty after any sequence of messages |
| Client.FollowedStrokeGrows | client/websocket.js:29-46 | while only its author draws, the followed stroke keeps its pen and gains each segment's endpoints in order |
| Client.RemoteStrokeIsBuilt | client/websocket.js:29-46 | a remote author's uninterrupted run of segments is followed as exactly the stroke those segments build |
| Client.InterleavedStrokeIsLost | client/websocket.js:33-54 | a segment from a second remote author replaces the followed stroke, so the first author's 'draw_end' adds nothing to the history |
| Client.LocalEndIgnoresAuthor | client/websocket.js:48-54 | `emitDrawEnd` commits the same stroke as the author's 'draw_end', and it also commits a stroke of another author that 'draw_end' would leave alone |
| Client.WebSocketManager.constructor | client/websocket.js:2-12 | no id, nothing followed, empty history and redo list |
| Client.WebSocketManager.OnInit | client/websocket.js:22-27 | updates the fields as `AfterInit` says |
| Client.WebSocketManager.OnDrawing | client/websocket.js:29-46 | updates the fields as `AfterDrawing` says, pushing the two points one at a time |
| Client.WebSocketManager.OnDrawEnd | client/websocket.js:48-54 | as `AfterDrawEnd` says |
| Client.WebSocketManager.OnClearCanvas | client/websocket.js:77-81 | as `AfterClear` says |
| Client.WebSocketManager.OnUndo | client/websocket.js:83-86 | as `AfterResync` says |
| Client.WebSocketManager.OnRedo | client/websocket.js:88-91 | as `AfterResync` says |
| Client.WebSocketManager.EmitDrawEnd | client/websocket.js:123-129 | as `AfterLocalDrawEnd` says |
| Sync.InitAdoptsServerHistory | client/websocket.js:22-27 | a new connection that applies its 'init' message holds exactly the server's history and its own id |
| Sync.UndoResyncs | client/websocket.js:83-86 | after the server's undo, every client that applies the broadcast holds the server's new history |
| Sync.RedoResyncs | client/websocket.js:88-91 | after the server's redo, every client that applies the broadcast holds the server's new history |
| Sync.ClearResyncs | client/websocket.js:77-81 | after a clear, the server's history and every client's history are empty |
| Sync.RemoteStrokeAgrees | client/websocket.js:29-54 | a remote stroke drawn while nobody else draws is appended as the same stroke to the server's history and to a following client's history |

## Left out

- Sockets, the HTTP server, static files and the listening port are not modelled. The socket
  object kept in each user record is not modelled either. Handlers return the messages they
  would emit instead of sending them.
- The canvas and cursor managers, the roster list in the page, mouse tracking, and the client
  methods that only emit (`undo`, `redo`, `clearCanvas`) are not modelled. The same goes for
  the client's 'connect', 'cursor_move', 'user_joined' and 'user_left' handlers, which only
  touch the page and the console.
- `client/canvas.js` and `client/main.js` are not part of this model. Nothing in the repository
  calls `emitDrawEnd`; it is modelled anyway.
- Payloads are taken as well formed. No field of a 'drawing' or 'cursor_move' message is
  checked, as in the source. Extra fields a client puts in a segment are not carried along.
- Coordinates are real numbers, and colours and tools are opaque strings. JavaScript's
  floating point is not modelled.
- Server.AfterCursorMove: for an id missing from the users table, the source's handler throws
  a TypeError on `user.color` before it emits anything. That error is not caught inside the
  socket library's dispatch. The model changes nothing and emits nothing instead. The case does
  not arise on a live connection: `users` holds a connection's id from the 'connection' handler
  (server/server.js:39) until its 'disconnect' handler (server/server.js:109).
- Server.ColorIndexCountsConnections: the colour counter is an unbounded natural number. The
  precision limit of a JavaScript number after about 2^53 connections is not modelled.
- Rooms.RoomManager.JoinRoom: returns the joined room as a value. In the source it is the live
  room object, so later changes made through it would show in the table. The server never uses
  the returned room.
- The server binds its one drawing state to `default` only. Per-room drawing states are not
  part of the source, and the model has none.
- Messages arrive one at a time and are handled to completion. Concurrency and message loss are
  not modelled.
