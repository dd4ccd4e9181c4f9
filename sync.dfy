/** How the client's mirror follows the server: what a client holds after it
    applies the messages the server's handlers emit. */
module Sync {
  import opened Strokes
  import opened Options
  import Drawing
  import Server
  import Client

  /** A new connection adopts exactly the history the server holds after the
      connection, and learns its own id. */
  lemma InitAdoptsServerHistory(m: Server.ServerState, userId: UserId, c: Client.Mirror)
    ensures var (m', out) := Server.AfterConnection(m, userId);
      out[0].to == Server.Sender && out[0].payload.InitPayload? &&
      var c' := Client.AfterInit(c, out[0].payload.userId, Some(out[0].payload.history));
      c'.strokeHistory == m'.drawing.history && c'.userId == Some(userId)
  {
  }

  /** After an undo, every client holds the server's new history. */
  lemma UndoResyncs(m: Server.ServerState, c: Client.Mirror)
    ensures var (m', out) := Server.AfterUndo(m);
      out[0].to == Server.Everyone && out[0].payload.HistoryPayload? &&
      Client.AfterResync(c, out[0].payload.history).strokeHistory == m'.drawing.history
  {
  }

  /** After a redo, every client holds the server's new history. */
  lemma RedoResyncs(m: Server.ServerState, c: Client.Mirror)
    ensures var (m', out) := Server.AfterRedo(m);
      out[0].to == Server.Everyone && out[0].payload.HistoryPayload? &&
      Client.AfterResync(c, out[0].payload.history).strokeHistory == m'.drawing.history
  {
  }

  /** After a clear, every client's history is as empty as the server's. */
  lemma ClearResyncs(m: Server.ServerState, c: Client.Mirror)
    ensures var (m', out) := Server.AfterClearCanvas(m);
      out[0].to == Server.Everyone && out[0].event == "clear_canvas" &&
      Client.AfterClear(c).strokeHistory == m'.drawing.history == []
  {
  }

  /** The calls the server makes for `ds` sent by `userId`. */
  function SegmentOps(userId: UserId, ds: seq<Segment>): (ops: seq<Drawing.Op>)
    ensures |ops| == |ds|
    ensures forall i :: 0 <= i < |ds| ==> ops[i] == Drawing.SegmentOp(userId, ds[i])
  {
    if ds == [] then [] else [Drawing.SegmentOp(userId, ds[0])] + SegmentOps(userId, ds[1..])
  }

  lemma {:induction false} SegmentOpsBy(userId: UserId, ds: seq<Segment>)
    ensures Drawing.SegmentsBy(SegmentOps(userId, ds), userId) == ds
    ensures Drawing.LeavesOpen(SegmentOps(userId, ds), userId)
    decreases |ds|
  {
    if ds != [] {
      SegmentOpsBy(userId, ds[1..]);
      var ops := SegmentOps(userId, ds);
      assert ops[1..] == SegmentOps(userId, ds[1..]);
      Drawing.SegmentsByCons(ops, userId);
    }
  }

  /** Segments never touch the history. */
  lemma {:induction false} SegmentsKeepHistory(s: Drawing.State, userId: UserId, ds: seq<Segment>)
    ensures Drawing.Run(s, SegmentOps(userId, ds)).history == s.history
    decreases |ds|
  {
    if ds != [] {
      var ops := SegmentOps(userId, ds);
      assert ops[1..] == SegmentOps(userId, ds[1..]);
      SegmentsKeepHistory(Drawing.AfterSegment(s, userId, ds[0]), userId, ds[1..]);
    }
  }

  /** On the server, the stroke is finalized whole onto the history. */
  lemma ServerFinalizesBuilt(s: Drawing.State, userId: UserId, ds: seq<Segment>)
    requires ds != [] && userId !in s.currentStrokes
    ensures Drawing.Run(s, SegmentOps(userId, ds) + [Drawing.EndStrokeOp(userId)]).history
         == s.history + [Built(userId, ds)]
  {
    var ops := SegmentOps(userId, ds);
    SegmentOpsBy(userId, ds);
    Drawing.FreshStrokeIsBuilt(s, ops, userId);
    SegmentsKeepHistory(s, userId, ds);
    Drawing.RunAppend(s, ops, Drawing.EndStrokeOp(userId));
  }

  /** In the client's mirror, the followed stroke is committed whole. */
  lemma ClientCommitsBuilt(c: Client.Mirror, userId: UserId, ds: seq<Segment>)
    requires ds != []
    requires !Client.IsOwn(c, userId)
    requires !(c.currentStroke.Some? && c.currentStroke.value.userId == userId)
    ensures Client.Run(c, Client.SegmentsFrom(userId, ds) + [Client.DrawEnd(userId)]).strokeHistory
         == c.strokeHistory + [Built(userId, ds)]
  {
    Client.RemoteStrokeIsBuilt(c, userId, ds);
    Client.RunAppend(c, Client.SegmentsFrom(userId, ds), Client.DrawEnd(userId));
  }

  /** A stroke drawn by a remote author while nobody else draws ends up the
      same on the server and in a client's mirror: a stroke made of the first
      segment's pen and every endpoint, appended to each history. The client
      must not be the author itself (it ignores its own echoes) and must not
      be following another stroke of that author. */
  lemma RemoteStrokeAgrees(s: Drawing.State, c: Client.Mirror, userId: UserId, ds: seq<Segment>)
    requires ds != []
    requires userId !in s.currentStrokes
    requires !Client.IsOwn(c, userId)
    requires !(c.currentStroke.Some? && c.currentStroke.value.userId == userId)
    ensures var server := Drawing.Run(s, SegmentOps(userId, ds) + [Drawing.EndStrokeOp(userId)]);
            var client := Client.Run(c, Client.SegmentsFrom(userId, ds) + [Client.DrawEnd(userId)]);
      server.history == s.history + [Built(userId, ds)] &&
      client.strokeHistory == c.strokeHistory + [Built(userId, ds)]
  {
    ServerFinalizesBuilt(s, userId, ds);
    ClientCommitsBuilt(c, userId, ds);
  }
}
