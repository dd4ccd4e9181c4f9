/** The client's mirror of the shared drawing (client/websocket.js): which
    user this tab is, the one remote stroke being followed, and the strokes
    the server reported as finalized. Rendering, the cursor layer and the
    roster list are not part of this state.

    As on the server, each handler is first a function on a `Mirror` value,
    and the class `WebSocketManager` holds the same four fields and is proved
    to update them exactly as the functions say. */
module Client {
  import opened Strokes
  import opened Options

  datatype Mirror = Mirror(userId: Option<UserId>, currentStroke: Option<Stroke>,
                           strokeHistory: seq<Stroke>, undoneStrokes: seq<Stroke>)

  /** A new manager: no identity until 'init', nothing followed, nothing drawn. */
  const Fresh: Mirror := Mirror(None, None, [], [])

  /** 'init': this tab learns its id and adopts the server's history, or an
      empty one when the message carries none. The followed stroke and the
      redo list are left as they were. */
  function AfterInit(c: Mirror, userId: UserId, history: Option<seq<Stroke>>): (r: Mirror)
    ensures r.userId == Some(userId)
    ensures history.Some? ==> r.strokeHistory == history.value
    ensures history.None? ==> r.strokeHistory == []
    ensures r.currentStroke == c.currentStroke && r.undoneStrokes == c.undoneStrokes
  {
    c.(userId := Some(userId), strokeHistory := if history.Some? then history.value else [])
  }

  /** Whether a message tagged `sender` comes from this tab itself. Before
      'init' no id is known, so every sender counts as remote. */
  predicate IsOwn(c: Mirror, sender: UserId) {
    c.userId == Some(sender)
  }

  /** 'drawing': a segment of this tab's own is ignored. Otherwise, unless the
      followed stroke is the sender's, a new one is started with the segment's
      pen (whatever was followed before is dropped); then the segment's start
      and end point are appended. History and redo list do not change. */
  function AfterDrawing(c: Mirror, sender: UserId, d: Segment): (r: Mirror)
    ensures IsOwn(c, sender) ==> r == c
    ensures !IsOwn(c, sender) ==>
      r.currentStroke.Some? && r.currentStroke.value.userId == sender &&
      r.(currentStroke := c.currentStroke) == c
    ensures !IsOwn(c, sender) && c.currentStroke.Some? && c.currentStroke.value.userId == sender ==>
      r.currentStroke == Some(Extend(c.currentStroke.value, d))
    ensures !IsOwn(c, sender) && !(c.currentStroke.Some? && c.currentStroke.value.userId == sender) ==>
      r.currentStroke == Some(Extend(Begin(sender, d), d))
  {
    if IsOwn(c, sender) then c
    else
      var st := if c.currentStroke.Some? && c.currentStroke.value.userId == sender
                then c.currentStroke.value else Begin(sender, d);
      c.(currentStroke := Some(Extend(st, d)))
  }

  /** 'draw_end': if the followed stroke is the sender's, a copy of it joins
      the history, nothing is followed any more and the redo list is emptied;
      for any other sender nothing happens. */
  function AfterDrawEnd(c: Mirror, sender: UserId): (r: Mirror)
    ensures c.currentStroke.Some? && c.currentStroke.value.userId == sender ==>
      r == Mirror(c.userId, None, c.strokeHistory + [c.currentStroke.value], [])
    ensures !(c.currentStroke.Some? && c.currentStroke.value.userId == sender) ==> r == c
  {
    if c.currentStroke.Some? && c.currentStroke.value.userId == sender then
      Mirror(c.userId, None, c.strokeHistory + [c.currentStroke.value], [])
    else c
  }

  /** 'clear_canvas': history and redo list go; the followed stroke stays. */
  function AfterClear(c: Mirror): (r: Mirror)
    ensures r.strokeHistory == [] && r.undoneStrokes == []
    ensures r.userId == c.userId && r.currentStroke == c.currentStroke
  {
    c.(strokeHistory := [], undoneStrokes := [])
  }

  /** 'undo' and 'redo': the history is replaced wholesale by the server's;
      nothing else changes. */
  function AfterResync(c: Mirror, history: seq<Stroke>): (r: Mirror)
    ensures r.strokeHistory == history
    ensures r.(strokeHistory := c.strokeHistory) == c
  {
    c.(strokeHistory := history)
  }

  /** `emitDrawEnd`: whatever stroke is followed, whoever its author, joins the
      history; nothing is followed any more and the redo list is emptied. */
  function AfterLocalDrawEnd(c: Mirror): (r: Mirror)
    ensures c.currentStroke.Some? ==>
      r == Mirror(c.userId, None, c.strokeHistory + [c.currentStroke.value], [])
    ensures c.currentStroke.None? ==> r == c
  {
    if c.currentStroke.Some? then
      Mirror(c.userId, None, c.strokeHistory + [c.currentStroke.value], [])
    else c
  }

  /** One message the mirror reacts to, or the local `emitDrawEnd` call. */
  datatype Event =
    | Init(userId: UserId, snapshot: Option<seq<Stroke>>)
    | Drawing(sender: UserId, data: Segment)
    | DrawEnd(sender: UserId)
    | ClearCanvas
    | Undo(history: seq<Stroke>)
    | Redo(history: seq<Stroke>)
    | LocalDrawEnd

  function Handle(c: Mirror, e: Event): Mirror {
    match e
    case Init(u, h) => AfterInit(c, u, h)
    case Drawing(v, d) => AfterDrawing(c, v, d)
    case DrawEnd(v) => AfterDrawEnd(c, v)
    case ClearCanvas => AfterClear(c)
    case Undo(h) => AfterResync(c, h)
    case Redo(h) => AfterResync(c, h)
    case LocalDrawEnd => AfterLocalDrawEnd(c)
  }

  /** The mirror after the events `es`, in arrival order. */
  function Run(c: Mirror, es: seq<Event>): Mirror
    decreases |es|
  {
    if es == [] then c else Run(Handle(c, es[0]), es[1..])
  }

  lemma {:induction false} RunAppend(c: Mirror, es: seq<Event>, e: Event)
    ensures Run(c, es + [e]) == Handle(Run(c, es), e)
    decreases |es|
  {
    if es != [] {
      assert (es + [e])[1..] == es[1..] + [e];
      RunAppend(Handle(c, es[0]), es[1..], e);
    }
  }

  // ---------------------------------------------------------------------------
  // The redo list

  /** The redo list is only ever emptied: starting from a new manager it is
      empty after any sequence of messages, so the client never holds strokes
      to redo. */
  lemma {:induction false} RedoListStaysEmpty(c: Mirror, es: seq<Event>)
    requires c.undoneStrokes == []
    ensures Run(c, es).undoneStrokes == []
    decreases |es|
  {
    if es != [] {
      RedoListStaysEmpty(Handle(c, es[0]), es[1..]);
    }
  }

  // ---------------------------------------------------------------------------
  // Following one remote stroke

  /** The 'drawing' messages for the segments `ds`, all tagged `sender`. */
  function SegmentsFrom(sender: UserId, ds: seq<Segment>): (es: seq<Event>)
    ensures |es| == |ds|
    ensures forall i :: 0 <= i < |ds| ==> es[i] == Drawing(sender, ds[i])
  {
    if ds == [] then [] else [Drawing(sender, ds[0])] + SegmentsFrom(sender, ds[1..])
  }

  /** While only `sender` draws, the followed stroke of `sender` keeps its pen
      and gains the endpoints of each segment, in order. */
  lemma {:induction false} FollowedStrokeGrows(c: Mirror, sender: UserId, ds: seq<Segment>)
    requires !IsOwn(c, sender)
    requires c.currentStroke.Some? && c.currentStroke.value.userId == sender
    ensures var r := Run(c, SegmentsFrom(sender, ds));
      r.currentStroke == Some(c.currentStroke.value.(points := c.currentStroke.value.points + Endpoints(ds))) &&
      r.(currentStroke := c.currentStroke) == c
    decreases |ds|
  {
    var st := c.currentStroke.value;
    if ds == [] {
      assert st.points + [] == st.points;
    } else {
      var next := AfterDrawing(c, sender, ds[0]);
      FollowedStrokeGrows(next, sender, ds[1..]);
      var rest := Endpoints(ds[1..]);
      var pair := [StartOf(ds[0]), EndOf(ds[0])];
      assert (st.points + pair) + rest == st.points + (pair + rest);
      assert SegmentsFrom(sender, ds)[1..] == SegmentsFrom(sender, ds[1..]);
    }
  }

  /** A run of segments from a remote author whose stroke is not being
      followed builds exactly the stroke those segments make: the pen of the
      first segment and every endpoint in order. */
  lemma RemoteStrokeIsBuilt(c: Mirror, sender: UserId, ds: seq<Segment>)
    requires !IsOwn(c, sender) && ds != []
    requires !(c.currentStroke.Some? && c.currentStroke.value.userId == sender)
    ensures var r := Run(c, SegmentsFrom(sender, ds));
      r.currentStroke == Some(Built(sender, ds)) &&
      r.strokeHistory == c.strokeHistory && r.userId == c.userId
  {
    var first := AfterDrawing(c, sender, ds[0]);
    assert SegmentsFrom(sender, ds)[1..] == SegmentsFrom(sender, ds[1..]);
    FollowedStrokeGrows(first, sender, ds[1..]);
    assert Endpoints(ds) == [StartOf(ds[0]), EndOf(ds[0])] + Endpoints(ds[1..]);
    assert [] + [StartOf(ds[0]), EndOf(ds[0])] == [StartOf(ds[0]), EndOf(ds[0])];
  }

  /** Two remote authors drawing at once: a segment from a second author
      replaces the stroke being followed, so the first author's 'draw_end'
      adds nothing to the history, and that stroke is never recorded here. */
  lemma InterleavedStrokeIsLost(c: Mirror, v: UserId, w: UserId, d: Segment)
    requires v != w && !IsOwn(c, w)
    requires c.currentStroke.Some? && c.currentStroke.value.userId == v
    ensures var r := AfterDrawEnd(AfterDrawing(c, w, d), v);
      r.strokeHistory == c.strokeHistory &&
      r.currentStroke == Some(Extend(Begin(w, d), d))
  {
  }

  /** A 'draw_end' from the author of the followed stroke and the local
      `emitDrawEnd` commit the same stroke; `emitDrawEnd` does not look at the
      author, so it also commits a stroke another user is still drawing. */
  lemma LocalEndIgnoresAuthor(c: Mirror, v: UserId)
    requires c.currentStroke.Some?
    ensures c.currentStroke.value.userId == v ==> AfterLocalDrawEnd(c) == AfterDrawEnd(c, v)
    ensures c.currentStroke.value.userId != v ==>
      AfterDrawEnd(c, v) == c && AfterLocalDrawEnd(c).strokeHistory == c.strokeHistory + [c.currentStroke.value]
  {
  }

  // ---------------------------------------------------------------------------
  // The manager object

  class WebSocketManager {
    var userId: Option<UserId>
    var currentStroke: Option<Stroke>
    var strokeHistory: seq<Stroke>
    var undoneStrokes: seq<Stroke>

    function Model(): Mirror
      reads this
    {
      Mirror(userId, currentStroke, strokeHistory, undoneStrokes)
    }

    /** The state the constructor sets up before connecting. */
    constructor ()
      ensures Model() == Fresh
    {
      userId := None;
      currentStroke := None;
      strokeHistory := [];
      undoneStrokes := [];
    }

    method OnInit(id: UserId, history: Option<seq<Stroke>>)
      modifies this
      ensures Model() == AfterInit(old(Model()), id, history)
    {
      userId := Some(id);
      strokeHistory := if history.Some? then history.value else [];
    }

    method OnDrawing(sender: UserId, data: Segment)
      modifies this
      ensures Model() == AfterDrawing(old(Model()), sender, data)
    {
      if userId != Some(sender) {
        if currentStroke.None? || currentStroke.value.userId != sender {
          currentStroke := Some(Begin(sender, data));
        }
        var st := currentStroke.value;
        ghost var before := st;
        st := st.(points := st.points + [StartOf(data)]);
        st := st.(points := st.points + [EndOf(data)]);
        assert st.points == before.points + [StartOf(data), EndOf(data)];
        assert st == Extend(before, data);
        currentStroke := Some(st);
      }
    }

    method OnDrawEnd(sender: UserId)
      modifies this
      ensures Model() == AfterDrawEnd(old(Model()), sender)
    {
      if currentStroke.Some? && currentStroke.value.userId == sender {
        strokeHistory := strokeHistory + [currentStroke.value];
        currentStroke := None;
        undoneStrokes := [];
      }
    }

    method OnClearCanvas()
      modifies this
      ensures Model() == AfterClear(old(Model()))
    {
      strokeHistory := [];
      undoneStrokes := [];
    }

    method OnUndo(history: seq<Stroke>)
      modifies this
      ensures Model() == AfterResync(old(Model()), history)
    {
      strokeHistory := history;
    }

    method OnRedo(history: seq<Stroke>)
      modifies this
      ensures Model() == AfterResync(old(Model()), history)
    {
      strokeHistory := history;
    }

    method EmitDrawEnd()
      modifies this
      ensures Model() == AfterLocalDrawEnd(old(Model()))
    {
      if currentStroke.Some? {
        strokeHistory := strokeHistory + [currentStroke.value];
        currentStroke := None;
        undoneStrokes := [];
      }
    }
  }
}
