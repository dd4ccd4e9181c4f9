/** The server's authoritative drawing state (server/drawing-state.js): the
    finalized strokes in finalization order, the stack of strokes taken off by
    undo, and at most one open stroke per author.

    The operations are first given as functions on a `State` value; the class
    `DrawingState` at the end updates its fields in place, as the source does,
    and each of its methods is proved to move its fields exactly as the
    corresponding function says. */
module Drawing {
  import opened Strokes
  import opened OrderedSets

  datatype State = State(history: seq<Stroke>, undoneHistory: seq<Stroke>,
                         currentStrokes: map<UserId, Stroke>)

  const Empty: State := State([], [], map[])

  /** Every open stroke is filed under its own author, and every stroke, open,
      finalized or undone, is made of whole two-point segments. */
  predicate WellFormed(s: State) {
    (forall u :: u in s.currentStrokes ==>
      s.currentStrokes[u].userId == u && Whole(s.currentStrokes[u])) &&
    (forall i :: 0 <= i < |s.history| ==> Whole(s.history[i])) &&
    (forall i :: 0 <= i < |s.undoneHistory| ==> Whole(s.undoneHistory[i]))
  }

  /** The points of `userId`'s open stroke, or none when it has none. */
  function OpenPoints(s: State, userId: UserId): seq<Point> {
    if userId in s.currentStrokes then s.currentStrokes[userId].points else []
  }

  /** `addDrawingPoint`: a segment opens the author's stroke with its own pen if
      none is open, then appends its start and end point; nothing else moves. */
  function AfterSegment(s: State, userId: UserId, d: Segment): (r: State)
    ensures r.history == s.history && r.undoneHistory == s.undoneHistory
    ensures r.currentStrokes.Keys == s.currentStrokes.Keys + {userId}
    ensures forall u :: u in s.currentStrokes && u != userId ==>
      r.currentStrokes[u] == s.currentStrokes[u]
    ensures r.currentStrokes[userId].points == OpenPoints(s, userId) + [StartOf(d), EndOf(d)]
    ensures userId in s.currentStrokes ==>
      r.currentStrokes[userId].(points := []) == s.currentStrokes[userId].(points := [])
    ensures userId !in s.currentStrokes ==>
      r.currentStrokes[userId].(points := []) == Begin(userId, d)
    ensures WellFormed(s) ==> WellFormed(r)
  {
    var open := if userId in s.currentStrokes then s.currentStrokes[userId] else Begin(userId, d);
    s.(currentStrokes := s.currentStrokes[userId := Extend(open, d)])
  }

  /** `endStroke`: the author's open stroke goes to the tail of the history and
      the redo stack is emptied; without an open stroke nothing happens. */
  function AfterEndStroke(s: State, userId: UserId): (r: State)
    ensures userId in s.currentStrokes ==>
      r.history == s.history + [s.currentStrokes[userId]] &&
      r.currentStrokes == s.currentStrokes - {userId} &&
      r.undoneHistory == []
    ensures userId !in s.currentStrokes ==> r == s
    ensures WellFormed(s) ==> WellFormed(r)
  {
    if userId in s.currentStrokes then
      State(s.history + [s.currentStrokes[userId]], [], s.currentStrokes - {userId})
    else s
  }

  /** `undo`: the last finalized stroke moves to the top of the redo stack; on
      an empty history nothing happens. No stroke is lost or made up. */
  function AfterUndo(s: State): (r: State)
    ensures s.history != [] ==>
      r.history == s.history[..|s.history| - 1] &&
      r.undoneHistory == s.undoneHistory + [s.history[|s.history| - 1]]
    ensures s.history == [] ==> r == s
    ensures r.currentStrokes == s.currentStrokes
    ensures |r.history| + |r.undoneHistory| == |s.history| + |s.undoneHistory|
    ensures multiset(r.history) + multiset(r.undoneHistory)
         == multiset(s.history) + multiset(s.undoneHistory)
    ensures WellFormed(s) ==> WellFormed(r)
  {
    if s.history == [] then s
    else
      var n := |s.history|;
      assert s.history == s.history[..n - 1] + [s.history[n - 1]];
      s.(history := s.history[..n - 1], undoneHistory := s.undoneHistory + [s.history[n - 1]])
  }

  /** `redo`: the top of the redo stack goes back to the tail of the history;
      with an empty redo stack nothing happens. No stroke is lost or made up. */
  function AfterRedo(s: State): (r: State)
    ensures s.undoneHistory != [] ==>
      r.undoneHistory == s.undoneHistory[..|s.undoneHistory| - 1] &&
      r.history == s.history + [s.undoneHistory[|s.undoneHistory| - 1]]
    ensures s.undoneHistory == [] ==> r == s
    ensures r.currentStrokes == s.currentStrokes
    ensures |r.history| + |r.undoneHistory| == |s.history| + |s.undoneHistory|
    ensures multiset(r.history) + multiset(r.undoneHistory)
         == multiset(s.history) + multiset(s.undoneHistory)
    ensures WellFormed(s) ==> WellFormed(r)
  {
    if s.undoneHistory == [] then s
    else
      var n := |s.undoneHistory|;
      assert s.undoneHistory == s.undoneHistory[..n - 1] + [s.undoneHistory[n - 1]];
      s.(history := s.history + [s.undoneHistory[n - 1]], undoneHistory := s.undoneHistory[..n - 1])
  }

  /** `clear`: history, redo stack and every open stroke go at once. */
  function AfterClear(s: State): (r: State)
    ensures r.history == [] && r.undoneHistory == [] && r.currentStrokes == map[]
    ensures WellFormed(r)
  {
    Empty
  }

  /** One call into the drawing state, as the connection handlers make them. */
  datatype Op =
    | SegmentOp(userId: UserId, data: Segment)
    | EndStrokeOp(userId: UserId)
    | UndoOp
    | RedoOp
    | ClearOp

  function Apply(s: State, op: Op): State {
    match op
    case SegmentOp(u, d) => AfterSegment(s, u, d)
    case EndStrokeOp(u) => AfterEndStroke(s, u)
    case UndoOp => AfterUndo(s)
    case RedoOp => AfterRedo(s)
    case ClearOp => AfterClear(s)
  }

  /** The calls `ops`, one after the other, in arrival order. */
  function Run(s: State, ops: seq<Op>): (r: State)
    ensures WellFormed(s) ==> WellFormed(r)
    decreases |ops|
  {
    if ops == [] then s else Run(Apply(s, ops[0]), ops[1..])
  }

  lemma {:induction false} RunAppend(s: State, ops: seq<Op>, op: Op)
    ensures Run(s, ops + [op]) == Apply(Run(s, ops), op)
    decreases |ops|
  {
    if ops != [] {
      assert (ops + [op])[1..] == ops[1..] + [op];
      RunAppend(Apply(s, ops[0]), ops[1..], op);
    }
  }

  // ---------------------------------------------------------------------------
  // Undo and redo

  /** Undo followed by redo restores both stacks exactly. */
  lemma UndoThenRedo(s: State)
    requires s.history != []
    ensures AfterRedo(AfterUndo(s)) == s
  {
    var n := |s.history|;
    assert s.history[..n - 1] + [s.history[n - 1]] == s.history;
  }

  /** Redo followed by undo restores both stacks exactly. */
  lemma RedoThenUndo(s: State)
    requires s.undoneHistory != []
    ensures AfterUndo(AfterRedo(s)) == s
  {
    var n := |s.undoneHistory|;
    assert s.undoneHistory[..n - 1] + [s.undoneHistory[n - 1]] == s.undoneHistory;
  }

  /** Finalizing a stroke makes a following redo a no-op, even when the redo
      stack held strokes before. */
  lemma EndStrokeDisablesRedo(s: State, userId: UserId)
    requires userId in s.currentStrokes
    ensures AfterRedo(AfterEndStroke(s, userId)) == AfterEndStroke(s, userId)
  {
  }

  /** A stroke finalized after an undo replaces the undone stroke for good: the
      history ends with the new stroke and redo can no longer bring the old back. */
  lemma NewStrokeAfterUndoDropsRedo(s: State, userId: UserId)
    requires s.history != [] && userId in s.currentStrokes
    ensures var r := AfterEndStroke(AfterUndo(s), userId);
      r.history == s.history[..|s.history| - 1] + [s.currentStrokes[userId]] &&
      AfterRedo(r) == r
  {
  }

  /** After a clear, undo, redo and ending any author's stroke change nothing. */
  lemma ClearedStateIsQuiet(s: State, userId: UserId)
    ensures var c := AfterClear(s);
      AfterUndo(c) == c && AfterRedo(c) == c && AfterEndStroke(c, userId) == c
  {
  }

  // ---------------------------------------------------------------------------
  // The history is the finalization order

  /** `endStroke` for each of `users`, in that order. */
  function EndStrokes(users: seq<UserId>): (ops: seq<Op>)
    ensures |ops| == |users|
  {
    if users == [] then [] else [EndStrokeOp(users[0])] + EndStrokes(users[1..])
  }

  /** The open strokes of `users`, in that order. */
  function StrokesOf(open: map<UserId, Stroke>, users: seq<UserId>): (ss: seq<Stroke>)
    requires forall u :: u in users ==> u in open
    ensures |ss| == |users|
    ensures forall i :: 0 <= i < |users| ==> ss[i] == open[users[i]]
  {
    if users == [] then [] else [open[users[0]]] + StrokesOf(open, users[1..])
  }

  /** Finalizing the open strokes of distinct authors appends them to the
      history in exactly the order the `endStroke` calls arrive. */
  lemma {:induction false} HistoryIsFinalizationOrder(s: State, users: seq<UserId>)
    requires NoDup(users)
    requires forall u :: u in users ==> u in s.currentStrokes
    ensures Run(s, EndStrokes(users)).history == s.history + StrokesOf(s.currentStrokes, users)
    decreases |users|
  {
    if users != [] {
      FinalizeFirst(s, users);
      EndStrokesCons(s, users);
      HistoryIsFinalizationOrder(AfterEndStroke(s, users[0]), users[1..]);
    }
  }

  lemma EndStrokesCons(s: State, users: seq<UserId>)
    requires users != []
    ensures Run(s, EndStrokes(users)) == Run(AfterEndStroke(s, users[0]), EndStrokes(users[1..]))
  {
    assert EndStrokes(users)[1..] == EndStrokes(users[1..]);
  }

  /** Finalizing the first of distinct open authors moves that author's stroke
      to the history and leaves the others' strokes open. */
  lemma FinalizeFirst(s: State, users: seq<UserId>)
    requires users != [] && NoDup(users)
    requires forall u :: u in users ==> u in s.currentStrokes
    ensures var next := AfterEndStroke(s, users[0]);
      NoDup(users[1..]) &&
      (forall v :: v in users[1..] ==> v in next.currentStrokes) &&
      s.history + StrokesOf(s.currentStrokes, users) == next.history + StrokesOf(next.currentStrokes, users[1..])
  {
    var u, rest := users[0], users[1..];
    var open := s.currentStrokes;
    var next := AfterEndStroke(s, u);
    assert u in open;
    NoDupTail(users);
    TailMembers(users);
    StrokesOfWithout(open, u, rest);
    StrokesOfCons(open, users);
    ConcatAssoc(s.history, [open[u]], StrokesOf(open, rest));
  }

  lemma TailMembers<T>(s: seq<T>)
    requires s != []
    ensures forall v :: v in s[1..] ==> v in s
  {
  }

  lemma StrokesOfCons(open: map<UserId, Stroke>, users: seq<UserId>)
    requires users != [] && forall u :: u in users ==> u in open
    ensures forall v :: v in users[1..] ==> v in open
    ensures StrokesOf(open, users) == [open[users[0]]] + StrokesOf(open, users[1..])
  {
    TailMembers(users);
  }

  /** Dropping an author who is not among `users` changes none of their strokes. */
  lemma StrokesOfWithout(open: map<UserId, Stroke>, u: UserId, users: seq<UserId>)
    requires forall v :: v in users ==> v in open
    requires u !in users
    ensures StrokesOf(open - {u}, users) == StrokesOf(open, users)
  {
    var a, b := StrokesOf(open - {u}, users), StrokesOf(open, users);
    forall i | 0 <= i < |users| ensures a[i] == b[i] {
      assert users[i] in users;
    }
  }

  // ---------------------------------------------------------------------------
  // Open strokes of different authors stay apart

  /** The segments `userId` sent among `ops`, in arrival order. */
  function SegmentsBy(ops: seq<Op>, userId: UserId): seq<Segment> {
    if ops == [] then []
    else
      (match ops[0]
       case SegmentOp(u, d) => if u == userId then [d] else []
       case _ => []) + SegmentsBy(ops[1..], userId)
  }

  /** None of `ops` finalizes `userId`'s stroke or clears the board. */
  predicate LeavesOpen(ops: seq<Op>, userId: UserId) {
    forall i :: 0 <= i < |ops| ==> ops[i] != EndStrokeOp(userId) && ops[i] != ClearOp
  }

  /** The pen a stroke was opened with: the stroke without its points. */
  function Pen(st: Stroke): Stroke {
    st.(points := [])
  }

  lemma LeavesOpenTail(ops: seq<Op>, userId: UserId)
    requires ops != [] && LeavesOpen(ops, userId)
    ensures ops[0] != EndStrokeOp(userId) && ops[0] != ClearOp
    ensures LeavesOpen(ops[1..], userId)
  {
    forall i | 0 <= i < |ops[1..]| ensures ops[1..][i] != EndStrokeOp(userId) && ops[1..][i] != ClearOp {
      assert ops[1..][i] == ops[i + 1];
    }
  }

  lemma SegmentsByCons(ops: seq<Op>, userId: UserId)
    requires ops != []
    ensures SegmentsBy(ops, userId) == SegmentsBy([ops[0]], userId) + SegmentsBy(ops[1..], userId)
    ensures SegmentsBy([ops[0]], userId)
         == if ops[0].SegmentOp? && ops[0].userId == userId then [ops[0].data] else []
  {
  }

  /** One call that neither finalizes `userId`'s stroke nor clears the board
      appends to that stroke the endpoints of `userId`'s own segment, if it is
      one, and nothing otherwise. */
  lemma StepOpenPoints(s: State, op: Op, userId: UserId)
    requires op != EndStrokeOp(userId) && op != ClearOp
    ensures OpenPoints(Apply(s, op), userId) == OpenPoints(s, userId) + Endpoints(SegmentsBy([op], userId))
  {
    SegmentsByCons([op], userId);
  }

  /** Whatever other authors draw, finalize, undo or redo in between, an
      author's open stroke gains exactly the endpoints of that author's own
      segments, in arrival order. */
  lemma {:induction false} OpenStrokeCollectsOwnSegments(s: State, ops: seq<Op>, userId: UserId)
    requires LeavesOpen(ops, userId)
    ensures OpenPoints(Run(s, ops), userId) == OpenPoints(s, userId) + Endpoints(SegmentsBy(ops, userId))
    decreases |ops|
  {
    if ops != [] {
      var op, rest := ops[0], ops[1..];
      LeavesOpenTail(ops, userId);
      OpenStrokeCollectsOwnSegments(Apply(s, op), rest, userId);
      StepOpenPoints(s, op, userId);
      SegmentsByCons(ops, userId);
      EndpointsAppend(SegmentsBy([op], userId), SegmentsBy(rest, userId));
      ConcatAssoc(OpenPoints(s, userId), Endpoints(SegmentsBy([op], userId)), Endpoints(SegmentsBy(rest, userId)));
    }
  }

  /** The pen of `userId`'s open stroke after one call that neither finalizes
      it nor clears the board: unchanged if the stroke was open, taken from
      `userId`'s segment if that call opens it, still closed otherwise. */
  lemma StepOpenPen(s: State, op: Op, userId: UserId)
    requires op != EndStrokeOp(userId) && op != ClearOp
    ensures var r := Apply(s, op);
      (userId in s.currentStrokes ==>
        userId in r.currentStrokes && Pen(r.currentStrokes[userId]) == Pen(s.currentStrokes[userId])) &&
      (userId !in s.currentStrokes && op.SegmentOp? && op.userId == userId ==>
        userId in r.currentStrokes && Pen(r.currentStrokes[userId]) == Begin(userId, op.data)) &&
      (userId !in s.currentStrokes && !(op.SegmentOp? && op.userId == userId) ==>
        userId !in r.currentStrokes)
  {
  }

  /** An open stroke keeps the pen it was opened with whatever arrives in
      between; a stroke that was not open is opened with the pen of the
      author's first segment, and stays closed if the author sends none. */
  lemma {:induction false} OpenStrokeKeepsFirstPen(s: State, ops: seq<Op>, userId: UserId)
    requires LeavesOpen(ops, userId)
    ensures var r := Run(s, ops);
      (userId in s.currentStrokes ==>
        userId in r.currentStrokes && Pen(r.currentStrokes[userId]) == Pen(s.currentStrokes[userId])) &&
      (userId !in s.currentStrokes && SegmentsBy(ops, userId) != [] ==>
        userId in r.currentStrokes && Pen(r.currentStrokes[userId]) == Begin(userId, SegmentsBy(ops, userId)[0])) &&
      (userId !in s.currentStrokes && SegmentsBy(ops, userId) == [] ==>
        userId !in r.currentStrokes)
    decreases |ops|
  {
    if ops != [] {
      var op, rest := ops[0], ops[1..];
      LeavesOpenTail(ops, userId);
      StepOpenPen(s, op, userId);
      OpenStrokeKeepsFirstPen(Apply(s, op), rest, userId);
      SegmentsByCons(ops, userId);
    }
  }

  /** An author without an open stroke who sends a run of segments, whatever
      others do meanwhile, ends up with exactly the stroke those segments build. */
  lemma FreshStrokeIsBuilt(s: State, ops: seq<Op>, userId: UserId)
    requires LeavesOpen(ops, userId)
    requires userId !in s.currentStrokes && SegmentsBy(ops, userId) != []
    ensures userId in Run(s, ops).currentStrokes
    ensures Run(s, ops).currentStrokes[userId] == Built(userId, SegmentsBy(ops, userId))
  {
    var segs := SegmentsBy(ops, userId);
    OpenStrokeCollectsOwnSegments(s, ops, userId);
    OpenStrokeKeepsFirstPen(s, ops, userId);
    var st := Run(s, ops).currentStrokes[userId];
    assert st.points == Endpoints(segs) by {
      assert OpenPoints(s, userId) == [];
      assert [] + Endpoints(segs) == Endpoints(segs);
    }
    assert st == Pen(st).(points := st.points);
  }

  // ---------------------------------------------------------------------------
  // An author who no longer sends anything

  /** `ops` holds no call made on behalf of `userId`. */
  predicate SilentAuthor(ops: seq<Op>, userId: UserId) {
    forall i :: 0 <= i < |ops| ==> !(ops[i].SegmentOp? && ops[i].userId == userId) &&
                                   ops[i] != EndStrokeOp(userId)
  }

  /** The number of strokes by `userId` in `ss`. */
  function Authored(userId: UserId, ss: seq<Stroke>): nat {
    if ss == [] then 0
    else (if ss[0].userId == userId then 1 else 0) + Authored(userId, ss[1..])
  }

  lemma {:induction false} AuthoredAppend(userId: UserId, a: seq<Stroke>, b: seq<Stroke>)
    ensures Authored(userId, a + b) == Authored(userId, a) + Authored(userId, b)
  {
    if a == [] {
      assert a + b == b;
    } else {
      assert (a + b)[1..] == a[1..] + b;
      AuthoredAppend(userId, a[1..], b);
    }
  }

  /** While an author sends nothing (after a disconnect, say), the open stroke
      it left behind stays exactly as it was until a clear removes it. */
  lemma {:induction false} SilentAuthorKeepsOpenStroke(s: State, ops: seq<Op>, userId: UserId)
    requires SilentAuthor(ops, userId) && LeavesOpen(ops, userId)
    requires userId in s.currentStrokes
    ensures userId in Run(s, ops).currentStrokes
    ensures Run(s, ops).currentStrokes[userId] == s.currentStrokes[userId]
  {
    SegmentsBySilent(ops, userId);
    OpenStrokeCollectsOwnSegments(s, ops, userId);
    OpenStrokeKeepsFirstPen(s, ops, userId);
  }

  lemma {:induction false} SegmentsBySilent(ops: seq<Op>, userId: UserId)
    requires SilentAuthor(ops, userId)
    ensures SegmentsBy(ops, userId) == []
    decreases |ops|
  {
    if ops != [] {
      assert SilentAuthor(ops[1..], userId) by {
        forall i | 0 <= i < |ops[1..]|
          ensures !(ops[1..][i].SegmentOp? && ops[1..][i].userId == userId) && ops[1..][i] != EndStrokeOp(userId)
        {
          assert ops[1..][i] == ops[i + 1];
        }
      }
      SegmentsBySilent(ops[1..], userId);
      assert !(ops[0].SegmentOp? && ops[0].userId == userId);
    }
  }

  /** One call not made on behalf of `userId` never adds a stroke by `userId`
      to the history and redo stack taken together. */
  lemma StepAddsNoStrokeBy(s: State, op: Op, userId: UserId)
    requires WellFormed(s)
    requires !(op.SegmentOp? && op.userId == userId) && op != EndStrokeOp(userId)
    ensures var r := Apply(s, op);
      Authored(userId, r.history + r.undoneHistory) <= Authored(userId, s.history + s.undoneHistory)
  {
    var r := Apply(s, op);
    match op
    case SegmentOp(u, d) =>
    case EndStrokeOp(u) =>
      if u in s.currentStrokes {
        AuthoredAppend(userId, s.history, s.undoneHistory);
        AuthoredAppend(userId, s.history, [s.currentStrokes[u]]);
        assert r.history + r.undoneHistory == s.history + [s.currentStrokes[u]];
      }
    case UndoOp =>
      if s.history != [] {
        var n := |s.history|;
        var last := s.history[n - 1];
        assert s.history == s.history[..n - 1] + [last];
        AuthoredAppend(userId, s.history[..n - 1], [last]);
        AuthoredAppend(userId, s.history, s.undoneHistory);
        AuthoredAppend(userId, s.history[..n - 1], s.undoneHistory + [last]);
        AuthoredAppend(userId, s.undoneHistory, [last]);
      }
    case RedoOp =>
      if s.undoneHistory != [] {
        var n := |s.undoneHistory|;
        var top := s.undoneHistory[n - 1];
        assert s.undoneHistory == s.undoneHistory[..n - 1] + [top];
        AuthoredAppend(userId, s.undoneHistory[..n - 1], [top]);
        AuthoredAppend(userId, s.history, s.undoneHistory);
        AuthoredAppend(userId, s.history + [top], s.undoneHistory[..n - 1]);
        AuthoredAppend(userId, s.history, [top]);
      }
    case ClearOp =>
  }

  /** An author who sends nothing more never gets another stroke into the
      history: the number of its strokes in history and redo stack together can
      only go down. In particular a stroke left open at disconnect never shows up. */
  lemma {:induction false} SilentAuthorGainsNoStroke(s: State, ops: seq<Op>, userId: UserId)
    requires WellFormed(s) && SilentAuthor(ops, userId)
    ensures var r := Run(s, ops);
      Authored(userId, r.history + r.undoneHistory) <= Authored(userId, s.history + s.undoneHistory)
    decreases |ops|
  {
    if ops != [] {
      StepAddsNoStrokeBy(s, ops[0], userId);
      assert SilentAuthor(ops[1..], userId) by {
        forall i | 0 <= i < |ops[1..]|
          ensures !(ops[1..][i].SegmentOp? && ops[1..][i].userId == userId) && ops[1..][i] != EndStrokeOp(userId)
        {
          assert ops[1..][i] == ops[i + 1];
        }
      }
      SilentAuthorGainsNoStroke(Apply(s, ops[0]), ops[1..], userId);
    }
  }

  // ---------------------------------------------------------------------------
  // The object the server holds

  class DrawingState {
    var history: seq<Stroke>
    var undoneHistory: seq<Stroke>
    var currentStrokes: map<UserId, Stroke>

    function Model(): State
      reads this
    {
      State(history, undoneHistory, currentStrokes)
    }

    predicate Valid()
      reads this
    {
      WellFormed(Model())
    }

    constructor ()
      ensures Valid() && Model() == Empty
    {
      history := [];
      undoneHistory := [];
      currentStrokes := map[];
    }

    method AddDrawingPoint(userId: UserId, data: Segment)
      requires Valid()
      modifies this
      ensures Valid() && Model() == AfterSegment(old(Model()), userId, data)
    {
      if userId !in currentStrokes {
        currentStrokes := currentStrokes[userId := Begin(userId, data)];
      }
      var stroke := currentStrokes[userId];
      stroke := stroke.(points := stroke.points + [StartOf(data)]);
      stroke := stroke.(points := stroke.points + [EndOf(data)]);
      assert stroke.points == OpenPoints(old(Model()), userId) + [StartOf(data), EndOf(data)];
      currentStrokes := currentStrokes[userId := stroke];
    }

    method EndStroke(userId: UserId)
      requires Valid()
      modifies this
      ensures Valid() && Model() == AfterEndStroke(old(Model()), userId)
    {
      if userId in currentStrokes {
        var stroke := currentStrokes[userId];
        history := history + [stroke];
        currentStrokes := currentStrokes - {userId};
        undoneHistory := [];
      }
    }

    /** The history, in finalization order; every stroke in it is whole. */
    method GetHistory() returns (h: seq<Stroke>)
      requires Valid()
      ensures h == history
      ensures forall i :: 0 <= i < |h| ==> Whole(h[i])
    {
      h := history;
    }

    method Undo() returns (h: seq<Stroke>)
      requires Valid()
      modifies this
      ensures Valid() && Model() == AfterUndo(old(Model()))
      ensures h == history
    {
      if |history| > 0 {
        var lastStroke := history[|history| - 1];
        history := history[..|history| - 1];
        undoneHistory := undoneHistory + [lastStroke];
      }
      h := history;
    }

    method Redo() returns (h: seq<Stroke>)
      requires Valid()
      modifies this
      ensures Valid() && Model() == AfterRedo(old(Model()))
      ensures h == history
    {
      if |undoneHistory| > 0 {
        var stroke := undoneHistory[|undoneHistory| - 1];
        undoneHistory := undoneHistory[..|undoneHistory| - 1];
        history := history + [stroke];
      }
      h := history;
    }

    method Clear()
      requires Valid()
      modifies this
      ensures Valid() && Model() == AfterClear(old(Model()))
    {
      history := [];
      undoneHistory := [];
      currentStrokes := map[];
    }
  }
}
