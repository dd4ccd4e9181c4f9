/** Points, segments and strokes as the server and the client exchange them.
    Coordinates, colours, widths and tools are only ever copied from one message
    into another, never computed, so they are kept as opaque values here. */
module Strokes {

  /** A connection's identity (the socket id); it doubles as the user id. */
  type UserId = string

  datatype Point = Point(x: real, y: real)

  /** The payload of one 'drawing' message: a line from (startX, startY) to
      (endX, endY) and the pen it was drawn with. */
  datatype Segment = Segment(startX: real, startY: real, endX: real, endY: real,
                             color: string, width: int, tool: string)

  /** A stroke, open or finalized: its author, the pen fixed when it was opened,
      and the points appended so far. */
  datatype Stroke = Stroke(userId: UserId, color: string, width: int, tool: string,
                           points: seq<Point>)

  function StartOf(d: Segment): Point { Point(d.startX, d.startY) }

  function EndOf(d: Segment): Point { Point(d.endX, d.endY) }

  /** The stroke that the segment `d` opens for `userId`: the pen is taken from
      `d` once and for all, and no point has been appended yet. */
  function Begin(userId: UserId, d: Segment): Stroke {
    Stroke(userId, d.color, d.width, d.tool, [])
  }

  /** Appending a segment to a stroke adds its start point, then its end point,
      and touches neither the author nor the pen. */
  function Extend(s: Stroke, d: Segment): (r: Stroke)
    ensures r.points == s.points + [StartOf(d), EndOf(d)]
    ensures r.(points := s.points) == s
    ensures Whole(s) || s.points == [] ==> Whole(r)
  {
    s.(points := s.points + [StartOf(d), EndOf(d)])
  }

  /** A stroke made of whole segments: at least one, two points each. */
  predicate Whole(s: Stroke) {
    |s.points| >= 2 && |s.points| % 2 == 0
  }

  /** The points a run of segments contributes, in arrival order. */
  function Endpoints(ds: seq<Segment>): (ps: seq<Point>)
    ensures |ps| == 2 * |ds|
    ensures forall i :: 0 <= i < |ds| ==> ps[2 * i] == StartOf(ds[i]) && ps[2 * i + 1] == EndOf(ds[i])
  {
    if ds == [] then [] else [StartOf(ds[0]), EndOf(ds[0])] + Endpoints(ds[1..])
  }

  /** The endpoints of two runs of segments, one after the other. */
  lemma {:induction false} EndpointsAppend(a: seq<Segment>, b: seq<Segment>)
    ensures Endpoints(a + b) == Endpoints(a) + Endpoints(b)
  {
    if a == [] {
      assert a + b == b;
    } else {
      assert (a + b)[1..] == a[1..] + b;
      EndpointsAppend(a[1..], b);
    }
  }

  /** The stroke that a non-empty run of segments from one author builds when
      nothing interrupts it: the pen of the first segment and every endpoint. */
  function Built(userId: UserId, ds: seq<Segment>): (s: Stroke)
    requires ds != []
    ensures Whole(s)
  {
    Begin(userId, ds[0]).(points := Endpoints(ds))
  }
}
