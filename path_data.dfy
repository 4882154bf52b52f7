/**
  SVG path data (SVG 1.1 section 8.3) over integer coordinates: the absolute
  commands the logo uses, the current point each command leaves (section
  8.3.2), and reversal of an open path made of lines and cubic curves.
 */
module PathData {

  datatype Point = Point(x: int, y: int)

  function Shift(p: Point, dx: int, dy: int): Point {
    Point(p.x + dx, p.y + dy)
  }

  /** Point reflection through the origin. */
  function Negate(p: Point): Point {
    Point(-p.x, -p.y)
  }

  /** Reflection across the horizontal axis (y = 0). */
  function MirrorY(p: Point): Point {
    Point(p.x, -p.y)
  }

  /** One absolute path command. */
  datatype Cmd =
    | Move(to: Point)                                 // M x,y
    | Line(to: Point)                                 // L x,y
    | Cubic(c1: Point, c2: Point, to: Point)          // C x1,y1 x2,y2 x,y (section 8.3.6)
    | Horizontal(x: int)                              // H x
    | Vertical(y: int)                                // V y
    | Arc(rx: int, ry: int, rotation: int, largeArc: bool, sweep: bool, to: Point)  // A (section 8.3.8)
    | Close                                           // Z

  /** A command that draws from the current point to an explicit point. */
  predicate IsSegment(c: Cmd) {
    c.Line? || c.Cubic?
  }

  /** One subpath opened by a move and continued only by lines and cubic curves:
      it is never closed, and every segment starts where the previous one ended. */
  predicate IsOpenPath(cmds: seq<Cmd>) {
    |cmds| > 0 && cmds[0].Move? && forall i :: 1 <= i < |cmds| ==> IsSegment(cmds[i])
  }

  /** The current point after a command, given the current point before it and
      the start of the current subpath (which Z returns to). */
  function After(cur: Point, start: Point, c: Cmd): (p: Point)
    ensures c.Close? ==> p == start
    ensures c.Horizontal? ==> p.y == cur.y
    ensures c.Vertical? ==> p.x == cur.x
  {
    match c
    case Move(q) => q
    case Line(q) => q
    case Cubic(_, _, q) => q
    case Horizontal(x) => Point(x, cur.y)
    case Vertical(y) => Point(cur.x, y)
    case Arc(_, _, _, _, _, q) => q
    case Close => start
  }

  /** The current point after each command in turn. */
  function TraceFrom(cur: Point, start: Point, cmds: seq<Cmd>): (ps: seq<Point>)
    ensures |ps| == |cmds|
    decreases |cmds|
  {
    if cmds == [] then []
    else
      var p := After(cur, start, cmds[0]);
      var start' := if cmds[0].Move? then p else start;
      [p] + TraceFrom(p, start', cmds[1..])
  }

  /** The current points of a path, which starts with no current point; the
      origin stands for it and is never read when the path begins with M. */
  function Trace(cmds: seq<Cmd>): (ps: seq<Point>)
    ensures |ps| == |cmds|
  {
    TraceFrom(Point(0, 0), Point(0, 0), cmds)
  }

  /** Where the segment at index i of an open path begins. */
  function StartOf(cmds: seq<Cmd>, i: int): Point
    requires IsOpenPath(cmds) && 1 <= i < |cmds|
  {
    cmds[i - 1].to
  }

  lemma {:induction false} TraceOfOpenPath(cmds: seq<Cmd>)
    requires IsOpenPath(cmds)
    ensures forall i :: 0 <= i < |cmds| ==> Trace(cmds)[i] == cmds[i].to
  {
    var p := cmds[0].to;
    TraceOfSegments(p, p, cmds[1..]);
  }

  lemma {:induction false} TraceOfSegments(cur: Point, start: Point, segs: seq<Cmd>)
    requires forall i :: 0 <= i < |segs| ==> IsSegment(segs[i])
    ensures forall i :: 0 <= i < |segs| ==> IsSegment(segs[i]) && TraceFrom(cur, start, segs)[i] == segs[i].to
    decreases |segs|
  {
    if segs != [] {
      TraceOfSegments(segs[0].to, start, segs[1..]);
    }
  }

  /** The same segment drawn from its end back to its start `from`. */
  function Flip(from: Point, c: Cmd): (r: Cmd)
    requires IsSegment(c)
    ensures IsSegment(r) && r.to == from
  {
    match c
    case Line(_) => Line(from)
    case Cubic(c1, c2, _) => Cubic(c2, c1, from)
  }

  /** The open path traversed backwards: the same curves, the other way round. */
  function Reverse(cmds: seq<Cmd>): (r: seq<Cmd>)
    requires IsOpenPath(cmds)
    ensures IsOpenPath(r) && |r| == |cmds|
    ensures r[0] == Move(cmds[|cmds| - 1].to)
    ensures forall j :: 1 <= j < |r| ==> r[j] == Flip(StartOf(cmds, |cmds| - j), cmds[|cmds| - j])
  {
    var n := |cmds|;
    [Move(cmds[n - 1].to)] + seq(n - 1, j requires 0 <= j < n - 1 => Flip(StartOf(cmds, n - 1 - j), cmds[n - 1 - j]))
  }

  /** Reversing twice gives back the path. */
  lemma ReverseInvolution(cmds: seq<Cmd>)
    requires IsOpenPath(cmds)
    ensures Reverse(Reverse(cmds)) == cmds
  {
    var n := |cmds|;
    var r := Reverse(cmds);
    var rr := Reverse(r);
    forall j | 1 <= j < n ensures rr[j] == cmds[j] {
      assert r[n - j] == Flip(StartOf(cmds, j), cmds[j]);
      assert StartOf(r, n - j) == r[n - j - 1].to;
      if n - j - 1 > 0 {
        assert r[n - j - 1] == Flip(StartOf(cmds, j + 1), cmds[j + 1]);
      }
    }
  }

  /** Reversal visits the same points in the opposite order. */
  lemma ReverseTrace(cmds: seq<Cmd>)
    requires IsOpenPath(cmds)
    ensures forall i :: 0 <= i < |cmds| ==> Trace(Reverse(cmds))[i] == Trace(cmds)[|cmds| - 1 - i]
  {
    TraceOfOpenPath(cmds);
    TraceOfOpenPath(Reverse(cmds));
  }

  /** A point map applied to every point a drawing command carries. */
  function MapCmd(f: Point -> Point, c: Cmd): (r: Cmd)
    requires c.Move? || IsSegment(c)
    ensures r.Move? == c.Move? && r.Line? == c.Line? && r.Cubic? == c.Cubic?
    ensures r.to == f(c.to)
  {
    match c
    case Move(p) => Move(f(p))
    case Line(p) => Line(f(p))
    case Cubic(c1, c2, p) => Cubic(f(c1), f(c2), f(p))
  }

  function MapPath(f: Point -> Point, cmds: seq<Cmd>): (r: seq<Cmd>)
    requires forall i :: 0 <= i < |cmds| ==> cmds[i].Move? || IsSegment(cmds[i])
    ensures |r| == |cmds|
    ensures forall i :: 0 <= i < |cmds| ==> r[i] == MapCmd(f, cmds[i])
  {
    seq(|cmds|, i requires 0 <= i < |cmds| => MapCmd(f, cmds[i]))
  }

  /** A point map applied to an open path gives an open path whose pen visits
      the images of the original pen positions, in the same order. */
  lemma MapOpenPath(f: Point -> Point, cmds: seq<Cmd>)
    requires IsOpenPath(cmds)
    ensures IsOpenPath(MapPath(f, cmds))
    ensures forall i :: 0 <= i < |cmds| ==> Trace(MapPath(f, cmds))[i] == f(Trace(cmds)[i])
  {
    var m := MapPath(f, cmds);
    assert m[0].Move?;
    assert forall i :: 1 <= i < |m| ==> IsSegment(m[i]) by {
      forall i | 1 <= i < |m| ensures IsSegment(m[i]) {
        assert IsSegment(cmds[i]);
      }
    }
    TraceOfOpenPath(cmds);
    TraceOfOpenPath(m);
  }

  /** Every point a drawing command carries: its control points and its end point. */
  function PointsOf(c: Cmd): (ps: seq<Point>)
    requires c.Move? || IsSegment(c)
    ensures |ps| > 0 && ps[|ps| - 1] == c.to
  {
    match c
    case Move(p) => [p]
    case Line(p) => [p]
    case Cubic(c1, c2, p) => [c1, c2, p]
  }
}
