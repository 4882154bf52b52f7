/**
  The background of the logo: the outline of the 240 x 240 view box
  (-120..120 on both axes) with the top-right, bottom-right and bottom-left
  corners rounded by elliptical arcs of radius r and the top-left corner left
  square, written as path data with the fixed line breaks of the document.
 */
module Frame {
  import opened Decimal
  import opened PathData
  import opened Template

  /** Half the side of the view box. */
  const Half: int := 120

  /** The background outline, clockwise on screen (y grows downwards). */
  function FrameCommands(r: int): seq<Cmd> {
    [ Move(Point(-Half, -Half)),
      Horizontal(Half - r),
      Arc(r, r, 0, false, true, Point(Half, -Half + r)),
      Vertical(Half - r),
      Arc(r, r, 0, false, true, Point(Half - r, Half)),
      Horizontal(-Half + r),
      Arc(r, r, 0, false, true, Point(-Half, Half - r)),
      Close ]
  }

  function Flag(b: bool): string {
    if b then "1" else "0"
  }

  /** The background's own spelling of a command: "M", "H" and "V" run into
      their number, "A" takes a space and space-separated numbers. */
  function FrameCmdText(c: Cmd): string
    requires !IsSegment(c)
  {
    match c
    case Move(q) => "M" + IntToString(q.x) + "," + IntToString(q.y)
    case Horizontal(x) => "H" + IntToString(x)
    case Vertical(y) => "V" + IntToString(y)
    case Arc(rx, ry, rot, large, sweep, q) =>
      "A " + IntToString(rx) + " " + IntToString(ry) + " " + IntToString(rot) + " "
      + Flag(large) + " " + Flag(sweep) + " " + IntToString(q.x) + " " + IntToString(q.y)
    case Close => "Z"
  }

  /** The white space the document writes after each command of the background. */
  const Breaks: seq<string> :=
    ["\n      ", "\n\t\t  ", "\n\t\t\t", "\n\t\t  ", "\n\t\t  ", "\n\t\t  ", "\n\t\t  ", "\n  "]

  /** The background's d attribute. */
  function FrameText(r: int): string {
    var cmds := FrameCommands(r);
    Interpolate([""] + Breaks, seq(|cmds|, i requires 0 <= i < |cmds| => FrameCmdText(cmds[i])))
  }

  /** The point the pen is at after each command of the background. */
  lemma FrameTrace(r: int)
    ensures Trace(FrameCommands(r)) ==
      [Point(-Half, -Half), Point(Half - r, -Half), Point(Half, -Half + r), Point(Half, Half - r),
       Point(Half - r, Half), Point(-Half + r, Half), Point(-Half, Half - r), Point(-Half, -Half)]
  {
    var cmds := FrameCommands(r);
    var s := Point(-Half, -Half);
    assert TraceFrom(Point(-Half, Half - r), s, cmds[7..]) == [s];
    assert TraceFrom(Point(-Half + r, Half), s, cmds[6..]) == [Point(-Half, Half - r), s];
    assert TraceFrom(Point(Half - r, Half), s, cmds[5..]) == [Point(-Half + r, Half), Point(-Half, Half - r), s];
    assert TraceFrom(Point(Half, Half - r), s, cmds[4..]) ==
      [Point(Half - r, Half), Point(-Half + r, Half), Point(-Half, Half - r), s];
    assert TraceFrom(Point(Half, -Half + r), s, cmds[3..]) ==
      [Point(Half, Half - r), Point(Half - r, Half), Point(-Half + r, Half), Point(-Half, Half - r), s];
    assert TraceFrom(Point(Half - r, -Half), s, cmds[2..]) ==
      [Point(Half, -Half + r), Point(Half, Half - r), Point(Half - r, Half), Point(-Half + r, Half),
       Point(-Half, Half - r), s];
    assert TraceFrom(s, s, cmds[1..]) ==
      [Point(Half - r, -Half), Point(Half, -Half + r), Point(Half, Half - r), Point(Half - r, Half),
       Point(-Half + r, Half), Point(-Half, Half - r), s];
  }

  // ---------------------------------------------------------------------------

  predicate OnBoundary(q: Point) {
    ((q.x == -Half || q.x == Half) && -Half <= q.y <= Half) ||
    ((q.y == -Half || q.y == Half) && -Half <= q.x <= Half)
  }

  function Abs(n: int): nat {
    if n < 0 then -n else n
  }

  /** An arc from `start` to `end` cuts `corner`: both ends lie r away from it,
      on the two different edges that meet there. */
  predicate CutsCorner(start: Point, end: Point, corner: Point, r: int) {
    (start.y == corner.y && Abs(corner.x - start.x) == r && end.x == corner.x && Abs(corner.y - end.y) == r) ||
    (start.x == corner.x && Abs(corner.y - start.y) == r && end.y == corner.y && Abs(corner.x - end.x) == r)
  }

  predicate IsFrameArc(c: Cmd, r: int) {
    c.Arc? && c.rx == r && c.ry == r && c.rotation == 0 && !c.largeArc && c.sweep
  }

  /** The background starts at the top-left corner, ends with Z, and holds exactly
      three arcs, each of radius r with the sweep flag set; they end r below the
      top-right corner, r left of the bottom-right one and r above the bottom-left one. */
  lemma FrameShape(r: int)
    ensures var cmds := FrameCommands(r);
      |cmds| == 8 && cmds[0] == Move(Point(-Half, -Half)) && cmds[7] == Close &&
      (forall i :: 0 <= i < 8 ==> (cmds[i].Arc? <==> i == 2 || i == 4 || i == 6)) &&
      IsFrameArc(cmds[2], r) && IsFrameArc(cmds[4], r) && IsFrameArc(cmds[6], r) &&
      cmds[2].to == Point(Half, -Half + r) &&
      cmds[4].to == Point(Half - r, Half) &&
      cmds[6].to == Point(-Half, Half - r)
  {
  }

  /** For a radius that fits the box, every point the outline reaches lies on
      the boundary of the view box, and the Z brings it back to the start. */
  lemma FrameOnBoundary(r: int)
    requires 0 <= r <= 2 * Half
    ensures var t := Trace(FrameCommands(r));
      (forall i :: 0 <= i < |t| ==> OnBoundary(t[i])) && t[7] == t[0] == Point(-Half, -Half)
  {
    FrameTrace(r);
  }

  /** Each arc replaces a corner: it starts where the previous command left the
      pen and both its ends lie r from that corner, on the two edges through it. */
  lemma ArcsCutCorners(r: int)
    requires r >= 0
    ensures var cmds, t := FrameCommands(r), Trace(FrameCommands(r));
      CutsCorner(t[1], cmds[2].to, Point(Half, -Half), r) &&
      CutsCorner(t[3], cmds[4].to, Point(Half, Half), r) &&
      CutsCorner(t[5], cmds[6].to, Point(-Half, Half), r)
  {
    FrameTrace(r);
  }

  /** With a proper radius, the top-left corner is a vertex of the outline and
      the other three corners are not reached at all. */
  lemma TopLeftSquare(r: int)
    requires 0 < r < 2 * Half
    ensures var t := Trace(FrameCommands(r));
      Point(-Half, -Half) in t &&
      Point(Half, -Half) !in t && Point(Half, Half) !in t && Point(-Half, Half) !in t
  {
    FrameTrace(r);
  }

  /** A zero radius still writes the three arcs, but each one ends where it
      starts, so it draws nothing (SVG 1.1, appendix F.6.2), and the outline
      passes through all four corners. */
  lemma ZeroRadiusDegenerates()
    ensures var cmds, t := FrameCommands(0), Trace(FrameCommands(0));
      cmds[2].Arc? && cmds[4].Arc? && cmds[6].Arc? &&
      t[1] == t[2] && t[3] == t[4] && t[5] == t[6] &&
      Point(Half, -Half) in t && Point(Half, Half) in t && Point(-Half, Half) in t
  {
    FrameTrace(0);
  }

  /** The background's text starts with the move written "M-120,-120". */
  lemma FrameMoveText(r: int)
    ensures FrameCmdText(FrameCommands(r)[0]) == "M-120,-120"
  {
    assert IntToString(-120) == "-120";
  }

  lemma ArcSpelling(rx: int, ry: int, q: Point)
    ensures FrameCmdText(Arc(rx, ry, 0, false, true, q)) ==
      "A " + IntToString(rx) + " " + IntToString(ry) + " 0 0 1 " + IntToString(q.x) + " " + IntToString(q.y)
  {
    var a, b, x, y := IntToString(rx), IntToString(ry), IntToString(q.x), IntToString(q.y);
    assert IntToString(0) == "0";
    assert "A " + a + " " + b + " " + "0" + " " + "0" + " " + "1" + " " + x + " " + y ==
      "A " + a + " " + b + " 0 0 1 " + x + " " + y;
  }

  /** Each arc is written "A r r 0 0 1 x y": the radius twice, then the digits
      0 0 1 for no rotation, the small arc and the positive sweep, then its end. */
  lemma FrameArcText(r: int, k: nat)
    requires k == 2 || k == 4 || k == 6
    ensures var cmds := FrameCommands(r);
      cmds[k].Arc? &&
      FrameCmdText(cmds[k]) ==
        "A " + IntToString(r) + " " + IntToString(r) + " 0 0 1 " + IntToString(cmds[k].to.x) + " " + IntToString(cmds[k].to.y)
  {
    ArcSpelling(r, r, FrameCommands(r)[k].to);
  }

  /** The horizontal and vertical edges are written H or V with the one
      coordinate they move to, and the outline ends with Z. */
  lemma FrameEdgeTexts(r: int)
    ensures var cmds := FrameCommands(r);
      FrameCmdText(cmds[1]) == "H" + IntToString(Half - r) &&
      FrameCmdText(cmds[3]) == "V" + IntToString(Half - r) &&
      FrameCmdText(cmds[5]) == "H" + IntToString(-Half + r) &&
      FrameCmdText(cmds[7]) == "Z"
  {
  }

  /** The top-right arc draw writes, with the radius 42 it uses. */
  lemma TopRightArcAt42()
    ensures FrameCmdText(FrameCommands(42)[2]) == "A 42 42 0 0 1 120 -78"
  {
    assert FrameCommands(42)[2] == Arc(42, 42, 0, false, true, Point(120, -78));
    var r, z, x, y := IntToString(42), IntToString(0), IntToString(120), IntToString(-78);
    assert r == "42" && z == "0" && x == "120" && y == "-78";
  }
}
