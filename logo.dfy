/**
  The document assembler (draw): a fixed 240 x 240 SVG document holding the
  rounded background filled with the background colour and a group, stroked
  in the foreground colour, that places one C and two S letterforms side by
  side.  The template literal of the source is `Compose`; its fixed numeric
  settings are `Fixed`.
 */
module Logo {
  import opened Decimal
  import opened PathData
  import opened Letterforms
  import opened Frame
  import opened Template

  /** The numeric settings draw declares as constants. */
  datatype Config = Config(thickness: int, w1: int, h1: int, h2: int, t1: int, t2: int, t3: int, r: int)

  const Fixed: Config := Config(18, 18, 26, 24, 12, 12, 32, 42)

  /** The kerning between letterforms, six more than the stroke width. */
  function Kerning(cfg: Config): int {
    cfg.thickness + 6
  }

  function LetterParams(cfg: Config): Params {
    Params(cfg.h1, cfg.h2, cfg.w1, cfg.t1, cfg.t2, cfg.t3)
  }

  datatype Glyph = CShape | SShape

  /** A letterform and the distance it is moved to the left. */
  datatype Placement = Placement(glyph: Glyph, offset: int)

  /** The three placements, in the order the document lists them. */
  function Placements(cfg: Config): seq<Placement> {
    var w1, k := cfg.w1, Kerning(cfg);
    [Placement(CShape, w1 * 4 + k * 2), Placement(SShape, w1 * 2 + k * 1), Placement(SShape, w1 * 0 + k * 0)]
  }

  function GlyphCommands(cfg: Config, g: Glyph): seq<Cmd> {
    match g
    case CShape => CCommands(LetterParams(cfg))
    case SShape => SCommands(LetterParams(cfg))
  }

  function GlyphText(cfg: Config, g: Glyph): string {
    match g
    case CShape => DrawC(LetterParams(cfg))
    case SShape => DrawS(LetterParams(cfg))
  }

  /** The shift of the group: k in from the right edge past the half-width, and
      k in from the bottom edge past both half-heights. */
  function GroupShift(cfg: Config): Point {
    var k := Kerning(cfg);
    Point(Half - k - cfg.w1, Half - cfg.h1 - cfg.h2 - k)
  }

  function Translate(x: string, y: string): string {
    "translate(" + x + " " + y + ")"
  }

  function GroupTransform(cfg: Config): string {
    Translate(IntToString(GroupShift(cfg).x), IntToString(GroupShift(cfg).y))
  }

  /** A placement's transform: a minus sign written before the offset's digits. */
  function PlacementTransform(pl: Placement): string {
    Translate("-" + IntToString(pl.offset), "0")
  }

  /** The attribute each substitution is the value of, in order. */
  const Attributes: seq<string> :=
    ["d", "fill", "stroke-width", "stroke", "transform", "transform", "d", "transform", "d", "transform", "d"]

  /** The markup between the closing quote of one attribute value and the name
      of the next attribute (less the one space before that name). */
  const Gaps: seq<string> := [
    "<svg xmlns=\"http://www.w3.org/2000/svg\" viewBox=\"-120 -120 240 240\" width=\"240\" fill=\"none\">\n  <title>CSS</title>\n  <path",
    "",
    " />\n  <g class=\"CSS\"\n   ",
    "",
    "\n   ",
    "\n  >\n    <path class=\"C\"\n     ",
    "\n     ",
    "\n    />\n    <path class=\"S\"\n     ",
    "\n     ",
    "\n    />\n    <path class=\"S\"\n     ",
    "\n     "
  ]

  /** The markup after the last attribute value. */
  const Ending: string := "\n    />\n  </g>\n</svg>"

  /** The opening of attribute i: a space, its name, an equals sign and a quote. */
  function Opening(i: nat): string
    requires i < |Attributes|
  {
    " " + Attributes[i] + "=\""
  }

  /** Literal chunk i of the template: the quote closing the previous value
      (none before the first), then the markup up to the next attribute value. */
  function Chunk(i: nat): string
    requires i <= |Attributes|
  {
    (if i == 0 then "" else "\"") + (if i < |Attributes| then Gaps[i] + Opening(i) else Ending)
  }

  /** The literal text of the template around its substitutions. */
  function Layout(): (l: seq<string>)
    ensures |l| == |Attributes| + 1
    ensures forall i :: 0 <= i < |l| ==> l[i] == Chunk(i)
  {
    seq(|Attributes| + 1, i requires 0 <= i <= |Attributes| => Chunk(i))
  }

  /** The substitutions after the two colours: the group transform, then each
      placement's transform and path data. */
  function Geometry(cfg: Config): (g: seq<string>)
    ensures |g| == 7
  {
    var pls := Placements(cfg);
    [ GroupTransform(cfg),
      PlacementTransform(pls[0]), GlyphText(cfg, pls[0].glyph),
      PlacementTransform(pls[1]), GlyphText(cfg, pls[1].glyph),
      PlacementTransform(pls[2]), GlyphText(cfg, pls[2].glyph) ]
  }

  function Substitutions(cfg: Config, fg: string, bg: string): (subs: seq<string>)
    ensures |subs| + 1 == |Layout()|
  {
    [FrameText(cfg.r), bg, IntToString(cfg.thickness), fg] + Geometry(cfg)
  }

  /** The document for any settings. */
  function Compose(cfg: Config, fg: string, bg: string): string {
    Interpolate(Layout(), Substitutions(cfg, fg, bg))
  }

  /** draw(foreground, background). */
  function Draw(fg: string, bg: string): string {
    Compose(Fixed, fg, bg)
  }

  // ---------------------------------------------------------------------------
  // Colours

  /** The text before the background colour. */
  function BeforeFill(cfg: Config): string {
    Layout()[0] + FrameText(cfg.r) + Layout()[1]
  }

  /** The text between the two colours. */
  function BeforeStroke(cfg: Config): string {
    Layout()[2] + IntToString(cfg.thickness) + Layout()[3]
  }

  /** The text after the foreground colour. */
  function AfterStroke(cfg: Config): string {
    Interpolate(Layout()[4..], Geometry(cfg))
  }

  predicate StartsWith(s: string, prefix: string) {
    |prefix| <= |s| && s[..|prefix|] == prefix
  }

  predicate EndsWith(s: string, suffix: string) {
    |suffix| <= |s| && s[|s| - |suffix|..] == suffix
  }

  lemma StartsWithAppend(s: string, t: string, prefix: string)
    requires StartsWith(s, prefix)
    ensures StartsWith(s + t, prefix)
  {
    assert (s + t)[..|prefix|] == s[..|prefix|];
  }

  lemma EndsWithPrepend(s: string, t: string, suffix: string)
    requires EndsWith(t, suffix)
    ensures EndsWith(s + t, suffix)
  {
    assert (s + t)[|s + t| - |suffix|..] == t[|t| - |suffix|..];
  }

  /** Substitution i is the whole value of attribute Attributes[i]: the text
      before it ends with the attribute's name, an equals sign and a quote, and
      the text after it starts with the closing quote. */
  predicate AttributeSlot(i: int)
    requires 0 <= i < |Attributes|
  {
    EndsWith(Layout()[i], Opening(i)) && StartsWith(Layout()[i + 1], "\"")
  }

  lemma AttributeSlotAt(i: int)
    requires 0 <= i < |Attributes|
    ensures AttributeSlot(i)
  {
    var head := (if i == 0 then "" else "\"") + Gaps[i];
    assert Layout()[i] == head + Opening(i);
    assert EndsWith(Opening(i), Opening(i));
    EndsWithPrepend(head, Opening(i), Opening(i));
    var rest := if i + 1 < |Attributes| then Gaps[i + 1] + Opening(i + 1) else Ending;
    assert Layout()[i + 1] == "\"" + rest;
    assert StartsWith("\"", "\"");
    StartsWithAppend("\"", rest, "\"");
  }

  /** Every substitution of the template is the value of one attribute. */
  lemma SubstitutionsAreAttributeValues()
    ensures |Attributes| + 1 == |Layout()|
    ensures forall i :: 0 <= i < |Attributes| ==> AttributeSlot(i)
  {
    forall i | 0 <= i < |Attributes| ensures AttributeSlot(i) {
      AttributeSlotAt(i);
    }
  }

  lemma Regroup(l0: string, s0: string, l1: string, bg: string, l2: string, t: string, l3: string, fg: string, rest: string)
    ensures l0 + s0 + l1 + bg + l2 + t + l3 + fg + rest == (l0 + s0 + l1) + bg + (l2 + t + l3) + fg + rest
  {
  }

  /** The document is the text before the fill value, the background colour,
      the text between the two colours, the foreground colour and the rest. */
  lemma ComposeAroundColours(cfg: Config, fg: string, bg: string)
    ensures Compose(cfg, fg, bg) == BeforeFill(cfg) + bg + BeforeStroke(cfg) + fg + AfterStroke(cfg)
  {
    var l, subs := Layout(), Substitutions(cfg, fg, bg);
    InterpolateFirstFour(l, subs);
    var f, t, g := FrameText(cfg.r), IntToString(cfg.thickness), Geometry(cfg);
    assert subs[0] == f && subs[1] == bg && subs[2] == t && subs[3] == fg && subs[4..] == g;
    Regroup(l[0], f, l[1], bg, l[2], t, l[3], fg, Interpolate(l[4..], g));
  }

  lemma AroundFill(cfg: Config)
    ensures EndsWith(BeforeFill(cfg), " fill=\"")
  {
    var l := Layout();
    AttributeSlotAt(1);
    assert Opening(1) == " fill=\"";
    EndsWithPrepend(l[0] + FrameText(cfg.r), l[1], " fill=\"");
  }

  lemma Enclosed(a: string, x: string, b: string, prefix: string, suffix: string)
    requires StartsWith(a, prefix) && EndsWith(b, suffix)
    ensures StartsWith(a + x + b, prefix) && EndsWith(a + x + b, suffix)
  {
    StartsWithAppend(a, x + b, prefix);
    assert a + x + b == a + (x + b);
    EndsWithPrepend(a + x, b, suffix);
  }

  lemma AroundStroke(cfg: Config)
    ensures StartsWith(BeforeStroke(cfg), "\"") && EndsWith(BeforeStroke(cfg), " stroke=\"")
  {
    var l, t := Layout(), IntToString(cfg.thickness);
    assert StartsWith(l[2], "\"") by {
      AttributeSlotAt(1);
    }
    assert EndsWith(l[3], " stroke=\"") by {
      AttributeSlotAt(3);
      assert Opening(3) == " stroke=\"";
    }
    Enclosed(l[2], t, l[3], "\"", " stroke=\"");
  }

  lemma InterpolateStartsWith(strs: seq<string>, subs: seq<string>, prefix: string)
    requires |strs| == |subs| + 1 && StartsWith(strs[0], prefix)
    ensures StartsWith(Interpolate(strs, subs), prefix)
  {
    if subs != [] {
      StartsWithAppend(strs[0], subs[0] + Interpolate(strs[1..], subs[1..]), prefix);
      assert Interpolate(strs, subs) == strs[0] + (subs[0] + Interpolate(strs[1..], subs[1..]));
    }
  }

  lemma AfterStrokeOpens(cfg: Config)
    ensures StartsWith(AfterStroke(cfg), "\"")
  {
    AttributeSlotAt(3);
    InterpolateStartsWith(Layout()[4..], Geometry(cfg), "\"");
  }

  /** The background colour stands, verbatim, in the fill attribute and the
      foreground colour in the stroke attribute; all the rest of the document,
      the path data and transforms included, does not depend on the colours. */
  lemma ColourSlots(cfg: Config, fg: string, bg: string)
    ensures Compose(cfg, fg, bg) == BeforeFill(cfg) + bg + BeforeStroke(cfg) + fg + AfterStroke(cfg)
    ensures EndsWith(BeforeFill(cfg), " fill=\"")
    ensures StartsWith(BeforeStroke(cfg), "\"") && EndsWith(BeforeStroke(cfg), " stroke=\"")
    ensures StartsWith(AfterStroke(cfg), "\"")
  {
    ComposeAroundColours(cfg, fg, bg);
    AroundFill(cfg);
    AroundStroke(cfg);
    AfterStrokeOpens(cfg);
  }

  /** Changing the colours changes only the fill and stroke substitutions: the
      frame's path data, the stroke width, every transform and every letterform's
      path data stay the same, and the two colours are written verbatim. */
  lemma ColoursOnlyInTheirAttributes(cfg: Config, fg: string, bg: string, fg': string, bg': string)
    ensures var s, s' := Substitutions(cfg, fg, bg), Substitutions(cfg, fg', bg');
      s[1] == bg && s[3] == fg && Attributes[1] == "fill" && Attributes[3] == "stroke" &&
      forall i :: 0 <= i < |s| && i != 1 && i != 3 ==> s[i] == s'[i]
  {
  }

  /** draw("white", "rebeccapurple") fills the background with "rebeccapurple"
      and strokes the letterforms with "white". */
  lemma DefaultColours()
    ensures Draw("white", "rebeccapurple") ==
      BeforeFill(Fixed) + "rebeccapurple" + BeforeStroke(Fixed) + "white" + AfterStroke(Fixed)
    ensures EndsWith(BeforeFill(Fixed), " fill=\"")
    ensures StartsWith(BeforeStroke(Fixed), "\"") && EndsWith(BeforeStroke(Fixed), " stroke=\"")
    ensures StartsWith(AfterStroke(Fixed), "\"")
  {
    ColourSlots(Fixed, "white", "rebeccapurple");
  }

  // ---------------------------------------------------------------------------
  // Placement

  /** The letterforms run C, S, S; each offset exceeds the next by the stride
      2 * w1 + k, and the last one is not moved. */
  lemma PlacementStride(cfg: Config)
    ensures var pls, stride := Placements(cfg), 2 * cfg.w1 + Kerning(cfg);
      |pls| == 3 &&
      pls[0].glyph == CShape && pls[1].glyph == SShape && pls[2].glyph == SShape &&
      pls[0].offset - pls[1].offset == stride && pls[1].offset - pls[2].offset == stride &&
      pls[2].offset == 0
  {
  }

  /** A placement's transform moves the letterform left by its offset: the text
      after the opening parenthesis reads as the number -offset, "-0" included. */
  lemma PlacementTransformValue(pl: Placement)
    requires pl.offset >= 0
    ensures var x := "-" + IntToString(pl.offset);
      PlacementTransform(pl) == Translate(x, "0") && NumberValue(x) == Some(-pl.offset) &&
      NumberValue("0") == Some(0)
  {
    MinusPrefixValue(pl.offset);
  }

  /** The group transform reads back as the group shift. */
  lemma GroupTransformValue(cfg: Config)
    ensures var x, y := IntToString(GroupShift(cfg).x), IntToString(GroupShift(cfg).y);
      GroupTransform(cfg) == Translate(x, y) &&
      NumberValue(x) == Some(GroupShift(cfg).x) && NumberValue(y) == Some(GroupShift(cfg).y)
  {
    NumberValueOfIntToString(GroupShift(cfg).x);
    NumberValueOfIntToString(GroupShift(cfg).y);
  }

  /** Where a point of placement i lands in the view box: moved by the
      placement's transform, then by the group's. */
  function Canvas(cfg: Config, i: nat, q: Point): Point
    requires i < 3
  {
    var g := GroupShift(cfg);
    Shift(q, g.x - Placements(cfg)[i].offset, g.y)
  }

  function GlyphAnchors(cfg: Config, g: Glyph): Anchors {
    match g
    case CShape => CAnchors(LetterParams(cfg))
    case SShape => SAnchors(LetterParams(cfg))
  }

  /** The anchors of placement i in view-box coordinates, in drawing order. */
  function CanvasAnchors(cfg: Config, i: nat): (qs: seq<Point>)
    requires i < 3
    ensures |qs| == 6
  {
    var sk := Skeleton(GlyphAnchors(cfg, Placements(cfg)[i].glyph));
    seq(6, j requires 0 <= j < 6 => Canvas(cfg, i, sk[j]))
  }

  /** Neighbouring letterforms do not overlap: every anchor of a letterform lies
      at least k left of every anchor of the next one, and A of the first and C
      of the second are exactly k apart. */
  lemma KerningGap(cfg: Config, i: nat)
    requires i < 2 && cfg.w1 >= 0
    ensures var left, right := CanvasAnchors(cfg, i), CanvasAnchors(cfg, i + 1);
      (forall j, j' :: 0 <= j < 6 && 0 <= j' < 6 ==> left[j].x + Kerning(cfg) <= right[j'].x) &&
      left[0].x + Kerning(cfg) == right[2].x
  {
    var p := LetterParams(cfg);
    var an, an' := GlyphAnchors(cfg, Placements(cfg)[i].glyph), GlyphAnchors(cfg, Placements(cfg)[i + 1].glyph);
    AnchorBounds(p, an);
    AnchorBounds(p, an');
    var left, right := CanvasAnchors(cfg, i), CanvasAnchors(cfg, i + 1);
    forall j, j' | 0 <= j < 6 && 0 <= j' < 6 ensures left[j].x + Kerning(cfg) <= right[j'].x {
      assert Skeleton(an)[j] in Skeleton(an);
      assert Skeleton(an')[j'] in Skeleton(an');
    }
  }

  /** The group shift puts the composition k inside the right and bottom edges
      of the view box: no anchor goes further right or lower, the last S's A
      reaches the right margin and every letterform's E the bottom one. */
  lemma GroupMargins(cfg: Config)
    requires cfg.w1 >= 0 && cfg.h1 >= 0 && cfg.h2 >= 0 && Kerning(cfg) >= 0
    ensures forall i, j :: 0 <= i < 3 && 0 <= j < 6 ==>
      CanvasAnchors(cfg, i)[j].x <= Half - Kerning(cfg) && CanvasAnchors(cfg, i)[j].y <= Half - Kerning(cfg)
    ensures CanvasAnchors(cfg, 2)[0].x == Half - Kerning(cfg)
    ensures forall i :: 0 <= i < 3 ==> CanvasAnchors(cfg, i)[4].y == Half - Kerning(cfg)
  {
    var p := LetterParams(cfg);
    AnchorBounds(p, SAnchors(p));
    AnchorBounds(p, CAnchors(p));
    forall i, j | 0 <= i < 3 && 0 <= j < 6
      ensures CanvasAnchors(cfg, i)[j].x <= Half - Kerning(cfg) && CanvasAnchors(cfg, i)[j].y <= Half - Kerning(cfg)
    {
      var sk := Skeleton(GlyphAnchors(cfg, Placements(cfg)[i].glyph));
      assert sk[j] in sk;
    }
  }

  predicate InViewBox(q: Point) {
    -Half <= q.x <= Half && -Half <= q.y <= Half
  }

  /** Every point of command j of placement i, control points included, in
      view-box coordinates. */
  function CanvasPoints(cfg: Config, i: nat, j: nat): seq<Point>
    requires i < 3 && j < 6
  {
    var ps := PointsOf(GlyphCommands(cfg, Placements(cfg)[i].glyph)[j]);
    seq(|ps|, m requires 0 <= m < |ps| => Canvas(cfg, i, ps[m]))
  }

  /** When the tensions fit the letterform and the leftmost and topmost edges of
      the composition stay in the view box, every anchor and control point of
      the three letterforms lies inside the view box. */
  lemma InsideViewBox(cfg: Config)
    requires TensionsFit(LetterParams(cfg)) && Kerning(cfg) >= 0
    requires GroupShift(cfg).x - Placements(cfg)[0].offset - cfg.w1 >= -Half
    requires GroupShift(cfg).y - (cfg.h1 + cfg.h2) >= -Half
    ensures forall i, j, m :: 0 <= i < 3 && 0 <= j < 6 && 0 <= m < |CanvasPoints(cfg, i, j)| ==>
      InViewBox(CanvasPoints(cfg, i, j)[m])
  {
    var p := LetterParams(cfg);
    ControlPointsInBox(p);
    forall i, j, m | 0 <= i < 3 && 0 <= j < 6 && 0 <= m < |CanvasPoints(cfg, i, j)|
      ensures InViewBox(CanvasPoints(cfg, i, j)[m])
    {
      var ps := PointsOf(GlyphCommands(cfg, Placements(cfg)[i].glyph)[j]);
      assert InAnchorBox(p, ps[m]);
    }
  }

  /** The settings draw uses keep every point of the letterforms in the view box. */
  lemma FixedInsideViewBox()
    ensures forall i, j, m :: 0 <= i < 3 && 0 <= j < 6 && 0 <= m < |CanvasPoints(Fixed, i, j)| ==>
      InViewBox(CanvasPoints(Fixed, i, j)[m])
  {
    InsideViewBox(Fixed);
  }

  lemma FixedGroupTransform()
    ensures GroupTransform(Fixed) == "translate(78 46)"
  {
    assert GroupShift(Fixed) == Point(78, 46);
    assert IntToString(78) == "78";
    assert IntToString(46) == "46";
  }

  lemma FixedOffsets()
    ensures Placements(Fixed) == [Placement(CShape, 120), Placement(SShape, 60), Placement(SShape, 0)]
  {
  }

  lemma FixedPlacementTransforms()
    ensures PlacementTransform(Placement(CShape, 120)) == "translate(-120 0)"
    ensures PlacementTransform(Placement(SShape, 60)) == "translate(-60 0)"
    ensures PlacementTransform(Placement(SShape, 0)) == "translate(-0 0)"
  {
    assert IntToString(120) == "120";
    assert IntToString(60) == "60";
    assert IntToString(0) == "0";
  }

  /** The transforms draw writes: the group's, then the three placements'. The
      minus sign of each placement is literal text in front of the offset's
      digits, so the last placement, with offset 0, reads "-0", whereas the
      offset 0 by itself is written "0". */
  lemma FixedTransforms()
    ensures var pls := Placements(Fixed);
      GroupTransform(Fixed) == "translate(78 46)" && PlacementTransform(pls[0]) == "translate(-120 0)" &&
      PlacementTransform(pls[1]) == "translate(-60 0)" && PlacementTransform(pls[2]) == "translate(-0 0)"
    ensures IntToString(Placements(Fixed)[2].offset) == "0"
  {
    FixedGroupTransform();
    FixedOffsets();
    FixedPlacementTransforms();
  }

  /** The C's path data ignores t3 even though draw passes it, and both S
      placements carry the same path data. */
  lemma PathDataOfPlacements(cfg: Config, t3: int)
    ensures var g := Geometry(cfg);
      g[2] == DrawC(LetterParams(cfg)) && g[4] == g[6] == DrawS(LetterParams(cfg)) &&
      g[2] == Geometry(cfg.(t3 := t3))[2]
  {
    CIgnoresT3(LetterParams(cfg), t3);
    assert LetterParams(cfg.(t3 := t3)) == LetterParams(cfg).(t3 := t3);
  }
}
