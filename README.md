# CSS logo generator in Dafny

This project models `logo.mjs`, which writes the CSS logo as an SVG document.
It is one pure module with three functions:

- `drawS` and `drawC` build the letterforms "S" and "C". Each one derives six
  anchors A to F from a half-width `w1` and two half-heights `h1` and `h2`.
  It then writes a move to A followed by five segments ending at B, C, D, E and
  F. Most segments are cubic Bézier curves whose control points are the
  anchors moved by the tensions `t1`, `t2` and `t3`. The C draws a straight
  line from C to D instead. Each command goes on its own line, joined with
  `" \n"`.
- `draw(foreground, background)` fills in one template literal. The template holds:
  - a 240 x 240 view box centred on the origin;
  - a background path, the view box outline with three corners rounded by arcs
    of radius `r`;
  - a group stroked in the foreground colour and moved by a translate;
  - three paths inside the group (C, S, S), each moved left by its own offset.

Coordinates are integers and every computation is integer `+`, `-` and `*`.
The model uses unbounded `int`. For `draw`'s own small constants, this matches
JavaScript exactly.

Modules:

- `Decimal` (decimal.dfy): how JavaScript writes an integer as text, and a
  strict reader for that text.
- `PathData` (path_data.dfy): absolute SVG 1.1 path commands (section 8.3),
  the current point each command leaves (8.3.2), and an open path of lines
  and cubics traversed backwards.
- `Letterforms` (letterforms.dfy): the anchors and command lists of `drawS`
  and `drawC`, their text, a reader for that text, and their geometry.
- `Template` (template.dfy): a template literal as its literal strings with
  the substitutions spliced in between.
- `Frame` (frame.dfy): the background outline and its text.
- `Logo` (logo.dfy): `draw`.
  - Its numeric settings are `Logo.Fixed`.
  - `Logo.Compose(cfg, fg, bg)` is the template for any settings, and
    `Logo.Draw(fg, bg)` is `Compose(Fixed, fg, bg)`.
  - The source's template has 26 substitutions, several inside one attribute
    value (`translate(${...} ${...})`). The model groups the template
    differently: each attribute value is one substitution (`Logo.Substitutions`),
    built by `Frame.FrameText`, `Logo.GroupTransform`, `Logo.PlacementTransform`
    or the letterform texts. The literal text between those values is
    `Logo.Layout()`: for each value, the quote closing the previous one, then
    fixed markup, then the opening ` name="` of its attribute. Both groupings
    spell the same characters.

With `r = 0` the background still has three arcs. Each is zero-length: it
ends where it starts, so it draws nothing. The model follows the code here
and does not drop them (`Frame.ZeroRadiusDegenerates`).

## Model

| member | source | states |
|---|---|---|
| Decimal.NatToString | logo.mjs:33-38 | The decimal text of a natural number is non-empty and all digits, with no leading zero unless the number is 0. |
| Decimal.IntToString | logo.mjs:33-38 | The text of an integer starts with '-' exactly when it is negative; the rest is the canonical digits of its magnitude, so -0 is written "0". |
| Decimal.DigitsValueOfNatToString | logo.mjs:33-38 | The digits written for n have the value n. |
| Decimal.IntToStringRoundTrip | logo.mjs:33-38 | Reading the text of an integer strictly gives back that integer. |
| Decimal.IntToStringInjective | logo.mjs:33-38 | Two integers have the same text if and only if they are equal. |
| Decimal.MinusPrefixValue | logo.mjs:119 | A minus sign written before the digits of n reads as the number -n, "-0" giving 0. |
| Decimal.NumberValueOfIntToString | logo.mjs:116 | The text of an integer reads back as that integer. |
| PathData.After | logo.mjs:105-112 | SVG 1.1 current-point rule (section 8.3.2), used by Frame.FrameTrace for the background commands: Z returns to the start of the subpath, H keeps the current y and V keeps the current x. |
| PathData.TraceOfOpenPath | logo.mjs:32-39 | SVG 1.1 path semantics, used by Letterforms.Skeletons: in a move followed only by lines and cubics, the pen is at each command's end point after that command. |
| PathData.Reverse | logo.mjs:32-39 | Path vocabulary used to state the letterforms' symmetries (Letterforms.SPathPointSymmetric, Letterforms.CPathMirrorSymmetric). Reversal gives an open path of the same length: a move to the last point, then each segment drawn from its end back to its start, in the opposite order. |
| PathData.ReverseInvolution | logo.mjs:32-39 | Path vocabulary for the symmetry lemmas: reversing an open path twice gives back the path. |
| PathData.ReverseTrace | logo.mjs:32-39 | Path vocabulary for the symmetry lemmas: a reversed path visits the same points in the opposite order. |
| PathData.MapOpenPath | logo.mjs:32-39 | Path vocabulary for the symmetry lemmas: a point map applied to an open path gives an open path, and its pen visits the images of the original pen positions in the same order. |
| Letterforms.SAnchorsPointSymmetric | logo.mjs:26-31 | drawS's anchors are point-symmetric through the origin: F = -A, E = -B, D = -C. |
| Letterforms.CAnchorsMirrored | logo.mjs:66-71 | drawC's anchors mirror across the horizontal axis: A/F, B/E and C/D. |
| Letterforms.AnchorsShared | logo.mjs:65-71 | Both builders share A, B, C and E, and they swap D and F. |
| Letterforms.Skeletons | logo.mjs:32-39 | Each builder writes one unclosed subpath of six commands, a move then five segments, and the pen passes A, B, C, D, E and F in turn. |
| Letterforms.SharedOpening | logo.mjs:73-76 | The first three commands of both builders are equal. The fourth is a line to D for the C, and for the S a cubic with controls C + (0, t3) and D - (0, t3). |
| Letterforms.CIgnoresT3 | logo.mjs:65-80 | drawC's commands and text are the same whatever t3 is. |
| Letterforms.HandleRules | logo.mjs:33-38 | At B and E each control point lies t2 along the horizontal, towards the other end of its segment. At A, C, D and F it lies t1 along the vertical, away from the axis. The S's middle curve instead has its handles t3 towards the axis. |
| Letterforms.SPathPointSymmetric | logo.mjs:33-38 | The S drawn backwards and turned half a turn is the same command list. |
| Letterforms.CPathMirrorSymmetric | logo.mjs:73-78 | The C drawn backwards and mirrored across the horizontal axis is the same command list. |
| Letterforms.AnchorBounds | logo.mjs:26-31 | The anchors span exactly [-w1, w1] across and [-(h1 + h2), h1 + h2] down, with B at the top and E at the bottom. |
| Letterforms.ControlPointsInBox | logo.mjs:33-38 | With tensions that fit, every anchor and control point of both letterforms lies in the anchors' box. |
| Letterforms.WordsOfPathText | logo.mjs:32-39 | Splitting a joined command list at white space gives each command's letter, then its points, in order. |
| Letterforms.ParseWordsOfPath | logo.mjs:32-39 | Those words read back as the command list. |
| Letterforms.PathTextRoundTrip | logo.mjs:32-39 | Path data written one command per line with points as "x,y" reads back as the same commands. |
| Letterforms.DrawTextsRoundTrip | logo.mjs:25-80 | The texts of drawS and drawC read back as their command lists, so no two different letterforms share a text. |
| Template.InterpolateSplit | logo.mjs:103-131 | Each substitution stands verbatim between the template text before it and the template text after it. |
| Template.InterpolateFirstFour | logo.mjs:103-115 | The first four substitutions and their surrounding literal text, written out. |
| Frame.FrameTrace | logo.mjs:105-112 | The pen visits (-120,-120), (120-r,-120), (120,-120+r), (120,120-r), (120-r,120), (-120+r,120), (-120,120-r) and returns to (-120,-120). |
| Frame.FrameShape | logo.mjs:105-112 | The outline has eight commands and starts with a move to (-120,-120). Exactly commands 2, 4 and 6 are arcs, each with radius r, no rotation, the small-arc flag and sweep 1. They end at (120,-120+r), (120-r,120) and (-120,120-r), and the outline closes with Z. |
| Frame.FrameOnBoundary | logo.mjs:105-112 | For 0 <= r <= 240, every point the outline reaches is on the view box boundary, and it ends where it began. |
| Frame.ArcsCutCorners | logo.mjs:107-111 | Each arc replaces one corner: it starts where the previous command left the pen, and both its ends lie r from the corner on the two edges through it. |
| Frame.TopLeftSquare | logo.mjs:105-106 | For 0 < r < 240 the top-left corner is a vertex of the outline, and the other three corners are never reached. |
| Frame.ZeroRadiusDegenerates | logo.mjs:107-111 | With r = 0 the three arcs are still written but each ends where it starts, and the outline passes through all four corners. |
| Frame.FrameMoveText | logo.mjs:105 | The background text starts with the move written "M-120,-120", as in the source. |
| Frame.FrameEdgeTexts | logo.mjs:106-112 | For every r, the edges are written H${120 - r}, V${120 - r} and H${-120 + r}, and the outline ends with Z. |
| Frame.FrameArcText | logo.mjs:107-111 | For every r, each arc is written "A r r 0 0 1 x y" with the literal digits 0 0 1 and its end point, as in the source. |
| Frame.TopRightArcAt42 | logo.mjs:107 | With the radius draw uses, the first arc is written "A 42 42 0 0 1 120 -78". |
| Logo.AttributeSlotAt | logo.mjs:103-131 | In the model's grouping of the template, the text before substitution i ends with ` name="` for its attribute, and the text after it starts with the closing quote. |
| Logo.SubstitutionsAreAttributeValues | logo.mjs:103-131 | In the model's grouping of the template, which joins the source's substitutions into one per attribute value, each substitution is the whole quoted value of its attribute. |
| Logo.ComposeAroundColours | logo.mjs:103-131 | The document is the text before the fill value, the background colour, the text between the colours, the foreground colour, then the rest. None of those three texts depends on the colours. |
| Logo.AroundFill | logo.mjs:113 | The text before the background colour ends with ` fill="`. |
| Logo.AroundStroke | logo.mjs:113-115 | The text between the colours starts with the quote closing the fill value and ends with ` stroke="`. |
| Logo.AfterStrokeOpens | logo.mjs:115 | The text after the foreground colour starts with the quote closing the stroke value. |
| Logo.ColourSlots | logo.mjs:113-115 | The background colour is the whole fill value and the foreground colour the whole stroke value, inside text that does not depend on either colour. |
| Logo.ColoursOnlyInTheirAttributes | logo.mjs:103-131 | For two pairs of colours, every substitution except fill and stroke is the same: the background path data, the stroke width, every transform and all letterform path data. |
| Logo.DefaultColours | logo.mjs:135 | draw("white", "rebeccapurple") splits around its two colours, with "rebeccapurple" the whole fill value (the text before ends with ` fill="`, the text after starts with a quote) and "white" the whole stroke value (the text before ends with ` stroke="`, the text after starts with a quote). |
| Logo.PlacementStride | logo.mjs:118-129 | The placements are C, S, S. Each offset exceeds the next by 2 * w1 + k, and the last offset is 0. |
| Logo.PlacementTransformValue | logo.mjs:119 | A placement's transform is translate with x written as a minus sign before the offset, which reads as -offset, and y = 0. |
| Logo.GroupTransformValue | logo.mjs:116 | The group transform reads back as (120 - k - w1, 120 - h1 - h2 - k). |
| Logo.KerningGap | logo.mjs:118-129 | Across neighbouring letterforms, every anchor of the left one lies at least k left of every anchor of the right one. The left one's A and the right one's C are exactly k apart. |
| Logo.GroupMargins | logo.mjs:116 | No anchor lies right of or below 120 - k. The last S's A is on the right margin, and every letterform's E is on the bottom margin. |
| Logo.InsideViewBox | logo.mjs:103-129 | If the tensions fit and the leftmost and topmost extents are within the view box, every anchor and control point of all three letterforms is inside it. |
| Logo.FixedInsideViewBox | logo.mjs:90-102 | With draw's own settings, every anchor and control point is inside the view box. |
| Logo.FixedTransforms | logo.mjs:116-127 | draw writes translate(78 46) for the group, then translate(-120 0), translate(-60 0) and translate(-0 0). The last one has the literal minus sign before the digits of the offset 0, which by itself is written "0". |
| Logo.PathDataOfPlacements | logo.mjs:120-128 | The C placement carries drawC's text and both S placements carry drawS's text. The C's text does not change with t3. |

Members that write the source's code directly, as definitions:

- `Letterforms.SAnchors` (logo.mjs:26-31) and `Letterforms.CAnchors` (logo.mjs:66-71): the six anchors.
- `Letterforms.SCommands` (logo.mjs:33-38) and `Letterforms.CCommands` (logo.mjs:73-78): the six commands.
- `Letterforms.PointText` (logo.mjs:33): an array `[x, y]` in a template literal, written "x,y".
- `Letterforms.CmdText` (logo.mjs:33-38): one command line, e.g. `C ${[..]} ${[..]} ${[..]}`.
- `Letterforms.Join` and `Letterforms.PathText` (logo.mjs:39, 79): `join(" \n")`.
- `Letterforms.DrawS` (logo.mjs:25-40) and `Letterforms.DrawC` (logo.mjs:65-80).
- `Frame.FrameCommands`, `Frame.FrameCmdText`, `Frame.Breaks` and `Frame.FrameText` (logo.mjs:105-112): the background commands, their spelling, the white space after each one, and the `d` text.
- `Logo.Fixed` (logo.mjs:90-102) and `Logo.Kerning` (logo.mjs:101): draw's constants, and k = thickness + 6.
- `Logo.Placements` (logo.mjs:118-129): C, S, S with offsets w1 * 4 + k * 2, w1 * 2 + k * 1 and w1 * 0 + k * 0.
- `Logo.GroupShift` and `Logo.GroupTransform` (logo.mjs:116).
- `Logo.PlacementTransform` (logo.mjs:119, 123, 127).
- `Logo.Substitutions`, `Logo.Compose` and `Logo.Draw` (logo.mjs:89-132).
- `Template.Interpolate` (logo.mjs:103-131): a template literal's value.

## Left out

- The `import.meta.main` block that writes `draw("white", "rebeccapurple")` to `css.svg` with `Deno.writeTextFile` (logo.mjs:134-136) is file I/O. Only the string it writes is modelled (`Logo.DefaultColours`).
- JavaScript number-to-string is modelled for integers only. Fractions and the exponent form JavaScript uses from 1e21 up cannot arise from `draw`'s integer constants.
- JavaScript numbers are doubles, exact only up to 2^53. The lemmas for an arbitrary `Logo.Config` or `Letterforms.Params` hold for unbounded integers. For values beyond 2^53 they describe exact arithmetic, not what JavaScript would print.
- Rendering is not modelled: how curves, arcs and strokes look. `Letterforms.ControlPointsInBox` bounds the control points. That the curve stays inside their convex hull is a property of Bézier curves, not proved here.
- Two readers, `Decimal.ParseInt` and `Letterforms.ParsePath`, exist only to state the round trips. The source has no reader.
- XML is not modelled: colour strings are spliced verbatim, with no escaping, exactly as the source does. The template's markup and white space are literal text (`Logo.Gaps`, `Logo.Ending`, `Frame.Breaks`), with no structure beyond the attribute each substitution fills.
- The background's `M-120,-120` and the digits `0 0 1` of each arc are literal text in the source. The model writes them from the command (`Frame.FrameCmdText`). `Frame.FrameMoveText` and `Frame.FrameArcText` prove that this gives the same characters.
- The template's own grouping of literal text and substitutions is not kept. In the source, `translate(`, the space between the two numbers, `)`, the minus sign of each placement and ` 0)` are literal template text (logo.mjs:116, 119, 123, 127). The model puts them into the transform substitutions (`Logo.Translate`, `Logo.GroupTransform`, `Logo.PlacementTransform`). The same holds for the background's `${120 - r}`-style numbers, which sit inside one `d` substitution (`Frame.FrameText`). The characters are the same; what a "substitution" is differs.
- The whole document for `Logo.Fixed` is not stated as one literal string. Its pieces are stated separately: the transforms (`Logo.FixedTransforms`), the top-right arc (`Frame.TopRightArcAt42`), the colour slots, and the path data as the text of the command lists.
