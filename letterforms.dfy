/**
  The two letterform builders of the logo: the "S" (drawS) and the "C"
  (drawC).  Each derives six anchors A..F from the half-width w1 and the
  half-heights h1 and h2, then draws a move to A and five segments through
  B, C, D, E and F, with control points offset from the anchors by the
  tensions t1, t2 and (for the S only) t3.  The command list is written as
  SVG path data, one command per line, joined with " \n".
 */
module Letterforms {
  import opened Decimal
  import opened PathData

  /** The options drawS and drawC destructure (drawC ignores t3). */
  datatype Params = Params(h1: int, h2: int, w1: int, t1: int, t2: int, t3: int)

  datatype Anchors = Anchors(a: Point, b: Point, c: Point, d: Point, e: Point, f: Point)

  /** The anchors in drawing order. */
  function Skeleton(an: Anchors): seq<Point> {
    [an.a, an.b, an.c, an.d, an.e, an.f]
  }

  /** drawS: D on A's side, F on C's side. */
  function SAnchors(p: Params): Anchors {
    Anchors(Point(p.w1, -p.h1), Point(0, -(p.h1 + p.h2)), Point(-p.w1, -p.h1),
            Point(p.w1, p.h1), Point(0, p.h1 + p.h2), Point(-p.w1, p.h1))
  }

  /** drawC: D below C, F below A. */
  function CAnchors(p: Params): Anchors {
    Anchors(Point(p.w1, -p.h1), Point(0, -(p.h1 + p.h2)), Point(-p.w1, -p.h1),
            Point(-p.w1, p.h1), Point(0, p.h1 + p.h2), Point(p.w1, p.h1))
  }

  /** The commands of drawS: a cubic curve from C to D with inward tension t3. */
  function SCommands(p: Params): seq<Cmd> {
    var an := SAnchors(p);
    [ Move(an.a),
      Cubic(Shift(an.a, 0, -p.t1), Shift(an.b, p.t2, 0), an.b),
      Cubic(Shift(an.b, -p.t2, 0), Shift(an.c, 0, -p.t1), an.c),
      Cubic(Shift(an.c, 0, p.t3), Shift(an.d, 0, -p.t3), an.d),
      Cubic(Shift(an.d, 0, p.t1), Shift(an.e, p.t2, 0), an.e),
      Cubic(Shift(an.e, -p.t2, 0), Shift(an.f, 0, p.t1), an.f) ]
  }

  /** The commands of drawC: a straight line from C to D. */
  function CCommands(p: Params): seq<Cmd> {
    var an := CAnchors(p);
    [ Move(an.a),
      Cubic(Shift(an.a, 0, -p.t1), Shift(an.b, p.t2, 0), an.b),
      Cubic(Shift(an.b, -p.t2, 0), Shift(an.c, 0, -p.t1), an.c),
      Line(an.d),
      Cubic(Shift(an.d, 0, p.t1), Shift(an.e, -p.t2, 0), an.e),
      Cubic(Shift(an.e, p.t2, 0), Shift(an.f, 0, p.t1), an.f) ]
  }

  // ---------------------------------------------------------------------------
  // Serialisation

  /** A point as JavaScript writes the array [x, y]: "x,y". */
  function PointText(q: Point): string {
    IntToString(q.x) + "," + IntToString(q.y)
  }

  function CmdText(c: Cmd): string
    requires c.Move? || IsSegment(c)
  {
    match c
    case Move(q) => "M " + PointText(q)
    case Line(q) => "L " + PointText(q)
    case Cubic(c1, c2, q) => "C " + PointText(c1) + " " + PointText(c2) + " " + PointText(q)
  }

  predicate IsDrawing(cmds: seq<Cmd>) {
    forall i :: 0 <= i < |cmds| ==> cmds[i].Move? || IsSegment(cmds[i])
  }

  /** Array.prototype.join: the parts with `sep` between neighbours. */
  function Join(parts: seq<string>, sep: string): string
    decreases |parts|
  {
    if |parts| == 0 then ""
    else if |parts| == 1 then parts[0]
    else parts[0] + sep + Join(parts[1..], sep)
  }

  function CmdTexts(cmds: seq<Cmd>): (ts: seq<string>)
    requires IsDrawing(cmds)
    ensures |ts| == |cmds|
  {
    seq(|cmds|, i requires 0 <= i < |cmds| => CmdText(cmds[i]))
  }

  /** Path data with one command per line. */
  function PathText(cmds: seq<Cmd>): string
    requires IsDrawing(cmds)
  {
    Join(CmdTexts(cmds), " \n")
  }

  /** drawS as text. */
  function DrawS(p: Params): string {
    PathText(SCommands(p))
  }

  /** drawC as text. */
  function DrawC(p: Params): string {
    PathText(CCommands(p))
  }

  // ---------------------------------------------------------------------------
  // Reading path data back: whitespace-separated words, then commands

  /** SVG white space (section 8.3.9: space, tab, carriage return, line feed). */
  predicate IsSpace(ch: char) {
    ch == ' ' || ch == '\t' || ch == '\r' || ch == '\n'
  }

  predicate IsWord(w: string) {
    |w| > 0 && forall i :: 0 <= i < |w| ==> !IsSpace(w[i])
  }

  function WordLength(s: string): (n: nat)
    ensures n <= |s|
  {
    if s == [] || IsSpace(s[0]) then 0 else 1 + WordLength(s[1..])
  }

  /** The maximal runs of non-space characters, in order. */
  function Words(s: string): seq<string>
    decreases |s|
  {
    if s == [] then []
    else if IsSpace(s[0]) then Words(s[1..])
    else
      var n := WordLength(s);
      [s[..n]] + Words(s[n..])
  }

  function CommaIndex(t: string): (i: nat)
    ensures i <= |t|
    ensures forall j :: 0 <= j < i ==> t[j] != ','
    ensures i < |t| ==> t[i] == ','
  {
    if t == [] || t[0] == ',' then 0 else 1 + CommaIndex(t[1..])
  }

  /** Reads a word "x,y". */
  function ParsePoint(t: string): Option<Point> {
    var i := CommaIndex(t);
    if i == |t| then None
    else
      match (ParseInt(t[..i]), ParseInt(t[i + 1..]))
      case (Some(x), Some(y)) => Some(Point(x, y))
      case _ => None
  }

  /** Reads M, L and C commands, each letter a word followed by its points. */
  function ParseWords(ws: seq<string>): Option<seq<Cmd>>
    decreases |ws|
  {
    if ws == [] then Some([])
    else if (ws[0] == "M" || ws[0] == "L") && |ws| >= 2 then
      match (ParsePoint(ws[1]), ParseWords(ws[2..]))
      case (Some(q), Some(rest)) => Some([if ws[0] == "M" then Move(q) else Line(q)] + rest)
      case _ => None
    else if ws[0] == "C" && |ws| >= 4 then
      match (ParsePoint(ws[1]), ParsePoint(ws[2]), ParsePoint(ws[3]), ParseWords(ws[4..]))
      case (Some(c1), Some(c2), Some(q), Some(rest)) => Some([Cubic(c1, c2, q)] + rest)
      case _ => None
    else None
  }

  function ParsePath(s: string): Option<seq<Cmd>> {
    ParseWords(Words(s))
  }

  /** The words a command is written as. */
  function CmdWords(c: Cmd): seq<string>
    requires c.Move? || IsSegment(c)
  {
    match c
    case Move(q) => ["M", PointText(q)]
    case Line(q) => ["L", PointText(q)]
    case Cubic(c1, c2, q) => ["C", PointText(c1), PointText(c2), PointText(q)]
  }

  function PathWords(cmds: seq<Cmd>): seq<string>
    requires IsDrawing(cmds)
    decreases |cmds|
  {
    if cmds == [] then [] else CmdWords(cmds[0]) + PathWords(cmds[1..])
  }

  lemma {:induction false} WordLengthOfWord(w: string, rest: string)
    requires IsWord(w) || w == []
    requires rest == [] || IsSpace(rest[0])
    ensures WordLength(w + rest) == |w|
    decreases |w|
  {
    if w != [] {
      assert (w + rest)[1..] == w[1..] + rest;
      WordLengthOfWord(w[1..], rest);
    }
  }

  lemma WordsCons(w: string, rest: string)
    requires IsWord(w)
    requires rest == [] || IsSpace(rest[0])
    ensures Words(w + rest) == [w] + Words(rest)
  {
    WordLengthOfWord(w, rest);
    assert (w + rest)[..|w|] == w;
    assert (w + rest)[|w|..] == rest;
  }

  lemma PointTextIsWord(q: Point)
    ensures IsWord(PointText(q))
  {
    var s := PointText(q);
    forall i | 0 <= i < |s| ensures !IsSpace(s[i]) {
      if i < |IntToString(q.x)| {
        assert s[i] == IntToString(q.x)[i];
      } else if i > |IntToString(q.x)| {
        assert s[i] == IntToString(q.y)[i - |IntToString(q.x)| - 1];
      }
    }
  }

  lemma ParsePointText(q: Point)
    ensures ParsePoint(PointText(q)) == Some(q)
  {
    var xs, ys := IntToString(q.x), IntToString(q.y);
    var t := PointText(q);
    assert t[|xs|] == ',';
    assert CommaIndex(t) == |xs| by {
      forall j | 0 <= j < |xs| ensures t[j] != ',' {
        assert t[j] == xs[j];
      }
      CommaIndexAt(t, |xs|);
    }
    assert t[..|xs|] == xs;
    assert t[|xs| + 1..] == ys;
    IntToStringRoundTrip(q.x);
    IntToStringRoundTrip(q.y);
  }

  lemma {:induction false} CommaIndexAt(t: string, k: nat)
    requires k < |t| && t[k] == ','
    requires forall j :: 0 <= j < k ==> t[j] != ','
    ensures CommaIndex(t) == k
    decreases k
  {
    if k > 0 {
      CommaIndexAt(t[1..], k - 1);
    }
  }

  lemma WordsAfterSpace(ch: char, s: string)
    requires IsSpace(ch)
    ensures Words([ch] + s) == Words(s)
  {
    assert ([ch] + s)[1..] == s;
  }

  /** A word, a space, and more text. */
  lemma WordsSpaced(w: string, s: string)
    requires IsWord(w)
    ensures Words(w + " " + s) == [w] + Words(s)
  {
    assert w + " " + s == w + ([' '] + s);
    WordsCons(w, [' '] + s);
    WordsAfterSpace(' ', s);
  }

  lemma WordsOfTwo(a: string, b: string, rest: string)
    requires IsWord(a) && IsWord(b)
    requires rest == [] || IsSpace(rest[0])
    ensures Words(a + " " + b + rest) == [a, b] + Words(rest)
  {
    WordsCons(b, rest);
    assert a + " " + b + rest == a + " " + (b + rest);
    WordsSpaced(a, b + rest);
  }

  lemma WordsOfFour(a: string, b: string, c: string, d: string, rest: string)
    requires IsWord(a) && IsWord(b) && IsWord(c) && IsWord(d)
    requires rest == [] || IsSpace(rest[0])
    ensures Words(a + " " + b + " " + c + " " + d + rest) == [a, b, c, d] + Words(rest)
  {
    WordsOfTwo(c, d, rest);
    assert a + " " + b + " " + c + " " + d + rest == a + " " + (b + " " + (c + " " + d + rest));
    WordsSpaced(b, c + " " + d + rest);
    WordsSpaced(a, b + " " + (c + " " + d + rest));
  }

  /** A command's text, followed by a space or nothing, reads as its words. */
  lemma WordsOfCmdText(c: Cmd, rest: string)
    requires c.Move? || IsSegment(c)
    requires rest == [] || IsSpace(rest[0])
    ensures Words(CmdText(c) + rest) == CmdWords(c) + Words(rest)
  {
    match c
    case Move(q) =>
      PointTextIsWord(q);
      assert "M " == "M" + " ";
      assert CmdText(c) + rest == "M" + " " + PointText(q) + rest;
      WordsOfTwo("M", PointText(q), rest);
    case Line(q) =>
      PointTextIsWord(q);
      assert "L " == "L" + " ";
      assert CmdText(c) + rest == "L" + " " + PointText(q) + rest;
      WordsOfTwo("L", PointText(q), rest);
    case Cubic(c1, c2, q) =>
      PointTextIsWord(c1);
      PointTextIsWord(c2);
      PointTextIsWord(q);
      assert "C " == "C" + " ";
      assert CmdText(c) + rest == "C" + " " + PointText(c1) + " " + PointText(c2) + " " + PointText(q) + rest;
      WordsOfFour("C", PointText(c1), PointText(c2), PointText(q), rest);
  }

  lemma PathTextCons(cmds: seq<Cmd>)
    requires IsDrawing(cmds) && |cmds| > 1
    ensures PathText(cmds) == CmdText(cmds[0]) + " \n" + PathText(cmds[1..])
  {
    assert CmdTexts(cmds)[1..] == CmdTexts(cmds[1..]);
  }

  lemma WordsAfterBreak(tail: string)
    ensures Words(" \n" + tail) == Words(tail)
  {
    assert " \n" + tail == [' '] + (['\n'] + tail);
    WordsAfterSpace(' ', ['\n'] + tail);
    WordsAfterSpace('\n', tail);
  }

  lemma WordsOfSingleLine(c: Cmd)
    requires c.Move? || IsSegment(c)
    ensures Words(PathText([c])) == PathWords([c])
  {
    assert PathText([c]) == CmdText(c) + "";
    WordsOfCmdText(c, "");
    assert PathWords([c]) == CmdWords(c) + PathWords([]);
  }

  lemma WordsOfLines(c: Cmd, tail: string, tailWords: seq<string>)
    requires c.Move? || IsSegment(c)
    requires Words(tail) == tailWords
    ensures Words(CmdText(c) + " \n" + tail) == CmdWords(c) + tailWords
  {
    assert CmdText(c) + " \n" + tail == CmdText(c) + (" \n" + tail);
    WordsOfCmdText(c, " \n" + tail);
    WordsAfterBreak(tail);
  }

  lemma {:induction false} WordsOfPathText(cmds: seq<Cmd>)
    requires IsDrawing(cmds)
    ensures Words(PathText(cmds)) == PathWords(cmds)
    decreases |cmds|
  {
    if |cmds| == 1 {
      assert cmds == [cmds[0]];
      WordsOfSingleLine(cmds[0]);
    } else if |cmds| > 1 {
      WordsOfPathText(cmds[1..]);
      PathTextCons(cmds);
      WordsOfLines(cmds[0], PathText(cmds[1..]), PathWords(cmds[1..]));
    }
  }

  lemma ParseTwo(m: string, t: string, q: Point, ws: seq<string>, rest: seq<Cmd>)
    requires m == "M" || m == "L"
    requires ParsePoint(t) == Some(q) && ParseWords(ws) == Some(rest)
    ensures ParseWords([m, t] + ws) == Some([if m == "M" then Move(q) else Line(q)] + rest)
  {
    assert ([m, t] + ws)[2..] == ws;
  }

  lemma ParseFour(t1: string, t2: string, t3: string, c1: Point, c2: Point, q: Point,
                  ws: seq<string>, rest: seq<Cmd>)
    requires ParsePoint(t1) == Some(c1) && ParsePoint(t2) == Some(c2) && ParsePoint(t3) == Some(q)
    requires ParseWords(ws) == Some(rest)
    ensures ParseWords(["C", t1, t2, t3] + ws) == Some([Cubic(c1, c2, q)] + rest)
  {
    assert (["C", t1, t2, t3] + ws)[4..] == ws;
  }

  lemma ParseWordsCons(c: Cmd, ws: seq<string>, rest: seq<Cmd>)
    requires c.Move? || IsSegment(c)
    requires ParseWords(ws) == Some(rest)
    ensures ParseWords(CmdWords(c) + ws) == Some([c] + rest)
  {
    match c
    case Move(q) =>
      ParsePointText(q);
      ParseTwo("M", PointText(q), q, ws, rest);
    case Line(q) =>
      ParsePointText(q);
      ParseTwo("L", PointText(q), q, ws, rest);
    case Cubic(c1, c2, q) =>
      ParsePointText(c1);
      ParsePointText(c2);
      ParsePointText(q);
      ParseFour(PointText(c1), PointText(c2), PointText(q), c1, c2, q, ws, rest);
  }

  lemma {:induction false} ParseWordsOfPath(cmds: seq<Cmd>)
    requires IsDrawing(cmds)
    ensures ParseWords(PathWords(cmds)) == Some(cmds)
    decreases |cmds|
  {
    if cmds != [] {
      ParseWordsOfPath(cmds[1..]);
      ParseWordsCons(cmds[0], PathWords(cmds[1..]), cmds[1..]);
      assert [cmds[0]] + cmds[1..] == cmds;
    }
  }

  /** Path data written by PathText reads back as the same commands. */
  lemma PathTextRoundTrip(cmds: seq<Cmd>)
    requires IsDrawing(cmds)
    ensures ParsePath(PathText(cmds)) == Some(cmds)
  {
    WordsOfPathText(cmds);
    ParseWordsOfPath(cmds);
  }

  /** Both texts read back as their command lists, so no two inputs that draw
      differently print the same path data. */
  lemma DrawTextsRoundTrip(p: Params)
    ensures ParsePath(DrawS(p)) == Some(SCommands(p))
    ensures ParsePath(DrawC(p)) == Some(CCommands(p))
  {
    PathTextRoundTrip(SCommands(p));
    PathTextRoundTrip(CCommands(p));
  }

  // ---------------------------------------------------------------------------
  // Geometry of the two letterforms

  /** drawS's anchors are point-symmetric through the origin: A/F, B/E, C/D. */
  lemma SAnchorsPointSymmetric(p: Params)
    ensures var an := SAnchors(p);
      an.f == Negate(an.a) && an.e == Negate(an.b) && an.d == Negate(an.c)
  {
  }

  /** drawC's anchors mirror across the horizontal axis: A/F, B/E, C/D. */
  lemma CAnchorsMirrored(p: Params)
    ensures var an := CAnchors(p);
      an.f == MirrorY(an.a) && an.e == MirrorY(an.b) && an.d == MirrorY(an.c)
  {
  }

  /** Both builders share A, B, C and E; D and F trade places. */
  lemma AnchorsShared(p: Params)
    ensures var s, c := SAnchors(p), CAnchors(p);
      s.a == c.a && s.b == c.b && s.c == c.c && s.e == c.e && s.d == c.f && s.f == c.d
  {
  }

  /** Each builder draws one open subpath of six commands: a move to A, then
      segments ending at B, C, D, E and F in turn, never closed. */
  lemma Skeletons(p: Params)
    ensures IsOpenPath(SCommands(p)) && Trace(SCommands(p)) == Skeleton(SAnchors(p))
    ensures IsOpenPath(CCommands(p)) && Trace(CCommands(p)) == Skeleton(CAnchors(p))
  {
    TraceOfOpenPath(SCommands(p));
    TraceOfOpenPath(CCommands(p));
  }

  /** The first three commands agree; the fourth is a line for the C and a cubic
      with inward handles of length t3 for the S. */
  lemma SharedOpening(p: Params)
    ensures SCommands(p)[..3] == CCommands(p)[..3]
    ensures CCommands(p)[3] == Line(CAnchors(p).d)
    ensures var an := SAnchors(p);
      SCommands(p)[3] == Cubic(Point(an.c.x, an.c.y + p.t3), Point(an.d.x, an.d.y - p.t3), an.d)
  {
  }

  /** drawC does not read t3. */
  lemma CIgnoresT3(p: Params, t3: int)
    ensures CCommands(p.(t3 := t3)) == CCommands(p)
    ensures DrawC(p.(t3 := t3)) == DrawC(p)
  {
  }

  /** The handle at an anchor: at B and E (on the vertical axis) it lies t2 along
      the horizontal, towards the other end of the segment; at A, C, D and F it
      lies t1 along the vertical, away from the horizontal axis. */
  predicate OuterHandle(p: Params, anchor: Point, ctrl: Point, other: Point) {
    if anchor.x == 0 then
      ctrl == Point(if other.x < 0 then -p.t2 else p.t2, anchor.y)
    else
      ctrl == Point(anchor.x, if anchor.y < 0 then anchor.y - p.t1 else anchor.y + p.t1)
  }

  /** The handle t3 along the vertical, towards the horizontal axis. */
  predicate InnerHandle(p: Params, anchor: Point, ctrl: Point) {
    ctrl == Point(anchor.x, if anchor.y < 0 then anchor.y + p.t3 else anchor.y - p.t3)
  }

  /** Both handles of the cubic at index i follow the outer rule. */
  predicate OuterHandles(p: Params, cmds: seq<Cmd>, i: int)
    requires IsOpenPath(cmds) && 1 <= i < |cmds|
  {
    cmds[i].Cubic? ==>
      OuterHandle(p, StartOf(cmds, i), cmds[i].c1, cmds[i].to) &&
      OuterHandle(p, cmds[i].to, cmds[i].c2, StartOf(cmds, i))
  }

  /** The one rule that every control-point offset of drawS and drawC follows, for
      a letterform with positive width and inner height. */
  lemma HandleRules(p: Params)
    requires p.w1 > 0 && p.h1 > 0
    ensures IsOpenPath(SCommands(p)) && IsOpenPath(CCommands(p))
    ensures forall i :: 1 <= i < 6 && i != 3 ==> OuterHandles(p, SCommands(p), i)
    ensures forall i :: 1 <= i < 6 ==> OuterHandles(p, CCommands(p), i)
    ensures var s := SCommands(p);
      s[3].Cubic? && InnerHandle(p, StartOf(s, 3), s[3].c1) && InnerHandle(p, s[3].to, s[3].c2)
  {
    var s, c := SCommands(p), CCommands(p);
    assert OuterHandles(p, s, 1) && OuterHandles(p, s, 2) && OuterHandles(p, s, 4) && OuterHandles(p, s, 5);
    assert OuterHandles(p, c, 1) && OuterHandles(p, c, 2) && OuterHandles(p, c, 3);
    assert OuterHandles(p, c, 4) && OuterHandles(p, c, 5);
  }

  /** The S drawn backwards and turned half a turn is the same S. */
  lemma SPathPointSymmetric(p: Params)
    ensures IsOpenPath(SCommands(p))
    ensures MapPath(Negate, Reverse(SCommands(p))) == SCommands(p)
  {
    var s := SCommands(p);
    var m := MapPath(Negate, Reverse(s));
    forall i | 0 <= i < 6 ensures m[i] == s[i] {
      if i > 0 {
        assert StartOf(s, 6 - i) == s[5 - i].to;
      }
    }
  }

  /** The C drawn backwards and mirrored across the horizontal axis is the same C. */
  lemma CPathMirrorSymmetric(p: Params)
    ensures IsOpenPath(CCommands(p))
    ensures MapPath(MirrorY, Reverse(CCommands(p))) == CCommands(p)
  {
    var c := CCommands(p);
    var m := MapPath(MirrorY, Reverse(c));
    forall i | 0 <= i < 6 ensures m[i] == c[i] {
      if i > 0 {
        assert StartOf(c, 6 - i) == c[5 - i].to;
      }
    }
  }

  /** For a non-negative width the anchors span exactly [-w1, w1] across, and for
      non-negative heights exactly [-(h1 + h2), h1 + h2] down, B on top and E at
      the bottom; this holds for both builders. */
  lemma AnchorBounds(p: Params, an: Anchors)
    requires an == SAnchors(p) || an == CAnchors(p)
    ensures p.w1 >= 0 ==> forall q :: q in Skeleton(an) ==> -p.w1 <= q.x <= p.w1
    ensures p.h1 >= 0 && p.h2 >= 0 ==> forall q :: q in Skeleton(an) ==> an.b.y <= q.y <= an.e.y
    ensures an.a.x == p.w1 && an.c.x == -p.w1
    ensures an.b.y == -(p.h1 + p.h2) && an.e.y == p.h1 + p.h2
  {
  }

  /** The box the anchors span. */
  predicate InAnchorBox(p: Params, q: Point) {
    -p.w1 <= q.x <= p.w1 && -(p.h1 + p.h2) <= q.y <= p.h1 + p.h2
  }

  /** Tensions no longer than the room the anchors leave. */
  predicate TensionsFit(p: Params) {
    p.h1 >= 0 && 0 <= p.t1 <= p.h2 && 0 <= p.t2 <= p.w1 && -p.h2 <= p.t3 <= 2 * p.h1 + p.h2
  }

  /** With tensions that fit, every control point stays in the anchors' box, so
      (a cubic curve lying within the hull of its control points) each
      letterform is drawn inside that box. */
  lemma ControlPointsInBox(p: Params)
    requires TensionsFit(p)
    ensures forall i, j :: 0 <= i < 6 && 0 <= j < |PointsOf(SCommands(p)[i])| ==>
      InAnchorBox(p, PointsOf(SCommands(p)[i])[j])
    ensures forall i, j :: 0 <= i < 6 && 0 <= j < |PointsOf(CCommands(p)[i])| ==>
      InAnchorBox(p, PointsOf(CCommands(p)[i])[j])
  {
  }
}
