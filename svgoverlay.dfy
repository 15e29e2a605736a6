/**
 * The stroke renderer of src/components/board/SvgOverlay.tsx: the SVG path of a
 * stroke and the highlight rule for the selected stroke. How a number is written
 * into the path (JavaScript's number-to-string) is the parameter `fmt`.
 */
module SvgOverlay {
  import opened Basics
  import opened BoardTypes

  /** ` L x y` for one point after the first. */
  function LineTo(p: Point, fmt: real -> string): string {
    " L " + fmt(p.x) + " " + fmt(p.y)
  }

  /** `M x y` for the first point. */
  function MoveTo(p: Point, fmt: real -> string): string {
    "M " + fmt(p.x) + " " + fmt(p.y)
  }

  /** One ` L x y` per point, in order. */
  function Segments(ps: seq<Point>, fmt: real -> string): string {
    if ps == [] then "" else Segments(ps[..|ps| - 1], fmt) + LineTo(ps[|ps| - 1], fmt)
  }

  /** The path of a point list: empty for no points, else a move to the first and a line to each other. */
  function PathOf(points: seq<Point>, fmt: real -> string): string {
    if points == [] then "" else MoveTo(points[0], fmt) + Segments(points[1..], fmt)
  }

  /** `strokeToPath`: start with the move, then append one line command per remaining point. */
  method StrokeToPath(stroke: Stroke, fmt: real -> string) returns (path: string)
    ensures path == PathOf(stroke.points, fmt)
  {
    if |stroke.points| == 0 {
      return "";
    }
    var start := stroke.points[0];
    var rest := stroke.points[1..];
    path := MoveTo(start, fmt);
    for i := 0 to |rest|
      invariant path == MoveTo(start, fmt) + Segments(rest[..i], fmt)
    {
      assert rest[..i + 1][..i] == rest[..i];
      path := path + LineTo(rest[i], fmt);
    }
    assert rest[..|rest|] == rest;
  }

  /** The number of times c occurs in s. */
  function Occurrences(s: string, c: char): nat {
    if s == [] then 0 else (if s[0] == c then 1 else 0) + Occurrences(s[1..], c)
  }

  lemma {:induction false} OccurrencesAppend(a: string, b: string, c: char)
    ensures Occurrences(a + b, c) == Occurrences(a, c) + Occurrences(b, c)
  {
    if a != [] {
      OccurrencesAppend(a[1..], b, c);
      assert (a + b)[1..] == a[1..] + b;
    } else {
      assert a + b == b;
    }
  }

  lemma {:induction false} NoOccurrences(s: string, c: char)
    requires c !in s
    ensures Occurrences(s, c) == 0
  {
    if s != [] {
      NoOccurrences(s[1..], c);
    }
  }

  /** A number never prints with an 'L' or an 'M' in it (digits, sign, point, exponent, NaN, Infinity). */
  ghost predicate PlainNumbers(fmt: real -> string) {
    forall r :: 'L' !in fmt(r) && 'M' !in fmt(r)
  }

  /** Each line command holds exactly one 'L' and no 'M'. */
  lemma LineToCounts(p: Point, fmt: real -> string)
    requires PlainNumbers(fmt)
    ensures Occurrences(LineTo(p, fmt), 'L') == 1 && Occurrences(LineTo(p, fmt), 'M') == 0
  {
    var x, y := fmt(p.x), fmt(p.y);
    NoOccurrences(x, 'L'); NoOccurrences(y, 'L');
    NoOccurrences(x, 'M'); NoOccurrences(y, 'M');
    OccurrencesAppend(" L " + x + " ", y, 'L');
    OccurrencesAppend(" L " + x, " ", 'L');
    OccurrencesAppend(" L ", x, 'L');
    OccurrencesAppend(" L " + x + " ", y, 'M');
    OccurrencesAppend(" L " + x, " ", 'M');
    OccurrencesAppend(" L ", x, 'M');
  }

  /** The line commands hold one 'L' per point and no 'M'. */
  lemma {:induction false} SegmentsCounts(ps: seq<Point>, fmt: real -> string)
    requires PlainNumbers(fmt)
    ensures Occurrences(Segments(ps, fmt), 'L') == |ps| && Occurrences(Segments(ps, fmt), 'M') == 0
  {
    if ps != [] {
      var init := ps[..|ps| - 1];
      SegmentsCounts(init, fmt);
      LineToCounts(ps[|ps| - 1], fmt);
      OccurrencesAppend(Segments(init, fmt), LineTo(ps[|ps| - 1], fmt), 'L');
      OccurrencesAppend(Segments(init, fmt), LineTo(ps[|ps| - 1], fmt), 'M');
    }
  }

  /**
   * A path of n points is empty when n is 0, and otherwise starts with the move to
   * the first point and holds exactly one 'M' and n - 1 'L' commands.
   */
  lemma PathOfShape(points: seq<Point>, fmt: real -> string)
    requires PlainNumbers(fmt)
    ensures points == [] <==> PathOf(points, fmt) == ""
    ensures points != [] ==>
      var m := MoveTo(points[0], fmt);
      PathOf(points, fmt)[..|m|] == m &&
      Occurrences(PathOf(points, fmt), 'M') == 1 &&
      Occurrences(PathOf(points, fmt), 'L') == |points| - 1
  {
    if points != [] {
      var m := MoveTo(points[0], fmt);
      var x, y := fmt(points[0].x), fmt(points[0].y);
      SegmentsCounts(points[1..], fmt);
      NoOccurrences(x, 'L'); NoOccurrences(y, 'L');
      NoOccurrences(x, 'M'); NoOccurrences(y, 'M');
      OccurrencesAppend("M " + x + " ", y, 'L');
      OccurrencesAppend("M " + x, " ", 'L');
      OccurrencesAppend("M ", x, 'L');
      OccurrencesAppend("M " + x + " ", y, 'M');
      OccurrencesAppend("M " + x, " ", 'M');
      OccurrencesAppend("M ", x, 'M');
      OccurrencesAppend(m, Segments(points[1..], fmt), 'L');
      OccurrencesAppend(m, Segments(points[1..], fmt), 'M');
    }
  }

  /** Appending a point to a stroke appends exactly its line command to the path. */
  lemma PathOfAppend(points: seq<Point>, p: Point, fmt: real -> string)
    requires points != []
    ensures PathOf(points + [p], fmt) == PathOf(points, fmt) + LineTo(p, fmt)
  {
    assert (points + [p])[1..] == points[1..] + [p];
    assert (points[1..] + [p])[..|points[1..] + [p]| - 1] == points[1..];
  }

  /**
   * The `selectedStrokeId` prop: left out by the caller (undefined), null, or an id.
   * A stroke's missing id is JavaScript's undefined too.
   */
  datatype Selection = Omitted | NoSelection | Selected(id: string)

  /** How a stroke is drawn: its colour, its width and its dash pattern, if any. */
  datatype PathStyle = PathStyle(color: string, width: real, dash: Option<string>)

  const HIGHLIGHT_COLOR: string := "#FFD700"
  const HIGHLIGHT_DASH: string := "10,5"

  /**
   * `stroke.id === selectedStrokeId` as written: undefined equals undefined, so with
   * the prop left out every stroke without an id counts as selected.
   */
  predicate IsSelectedAsWritten(stroke: Stroke, sel: Selection) {
    match sel
    case Omitted => stroke.id.None?
    case NoSelection => false
    case Selected(id) => stroke.id == Some(id)
  }

  /** Selected means: an id was chosen and the stroke carries it. */
  predicate IsSelected(stroke: Stroke, sel: Selection) {
    sel.Selected? && stroke.id == Some(sel.id)
  }

  /** Gold, dashed and two wider when selected; else the stroke's own colour and width. */
  function StyleFor(stroke: Stroke, selected: bool): PathStyle {
    if selected then PathStyle(HIGHLIGHT_COLOR, stroke.width + 2.0, Some(HIGHLIGHT_DASH))
    else PathStyle(stroke.color, stroke.width, None)
  }

  /**
   * As written, the board's own overlay (which leaves the prop out) highlights a
   * stroke committed by the board, which has no id.
   */
  lemma HighlightAsWrittenWithoutSelection(color: string, width: real, points: seq<Point>)
    ensures var s := Stroke(None, color, width, points);
      IsSelectedAsWritten(s, Omitted) &&
      StyleFor(s, IsSelectedAsWritten(s, Omitted)) == PathStyle(HIGHLIGHT_COLOR, width + 2.0, Some(HIGHLIGHT_DASH))
  {
  }

  /**
   * With the corrected rule a stroke is highlighted exactly when its id equals the
   * chosen id: nothing is highlighted without a choice, and at most one id ever is.
   */
  lemma SelectionHighlightsChosenId(stroke: Stroke, sel: Selection)
    ensures IsSelected(stroke, sel) <==> sel.Selected? && stroke.id == Some(sel.id)
    ensures !sel.Selected? ==> StyleFor(stroke, IsSelected(stroke, sel)) == PathStyle(stroke.color, stroke.width, None)
    ensures IsSelected(stroke, sel) ==>
      StyleFor(stroke, true) == PathStyle(HIGHLIGHT_COLOR, stroke.width + 2.0, Some(HIGHLIGHT_DASH))
  {
  }

  /** The two rules agree whenever the caller passes a selection, or null. */
  lemma SelectionRulesAgreeWhenPassed(stroke: Stroke, sel: Selection)
    requires !sel.Omitted?
    ensures IsSelected(stroke, sel) == IsSelectedAsWritten(stroke, sel)
  {
  }
}
