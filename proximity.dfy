/**
 * Reference definitions for the spatial queries: which tokens lie inside the
 * selection circle and which of them is the nearest, the earliest one winning
 * ties. Distances are compared squared, as the source does for tokens.
 */
module Proximity {
  import opened Basics
  import opened BoardTypes

  /** The tokens strictly inside the circle of squared radius `r2`, in input order. */
  function WithinRadius(tokens: seq<Token>, px: real, py: real, r2: real): (r: seq<Token>)
    ensures |r| <= |tokens|
    ensures forall t :: t in r <==> t in tokens && SquaredDistance(t, px, py) < r2
    ensures multiset(r) <= multiset(tokens)
  {
    if tokens == [] then []
    else
      assert tokens == [tokens[0]] + tokens[1..];
      (if SquaredDistance(tokens[0], px, py) < r2 then [tokens[0]] else []) +
      WithinRadius(tokens[1..], px, py, r2)
  }

  /**
   * Token i is inside the circle, strictly nearer than every token before it and
   * no farther than every token after it: the nearest hit, earliest on ties.
   */
  ghost predicate IsEarliestNearest(tokens: seq<Token>, i: int, px: real, py: real, r2: real) {
    0 <= i < |tokens| &&
    SquaredDistance(tokens[i], px, py) < r2 &&
    (forall k :: 0 <= k < i ==> SquaredDistance(tokens[k], px, py) > SquaredDistance(tokens[i], px, py)) &&
    (forall k :: i < k < |tokens| ==> SquaredDistance(tokens[k], px, py) >= SquaredDistance(tokens[i], px, py))
  }

  /** At most one index is the earliest nearest hit. */
  lemma EarliestNearestUnique(tokens: seq<Token>, i: int, j: int, px: real, py: real, r2: real)
    requires IsEarliestNearest(tokens, i, px, py, r2) && IsEarliestNearest(tokens, j, px, py, r2)
    ensures i == j
  {
  }

  /** The nearest token inside the circle, the earliest on ties; None when no token is inside. */
  function Nearest(tokens: seq<Token>, px: real, py: real, r2: real): Option<Token> {
    if tokens == [] then None
    else
      var rest := Nearest(tokens[1..], px, py, r2);
      var d := SquaredDistance(tokens[0], px, py);
      if d < r2 && (rest.None? || d <= SquaredDistance(rest.value, px, py)) then Some(tokens[0])
      else rest
  }

  /**
   * Nearest finds nothing exactly when no token is inside the circle, and
   * otherwise the token at the earliest nearest index.
   */
  lemma {:induction false} NearestSpec(tokens: seq<Token>, px: real, py: real, r2: real)
    ensures var r := Nearest(tokens, px, py, r2);
      (r.None? <==> forall k :: 0 <= k < |tokens| ==> SquaredDistance(tokens[k], px, py) >= r2) &&
      (r.Some? ==> exists i :: IsEarliestNearest(tokens, i, px, py, r2) && r.value == tokens[i])
  {
    if tokens != [] {
      var tail := tokens[1..];
      NearestSpec(tail, px, py, r2);
      var rest := Nearest(tail, px, py, r2);
      var d := SquaredDistance(tokens[0], px, py);
      assert forall k :: 0 < k < |tokens| ==> tokens[k] == tail[k - 1];
      if d < r2 && (rest.None? || d <= SquaredDistance(rest.value, px, py)) {
        assert IsEarliestNearest(tokens, 0, px, py, r2) by {
          forall k | 0 < k < |tokens|
            ensures SquaredDistance(tokens[k], px, py) >= d
          {
            if rest.Some? {
              var i :| IsEarliestNearest(tail, i, px, py, r2) && rest.value == tail[i];
              if k - 1 < i {} else if k - 1 > i {}
            }
          }
        }
      } else if rest.Some? {
        var i :| IsEarliestNearest(tail, i, px, py, r2) && rest.value == tail[i];
        assert IsEarliestNearest(tokens, i + 1, px, py, r2);
      }
    }
  }

  /** Squared distance between (px, py) and the point (qx, qy). */
  function PointDistance2(px: real, py: real, qx: real, qy: real): real {
    (px - qx) * (px - qx) + (py - qy) * (py - qy)
  }

  /**
   * Real division, with a quotient of zero by zero. SegmentDistance2 divides only
   * by the squared length of a segment that is not a single point.
   */
  function Quotient(n: real, d: real): real {
    if d == 0.0 then 0.0 else n / d
  }

  /**
   * The squared distance from (px, py) to the segment from a to b: to a itself when
   * the segment is a single point, else to the projection clamped to the segment.
   */
  function SegmentDistance2(px: real, py: real, a: Point, b: Point): real {
    var dx := b.x - a.x;
    var dy := b.y - a.y;
    if dx == 0.0 && dy == 0.0 then PointDistance2(px, py, a.x, a.y)
    else
      var t := Clamp01(Quotient(Dot(px - a.x, py - a.y, dx, dy), dx * dx + dy * dy));
      PointDistance2(px, py, Along(a.x, t, dx), Along(a.y, t, dy))
  }

  /** The dot product of (ux, uy) and (vx, vy). */
  function Dot(ux: real, uy: real, vx: real, vy: real): real {
    ux * vx + uy * vy
  }

  /** `Math.max(0, Math.min(1, u))`. */
  function Clamp01(u: real): (t: real)
    ensures 0.0 <= t <= 1.0
    ensures 0.0 <= u <= 1.0 ==> t == u
    ensures u < 0.0 ==> t == 0.0
    ensures u > 1.0 ==> t == 1.0
  {
    if u < 0.0 then 0.0 else if u > 1.0 then 1.0 else u
  }

  /** The coordinate a fraction t of the way along a step d from a. */
  function Along(a: real, t: real, d: real): real {
    a + t * d
  }

  /** Segment i of a polyline runs from point i to point i + 1. */
  function SegmentAt(pts: seq<Point>, px: real, py: real, i: nat): real
    requires i + 1 < |pts|
  {
    SegmentDistance2(px, py, pts[i], pts[i + 1])
  }

  /** The least squared distance to the first n segments of a polyline. */
  function SegMin(pts: seq<Point>, px: real, py: real, n: nat): real
    requires 1 <= n < |pts|
  {
    if n == 1 then SegmentAt(pts, px, py, 0)
    else
      var m := SegMin(pts, px, py, n - 1);
      var d := SegmentAt(pts, px, py, n - 1);
      if d < m then d else m
  }

  /** SegMin is a lower bound of the first n segments and is attained by one of them. */
  lemma {:induction false} SegMinIsMinimum(pts: seq<Point>, px: real, py: real, n: nat)
    requires 1 <= n < |pts|
    ensures forall i :: 0 <= i < n ==> SegMin(pts, px, py, n) <= SegmentAt(pts, px, py, i)
    ensures exists i :: 0 <= i < n && SegMin(pts, px, py, n) == SegmentAt(pts, px, py, i)
  {
    if n == 1 {
      assert SegMin(pts, px, py, n) == SegmentAt(pts, px, py, 0);
    } else {
      SegMinIsMinimum(pts, px, py, n - 1);
      var i :| 0 <= i < n - 1 && SegMin(pts, px, py, n - 1) == SegmentAt(pts, px, py, i);
      if SegmentAt(pts, px, py, n - 1) < SegMin(pts, px, py, n - 1) {
        assert SegMin(pts, px, py, n) == SegmentAt(pts, px, py, n - 1);
      } else {
        assert SegMin(pts, px, py, n) == SegmentAt(pts, px, py, i);
      }
    }
  }

  /** A stroke's squared distance: its nearest segment, none for fewer than two points. */
  function StrokeDistance2(s: Stroke, px: real, py: real): Option<real> {
    if |s.points| < 2 then None else Some(SegMin(s.points, px, py, |s.points| - 1))
  }

  /** Stroke s passes strictly inside the circle of squared radius r2. */
  predicate StrokeHit(s: Stroke, px: real, py: real, r2: real) {
    StrokeDistance2(s, px, py).Some? && StrokeDistance2(s, px, py).value < r2
  }

  /**
   * Stroke j passes inside the circle, strictly nearer than every earlier stroke
   * with a segment and no farther than every later one: the nearest, earliest on ties.
   */
  ghost predicate IsNearestStroke(strokes: seq<Stroke>, j: int, px: real, py: real, r2: real) {
    0 <= j < |strokes| && StrokeHit(strokes[j], px, py, r2) &&
    (forall k :: 0 <= k < j && StrokeDistance2(strokes[k], px, py).Some? ==>
       StrokeDistance2(strokes[k], px, py).value > StrokeDistance2(strokes[j], px, py).value) &&
    (forall k :: j < k < |strokes| && StrokeDistance2(strokes[k], px, py).Some? ==>
       StrokeDistance2(strokes[k], px, py).value >= StrokeDistance2(strokes[j], px, py).value)
  }

  /** At most one stroke is the nearest. */
  lemma NearestStrokeUnique(strokes: seq<Stroke>, i: int, j: int, px: real, py: real, r2: real)
    requires IsNearestStroke(strokes, i, px, py, r2) && IsNearestStroke(strokes, j, px, py, r2)
    ensures i == j
  {
  }
}
