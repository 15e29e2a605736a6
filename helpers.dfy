/**
 * The board helpers of src/utils/helpers.ts: lineup generation from a setup
 * configuration, re-applying a tactic, and the spatial queries behind tapping
 * and dragging (touch area, cyclic selection, nearest token, nearest stroke).
 */
module Helpers {
  import opened Basics
  import opened Sorting
  import opened BoardTypes
  import opened Formations
  import opened Proximity

  /** SELECTION_RADIUS of src/utils/constants.ts, in pixels. */
  const SELECTION_RADIUS: real := 16.0

  /** The configuration shape this version reads: one head count and one tactic for both sides. */
  datatype PlayerConfig = PlayerConfig(teamSelection: TeamSelection, playerCount: nat, tacticalType: Tactic)

  datatype Lineup = Lineup(home: seq<Token>, away: seq<Token>, ball: Token)

  /** The table createPlayersFromConfig lays out: the named tactic for eleven players, else the dynamic one. */
  function ConfigLayout(config: PlayerConfig): (l: Layout)
    ensures |l.home| > 0 && |l.away| > 0
  {
    if config.playerCount == 11 && HelpersFormation(config.tacticalType).Some? then
      TacticalTableShape(config.tacticalType);
      HelpersFormation(config.tacticalType).value
    else
      DynamicFormationShape(config.playerCount);
      DynamicFormation(config.playerCount)
  }

  /** The normalised ball position of each tactic; an unknown tactic falls back to `free`. */
  function BallPosition(t: Tactic): Pos {
    match t
    case Free => Pos(0.5, 0.5)
    case F442 => Pos(0.5, 0.5)
    case F433 => Pos(0.5, 0.4)
    case F352 => Pos(0.5, 0.5)
    case F4231 => Pos(0.5, 0.45)
    case F532 => Pos(0.5, 0.6)
    case SetPiece => Pos(0.02, 0.98)
    case Other(_) => Pos(0.5, 0.5)
  }

  /** The lineup createPlayersFromConfig builds once its table is chosen. */
  function LineupOn(config: PlayerConfig, layout: Layout, dims: Dims): Lineup
    requires |layout.home| > 0 && |layout.away| > 0
  {
    var home := PositionalPlayers(Home, config.playerCount, layout.home, dims);
    var away := if config.teamSelection == BothTeams
                then PositionalPlayers(Away, config.playerCount, layout.away, dims) else [];
    var b := BallPosition(config.tacticalType);
    Lineup(home, away, Token(BALL_ID, BoardX(b, dims), BoardY(b, dims), Ball, "\U{26BD}", None, None, None))
  }

  /** `createPlayersFromConfig(config)` of helpers.ts. */
  function CreatePlayersFromConfig(config: PlayerConfig, dims: Dims): Lineup {
    LineupOn(config, ConfigLayout(config), dims)
  }

  /**
   * On any table, the home side has exactly `playerCount` tokens standing on the
   * table (the last entry reused past its end), the away side is the same on the
   * away table and only for both teams, and the ball is "ball" at the tactic's
   * ball position.
   */
  lemma LineupOnShape(config: PlayerConfig, layout: Layout, dims: Dims)
    requires |layout.home| > 0 && |layout.away| > 0
    ensures var r := LineupOn(config, layout, dims);
      |r.home| == config.playerCount &&
      |r.away| == (if config.teamSelection == BothTeams then config.playerCount else 0) &&
      (forall i :: 0 <= i < |r.home| ==>
        r.home[i].id == TokenId(Home, i) && r.home[i].labelText == DefaultLabel(i) &&
        r.home[i].x == BoardX(PositionAt(layout.home, i), dims) &&
        r.home[i].y == BoardY(PositionAt(layout.home, i), dims)) &&
      (forall i :: 0 <= i < |r.away| ==>
        r.away[i].id == TokenId(Away, i) && r.away[i].labelText == DefaultLabel(i) &&
        r.away[i].x == BoardX(PositionAt(layout.away, i), dims) &&
        r.away[i].y == BoardY(PositionAt(layout.away, i), dims)) &&
      r.ball.id == BALL_ID && r.ball.side == Ball &&
      r.ball.x == BoardX(BallPosition(config.tacticalType), dims) &&
      r.ball.y == BoardY(BallPosition(config.tacticalType), dims)
  {
    PositionalPlayersShape(Home, config.playerCount, layout.home, dims);
    PositionalPlayersShape(Away, config.playerCount, layout.away, dims);
  }

  /** The named table is used exactly for eleven players and a known tactic. */
  lemma ConfigLayoutChoice(config: PlayerConfig)
    ensures config.playerCount == 11 && !config.tacticalType.Other? ==>
      ConfigLayout(config) == HelpersFormation(config.tacticalType).value
    ensures config.playerCount != 11 || config.tacticalType.Other? ==>
      ConfigLayout(config) == DynamicFormation(config.playerCount)
  {
  }

  /** `applyTacticalFormation(players, tacticalType)` of helpers.ts. */
  function ApplyTacticalFormation(players: seq<Token>, t: Tactic, dims: Dims): (r: seq<Token>)
    ensures t.Other? ==> r == players
    ensures |r| == |players|
    ensures forall i :: 0 <= i < |players| ==> r[i] == players[i].(x := r[i].x, y := r[i].y)
    ensures forall i :: 0 <= i < |players| && players[i].side == Ball ==> r[i] == players[i]
  {
    ApplyFormationFrame(players, HelpersFormation(t), dims);
    ApplyFormation(players, HelpersFormation(t), dims)
  }

  /** Orders tokens by squared distance to the touch point. */
  function DistanceKey(px: real, py: real): Token -> real {
    t => SquaredDistance(t, px, py)
  }

  /** `findPlayersInTouchArea(x, y, players)`: the tokens under the finger, nearest first. */
  function FindPlayersInTouchArea(x: JsNumber, y: JsNumber, players: seq<Token>): seq<Token> {
    if |players| == 0 then []
    else if x.NonFinite? || y.NonFinite? then []
    else
      SortBy(WithinRadius(players, x.value, y.value, SELECTION_RADIUS * SELECTION_RADIUS),
             DistanceKey(x.value, y.value))
  }

  /**
   * The touch area is empty for no tokens or a non-finite point; otherwise it holds
   * exactly the tokens strictly inside the selection circle, each as often as in the
   * input, ordered by non-decreasing distance, equally distant tokens in input order.
   */
  lemma TouchAreaSpec(x: JsNumber, y: JsNumber, players: seq<Token>)
    ensures var r := FindPlayersInTouchArea(x, y, players);
      ((|players| == 0 || x.NonFinite? || y.NonFinite?) ==> r == []) &&
      (|players| > 0 && x.Finite? && y.Finite? ==>
        var w := WithinRadius(players, x.value, y.value, SELECTION_RADIUS * SELECTION_RADIUS);
        multiset(r) == multiset(w) &&
        (forall t :: t in r <==> (t in players &&
                      SquaredDistance(t, x.value, y.value) < SELECTION_RADIUS * SELECTION_RADIUS)) &&
        (forall i, j :: 0 <= i < j < |r| ==>
           SquaredDistance(r[i], x.value, y.value) <= SquaredDistance(r[j], x.value, y.value)) &&
        (forall k :: WithKey(r, DistanceKey(x.value, y.value), k) == WithKey(w, DistanceKey(x.value, y.value), k)))
  {
    if |players| > 0 && x.Finite? && y.Finite? {
      var key := DistanceKey(x.value, y.value);
      var w := WithinRadius(players, x.value, y.value, SELECTION_RADIUS * SELECTION_RADIUS);
      var r := SortBy(w, key);
      assert r == FindPlayersInTouchArea(x, y, players);
      assert SortedBy(r, key) by {
        SortBySorted(w, key);
      }
      forall k ensures WithKey(r, key, k) == WithKey(w, key, k) {
        SortByStable(w, key, k);
      }
      assert multiset(r) == multiset(w);
      forall t ensures t in r <==> t in w {
        assert t in r <==> t in multiset(r);
        assert t in w <==> t in multiset(w);
      }
    }
  }

  /** The token chosen among those under the finger, given the current selection. */
  function NextInArea(area: seq<Token>, current: Option<string>): Option<Token> {
    if |area| == 0 then None
    else if |area| == 1 then Some(area[0])
    else
      var k := if current.None? then -1 else IndexOfId(area, current.value);
      if k == -1 then Some(area[0]) else Some(area[(k + 1) % |area|])
  }

  /** `selectNextPlayerInArea`: tapping the same spot again moves the selection to the next token under it. */
  function SelectNextPlayerInArea(x: JsNumber, y: JsNumber, players: seq<Token>, current: Option<string>): Option<Token> {
    NextInArea(FindPlayersInTouchArea(x, y, players), current)
  }

  /**
   * The choice is null exactly when nothing is under the finger; otherwise it is
   * a token of the area, the nearest one when the current selection is not there.
   */
  lemma NextInAreaSpec(area: seq<Token>, current: Option<string>)
    ensures var r := NextInArea(area, current);
      (r.None? <==> area == []) &&
      (r.Some? ==> r.value in area) &&
      ((current.None? || !HasId(area, current.value)) && area != [] ==> r == Some(area[0]))
  {
  }

  /** Ids in the touch area are pairwise distinct. */
  ghost predicate DistinctIds(tokens: seq<Token>) {
    forall i, j :: 0 <= i < j < |tokens| ==> tokens[i].id != tokens[j].id
  }

  /** The selected id after `m` taps on the same spot, each tap starting from the previous selection. */
  function Taps(area: seq<Token>, current: Option<string>, m: nat): Option<string> {
    if m == 0 then current
    else
      match NextInArea(area, Taps(area, current, m - 1))
      case None => None
      case Some(t) => Some(t.id)
  }

  /** The index one step further round a ring of n positions. */
  function Succ(k: nat, n: nat): nat {
    if k + 1 < n then k + 1 else 0
  }

  /** The index m steps further round a ring of n positions. */
  function Advance(k: nat, m: nat, n: nat): nat {
    if m == 0 then k else Succ(Advance(k, m - 1, n), n)
  }

  /** With distinct ids, tapping while area[k] is selected selects the next token round the area. */
  lemma NextInAreaStep(area: seq<Token>, k: nat)
    requires k < |area| && DistinctIds(area)
    ensures NextInArea(area, Some(area[k].id)) == Some(area[Succ(k, |area|)])
  {
    if |area| > 1 {
      var j := IndexOfId(area, area[k].id);
      assert j == k;
      assert (k + 1) % |area| == Succ(k, |area|);
    }
  }

  /**
   * Repeated taps walk the touch area as a ring: from area[k], m taps select the
   * token m steps further round.
   */
  lemma {:induction false} TapsCycle(area: seq<Token>, k: nat, m: nat)
    requires k < |area| && DistinctIds(area)
    ensures Advance(k, m, |area|) < |area|
    ensures Taps(area, Some(area[k].id), m) == Some(area[Advance(k, m, |area|)].id)
  {
    if m > 0 {
      TapsCycle(area, k, m - 1);
      var a := Advance(k, m - 1, |area|);
      NextInAreaStep(area, a);
      assert Advance(k, m, |area|) == Succ(a, |area|);
      assert NextInArea(area, Taps(area, Some(area[k].id), m - 1)) == Some(area[Succ(a, |area|)]);
    }
  }

  /** Within one round, m steps from k land on k + m, wrapping past the end once. */
  lemma {:induction false} AdvanceWithinRound(k: nat, m: nat, n: nat)
    requires k < n && m <= n
    ensures Advance(k, m, n) == if k + m < n then k + m else k + m - n
  {
    if m > 0 {
      AdvanceWithinRound(k, m - 1, n);
    }
  }

  /** As many taps on the same spot as there are tokens under it bring the first selection back. */
  lemma TapsReturn(area: seq<Token>, k: nat)
    requires k < |area| && DistinctIds(area)
    ensures Taps(area, Some(area[k].id), |area|) == Some(area[k].id)
  {
    TapsCycle(area, k, |area|);
    AdvanceWithinRound(k, |area|, |area|);
  }

  /** Every token under the finger is selected after fewer taps than there are tokens. */
  lemma TapsReachAll(area: seq<Token>, k: nat, j: nat)
    requires k < |area| && j < |area| && DistinctIds(area)
    ensures exists m :: 0 <= m < |area| && Taps(area, Some(area[k].id), m) == Some(area[j].id)
  {
    var n := |area|;
    var m := if j >= k then j - k else j + n - k;
    TapsCycle(area, k, m);
    AdvanceWithinRound(k, m, n);
    assert Taps(area, Some(area[k].id), m) == Some(area[j].id);
  }

  /** `findNearestPlayer` of helpers.ts: the first token of the touch area. */
  function FindNearestPlayer(x: JsNumber, y: JsNumber, players: seq<Token>): Option<Token> {
    var area := FindPlayersInTouchArea(x, y, players);
    if |area| > 0 then Some(area[0]) else None
  }

  /** Inserting a token by distance before the nearest of the rest puts the nearer of the two first. */
  lemma InsertedHeadIsNearest(t: Token, st: seq<Token>, rest: Option<Token>, px: real, py: real)
    requires st == [] <==> rest.None?
    requires st != [] ==> rest == Some(st[0])
    ensures Insert(t, st, DistanceKey(px, py))[0] ==
      if rest.None? || SquaredDistance(t, px, py) <= SquaredDistance(rest.value, px, py) then t else rest.value
  {
    InsertHead(t, st, DistanceKey(px, py));
  }

  /** The touch area of `players` is empty exactly when nothing is nearest, and otherwise sorts to the nearest token. */
  ghost predicate HeadIsNearest(players: seq<Token>, px: real, py: real, r2: real) {
    var w := WithinRadius(players, px, py, r2);
    (w == [] <==> Nearest(players, px, py, r2).None?) &&
    (w != [] ==> Nearest(players, px, py, r2) == Some(SortBy(w, DistanceKey(px, py))[0]))
  }

  /** A first token inside the circle is inserted in front of the tail's nearest exactly when it is no farther. */
  lemma HeadInsideStep(players: seq<Token>, px: real, py: real, r2: real)
    requires players != [] && SquaredDistance(players[0], px, py) < r2
    requires HeadIsNearest(players[1..], px, py, r2)
    ensures HeadIsNearest(players, px, py, r2)
  {
    var key := DistanceKey(px, py);
    var wt := WithinRadius(players[1..], px, py, r2);
    var w := WithinRadius(players, px, py, r2);
    assert w != [] && SortBy(w, key) == Insert(players[0], SortBy(wt, key), key) by {
      assert w == [players[0]] + wt;
      assert w[1..] == wt;
    }
    InsertedHeadIsNearest(players[0], SortBy(wt, key), Nearest(players[1..], px, py, r2), px, py);
  }

  /** A first token outside the circle changes neither the touch area nor the nearest token. */
  lemma HeadOutsideStep(players: seq<Token>, px: real, py: real, r2: real)
    requires players != [] && SquaredDistance(players[0], px, py) >= r2
    requires HeadIsNearest(players[1..], px, py, r2)
    ensures HeadIsNearest(players, px, py, r2)
  {
    assert WithinRadius(players, px, py, r2) == WithinRadius(players[1..], px, py, r2);
  }

  /** The head of the distance-sorted touch area is the earliest nearest token. */
  lemma {:induction false} SortedHeadIsNearest(players: seq<Token>, px: real, py: real, r2: real)
    ensures var w := WithinRadius(players, px, py, r2);
      (w == [] <==> Nearest(players, px, py, r2).None?) &&
      (w != [] ==> Nearest(players, px, py, r2) == Some(SortBy(w, DistanceKey(px, py))[0]))
  {
    if players != [] {
      SortedHeadIsNearest(players[1..], px, py, r2);
      if SquaredDistance(players[0], px, py) < r2 {
        HeadInsideStep(players, px, py, r2);
      } else {
        HeadOutsideStep(players, px, py, r2);
      }
    }
  }

  /**
   * helpers.ts's findNearestPlayer finds nothing exactly when no token is within
   * the selection radius (or the point is not finite), and otherwise the nearest
   * token, the earliest one on ties.
   */
  lemma FindNearestPlayerSpec(x: JsNumber, y: JsNumber, players: seq<Token>)
    ensures var r := FindNearestPlayer(x, y, players);
      (x.NonFinite? || y.NonFinite? ==> r.None?) &&
      (x.Finite? && y.Finite? ==>
        r == Nearest(players, x.value, y.value, SELECTION_RADIUS * SELECTION_RADIUS) &&
        (r.None? <==> forall k :: 0 <= k < |players| ==>
                        SquaredDistance(players[k], x.value, y.value) >= SELECTION_RADIUS * SELECTION_RADIUS) &&
        (r.Some? ==> exists i :: IsEarliestNearest(players, i, x.value, y.value, SELECTION_RADIUS * SELECTION_RADIUS) &&
                                 r.value == players[i]))
  {
    if x.Finite? && y.Finite? {
      var r2 := SELECTION_RADIUS * SELECTION_RADIUS;
      SortedHeadIsNearest(players, x.value, y.value, r2);
      NearestSpec(players, x.value, y.value, r2);
    }
  }

  /**
   * `findNearestStroke(x, y, strokes)`: scans every segment of every stroke with at
   * least two points and keeps the stroke of the first segment strictly nearer than
   * everything seen so far, starting from the selection radius.
   */
  method FindNearestStroke(x: JsNumber, y: JsNumber, strokes: seq<Stroke>) returns (r: Option<Stroke>)
    ensures x.NonFinite? || y.NonFinite? ==> r.None?
    ensures x.Finite? && y.Finite? ==>
      (r.None? <==> forall j :: 0 <= j < |strokes| ==>
                      !StrokeHit(strokes[j], x.value, y.value, SELECTION_RADIUS * SELECTION_RADIUS))
    ensures x.Finite? && y.Finite? && r.Some? ==>
      exists j :: IsNearestStroke(strokes, j, x.value, y.value, SELECTION_RADIUS * SELECTION_RADIUS) &&
                  r.value == strokes[j]
  {
    if |strokes| == 0 {
      return None;
    }
    if x.NonFinite? || y.NonFinite? {
      return None;
    }
    var px, py := x.value, y.value;
    var r2 := SELECTION_RADIUS * SELECTION_RADIUS;
    r := None;
    var minDistance := r2;
    ghost var best := -1;
    for j := 0 to |strokes|
      invariant r.None? <==> best == -1
      invariant best == -1 ==> minDistance == r2 && forall k :: 0 <= k < j ==> !StrokeHit(strokes[k], px, py, r2)
      invariant best != -1 ==>
        0 <= best < j && r == Some(strokes[best]) && StrokeHit(strokes[best], px, py, r2) &&
        StrokeDistance2(strokes[best], px, py).value == minDistance &&
        (forall k :: 0 <= k < best && StrokeDistance2(strokes[k], px, py).Some? ==>
           StrokeDistance2(strokes[k], px, py).value > minDistance) &&
        (forall k :: best < k < j && StrokeDistance2(strokes[k], px, py).Some? ==>
           StrokeDistance2(strokes[k], px, py).value >= minDistance)
    {
      var pts := strokes[j].points;
      if |pts| < 2 {
        continue;
      }
      ghost var m0 := minDistance;
      ghost var r0 := r;
      ghost var hit := false;
      for i := 0 to |pts| - 1
        invariant i == 0 ==> !hit && minDistance == m0
        invariant i > 0 ==> (hit <==> SegMin(pts, px, py, i) < m0)
        invariant i > 0 ==> minDistance == if SegMin(pts, px, py, i) < m0 then SegMin(pts, px, py, i) else m0
        invariant hit ==> r == Some(strokes[j])
        invariant !hit ==> r == r0
      {
        var d := SegmentDistance2(px, py, pts[i], pts[i + 1]);
        if d < minDistance {
          minDistance := d;
          r := Some(strokes[j]);
          hit := true;
        }
      }
      if hit {
        best := j;
      }
    }
  }
}
