/**
 * Formation tables and the token generators shared by helpers.ts and
 * useFormationHelpers.ts. Both files carry the same tables, except that the
 * hook's TACTICAL_FORMATIONS lacks "5-3-2" and "setpiece"; the two lookups
 * HelpersFormation and HookFormation say which tactic each file knows.
 * Coordinates are normalised to 0..1 (y = 0 is the top of the pitch).
 */
module Formations {
  import opened Basics
  import opened Strings
  import opened BoardTypes

  datatype Pos = Pos(x: real, y: real)

  /** Normalised positions for the home side and the away side. */
  datatype Layout = Layout(home: seq<Pos>, away: seq<Pos>)

  /** A tactic name. `Other` stands for any string that is not a key of the tables. */
  datatype Tactic = Free | F442 | F433 | F352 | F4231 | F532 | SetPiece | Other(name: string)

  /** TACTICAL_FORMATIONS[free] */
  function FreeLayout(): Layout {
    Layout(
      [
        Pos(0.15, 0.85), Pos(0.25, 0.85), Pos(0.35, 0.85), Pos(0.45, 0.85),
        Pos(0.55, 0.85), Pos(0.65, 0.85), Pos(0.75, 0.85), Pos(0.85, 0.85),
        Pos(0.3, 0.75), Pos(0.5, 0.75), Pos(0.7, 0.75)
      ],
      [
        Pos(0.15, 0.15), Pos(0.25, 0.15), Pos(0.35, 0.15), Pos(0.45, 0.15),
        Pos(0.55, 0.15), Pos(0.65, 0.15), Pos(0.75, 0.15), Pos(0.85, 0.15),
        Pos(0.3, 0.25), Pos(0.5, 0.25), Pos(0.7, 0.25)
      ])
  }

  /** TACTICAL_FORMATIONS[4-4-2] */
  function Layout442(): Layout {
    Layout(
      [
        Pos(0.5, 0.9), Pos(0.2, 0.75), Pos(0.4, 0.75), Pos(0.6, 0.75),
        Pos(0.8, 0.75), Pos(0.2, 0.55), Pos(0.4, 0.55), Pos(0.6, 0.55),
        Pos(0.8, 0.55), Pos(0.35, 0.35), Pos(0.65, 0.35)
      ],
      [
        Pos(0.5, 0.1), Pos(0.2, 0.25), Pos(0.4, 0.25), Pos(0.6, 0.25),
        Pos(0.8, 0.25), Pos(0.2, 0.45), Pos(0.4, 0.45), Pos(0.6, 0.45),
        Pos(0.8, 0.45), Pos(0.35, 0.65), Pos(0.65, 0.65)
      ])
  }

  /** TACTICAL_FORMATIONS[4-3-3] */
  function Layout433(): Layout {
    Layout(
      [
        Pos(0.5, 0.9), Pos(0.2, 0.75), Pos(0.4, 0.75), Pos(0.6, 0.75),
        Pos(0.8, 0.75), Pos(0.3, 0.55), Pos(0.5, 0.55), Pos(0.7, 0.55),
        Pos(0.2, 0.35), Pos(0.5, 0.35), Pos(0.8, 0.35)
      ],
      [
        Pos(0.5, 0.1), Pos(0.2, 0.25), Pos(0.4, 0.25), Pos(0.6, 0.25),
        Pos(0.8, 0.25), Pos(0.3, 0.45), Pos(0.5, 0.45), Pos(0.7, 0.45),
        Pos(0.2, 0.65), Pos(0.5, 0.65), Pos(0.8, 0.65)
      ])
  }

  /** TACTICAL_FORMATIONS[3-5-2] */
  function Layout352(): Layout {
    Layout(
      [
        Pos(0.5, 0.9), Pos(0.3, 0.75), Pos(0.5, 0.75), Pos(0.7, 0.75),
        Pos(0.15, 0.55), Pos(0.35, 0.55), Pos(0.5, 0.55), Pos(0.65, 0.55),
        Pos(0.85, 0.55), Pos(0.4, 0.35), Pos(0.6, 0.35)
      ],
      [
        Pos(0.5, 0.1), Pos(0.3, 0.25), Pos(0.5, 0.25), Pos(0.7, 0.25),
        Pos(0.15, 0.45), Pos(0.35, 0.45), Pos(0.5, 0.45), Pos(0.65, 0.45),
        Pos(0.85, 0.45), Pos(0.4, 0.65), Pos(0.6, 0.65)
      ])
  }

  /** TACTICAL_FORMATIONS[4-2-3-1] */
  function Layout4231(): Layout {
    Layout(
      [
        Pos(0.5, 0.9), Pos(0.2, 0.75), Pos(0.4, 0.75), Pos(0.6, 0.75),
        Pos(0.8, 0.75), Pos(0.35, 0.6), Pos(0.65, 0.6), Pos(0.2, 0.45),
        Pos(0.5, 0.45), Pos(0.8, 0.45), Pos(0.5, 0.3)
      ],
      [
        Pos(0.5, 0.1), Pos(0.2, 0.25), Pos(0.4, 0.25), Pos(0.6, 0.25),
        Pos(0.8, 0.25), Pos(0.35, 0.4), Pos(0.65, 0.4), Pos(0.2, 0.55),
        Pos(0.5, 0.55), Pos(0.8, 0.55), Pos(0.5, 0.7)
      ])
  }

  /** TACTICAL_FORMATIONS[5-3-2] */
  function Layout532(): Layout {
    Layout(
      [
        Pos(0.5, 0.9), Pos(0.15, 0.75), Pos(0.35, 0.75), Pos(0.5, 0.75),
        Pos(0.65, 0.75), Pos(0.85, 0.75), Pos(0.3, 0.55), Pos(0.5, 0.55),
        Pos(0.7, 0.55), Pos(0.4, 0.35), Pos(0.6, 0.35)
      ],
      [
        Pos(0.5, 0.1), Pos(0.15, 0.25), Pos(0.35, 0.25), Pos(0.5, 0.25),
        Pos(0.65, 0.25), Pos(0.85, 0.25), Pos(0.3, 0.45), Pos(0.5, 0.45),
        Pos(0.7, 0.45), Pos(0.4, 0.65), Pos(0.6, 0.65)
      ])
  }

  /** TACTICAL_FORMATIONS[setpiece] */
  function SetPieceLayout(): Layout {
    Layout(
      [
        Pos(0.05, 0.95), Pos(0.15, 0.8), Pos(0.25, 0.75), Pos(0.35, 0.7),
        Pos(0.3, 0.6), Pos(0.4, 0.65), Pos(0.5, 0.7), Pos(0.6, 0.65),
        Pos(0.25, 0.85), Pos(0.5, 0.85), Pos(0.75, 0.85)
      ],
      [
        Pos(0.5, 0.05), Pos(0.2, 0.1), Pos(0.35, 0.1), Pos(0.65, 0.1),
        Pos(0.8, 0.1), Pos(0.25, 0.2), Pos(0.45, 0.2), Pos(0.55, 0.2),
        Pos(0.75, 0.2), Pos(0.4, 0.35), Pos(0.6, 0.35)
      ])
  }

  /** generateDynamicFormation(3) */
  function Dynamic3(): Layout {
    Layout(
      [
        Pos(0.5, 0.9), Pos(0.3, 0.65), Pos(0.7, 0.65)
      ],
      [
        Pos(0.5, 0.1), Pos(0.3, 0.35), Pos(0.7, 0.35)
      ])
  }

  /** generateDynamicFormation(4) */
  function Dynamic4(): Layout {
    Layout(
      [
        Pos(0.5, 0.9), Pos(0.3, 0.7), Pos(0.7, 0.7), Pos(0.5, 0.5)
      ],
      [
        Pos(0.5, 0.1), Pos(0.3, 0.3), Pos(0.7, 0.3), Pos(0.5, 0.5)
      ])
  }

  /** generateDynamicFormation(5) */
  function Dynamic5(): Layout {
    Layout(
      [
        Pos(0.5, 0.9), Pos(0.2, 0.7), Pos(0.5, 0.7), Pos(0.8, 0.7),
        Pos(0.5, 0.5)
      ],
      [
        Pos(0.5, 0.1), Pos(0.2, 0.3), Pos(0.5, 0.3), Pos(0.8, 0.3),
        Pos(0.5, 0.5)
      ])
  }

  /** generateDynamicFormation(6) */
  function Dynamic6(): Layout {
    Layout(
      [
        Pos(0.5, 0.9), Pos(0.3, 0.7), Pos(0.7, 0.7), Pos(0.3, 0.5),
        Pos(0.7, 0.5), Pos(0.5, 0.3)
      ],
      [
        Pos(0.5, 0.1), Pos(0.3, 0.3), Pos(0.7, 0.3), Pos(0.3, 0.5),
        Pos(0.7, 0.5), Pos(0.5, 0.7)
      ])
  }

  /** generateDynamicFormation(7) */
  function Dynamic7(): Layout {
    Layout(
      [
        Pos(0.5, 0.9), Pos(0.25, 0.7), Pos(0.75, 0.7), Pos(0.25, 0.55),
        Pos(0.75, 0.55), Pos(0.4, 0.4), Pos(0.6, 0.4)
      ],
      [
        Pos(0.5, 0.1), Pos(0.25, 0.3), Pos(0.75, 0.3), Pos(0.25, 0.45),
        Pos(0.75, 0.45), Pos(0.4, 0.6), Pos(0.6, 0.6)
      ])
  }

  /** generateDynamicFormation(8) */
  function Dynamic8(): Layout {
    Layout(
      [
        Pos(0.5, 0.9), Pos(0.2, 0.75), Pos(0.5, 0.75), Pos(0.8, 0.75),
        Pos(0.25, 0.55), Pos(0.75, 0.55), Pos(0.35, 0.35), Pos(0.65, 0.35)
      ],
      [
        Pos(0.5, 0.1), Pos(0.2, 0.25), Pos(0.5, 0.25), Pos(0.8, 0.25),
        Pos(0.25, 0.45), Pos(0.75, 0.45), Pos(0.35, 0.65), Pos(0.65, 0.65)
      ])
  }

  /** generateDynamicFormation(9) */
  function Dynamic9(): Layout {
    Layout(
      [
        Pos(0.5, 0.9), Pos(0.2, 0.75), Pos(0.5, 0.75), Pos(0.8, 0.75),
        Pos(0.3, 0.55), Pos(0.7, 0.55), Pos(0.25, 0.35), Pos(0.5, 0.35),
        Pos(0.75, 0.35)
      ],
      [
        Pos(0.5, 0.1), Pos(0.2, 0.25), Pos(0.5, 0.25), Pos(0.8, 0.25),
        Pos(0.3, 0.45), Pos(0.7, 0.45), Pos(0.25, 0.65), Pos(0.5, 0.65),
        Pos(0.75, 0.65)
      ])
  }

  /** generateDynamicFormation(10) */
  function Dynamic10(): Layout {
    Layout(
      [
        Pos(0.5, 0.9), Pos(0.2, 0.75), Pos(0.4, 0.75), Pos(0.6, 0.75),
        Pos(0.8, 0.75), Pos(0.25, 0.55), Pos(0.75, 0.55), Pos(0.3, 0.35),
        Pos(0.5, 0.35), Pos(0.7, 0.35)
      ],
      [
        Pos(0.5, 0.1), Pos(0.2, 0.25), Pos(0.4, 0.25), Pos(0.6, 0.25),
        Pos(0.8, 0.25), Pos(0.25, 0.45), Pos(0.75, 0.45), Pos(0.3, 0.65),
        Pos(0.5, 0.65), Pos(0.7, 0.65)
      ])
  }

  /** `TACTICAL_FORMATIONS[t]` of helpers.ts (seven tactics). */
  function HelpersFormation(t: Tactic): (r: Option<Layout>)
    ensures r.None? <==> t.Other?
  {
    match t
    case Free => Some(FreeLayout())
    case F442 => Some(Layout442())
    case F433 => Some(Layout433())
    case F352 => Some(Layout352())
    case F4231 => Some(Layout4231())
    case F532 => Some(Layout532())
    case SetPiece => Some(SetPieceLayout())
    case Other(_) => None
  }

  /** `TACTICAL_FORMATIONS[t]` of useFormationHelpers.ts (five tactics). */
  function HookFormation(t: Tactic): (r: Option<Layout>)
    ensures r.None? <==> (t.Other? || t == F532 || t == SetPiece)
    ensures r.Some? ==> r == HelpersFormation(t)
  {
    match t
    case Free => Some(FreeLayout())
    case F442 => Some(Layout442())
    case F433 => Some(Layout433())
    case F352 => Some(Layout352())
    case F4231 => Some(Layout4231())
    case _ => None
  }

  /** `generateDynamicFormation(n)`: a table per head count 3..10, the `free` table otherwise. */
  function DynamicFormation(n: int): Layout {
    if n == 3 then Dynamic3()
    else if n == 4 then Dynamic4()
    else if n == 5 then Dynamic5()
    else if n == 6 then Dynamic6()
    else if n == 7 then Dynamic7()
    else if n == 8 then Dynamic8()
    else if n == 9 then Dynamic9()
    else if n == 10 then Dynamic10()
    else FreeLayout()
  }

  /** Entries i.. of the away table reflect those of the home table about the halfway line. */
  predicate MirroredFrom(home: seq<Pos>, away: seq<Pos>, i: nat)
    requires |home| == |away|
    decreases |home| - i
  {
    i >= |home| || (away[i] == Pos(home[i].x, 1.0 - home[i].y) && MirroredFrom(home, away, i + 1))
  }

  /** Every away entry is its home entry reflected about the halfway line (y = 0.5). */
  predicate Mirrored(l: Layout) {
    |l.home| == |l.away| &&
    forall i :: 0 <= i < |l.home| ==> l.away[i] == Pos(l.home[i].x, 1.0 - l.home[i].y)
  }

  lemma {:induction false} MirroredFromMeansMirrored(home: seq<Pos>, away: seq<Pos>, i: nat)
    requires |home| == |away| && MirroredFrom(home, away, i)
    ensures forall k :: i <= k < |home| ==> away[k] == Pos(home[k].x, 1.0 - home[k].y)
    decreases |home| - i
  {
    if i < |home| {
      MirroredFromMeansMirrored(home, away, i + 1);
    }
  }

  /**
   * generateDynamicFormation(n) gives n positions per side for 3 <= n <= 10 and the
   * 11-position `free` table for every other n; either way away[i] mirrors home[i].
   */
  lemma DynamicFormationShape(n: int)
    ensures |DynamicFormation(n).home| == |DynamicFormation(n).away| ==
            (if 3 <= n <= 10 then n else 11)
    ensures Mirrored(DynamicFormation(n))
  {
    if n == 3 { Dynamic3Mirrored(); }
    else if n == 4 { Dynamic4Mirrored(); }
    else if n == 5 { Dynamic5Mirrored(); }
    else if n == 6 { Dynamic6Mirrored(); }
    else if n == 7 { Dynamic7Mirrored(); }
    else if n == 8 { Dynamic8Mirrored(); }
    else if n == 9 { Dynamic9Mirrored(); }
    else if n == 10 { Dynamic10Mirrored(); }
    else { FreeMirrored(); }
  }

  /** The dynamic table for 3 players has 3 positions per side and is mirrored. */
  lemma Dynamic3Mirrored()
    ensures |Dynamic3().home| == 3 && Mirrored(Dynamic3())
  {
    MirroredTable(Dynamic3());
  }

  /** The dynamic table for 4 players has 4 positions per side and is mirrored. */
  lemma Dynamic4Mirrored()
    ensures |Dynamic4().home| == 4 && Mirrored(Dynamic4())
  {
    MirroredTable(Dynamic4());
  }

  /** The dynamic table for 5 players has 5 positions per side and is mirrored. */
  lemma Dynamic5Mirrored()
    ensures |Dynamic5().home| == 5 && Mirrored(Dynamic5())
  {
    MirroredTable(Dynamic5());
  }

  /** The dynamic table for 6 players has 6 positions per side and is mirrored. */
  lemma Dynamic6Mirrored()
    ensures |Dynamic6().home| == 6 && Mirrored(Dynamic6())
  {
    MirroredTable(Dynamic6());
  }

  /** The dynamic table for 7 players has 7 positions per side and is mirrored. */
  lemma Dynamic7Mirrored()
    ensures |Dynamic7().home| == 7 && Mirrored(Dynamic7())
  {
    MirroredTable(Dynamic7());
  }

  /** The dynamic table for 8 players has 8 positions per side and is mirrored. */
  lemma Dynamic8Mirrored()
    ensures |Dynamic8().home| == 8 && Mirrored(Dynamic8())
  {
    MirroredTable(Dynamic8());
  }

  /** The dynamic table for 9 players has 9 positions per side and is mirrored. */
  lemma Dynamic9Mirrored()
    ensures |Dynamic9().home| == 9 && Mirrored(Dynamic9())
  {
    MirroredTable(Dynamic9());
  }

  /** The dynamic table for 10 players has 10 positions per side and is mirrored. */
  lemma Dynamic10Mirrored()
    ensures |Dynamic10().home| == 10 && Mirrored(Dynamic10())
  {
    MirroredTable(Dynamic10());
  }

  /**
   * Every tactical table has eleven positions per side; all but the set-piece
   * table are mirrored about the halfway line.
   */
  lemma TacticalTableShape(t: Tactic)
    requires HelpersFormation(t).Some?
    ensures |HelpersFormation(t).value.home| == |HelpersFormation(t).value.away| == 11
    ensures t != SetPiece ==> Mirrored(HelpersFormation(t).value)
  {
    match t {
      case Free => FreeMirrored();
      case F442 => Mirrored442();
      case F433 => Mirrored433();
      case F352 => Mirrored352();
      case F4231 => Mirrored4231();
      case F532 => Mirrored532();
      case SetPiece =>
    }
  }

  /** The free table has eleven positions per side and is mirrored. */
  lemma FreeMirrored()
    ensures |FreeLayout().home| == 11 && Mirrored(FreeLayout())
  {
    MirroredTable(FreeLayout());
  }

  /** The 4-4-2 table has eleven positions per side and is mirrored. */
  lemma Mirrored442()
    ensures |Layout442().home| == 11 && Mirrored(Layout442())
  {
    MirroredTable(Layout442());
  }

  /** The 4-3-3 table has eleven positions per side and is mirrored. */
  lemma Mirrored433()
    ensures |Layout433().home| == 11 && Mirrored(Layout433())
  {
    MirroredTable(Layout433());
  }

  /** The 3-5-2 table has eleven positions per side and is mirrored. */
  lemma Mirrored352()
    ensures |Layout352().home| == 11 && Mirrored(Layout352())
  {
    MirroredTable(Layout352());
  }

  /** The 4-2-3-1 table has eleven positions per side and is mirrored. */
  lemma Mirrored4231()
    ensures |Layout4231().home| == 11 && Mirrored(Layout4231())
  {
    MirroredTable(Layout4231());
  }

  /** The 5-3-2 table has eleven positions per side and is mirrored. */
  lemma Mirrored532()
    ensures |Layout532().home| == 11 && Mirrored(Layout532())
  {
    MirroredTable(Layout532());
  }

  lemma MirroredTable(l: Layout)
    requires |l.home| == |l.away| && MirroredFrom(l.home, l.away, 0)
    ensures Mirrored(l)
  {
    MirroredFromMeansMirrored(l.home, l.away, 0);
  }

  /** The set-piece table is not mirrored: its first away entry is the goalkeeper, not the corner taker. */
  lemma SetPieceNotMirrored()
    ensures !Mirrored(SetPieceLayout())
  {
    var l := SetPieceLayout();
    assert l.away[0] != Pos(l.home[0].x, 1.0 - l.home[0].y);
  }

  /** A table position on the board: its fractions of the board's width and height, in pixels. */
  function BoardX(p: Pos, dims: Dims): real {
    p.x * dims.width
  }

  function BoardY(p: Pos, dims: Dims): real {
    p.y * dims.height
  }

  /** `positions[i] || positions[positions.length - 1]`: past the table, the last entry is reused. */
  function PositionAt(positions: seq<Pos>, i: nat): Pos
    requires |positions| > 0
  {
    if i < |positions| then positions[i] else positions[|positions| - 1]
  }

  /** The `createPositionalPlayers` of both files (without a team): `count` tokens laid out on `positions`. */
  function PositionalPlayers(side: TeamSide, count: nat, positions: seq<Pos>, dims: Dims): seq<Token>
    requires |positions| > 0
  {
    seq(count, i requires 0 <= i < count =>
      var p := PositionAt(positions, i);
      Token(TokenId(side, i), BoardX(p, dims), BoardY(p, dims), side, DefaultLabel(i), None, None, None))
  }

  /**
   * The generated side has exactly `count` tokens; token i is `side-(i+1)` labelled
   * `i+1`, stands on table entry i (the last entry once the table runs out), and no
   * two tokens share an id.
   */
  lemma PositionalPlayersShape(side: TeamSide, count: nat, positions: seq<Pos>, dims: Dims)
    requires |positions| > 0
    ensures var r := PositionalPlayers(side, count, positions, dims);
      |r| == count &&
      (forall i :: 0 <= i < count ==>
        r[i].id == TokenId(side, i) && r[i].labelText == DefaultLabel(i) && r[i].side == side &&
        r[i].rotation.None? && r[i].teamId.None? && r[i].playerId.None? &&
        r[i].x == BoardX(PositionAt(positions, i), dims) &&
        r[i].y == BoardY(PositionAt(positions, i), dims)) &&
      (forall i, j :: 0 <= i < j < count ==> r[i].id != r[j].id)
  {
    var r := PositionalPlayers(side, count, positions, dims);
    forall i, j | 0 <= i < j < count ensures r[i].id != r[j].id {
      if r[i].id == r[j].id { TokenIdInjective(side, i, j); }
    }
  }

  /**
   * `initialPlayers(side, count)`: a column of tokens at a quarter (home) or three
   * quarters (away) of the board width, spread evenly from 8% to 92% of its height.
   * A count of 1 divides zero by zero in the source (a NaN coordinate); every caller
   * uses the default count 11.
   */
  function InitialPlayers(side: TeamSide, count: nat, dims: Dims): seq<Token>
    requires count != 1
  {
    seq(count, i requires 0 <= i < count =>
      Token(TokenId(side, i),
            if side == Home then dims.width * 0.25 else dims.width * 0.75,
            dims.height * (0.08 + (0.84 * i as real) / ((count - 1) as real)),
            side, DefaultLabel(i), None, None, None))
  }

  /**
   * initialPlayers yields `count` tokens with ids `side-(i+1)` and labels `i+1`, all
   * in the side's column; the first sits at 8% and the last at 92% of the height.
   */
  lemma InitialPlayersShape(side: TeamSide, count: nat, dims: Dims)
    requires count != 1
    ensures var r := InitialPlayers(side, count, dims);
      |r| == count &&
      (forall i :: 0 <= i < count ==>
        r[i].id == TokenId(side, i) && r[i].labelText == DefaultLabel(i) && r[i].side == side &&
        r[i].x == (if side == Home then dims.width * 0.25 else dims.width * 0.75)) &&
      (count > 0 ==> r[0].y == dims.height * 0.08 && r[count - 1].y == dims.height * 0.92)
  {
    var r := InitialPlayers(side, count, dims);
    if count > 0 {
      var c := (count - 1) as real;
      assert 0.84 * c / c == 0.84;
    }
  }

  /** `initialBall`: the ball at the centre of the board. */
  function InitialBall(dims: Dims): Token {
    Token(BALL_ID, dims.width * 0.5, dims.height * 0.5, Ball, "\U{26BD}", None, None, None)
  }

  /** Token p moved onto the table position `pos`, scaled to the board. */
  function MovedTo(p: Token, pos: Pos, dims: Dims): Token {
    p.(x := BoardX(pos, dims), y := BoardY(pos, dims))
  }

  /** One token of `applyTacticalFormation`: move it to its index in its side's list, if the table has one. */
  function Placed(p: Token, positions: seq<Pos>, sideList: seq<Token>, dims: Dims): Token {
    var k := IndexOfId(sideList, p.id);
    if 0 <= k < |positions| then MovedTo(p, positions[k], dims)
    else p
  }

  /**
   * `applyTacticalFormation` with the table already looked up: each home or away
   * token moves to the table entry at its index among the tokens of its side.
   */
  function ApplyFormation(players: seq<Token>, layout: Option<Layout>, dims: Dims): seq<Token> {
    match layout
    case None => players
    case Some(l) =>
      var homeList := OfSide(players, Home);
      var awayList := OfSide(players, Away);
      seq(|players|, i requires 0 <= i < |players| =>
        var p := players[i];
        if p.side == Ball then p
        else if p.side == Home then Placed(p, l.home, homeList, dims)
        else Placed(p, l.away, awayList, dims))
  }

  /**
   * Re-applying a formation keeps the list's length, order and every field but the
   * coordinates; the ball and every token whose index has no table entry stay as
   * they are, and an unknown tactic leaves the list untouched.
   */
  lemma ApplyFormationFrame(players: seq<Token>, layout: Option<Layout>, dims: Dims)
    ensures var r := ApplyFormation(players, layout, dims);
      |r| == |players| &&
      (layout.None? ==> r == players) &&
      (forall i :: 0 <= i < |players| ==> r[i] == players[i].(x := r[i].x, y := r[i].y)) &&
      (forall i :: 0 <= i < |players| && players[i].side == Ball ==> r[i] == players[i])
  {
  }

  /** A token of its side's list finds its own id there, and moves to that table entry if there is one. */
  lemma PlacedSpec(p: Token, positions: seq<Pos>, sideList: seq<Token>, dims: Dims)
    requires p in sideList
    ensures var k := IndexOfId(sideList, p.id);
      k >= 0 &&
      (k < |positions| ==> Placed(p, positions, sideList, dims) == MovedTo(p, positions[k], dims)) &&
      (k >= |positions| ==> Placed(p, positions, sideList, dims) == p)
  {
    var j :| 0 <= j < |sideList| && sideList[j] == p;
    assert sideList[j].id == p.id;
  }

  /** Entry i of a re-applied formation is token i placed on its own side's table. */
  lemma ApplyFormationAt(players: seq<Token>, l: Layout, dims: Dims, i: nat)
    requires i < |players| && players[i].side != Ball
    ensures ApplyFormation(players, Some(l), dims)[i] ==
      Placed(players[i], if players[i].side == Home then l.home else l.away, OfSide(players, players[i].side), dims)
  {
  }

  /**
   * A home or away token finds its own id in its side's list; it moves to the table
   * entry at that index when the table has one, and otherwise stays where it is.
   */
  lemma ApplyFormationPlacement(players: seq<Token>, l: Layout, dims: Dims, i: nat)
    requires i < |players| && players[i].side != Ball
    ensures var table := if players[i].side == Home then l.home else l.away;
      var k := IndexOfId(OfSide(players, players[i].side), players[i].id);
      var r := ApplyFormation(players, Some(l), dims);
      k >= 0 &&
      (k < |table| ==> r[i] == MovedTo(players[i], table[k], dims)) &&
      (k >= |table| ==> r[i] == players[i])
  {
    var p := players[i];
    var sideList := OfSide(players, p.side);
    assert p in sideList;
    ApplyFormationAt(players, l, dims, i);
    if p.side == Home {
      PlacedSpec(p, l.home, sideList, dims);
    } else {
      PlacedSpec(p, l.away, sideList, dims);
    }
  }
}
