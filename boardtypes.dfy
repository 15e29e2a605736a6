/**
 * The board's value types: tokens (players and the ball), strokes and the
 * snapshot that the history stores.
 */
module BoardTypes {
  import opened Basics
  import opened Strings

  datatype Point = Point(x: real, y: real)

  datatype Side = Home | Away | Ball

  /** The two sides that own player tokens: the `"home" | "away"` parameter type of the source. */
  type TeamSide = s: Side | s != Ball witness Home

  /**
   * A token on the board (`labelText` is the source's `label`). `rotation` is set by ROTATE_PLAYER; `teamId` and
   * `playerId` link a token to a saved team roster.
   */
  datatype Token = Token(id: string, x: real, y: real, side: Side, labelText: string,
                         rotation: Option<real>, teamId: Option<string>, playerId: Option<string>)

  /** A freehand stroke. Strokes drawn through the board wrapper carry no id, so it is optional. */
  datatype Stroke = Stroke(id: Option<string>, color: string, width: real, points: seq<Point>)

  /** One board state: the unit of undo and redo. */
  datatype Snapshot = Snapshot(home: seq<Token>, away: seq<Token>, ball: Token, strokes: seq<Stroke>)

  /** Which sides a new board is set up with. */
  datatype TeamSelection = HomeOnly | BothTeams

  /** The board size in pixels (from the device window in the source). */
  datatype Dims = Dims(width: real, height: real)

  /** A JavaScript number handed in by a gesture: finite, or NaN / ±Infinity. */
  datatype JsNumber = Finite(value: real) | NonFinite

  const BALL_ID: string := "ball"

  function SideName(side: Side): string {
    match side
    case Home => "home"
    case Away => "away"
    case Ball => "ball"
  }

  /** The id given to the i-th generated token of a side: `${side}-${i + 1}`. */
  function TokenId(side: TeamSide, i: nat): string {
    SideName(side) + "-" + NatToString(i + 1)
  }

  /** The default label of the i-th generated token: `${i + 1}`. */
  function DefaultLabel(i: nat): string {
    NatToString(i + 1)
  }

  /** Generated ids are distinct within a side. */
  lemma TokenIdInjective(side: TeamSide, i: nat, j: nat)
    requires TokenId(side, i) == TokenId(side, j)
    ensures i == j
  {
    SamePrefixCancels(SideName(side) + "-", NatToString(i + 1), NatToString(j + 1));
    NatToStringInjective(i + 1, j + 1);
  }

  function SquaredDistance(t: Token, px: real, py: real): real {
    (t.x - px) * (t.x - px) + (t.y - py) * (t.y - py)
  }

  /** `tokens.findIndex(t => t.id === id)`: the first index holding `id`, or -1. */
  function IndexOfId(tokens: seq<Token>, id: string): (k: int)
    ensures -1 <= k < |tokens|
    ensures k == -1 <==> forall j :: 0 <= j < |tokens| ==> tokens[j].id != id
    ensures k >= 0 ==> tokens[k].id == id && forall j :: 0 <= j < k ==> tokens[j].id != id
  {
    if tokens == [] then -1
    else if tokens[0].id == id then 0
    else
      var k := IndexOfId(tokens[1..], id);
      if k == -1 then -1 else k + 1
  }

  /** `tokens.some(t => t.id === id)`. */
  predicate HasId(tokens: seq<Token>, id: string) {
    exists j :: 0 <= j < |tokens| && tokens[j].id == id
  }

  /** The tokens of one side, in order: `tokens.filter(t => t.side === side)`. */
  function OfSide(tokens: seq<Token>, side: Side): (r: seq<Token>)
    ensures |r| <= |tokens|
    ensures forall t :: t in r <==> t in tokens && t.side == side
  {
    if tokens == [] then []
    else (if tokens[0].side == side then [tokens[0]] else []) + OfSide(tokens[1..], side)
  }

  /** A change applied to every token carrying a given id. */
  datatype Edit = MoveTo(x: real, y: real) | Relabel(labelText: string) | Rotate(rotation: real)

  function Edited(t: Token, e: Edit): Token {
    match e
    case MoveTo(x, y) => t.(x := x, y := y)
    case Relabel(l) => t.(labelText := l)
    case Rotate(r) => t.(rotation := Some(r))
  }

  /** `tokens.map(t => t.id === id ? {...t, <edit>} : t)`. */
  function UpdateById(tokens: seq<Token>, id: string, e: Edit): seq<Token> {
    seq(|tokens|, i requires 0 <= i < |tokens| => if tokens[i].id == id then Edited(tokens[i], e) else tokens[i])
  }

  /**
   * The update keeps length, order and ids, edits exactly the tokens carrying the
   * id, changes nothing when no token carries it, and touches only the edited field.
   */
  lemma UpdateByIdSpec(tokens: seq<Token>, id: string, e: Edit)
    ensures var r := UpdateById(tokens, id, e);
      |r| == |tokens| &&
      (forall i :: 0 <= i < |tokens| ==> r[i].id == tokens[i].id && r[i].side == tokens[i].side) &&
      (forall i :: 0 <= i < |tokens| && tokens[i].id != id ==> r[i] == tokens[i]) &&
      (!HasId(tokens, id) ==> r == tokens) &&
      (forall i :: 0 <= i < |tokens| && tokens[i].id == id ==>
        match e
        case MoveTo(x, y) => r[i] == tokens[i].(x := x, y := y)
        case Relabel(l) => r[i] == tokens[i].(labelText := l)
        case Rotate(rot) => r[i] == tokens[i].(rotation := Some(rot)))
  {
  }
}
