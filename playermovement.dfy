/**
 * The history-less token mover of src/hooks/usePlayerMovement.ts. Unlike the
 * history reducer it edits every token with the id on both sides.
 */
module PlayerMovement {
  import opened Basics
  import opened BoardTypes
  import opened Formations
  import History

  class Mover {
    var home: seq<Token>
    var away: seq<Token>
    var ball: Token
    var selectedId: Option<string>

    /** The initial columns of eleven and the ball at the centre, nothing selected. */
    constructor(dims: Dims)
      ensures home == InitialPlayers(Home, 11, dims) && away == InitialPlayers(Away, 11, dims)
      ensures ball == InitialBall(dims) && selectedId.None?
    {
      home := InitialPlayers(Home, 11, dims);
      away := InitialPlayers(Away, 11, dims);
      ball := InitialBall(dims);
      selectedId := None;
    }

    /** `movePlayer`: the ball's position for "ball", else every token with the id on both sides. */
    method MovePlayer(playerId: string, x: real, y: real)
      modifies this
      ensures playerId == BALL_ID ==>
        ball == old(ball).(x := x, y := y) && home == old(home) && away == old(away)
      ensures playerId != BALL_ID ==>
        ball == old(ball) && home == UpdateById(old(home), playerId, MoveTo(x, y)) &&
        away == UpdateById(old(away), playerId, MoveTo(x, y))
      ensures selectedId == old(selectedId)
    {
      if playerId == BALL_ID {
        ball := ball.(x := x, y := y);
      } else {
        home := UpdateById(home, playerId, MoveTo(x, y));
        away := UpdateById(away, playerId, MoveTo(x, y));
      }
    }

    /** `updatePlayerLabel`: nothing for "ball", else the label of every token with the id on both sides. */
    method UpdatePlayerLabel(playerId: string, labelText: string)
      modifies this
      ensures playerId == BALL_ID ==> home == old(home) && away == old(away) && ball == old(ball)
      ensures playerId != BALL_ID ==>
        home == UpdateById(old(home), playerId, Relabel(labelText)) &&
        away == UpdateById(old(away), playerId, Relabel(labelText)) && ball == old(ball)
      ensures selectedId == old(selectedId)
    {
      if playerId == BALL_ID {
        return;
      }
      home := UpdateById(home, playerId, Relabel(labelText));
      away := UpdateById(away, playerId, Relabel(labelText));
    }

    /** `resetPlayers`: the initial formation and ball, nothing selected. */
    method ResetPlayers(dims: Dims)
      modifies this
      ensures home == InitialPlayers(Home, 11, dims) && away == InitialPlayers(Away, 11, dims)
      ensures ball == InitialBall(dims) && selectedId.None?
    {
      home := InitialPlayers(Home, 11, dims);
      away := InitialPlayers(Away, 11, dims);
      ball := InitialBall(dims);
      selectedId := None;
    }

    /** `setPlayersFromData`: the given tokens, nothing selected. */
    method SetPlayersFromData(homeData: seq<Token>, awayData: seq<Token>, ballData: Token)
      modifies this
      ensures home == homeData && away == awayData && ball == ballData && selectedId.None?
    {
      home := homeData;
      away := awayData;
      ball := ballData;
      selectedId := None;
    }

    /** The exported `setSelectedId`, which chooses the selected token. */
    method SetSelectedId(id: Option<string>)
      modifies this
      ensures selectedId == id
      ensures home == old(home) && away == old(away) && ball == old(ball)
    {
      selectedId := id;
    }

    /** `allPlayers`: the home tokens, then the away tokens, then the ball. */
    function AllPlayers(): (r: seq<Token>)
      reads this
      ensures |r| == |home| + |away| + 1 && r[|r| - 1] == ball
      ensures forall t :: t in r <==> t in home || t in away || t == ball
    {
      home + away + [ball]
    }
  }

  /**
   * Where the history reducer edits only the side its probe picks, the mover edits
   * both: for an id present on both sides, a move reaches the away token here, while
   * the reducer's snapshot keeps the away side as it was.
   */
  lemma {:induction false} MoverEditsBothSides(home: seq<Token>, away: seq<Token>, ball: Token,
                                               strokes: seq<Stroke>, id: string, x: real, y: real, i: nat, j: nat)
    requires id != BALL_ID
    requires i < |home| && j < |away| && home[i].id == id && away[j].id == id
    ensures UpdateById(home, id, MoveTo(x, y))[i] == home[i].(x := x, y := y)
    ensures UpdateById(away, id, MoveTo(x, y))[j] == away[j].(x := x, y := y)
    ensures var r := History.Reduce(Snapshot(home, away, ball, strokes), History.MovePlayer(id, x, y));
      r.Some? && r.value.home[i] == home[i].(x := x, y := y) && r.value.away == away
  {
    UpdateByIdSpec(home, id, MoveTo(x, y));
    UpdateByIdSpec(away, id, MoveTo(x, y));
    assert HasId(home, id);
    History.ReducePlayerAction(Snapshot(home, away, ball, strokes), History.MovePlayer(id, x, y));
  }
}
