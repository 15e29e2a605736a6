/**
 * The board wrapper of src/hooks/useBoardState.ts: a history store plus the stroke
 * being drawn and the selected token. Undo, redo and reset are the store's own
 * methods, handed through unchanged.
 */
module BoardState {
  import opened Basics
  import opened BoardTypes
  import opened History

  class Board {
    const history: HistoryStore
    var currentStroke: Option<Stroke>
    var selectedId: Option<string>

    ghost predicate Valid()
      reads this, history
    {
      history.Valid()
    }

    constructor(dims: Dims)
      ensures Valid() && fresh(history)
      ensures history.history == [InitialSnapshot(dims)] && history.currentIndex == 0
      ensures currentStroke.None? && selectedId.None?
    {
      history := new HistoryStore(dims);
      currentStroke := None;
      selectedId := None;
    }

    /** `startDrawing`: a new stroke, without an id, holding just the touch point. */
    method StartDrawing(point: Point, color: string, width: real)
      modifies this
      ensures currentStroke == Some(Stroke(None, color, width, [point]))
      ensures selectedId == old(selectedId)
    {
      currentStroke := Some(Stroke(None, color, width, [point]));
    }

    /** `updateDrawing`: append the point to the stroke in progress; nothing when none is. */
    method UpdateDrawing(point: Point)
      modifies this
      ensures old(currentStroke).None? ==> currentStroke.None?
      ensures old(currentStroke).Some? ==>
        currentStroke == Some(old(currentStroke).value.(points := old(currentStroke).value.points + [point]))
      ensures selectedId == old(selectedId)
    {
      if currentStroke.Some? {
        currentStroke := Some(currentStroke.value.(points := currentStroke.value.points + [point]));
      }
    }

    /**
     * `finishDrawing`: commit the stroke as a DRAW_STROKE only when it has more than
     * one point; the stroke in progress is cleared either way.
     */
    method FinishDrawing()
      requires Valid()
      modifies this, history
      ensures Valid() && currentStroke.None? && selectedId == old(selectedId)
      ensures old(currentStroke).Some? && |old(currentStroke).value.points| > 1 ==>
        history.history == old(history.history[..history.currentIndex + 1]) +
                           [old(history.Current()).(strokes := old(history.Current()).strokes + [old(currentStroke).value])] &&
        history.currentIndex == old(history.currentIndex) + 1
      ensures !(old(currentStroke).Some? && |old(currentStroke).value.points| > 1) ==>
        history.history == old(history.history) && history.currentIndex == old(history.currentIndex)
    {
      if currentStroke.Some? && |currentStroke.value.points| > 1 {
        history.ApplyAction(DrawStroke(currentStroke.value));
      }
      currentStroke := None;
    }

    /** `movePlayer`: a MOVE_PLAYER action on the history. */
    method MovePlayer(playerId: string, x: real, y: real)
      requires Valid()
      modifies history
      ensures Valid()
      ensures history.history == old(history.history[..history.currentIndex + 1]) +
                                 [Reduce(old(history.Current()), History.MovePlayer(playerId, x, y)).value]
      ensures history.currentIndex == old(history.currentIndex) + 1
    {
      history.ApplyAction(History.MovePlayer(playerId, x, y));
    }

    /** `updatePlayerLabel`: nothing for the ball, else an UPDATE_PLAYER_LABEL action. */
    method UpdatePlayerLabel(playerId: string, labelText: string)
      requires Valid()
      modifies history
      ensures Valid()
      ensures playerId == BALL_ID ==>
        history.history == old(history.history) && history.currentIndex == old(history.currentIndex)
      ensures playerId != BALL_ID ==>
        history.history == old(history.history[..history.currentIndex + 1]) +
                           [Reduce(old(history.Current()), History.UpdatePlayerLabel(playerId, labelText)).value] &&
        history.currentIndex == old(history.currentIndex) + 1
    {
      if playerId == BALL_ID {
        return;
      }
      history.ApplyAction(History.UpdatePlayerLabel(playerId, labelText));
    }

    /** `loadFromData`: the given board as the only snapshot, and no selection. */
    method LoadFromData(home: seq<Token>, away: seq<Token>, ball: Token, strokes: seq<Stroke>)
      modifies this, history
      ensures Valid()
      ensures history.history == [Snapshot(home, away, ball, strokes)] && history.currentIndex == 0
      ensures selectedId.None? && currentStroke == old(currentStroke)
    {
      history.LoadState(Snapshot(home, away, ball, strokes));
      selectedId := None;
    }

    /** The exported `setSelectedId`: the board screen's player-select callback. */
    method SetSelectedId(id: Option<string>)
      modifies this
      ensures selectedId == id && currentStroke == old(currentStroke)
    {
      selectedId := id;
    }

    /** `allPlayers`: the home tokens, then the away tokens, then the ball. */
    function AllPlayers(): (r: seq<Token>)
      reads this, history
      requires Valid()
      ensures |r| == |history.Current().home| + |history.Current().away| + 1
      ensures r[|r| - 1] == history.Current().ball
      ensures forall t :: t in r <==>
        t in history.Current().home || t in history.Current().away || t == history.Current().ball
    {
      var s := history.Current();
      s.home + s.away + [s.ball]
    }
  }
}
