/**
 * The snapshot history of src/hooks/useHistory.ts: a list of board snapshots with
 * a cursor, and a pure reducer that computes the next snapshot for an action.
 */
module History {
  import opened Basics
  import opened BoardTypes
  import opened Formations

  /** HistoryAction; `Unrecognised` stands for any other `type` tag, which the reducer ignores. */
  datatype Action =
    | DrawStroke(stroke: Stroke)
    | MovePlayer(playerId: string, x: real, y: real)
    | UpdatePlayerLabel(playerId: string, labelText: string)
    | DeleteStroke(strokeId: string)
    | RotatePlayer(playerId: string, rotation: real)
    | Unrecognised(kind: string)

  /** Applies an edit on the side that owns the id: home if any home token has it, else away. */
  function EditOwningSide(s: Snapshot, id: string, e: Edit): Snapshot {
    var isHome := HasId(s.home, id);
    s.(home := if isHome then UpdateById(s.home, id, e) else s.home,
       away := if !isHome then UpdateById(s.away, id, e) else s.away)
  }

  /** `strokes.filter(s => s.id !== strokeId)`; a stroke without an id is always kept. */
  function WithoutStroke(strokes: seq<Stroke>, strokeId: string): seq<Stroke> {
    if strokes == [] then []
    else (if strokes[0].id == Some(strokeId) then [] else [strokes[0]]) + WithoutStroke(strokes[1..], strokeId)
  }

  /**
   * The filter removes exactly the strokes with that id: what remains has other ids,
   * every other stroke remains, and nothing changes when no stroke matches.
   */
  lemma {:induction false} WithoutStrokeSpec(strokes: seq<Stroke>, strokeId: string)
    ensures var r := WithoutStroke(strokes, strokeId);
      |r| <= |strokes| &&
      (forall s :: s in r <==> s in strokes && s.id != Some(strokeId)) &&
      ((forall k :: 0 <= k < |strokes| ==> strokes[k].id != Some(strokeId)) ==> r == strokes)
  {
    if strokes != [] {
      WithoutStrokeSpec(strokes[1..], strokeId);
      assert strokes == [strokes[0]] + strokes[1..];
      if forall k :: 0 <= k < |strokes| ==> strokes[k].id != Some(strokeId) {
        assert forall k :: 0 <= k < |strokes[1..]| ==> strokes[1..][k].id != Some(strokeId) by {
          forall k | 0 <= k < |strokes[1..]| ensures strokes[1..][k].id != Some(strokeId) {
            assert strokes[1..][k] == strokes[k + 1];
          }
        }
      }
    }
  }

  /** The filter keeps order: filtering a concatenation concatenates the filtered parts. */
  lemma {:induction false} WithoutStrokeAppend(a: seq<Stroke>, b: seq<Stroke>, strokeId: string)
    ensures WithoutStroke(a + b, strokeId) == WithoutStroke(a, strokeId) + WithoutStroke(b, strokeId)
  {
    if a != [] {
      WithoutStrokeAppend(a[1..], b, strokeId);
      assert (a + b)[1..] == a[1..] + b;
    } else {
      assert a + b == b;
    }
  }

  /**
   * The reducer of `applyAction`: the snapshot to push, or None when the action is
   * ignored (a label edit on the ball, or an unknown action type).
   */
  function Reduce(current: Snapshot, action: Action): Option<Snapshot> {
    match action
    case DrawStroke(st) => Some(current.(strokes := current.strokes + [st]))
    case MovePlayer(id, x, y) =>
      if id == BALL_ID then Some(current.(ball := current.ball.(x := x, y := y)))
      else Some(EditOwningSide(current, id, MoveTo(x, y)))
    case UpdatePlayerLabel(id, l) =>
      if id == BALL_ID then None
      else Some(EditOwningSide(current, id, Relabel(l)))
    case DeleteStroke(sid) => Some(current.(strokes := WithoutStroke(current.strokes, sid)))
    case RotatePlayer(id, r) =>
      if id == BALL_ID then Some(current.(ball := current.ball.(rotation := Some(r))))
      else Some(EditOwningSide(current, id, Rotate(r)))
    case Unrecognised(_) => None
  }

  /** Exactly a label edit on the ball and an unknown action are ignored. */
  lemma ReduceIgnored(current: Snapshot, action: Action)
    ensures Reduce(current, action).None? <==>
      (action.Unrecognised? || (action.UpdatePlayerLabel? && action.playerId == BALL_ID))
  {
  }

  /**
   * Stroke actions leave the tokens alone: drawing appends the stroke at the end,
   * deleting removes exactly the strokes with that id (and still yields a snapshot
   * when none matches).
   */
  lemma ReduceStrokes(current: Snapshot, action: Action)
    requires action.DrawStroke? || action.DeleteStroke?
    ensures var r := Reduce(current, action);
      r.Some? &&
      r.value.home == current.home && r.value.away == current.away && r.value.ball == current.ball &&
      (action.DrawStroke? ==> r.value.strokes == current.strokes + [action.stroke]) &&
      (action.DeleteStroke? ==>
        (forall s :: s in r.value.strokes <==> s in current.strokes && s.id != Some(action.strokeId)) &&
        ((forall k :: 0 <= k < |current.strokes| ==> current.strokes[k].id != Some(action.strokeId)) ==>
           r.value.strokes == current.strokes))
  {
    if action.DeleteStroke? {
      WithoutStrokeSpec(current.strokes, action.strokeId);
    }
  }

  /** The edit a token action makes on a player token. */
  function TokenEdit(action: Action): Edit
    requires action.MovePlayer? || action.UpdatePlayerLabel? || action.RotatePlayer?
  {
    match action
    case MovePlayer(_, x, y) => MoveTo(x, y)
    case UpdatePlayerLabel(_, l) => Relabel(l)
    case RotatePlayer(_, r) => Rotate(r)
  }

  /**
   * A move, label or rotation on a player id changes only the tokens with that id
   * on the side the membership probe picks (home if home has it, else away), and
   * only in the edited field; the other side, the ball, the strokes and both side
   * lengths are unchanged.
   */
  lemma ReducePlayerAction(current: Snapshot, action: Action)
    requires action.MovePlayer? || action.UpdatePlayerLabel? || action.RotatePlayer?
    requires action.playerId != BALL_ID
    ensures var r := Reduce(current, action);
      var id := action.playerId;
      r.Some? && r.value.ball == current.ball && r.value.strokes == current.strokes &&
      |r.value.home| == |current.home| && |r.value.away| == |current.away| &&
      (HasId(current.home, id) ==>
        r.value.away == current.away &&
        forall i :: 0 <= i < |current.home| ==>
          r.value.home[i] == (if current.home[i].id == id then Edited(current.home[i], TokenEdit(action)) else current.home[i])) &&
      (!HasId(current.home, id) ==>
        r.value.home == current.home &&
        forall i :: 0 <= i < |current.away| ==>
          r.value.away[i] == (if current.away[i].id == id then Edited(current.away[i], TokenEdit(action)) else current.away[i]))
  {
  }

  /** A move or rotation of the ball changes only the ball's position or rotation. */
  lemma ReduceBallAction(current: Snapshot, action: Action)
    requires action.MovePlayer? || action.RotatePlayer?
    requires action.playerId == BALL_ID
    ensures var r := Reduce(current, action);
      r.Some? && r.value.home == current.home && r.value.away == current.away &&
      r.value.strokes == current.strokes &&
      (action.MovePlayer? ==> r.value.ball == current.ball.(x := action.x, y := action.y)) &&
      (action.RotatePlayer? ==> r.value.ball == current.ball.(rotation := Some(action.rotation)))
  {
  }

  /** The snapshot a fresh or reset history starts from: two columns of eleven and the ball. */
  function InitialSnapshot(dims: Dims): Snapshot {
    Snapshot(InitialPlayers(Home, 11, dims), InitialPlayers(Away, 11, dims), InitialBall(dims), [])
  }

  /** The `useHistory` store: the snapshot list and the cursor into it. */
  class HistoryStore {
    var history: seq<Snapshot>
    var currentIndex: nat

    /** The history is never empty and the cursor always points into it. */
    ghost predicate Valid()
      reads this
    {
      |history| > 0 && currentIndex < |history|
    }

    function Current(): Snapshot
      reads this
      requires Valid()
    {
      history[currentIndex]
    }

    function CanUndo(): bool
      reads this
    {
      currentIndex > 0
    }

    function CanRedo(): bool
      reads this
    {
      currentIndex < |history| - 1
    }

    /** The store starts as the initial snapshot alone, at index 0. */
    constructor(dims: Dims)
      ensures Valid()
      ensures history == [InitialSnapshot(dims)] && currentIndex == 0
      ensures !CanUndo() && !CanRedo()
    {
      history := [InitialSnapshot(dims)];
      currentIndex := 0;
    }

    /** `pushState`: drop the redo branch, append, and move the cursor to the end. */
    method PushState(s: Snapshot)
      requires Valid()
      modifies this
      ensures Valid()
      ensures history == old(history[..currentIndex + 1]) + [s]
      ensures currentIndex == |history| - 1 && Current() == s
      ensures CanUndo() && !CanRedo()
    {
      var newHistory := history[..currentIndex + 1];
      newHistory := newHistory + [s];
      history := newHistory;
      currentIndex := |newHistory| - 1;
    }

    /** `applyAction`: push the reduced snapshot, or do nothing when the action is ignored. */
    method ApplyAction(action: Action)
      requires Valid()
      modifies this
      ensures Valid()
      ensures Reduce(old(Current()), action).None? ==>
        history == old(history) && currentIndex == old(currentIndex)
      ensures Reduce(old(Current()), action).Some? ==>
        history == old(history[..currentIndex + 1]) + [Reduce(old(Current()), action).value] &&
        currentIndex == old(currentIndex) + 1 && !CanRedo()
    {
      var next := Reduce(history[currentIndex], action);
      if next.None? {
        return;
      }
      PushState(next.value);
    }

    /** `undo`: step the cursor back, unless already at the first snapshot. */
    method Undo()
      requires Valid()
      modifies this
      ensures Valid() && history == old(history)
      ensures old(currentIndex) > 0 ==> currentIndex == old(currentIndex) - 1
      ensures old(currentIndex) == 0 ==> currentIndex == 0
    {
      if currentIndex > 0 {
        currentIndex := currentIndex - 1;
      }
    }

    /** `redo`: step the cursor forward, unless already at the last snapshot. */
    method Redo()
      requires Valid()
      modifies this
      ensures Valid() && history == old(history)
      ensures old(currentIndex) < |history| - 1 ==> currentIndex == old(currentIndex) + 1
      ensures old(currentIndex) == |history| - 1 ==> currentIndex == old(currentIndex)
    {
      if currentIndex < |history| - 1 {
        currentIndex := currentIndex + 1;
      }
    }

    /** `reset`: the initial snapshot alone, at index 0. */
    method Reset(dims: Dims)
      modifies this
      ensures Valid() && history == [InitialSnapshot(dims)] && currentIndex == 0
      ensures !CanUndo() && !CanRedo()
    {
      history := [InitialSnapshot(dims)];
      currentIndex := 0;
    }

    /** `loadState`: the given snapshot alone, at index 0. */
    method LoadState(s: Snapshot)
      modifies this
      ensures Valid() && history == [s] && currentIndex == 0 && Current() == s
      ensures !CanUndo() && !CanRedo()
    {
      history := [s];
      currentIndex := 0;
    }

    /** Undo followed by redo, from any snapshot but the first, returns to the same place. */
    method UndoThenRedo()
      requires Valid() && CanUndo()
      modifies this
      ensures Valid() && history == old(history) && currentIndex == old(currentIndex)
    {
      Undo();
      Redo();
    }

    /**
     * An action that is not ignored, followed by an undo, shows the snapshot shown
     * before; the redo branch is gone and the new snapshot can be redone.
     */
    method ApplyThenUndo(action: Action)
      requires Valid() && Reduce(Current(), action).Some?
      modifies this
      ensures Valid() && Current() == old(Current()) && currentIndex == old(currentIndex)
      ensures history == old(history[..currentIndex + 1]) + [Reduce(old(Current()), action).value]
      ensures CanRedo()
    {
      ApplyAction(action);
      Undo();
    }
  
    /**
     * Applying a list of actions and then undoing once per snapshot pushed shows
     * the snapshot shown before the first action, with the earlier history intact.
     * Ignored actions push nothing, so the count of undos is the count of pushes,
     * not of actions.
     */
    method ApplyAllThenUndo(actions: seq<Action>) returns (pushes: nat)
      requires Valid()
      modifies this
      ensures Valid() && currentIndex == old(currentIndex) && Current() == old(Current())
      ensures history[..currentIndex + 1] == old(history[..currentIndex + 1])
      ensures pushes <= |actions|
    {
      ghost var start := currentIndex;
      ghost var prefix := history[..currentIndex + 1];
      pushes := 0;
      for i := 0 to |actions|
        invariant Valid()
        invariant currentIndex == start + pushes && pushes <= i
        invariant |history| > start && history[..start + 1] == prefix
      {
        var pushed := Reduce(history[currentIndex], actions[i]).Some?;
        ApplyAction(actions[i]);
        if pushed {
          pushes := pushes + 1;
        }
      }
      var undone := 0;
      while undone < pushes
        invariant Valid()
        invariant undone <= pushes && currentIndex == start + pushes - undone
        invariant |history| > start && history[..start + 1] == prefix
      {
        Undo();
        undone := undone + 1;
      }
    }
  }
}
