/**
 * The stroke-only drawing hook of src/hooks/useDrawing.ts: the committed strokes,
 * a redo stack (its top is the last element) and the stroke in progress.
 */
module Drawing {
  import opened Basics
  import opened BoardTypes

  class StrokeEditor {
    var strokes: seq<Stroke>
    var redoStack: seq<Stroke>
    var current: Option<Stroke>

    constructor()
      ensures strokes == [] && redoStack == [] && current.None?
    {
      strokes := [];
      redoStack := [];
      current := None;
    }

    /**
     * `startDrawing`: a one-point stroke with the given id (the source builds it
     * from the clock and a random suffix); the redo stack is emptied right away,
     * even if the stroke is later discarded.
     */
    method StartDrawing(point: Point, color: string, width: real, id: string)
      modifies this
      ensures current == Some(Stroke(Some(id), color, width, [point]))
      ensures redoStack == [] && strokes == old(strokes)
    {
      current := Some(Stroke(Some(id), color, width, [point]));
      redoStack := [];
    }

    /** `updateDrawing`: append the point to the stroke in progress; nothing when none is. */
    method UpdateDrawing(point: Point)
      modifies this
      ensures old(current).None? ==> current.None?
      ensures old(current).Some? ==> current == Some(old(current).value.(points := old(current).value.points + [point]))
      ensures strokes == old(strokes) && redoStack == old(redoStack)
    {
      if current.Some? {
        current := Some(current.value.(points := current.value.points + [point]));
      }
    }

    /** `finishDrawing`: keep the stroke only when it has more than one point; clear it either way. */
    method FinishDrawing()
      modifies this
      ensures current.None? && redoStack == old(redoStack)
      ensures old(current).Some? && |old(current).value.points| > 1 ==> strokes == old(strokes) + [old(current).value]
      ensures !(old(current).Some? && |old(current).value.points| > 1) ==> strokes == old(strokes)
    {
      if current.Some? && |current.value.points| > 1 {
        strokes := strokes + [current.value];
      }
      current := None;
    }

    /** `undo`: move the last stroke onto the top of the redo stack; nothing when there are no strokes. */
    method Undo()
      modifies this
      ensures old(strokes) == [] ==> strokes == [] && redoStack == old(redoStack)
      ensures old(strokes) != [] ==>
        strokes == old(strokes[..|strokes| - 1]) && redoStack == old(redoStack) + [old(strokes[|strokes| - 1])]
      ensures |strokes| + |redoStack| == old(|strokes| + |redoStack|)
      ensures current == old(current)
    {
      if |strokes| == 0 {
        return;
      }
      var last := strokes[|strokes| - 1];
      redoStack := redoStack + [last];
      strokes := strokes[..|strokes| - 1];
    }

    /** `redo`: move the top of the redo stack back to the end of the strokes; nothing when it is empty. */
    method Redo()
      modifies this
      ensures old(redoStack) == [] ==> redoStack == [] && strokes == old(strokes)
      ensures old(redoStack) != [] ==>
        redoStack == old(redoStack[..|redoStack| - 1]) && strokes == old(strokes) + [old(redoStack[|redoStack| - 1])]
      ensures |strokes| + |redoStack| == old(|strokes| + |redoStack|)
      ensures current == old(current)
    {
      if |redoStack| == 0 {
        return;
      }
      var last := redoStack[|redoStack| - 1];
      strokes := strokes + [last];
      redoStack := redoStack[..|redoStack| - 1];
    }

    /** Undo followed by redo restores both lists when there was a stroke to undo. */
    method UndoThenRedo()
      requires strokes != []
      modifies this
      ensures strokes == old(strokes) && redoStack == old(redoStack) && current == old(current)
    {
      Undo();
      Redo();
    }

    /** `clearStrokes`: everything empty. */
    method ClearStrokes()
      modifies this
      ensures strokes == [] && redoStack == [] && current.None?
    {
      strokes := [];
      redoStack := [];
      current := None;
    }

    /** `setStrokesFromData`: the given strokes, an empty redo stack, nothing in progress. */
    method SetStrokesFromData(newStrokes: seq<Stroke>)
      modifies this
      ensures strokes == newStrokes && redoStack == [] && current.None?
    {
      strokes := newStrokes;
      redoStack := [];
      current := None;
    }
  }
}
