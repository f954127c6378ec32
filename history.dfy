/**
 * The undo history of selection texts: `reduceSelectionTextHistory`, `canUndo` and `canRedo`.
 *
 * No body of these functions is part of this model; they are defined here from the behaviour
 * their unit tests fix, and each test is restated as a lemma below.
 */
module History {
  import opened Geometry

  /** The history is non-empty and its last entry is `text`. */
  predicate EndsWith(history: seq<string>, text: string)
  {
    |history| > 0 && history[|history| - 1] == text
  }

  /** Append `text` unless it repeats the last entry. */
  function Push(history: seq<string>, text: string): (r: seq<string>)
    ensures EndsWith(r, text)
    ensures EndsWith(history, text) ==> r == history
    ensures r == history || r == history + [text]
  {
    if EndsWith(history, text) then history else history + [text]
  }

  /** The entries up to and including `index`: later entries are the redo buffer, which an edit drops. */
  function Kept(history: seq<string>, index: nat): (r: seq<string>)
    ensures r <= history
    ensures |r| == if index + 1 <= |history| then index + 1 else |history|
  {
    if index + 1 <= |history| then history[..index + 1] else history
  }

  /**
   * `reduceSelectionTextHistory(state, text)`: drop the redo buffer, record the previous text
   * when it was a selection, then record the new text; when neither is recorded the history
   * is returned as it was.
   */
  function ReduceSelectionTextHistory(prevText: string, prevList: PolygonList, history: seq<string>,
                                      index: nat, text: string): (r: seq<string>)
    ensures EndsWith(r, text) || r == history
  {
    var kept := Kept(history, index);
    var withPrev := if IsPolygonListValid(prevList) then Push(kept, prevText) else kept;
    var withText := Push(withPrev, text);
    if withText == kept then history else withText
  }

  /** `canUndo(index)`. */
  predicate CanUndo(index: nat)
  {
    index > 0
  }

  /** `canRedo(index, history)`. */
  predicate CanRedo(index: nat, history: seq<string>)
  {
    index + 1 < |history|
  }

  /** No entry repeats the one before it. */
  predicate NoAdjacentRepeats(history: seq<string>)
  {
    forall i :: 0 < i < |history| ==> history[i - 1] != history[i]
  }

  lemma PushNoAdjacentRepeats(history: seq<string>, text: string)
    requires NoAdjacentRepeats(history)
    ensures NoAdjacentRepeats(Push(history, text))
  {
  }

  /** Recording never puts the same text twice in a row. */
  lemma ReducePreservesNoAdjacentRepeats(prevText: string, prevList: PolygonList, history: seq<string>,
                                          index: nat, text: string)
    requires NoAdjacentRepeats(history)
    ensures NoAdjacentRepeats(ReduceSelectionTextHistory(prevText, prevList, history, index, text))
  {
    var kept := Kept(history, index);
    assert NoAdjacentRepeats(kept) by {
      forall i | 0 < i < |kept|
        ensures kept[i - 1] != kept[i]
      {
        assert kept[i - 1] == history[i - 1] && kept[i] == history[i];
      }
    }
    var withPrev := if IsPolygonListValid(prevList) then Push(kept, prevText) else kept;
    PushNoAdjacentRepeats(kept, prevText);
    PushNoAdjacentRepeats(withPrev, text);
  }

  /**
   * When anything is recorded, the history keeps the entries up to `index`, ends with the new
   * text, and grows by at most two; with an invalid previous list only the new text is added.
   */
  lemma ReduceRecords(prevText: string, prevList: PolygonList, history: seq<string>, index: nat, text: string)
    ensures var r := ReduceSelectionTextHistory(prevText, prevList, history, index, text);
      r != history ==>
        Kept(history, index) <= r && EndsWith(r, text) && |r| <= |Kept(history, index)| + 2
    ensures var r := ReduceSelectionTextHistory(prevText, prevList, history, index, text);
      !IsPolygonListValid(prevList) ==> r == history || r == Kept(history, index) + [text]
  {
  }

  /**
   * With the index moved to the new last entry, a recording that leaves an earlier entry can be
   * undone, and undoing returns to the previous text when that was recorded, otherwise to the
   * last kept entry.
   */
  lemma RecordingEnablesUndo(prevText: string, prevList: PolygonList, history: seq<string>, index: nat, text: string)
    ensures var r := ReduceSelectionTextHistory(prevText, prevList, history, index, text);
      var kept := Kept(history, index);
      var recordsPrev := IsPolygonListValid(prevList) && prevText != text;
      r != history && (recordsPrev || |kept| > 0) ==>
        CanUndo(|r| - 1) && r[|r| - 2] == if recordsPrev then prevText else kept[|kept| - 1]
  {
  }

  // ---------------------------------------------------------------------------
  // The unit tests of the history functions

  lemma RecordsPreviousAndCurrent()
    ensures ReduceSelectionTextHistory("previous", [[1, 2, 3, 4]], ["history 0", "history 1"], 1, "current")
      == ["history 0", "history 1", "previous", "current"]
  {
  }

  lemma SkipsInvalidPrevious()
    ensures ReduceSelectionTextHistory("invalid", [], ["history 0", "history 1"], 1, "current")
      == ["history 0", "history 1", "current"]
  {
  }

  lemma RecordsSameTextOnce()
    ensures ReduceSelectionTextHistory("selectionText", [[1, 2, 3, 4]], ["history 0", "history 1"], 1, "selectionText")
      == ["history 0", "history 1", "selectionText"]
  {
  }

  lemma ClearsRedoBuffer()
    ensures ReduceSelectionTextHistory("previous", [[1, 2, 3, 4]], ["history 0", "history 1"], 0, "current")
      == ["history 0", "previous", "current"]
  {
  }

  lemma WorksFromEmptyHistory()
    ensures ReduceSelectionTextHistory("previous", [[1, 2, 3, 4]], [], 0, "current") == ["previous", "current"]
  {
  }

  lemma KeepsHistoryWhenNothingIsNew()
    ensures ReduceSelectionTextHistory("history 1", [[1, 2, 3, 4]], ["history 0", "history 1"], 1, "history 1")
      == ["history 0", "history 1"]
  {
  }

  lemma UndoRedoFixtures()
    ensures CanUndo(1) && !CanUndo(0)
    ensures CanRedo(1, ["history 0", "history 1", "history 2"])
    ensures !CanRedo(2, ["history 0", "history 1", "history 2"])
    ensures !CanRedo(0, [])
  {
  }
}
