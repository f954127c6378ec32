/**
 * The editor's state machine: `State`, `Action`, `initialState` and `reducer`.
 *
 * The reducer is a total function from a state and an action to a new state. It reaches
 * `JSON.parse` through `toPolygonList`, and calls three helpers whose bodies are not part of
 * this model (`isRectangle`, `hasVoid`, `fillVoid`); these four are passed in as a `Helpers`
 * record of functions, so that every property below holds for every choice of them unless it
 * says otherwise.
 */
module AppState {
  import opened Wrappers
  import opened JsonModel
  import opened Geometry
  import opened Logics

  /** The library call and the helpers the reducer uses without a body in this model. */
  datatype Helpers = Helpers(
    parse: string -> Json,
    isRectangle: PolygonList -> bool,
    hasVoid: PolygonList -> bool,
    fillVoid: PolygonList -> PolygonList)

  datatype State = State(
    aboutDialogOpen: bool,
    boxFormDialogOpen: bool,
    selectionText: string,
    polygonList: PolygonList,
    boundingBox: Option<Box>,
    validSelection: bool,
    isRectangle: bool,
    hasVoid: bool,
    copyTrigger: nat)

  datatype Action =
    | SetAboutDialogOpen(open: bool)
    | SetBoxFormDialogOpen(open: bool)
    | SetSelection(text: string)
    | SetBoundingBoxAndCloseDialog(box: Option<Box>)
    | ConvertToRectangle(offset: Option<int>)
    | FillVoid
  {
    /** The actions that replace the list by a transform of it and re-serialise it. */
    predicate IsTransform()
    {
      SetBoundingBoxAndCloseDialog? || ConvertToRectangle? || FillVoid?
    }
  }

  const InitialState := State(false, false, "", [], None, false, false, false, 0)

  /** `toPolygonList(text)`: parse the text, then read it as a selection. */
  function TextToPolygonList(h: Helpers, text: string): PolygonList
  {
    ToPolygonList(h.parse(text))
  }

  /** `polygonListEquals`: same polygons, coordinate by coordinate. */
  predicate PolygonListEquals(a: PolygonList, b: PolygonList)
  {
    |a| == |b| &&
    forall i :: 0 <= i < |a| ==> |a[i]| == |b[i]| && forall j :: 0 <= j < |a[i]| ==> a[i][j] == b[i][j]
  }

  /** Comparing coordinate by coordinate is equality of the lists. */
  lemma PolygonListEqualsIsEquality(a: PolygonList, b: PolygonList)
    ensures PolygonListEquals(a, b) <==> a == b
  {
    if PolygonListEquals(a, b) {
      forall i | 0 <= i < |a|
        ensures a[i] == b[i]
      {
        assert |a[i]| == |b[i]|;
      }
    }
  }

  /** The list a transform action produces from the current one. */
  function Transformed(h: Helpers, state: State, action: Action): PolygonList
    requires action.IsTransform()
  {
    match action
    case SetBoundingBoxAndCloseDialog(box) => ToPolygonListFromBox(box)
    case ConvertToRectangle(offset) => MakeRectangle(state.polygonList, offset)
    case FillVoid => h.fillVoid(state.polygonList)
  }

  /** The box-form flag after an action: only the bounding-box action closes it. */
  function DialogAfter(state: State, action: Action): bool
  {
    if action.SetBoundingBoxAndCloseDialog? then false else state.boxFormDialogOpen
  }

  /** The closing return of the reducer: new text and list, every derived field recomputed. */
  function Refresh(h: Helpers, state: State, dialog: bool, text: string, pl: PolygonList, trigger: nat): State
  {
    state.(boxFormDialogOpen := dialog, selectionText := text, polygonList := pl,
           boundingBox := GetBoundingBox(pl), validSelection := IsPolygonListValid(pl),
           isRectangle := h.isRectangle(pl), hasVoid := h.hasVoid(pl), copyTrigger := trigger)
  }

  /** `reducer(state, action)`. */
  function Reduce(h: Helpers, state: State, action: Action): (next: State)
    ensures next.aboutDialogOpen == (if action.SetAboutDialogOpen? then action.open else state.aboutDialogOpen)
    ensures action.SetBoundingBoxAndCloseDialog? ==> !next.boxFormDialogOpen
    ensures next.copyTrigger ==
      if action.IsTransform() && next.polygonList != state.polygonList then state.copyTrigger + 1
      else state.copyTrigger
  {
    match action
    case SetAboutDialogOpen(open) => state.(aboutDialogOpen := open)
    case SetBoxFormDialogOpen(open) => state.(boxFormDialogOpen := open)
    case SetSelection(text) =>
      var pl := TextToPolygonList(h, text);
      if PolygonListEquals(pl, state.polygonList) then state.(selectionText := text)
      else Refresh(h, state, state.boxFormDialogOpen, text, pl, state.copyTrigger)
    case _ =>
      var pl := Transformed(h, state, action);
      var dialog := DialogAfter(state, action);
      var text := ToSelection(pl);
      if text == "" then state.(boxFormDialogOpen := dialog)
      else if PolygonListEquals(pl, state.polygonList) then
        state.(boxFormDialogOpen := dialog, selectionText := text)
      else
        PolygonListEqualsIsEquality(pl, state.polygonList);
        Refresh(h, state, dialog, text, pl, state.copyTrigger + 1)
  }

  // ---------------------------------------------------------------------------
  // One step of the reducer

  /** The two dialog actions change their own flag and nothing else. */
  lemma DialogActionsAreLocal(h: Helpers, state: State, open: bool)
    ensures Reduce(h, state, SetAboutDialogOpen(open)) == state.(aboutDialogOpen := open)
    ensures Reduce(h, state, SetBoxFormDialogOpen(open)) == state.(boxFormDialogOpen := open)
  {
  }

  /**
   * `set_selection` stores the text and never moves `copyTrigger`; when the text reads as the
   * current list nothing else changes, otherwise the list and every derived field are those of
   * the text's list.
   */
  lemma SetSelectionStores(h: Helpers, state: State, text: string)
    ensures var next := Reduce(h, state, SetSelection(text));
      var pl := TextToPolygonList(h, text);
      next.selectionText == text && next.copyTrigger == state.copyTrigger &&
      next.aboutDialogOpen == state.aboutDialogOpen && next.boxFormDialogOpen == state.boxFormDialogOpen &&
      (pl == state.polygonList ==> next == state.(selectionText := text)) &&
      (pl != state.polygonList ==> next == Refresh(h, state, state.boxFormDialogOpen, text, pl, state.copyTrigger))
  {
    PolygonListEqualsIsEquality(TextToPolygonList(h, text), state.polygonList);
  }

  /**
   * A transform whose list serialises to nothing leaves the state as it was, apart from the
   * box-form flag; one that leaves the list as it was only normalises the text; any other
   * raises `copyTrigger` by one and recomputes every derived field from the new list.
   */
  lemma TransformOutcomes(h: Helpers, state: State, action: Action)
    requires action.IsTransform()
    ensures var next := Reduce(h, state, action);
      var pl := Transformed(h, state, action);
      var dialog := DialogAfter(state, action);
      (pl == [] ==> next == state.(boxFormDialogOpen := dialog)) &&
      (pl != [] && pl == state.polygonList ==>
        next == state.(boxFormDialogOpen := dialog, selectionText := ToSelection(pl))) &&
      (pl != [] && pl != state.polygonList ==>
        next == Refresh(h, state, dialog, ToSelection(pl), pl, state.copyTrigger + 1))
  {
    PolygonListEqualsIsEquality(Transformed(h, state, action), state.polygonList);
  }

  // ---------------------------------------------------------------------------
  // Invariants over any sequence of actions

  /** The derived fields are those of the current list. */
  predicate Consistent(h: Helpers, state: State)
  {
    state.boundingBox == GetBoundingBox(state.polygonList) &&
    state.validSelection == IsPolygonListValid(state.polygonList) &&
    state.isRectangle == h.isRectangle(state.polygonList) &&
    state.hasVoid == h.hasVoid(state.polygonList)
  }

  /** Every action keeps the derived fields in step with the list. */
  lemma ReducePreservesConsistent(h: Helpers, state: State, action: Action)
    requires Consistent(h, state)
    ensures Consistent(h, Reduce(h, state, action))
  {
    match action
    case SetSelection(text) =>
      SetSelectionStores(h, state, text);
    case SetAboutDialogOpen(_) =>
    case SetBoxFormDialogOpen(_) =>
    case _ =>
      TransformOutcomes(h, state, action);
  }

  /**
   * The initial state is consistent for helpers that call the empty list neither a rectangle
   * nor holed (the latter is a fixture of `hasVoid`).
   */
  lemma InitialStateConsistent(h: Helpers)
    requires !h.isRectangle([]) && !h.hasVoid([])
    ensures Consistent(h, InitialState)
  {
    assert GetBoundingBox([]) == None;
  }

  /** The state after dispatching `actions` in order. */
  function Run(h: Helpers, state: State, actions: seq<Action>): State
    decreases |actions|
  {
    if |actions| == 0 then state else Run(h, Reduce(h, state, actions[0]), actions[1..])
  }

  lemma {:induction false} RunPreservesConsistent(h: Helpers, state: State, actions: seq<Action>)
    requires Consistent(h, state)
    ensures Consistent(h, Run(h, state, actions))
    decreases |actions|
  {
    if |actions| > 0 {
      ReducePreservesConsistent(h, state, actions[0]);
      RunPreservesConsistent(h, Reduce(h, state, actions[0]), actions[1..]);
    }
  }

  /** From `initialState`, the derived fields match the list after any sequence of actions. */
  lemma ConsistentFromInitialState(h: Helpers, actions: seq<Action>)
    requires !h.isRectangle([]) && !h.hasVoid([])
    ensures Consistent(h, Run(h, InitialState, actions))
  {
    InitialStateConsistent(h);
    RunPreservesConsistent(h, InitialState, actions);
  }

  /** `copyTrigger` never decreases, and rises by at most one per action. */
  lemma {:induction false} RunCopyTrigger(h: Helpers, state: State, actions: seq<Action>)
    ensures state.copyTrigger <= Run(h, state, actions).copyTrigger <= state.copyTrigger + |actions|
    decreases |actions|
  {
    if |actions| > 0 {
      RunCopyTrigger(h, Reduce(h, state, actions[0]), actions[1..]);
    }
  }

  // ---------------------------------------------------------------------------
  // The text shown denotes the list, given the JSON library's round trip

  /**
   * What the JSON library guarantees about the texts the editor writes: the empty text does not
   * parse as a selection, and `JSON.parse` reads back what `toSelection` wrote.
   *
   * The real `JSON.parse` satisfies it: `""` throws, and `toSelection` is injective on non-empty
   * well-formed lists, since its entries are quote-free (`Logics.CoordinateTexts`) and each
   * entry reads back as its polygon (`Logics.LineRoundTrip`). A parse function that inverts
   * `toSelection` is not written out here.
   */
  ghost predicate JsonLaws(h: Helpers)
  {
    ToPolygonList(h.parse("")) == [] &&
    forall pl :: |pl| > 0 && WellFormed(pl) ==> h.parse(ToSelection(pl)) == SelectionJson(pl)
  }

  /** `fillVoid` keeps polygons with an even, non-zero number of coordinates. */
  ghost predicate FillVoidWellFormed(h: Helpers)
  {
    forall pl :: WellFormed(pl) ==> WellFormed(h.fillVoid(pl))
  }

  /** The text on screen reads back as the current list. */
  ghost predicate Denotes(h: Helpers, state: State)
  {
    WellFormed(state.polygonList) && TextToPolygonList(h, state.selectionText) == state.polygonList
  }

  /** Every transform yields polygons with an even, non-zero number of coordinates. */
  lemma TransformedWellFormed(h: Helpers, state: State, action: Action)
    requires FillVoidWellFormed(h) && WellFormed(state.polygonList) && action.IsTransform()
    ensures WellFormed(Transformed(h, state, action))
  {
    match action
    case SetBoundingBoxAndCloseDialog(box) =>
      if box.Some? {
        assert Transformed(h, state, action) == [Corners(box.value)];
      }
    case ConvertToRectangle(offset) =>
      var b := GetBoundingBox(state.polygonList);
      if b.Some? {
        assert Transformed(h, state, action) == [Corners(Grow(b.value, offset))];
      }
    case FillVoid =>
  }

  /** A transform re-serialises a list that reads back as itself. */
  lemma TransformPreservesDenotes(h: Helpers, state: State, action: Action)
    requires JsonLaws(h) && FillVoidWellFormed(h) && Denotes(h, state) && action.IsTransform()
    ensures Denotes(h, Reduce(h, state, action))
  {
    TransformOutcomes(h, state, action);
    TransformedWellFormed(h, state, action);
    var pl := Transformed(h, state, action);
    if pl != [] {
      SelectionReadsBack(h, pl);
      var next := Reduce(h, state, action);
      assert next.selectionText == ToSelection(pl) && next.polygonList == pl;
    }
  }

  /** Under the JSON laws, the text `toSelection` writes reads back as the list it was written from. */
  lemma SelectionReadsBack(h: Helpers, pl: PolygonList)
    requires JsonLaws(h) && |pl| > 0 && WellFormed(pl)
    ensures TextToPolygonList(h, ToSelection(pl)) == pl
  {
    SelectionRoundTrip(pl);
  }

  lemma ReducePreservesDenotes(h: Helpers, state: State, action: Action)
    requires JsonLaws(h) && FillVoidWellFormed(h) && Denotes(h, state)
    ensures Denotes(h, Reduce(h, state, action))
  {
    if action.SetSelection? {
      SetSelectionStores(h, state, action.text);
    } else if action.IsTransform() {
      TransformPreservesDenotes(h, state, action);
    }
  }

  lemma {:induction false} RunPreservesDenotes(h: Helpers, state: State, actions: seq<Action>)
    requires JsonLaws(h) && FillVoidWellFormed(h) && Denotes(h, state)
    ensures Denotes(h, Run(h, state, actions))
    decreases |actions|
  {
    if |actions| > 0 {
      ReducePreservesDenotes(h, state, actions[0]);
      RunPreservesDenotes(h, Reduce(h, state, actions[0]), actions[1..]);
    }
  }

  /**
   * Under the JSON laws, the text `convertToRectangleSelection` emits (offset >= 0) is itself
   * accepted, and converting that text again with no offset gives the same text.
   */
  lemma ConvertTextIdempotent(h: Helpers, json: Json, offset: Option<int>)
    requires JsonLaws(h) && ValidSelection(json)
    requires offset.None? || offset.value >= 0
    ensures RectangleSelection(json, offset).Some?
    ensures var text := RectangleSelection(json, offset).value;
      ValidSelection(h.parse(text)) && RectangleSelection(h.parse(text), None) == Some(text)
  {
    var rect := MakeRectangle(ToPolygonList(json), offset);
    ConvertIdempotent(json, offset);
    assert |rect| == 1 && |rect[0]| == 8;
    OnePolygonWellFormed(rect);
    assert h.parse(ToSelection(rect)) == SelectionJson(rect);
  }

  /** From `initialState`, the text on screen always reads back as the current list. */
  lemma DenotesFromInitialState(h: Helpers, actions: seq<Action>)
    requires JsonLaws(h) && FillVoidWellFormed(h)
    ensures Denotes(h, Run(h, InitialState, actions))
  {
    RunPreservesDenotes(h, InitialState, actions);
  }
}
