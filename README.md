# Paint.NET selection-text editor, modelled in Dafny

Paint.NET copies a selection to the clipboard as a JSON text such as
`{"polygonList": ["2,0,0,0,0,1,2,1,2,0", ...]}`. Each entry is one closed polygon, written
as comma-separated integer coordinates `x0,y0,x1,y1,...`. The editor checks such a text
(`isValidSelection`), turns it into its bounding rectangle (`convertToRectangleSelection`),
and keeps its state in a reducer. The reducer's state holds the text, the parsed polygon
list and the fields derived from that list. It has six actions: two dialog flags, a new
text, a box typed into a form, convert-to-rectangle, and fill-void.

The model has these modules:

- `Wrappers`: `Option`.
- `Text`: the string primitives. These are `split(",")`, `join(",")`, the global `parseInt`
  (leading white space, sign, `0x` prefix, longest digit run, `NaN` as `None`), and an
  integer's decimal text. Also the round trips between them.
- `JsonModel`: the outcome of `JSON.parse`, as an input datatype. It records whether the text
  parsed, whether the `polygonList` member is missing, a non-array or an array, and whether
  each element is a string. It also holds `JSON.stringify(obj, undefined, 2)` for the one
  object shape the code writes.
- `Geometry`: polygons, boxes, the min/max scan (`getBoundingBox`), the corner polygon
  (`toPolygonListFromBox`), `makeRectangle`, and the proof that the scan finds the tightest box.
- `Logics`: `isValidSelection` and `convertToRectangleSelection`. Each is a method with the
  source's loops and early returns, proved equal to a specification function. The module also
  holds `toPolygonList` and `toSelection`, and the round-trip and idempotence lemmas.
- `AppState`: `State`, `Action`, `initialState` and `reducer` as a total function. Lemmas cover
  each branch, two invariants over any action sequence, and the `copyTrigger` counter.
  `JSON.parse` and the bodiless helpers `isRectangle`, `hasVoid` and `fillVoid` are passed in
  as a `Helpers` record of functions.
- `History`: `reduceSelectionTextHistory`, `canUndo` and `canRedo`. Their bodies are not part
  of this model, so they are defined from their unit tests, and each test is a lemma.
- `Fixtures`: the unit tests of the helpers and of the reducer, stated about the model. A
  `Helpers` value is exhibited that meets every test fact about the three bodiless helpers.

The imported helpers are `toPolygonList`, `toSelection`, `getBoundingBox`, `makeRectangle`,
`toPolygonListFromBox`, `isPolygonListValid` and `polygonListEquals`.
`src/appState.ts:1-15` imports them from `src/logics.ts`, but that file holds neither them
nor `isRectangle`, `hasVoid` and `fillVoid`. They are defined here in two ways:

- from the code of `src/logics.ts` they mirror: `toPolygonList` accepts what
  `isValidSelection` accepts; `getBoundingBox`, `makeRectangle` and `toPolygonListFromBox` are
  the scan, offset and corner order of `convertToRectangleSelection`.
- from their tests in `src/logics.test.ts`.

## Model

| member | source | states |
|---|---|---|
| Text.Split | src/logics.ts:12 | `split(",")` always yields at least one token, and a comma-free text is one token |
| Text.SplitJoin | src/logics.ts:12 | splitting the comma-join (`Text.Join`, `join(",")` at src/logics.ts:75) of comma-free tokens gives the tokens back |
| Text.SplitPrefix | src/logics.ts:12 | a comma-free prefix is glued onto the first token of the split of the rest |
| Text.DigitRunIsLongest | src/logics.ts:17 | the digit run parseInt reads is all digits and is followed by a non-digit or the end |
| Text.TrimStart | src/logics.ts:17 | skipping leading white space never lengthens the text |
| Text.TrimStartDropsSpace | src/logics.ts:17 | parseInt's first step leaves a suffix of the token: every dropped character is JS white space, and the rest does not start with white space |
| Text.NatToString | src/logics.ts:75 | a natural's decimal text is non-empty, all digits, and has the natural as its value |
| Text.IntToString | src/logics.ts:75 | an integer's decimal text holds no comma |
| Text.ParseIntToString | src/logics.ts:17 | `parseInt` (`Text.ParseInt`) reads every integer's decimal text back as that integer |
| Text.ParseIntSkipsSpace | src/logics.ts:17 | white space in front of a token does not change what `parseInt` reads |
| Text.ParseIntNaN | src/logics.ts:17-18 | an empty token, or one starting with a character that is not white space, a sign or a digit, reads as `NaN` |
| Text.DigitRunAll | src/logics.ts:17 | on a text of decimal digits, parseInt's digit run is the whole text |
| JsonModel.EscapePlain | src/logics.ts:77 | JSON.stringify writes a string with no quote, backslash or control character unchanged |
| JsonModel.StringifySelection | src/logics.ts:74-77 | the stringified selection object is non-empty and starts with `{` |
| Geometry.ScanPolygon | src/logics.ts:47-63 | the scan over a polygon's vertices is undefined only when it started undefined and saw no vertex |
| Geometry.ScanPolygonContains | src/logics.ts:47-63 | the scanned box contains the box it started from and every vertex seen, and stays ordered |
| Geometry.ScanPolygonAttains | src/logics.ts:47-63 | each bound of the scanned box is a bound of the start box or a coordinate of a vertex seen |
| Geometry.ScanListDefined | src/logics.ts:45-64 | the scan over whole polygons is undefined exactly when none of them has a vertex |
| Geometry.ScanListContains | src/logics.ts:45-64 | the box of the polygons scanned so far is ordered and contains each of their vertices |
| Geometry.GetBoundingBox | src/logics.ts:40-64 | `getBoundingBox`, when defined, is an ordered box (its tightness is `Geometry.BoundingBoxIsTight`) |
| Geometry.ToPolygonListFromBox | src/logics.test.ts:48-59 | `toPolygonListFromBox` gives `[]` for no box, and for an ordered box a list whose bounding box is that box |
| Geometry.MakeRectangle | src/logics.ts:66-73 | `makeRectangle` yields at most one polygon, of eight coordinates |
| Geometry.ValidListHasBox | src/appState.ts:112-113 | for a parsed list, `isPolygonListValid` holds exactly when `getBoundingBox` is defined |
| Geometry.ScanListAttains | src/logics.ts:45-64 | each bound of the box of the polygons scanned so far is a coordinate of one of their vertices |
| Geometry.BoundingBoxIsTight | src/logics.ts:40-64 | `getBoundingBox` is undefined exactly when no polygon has a vertex; otherwise it is ordered, holds every vertex, and each bound is attained by a vertex (x bounds at even positions, y bounds at odd) |
| Geometry.GrowOrdered | src/logics.ts:66-71 | growing an ordered box by a non-negative offset keeps it ordered |
| Geometry.CornersBoundingBox | src/logics.ts:73 | the corner polygon `x_max,y_min,x_min,y_min,x_min,y_max,x_max,y_max` of an ordered box has that box as its bounding box |
| Geometry.MakeRectangleIdempotent | src/logics.ts:66-73 | `makeRectangle` is empty exactly when there is no vertex, and fitting its result again without an offset gives the same rectangle (offset >= 0) |
| Logics.LineCoords | src/logics.ts:11-21 | an accepted entry has an even, non-zero number of coordinates, namely the values parseInt reads from its tokens |
| Logics.ToPolygonList | src/logics.ts:3-28 | `toPolygonList` is non-empty exactly when the selection is accepted, and every polygon has an even, non-zero coordinate count |
| Logics.CoordinateTexts | src/logics.ts:75 | a polygon's coordinate texts are one per coordinate and hold no comma |
| Logics.ToSelection | src/logics.test.ts:76-79 | `toSelection` is `""` exactly for the empty list |
| Logics.IsValidSelection | src/logics.ts:3-28 | the loop over entries and tokens returns true exactly when the text parses, `polygonList` is a non-empty array, and every entry is a string with an even number of tokens that parseInt all read |
| Logics.ParseCoordinate | src/logics.ts:48 | parseInt on token `i` of an accepted entry yields its `i`-th coordinate |
| Logics.VisitVertex | src/logics.ts:48-62 | the four guarded updates turn the running bounds of a box into those of the box extended by the vertex, starting from undefined |
| Logics.ScanEntry | src/logics.ts:46-63 | the inner loop, two tokens at a time, turns the running bounds into those of the scan over every vertex of the entry |
| Logics.ScanEntries | src/logics.ts:40-64 | the outer loop over entries leaves the four running variables equal to the bounds of `getBoundingBox` of the parsed list |
| Logics.EmitRectangle | src/logics.ts:66-77 | after the offset step, the emitted text is `toSelection` of the one corner polygon of the grown box |
| Logics.ToPolygonListDenotes | src/logics.ts:11-21 | each accepted entry's tokens parse to the matching polygon of `toPolygonList`, whose first polygon has a vertex |
| Logics.RectangleSelectionOfBox | src/logics.ts:66-77 | the specified conversion of an accepted selection is the selection of the corners of its grown bounding box |
| Logics.ConvertToRectangleSelection | src/logics.ts:30-78 | the conversion is `undefined` exactly when the selection is rejected, and otherwise the single grown corner polygon of the list's bounding box, stringified |
| Logics.EmptyEntryRejected | src/logics.ts:11-15 | an empty entry `""` splits into one token, so the odd-count test rejects the selection (the zero-length test cannot fire) |
| Logics.OddEntryRejected | src/logics.ts:12-15 | an entry of an odd number of comma-free tokens rejects the whole selection |
| Logics.LineRoundTrip | src/logics.ts:11-21 | a polygon's comma-joined text is an accepted entry and parses back to the polygon |
| Logics.SelectionRoundTrip | src/logics.test.ts:61-74 | the object `toSelection` stringifies is accepted and `toPolygonList` reads it back as the same list |
| Logics.RectangleSelectionShape | src/logics.ts:66-77 | an accepted selection has a bounding box, and its conversion is the stringified one-entry list of the grown box's corners |
| Logics.ConvertIdempotent | src/logics.ts:30-78 | the object the conversion stringifies is accepted, and converting that object again with no offset gives the same text (offset >= 0) |
| AppState.PolygonListEqualsIsEquality | src/appState.ts:64 | `polygonListEquals` (`AppState.PolygonListEquals`), comparing coordinate by coordinate, is equality of the lists |
| AppState.Reduce | src/appState.ts:49-118 | only `set_about_dialog_open` moves the about flag; `set_bounding_box_and_close_dialog` always closes the box form; `copyTrigger` rises by one exactly when a transform changes the list |
| AppState.DialogActionsAreLocal | src/appState.ts:55-59 | the two dialog actions change their own flag and nothing else |
| AppState.SetSelectionStores | src/appState.ts:61-69 | `set_selection` stores the text and never moves `copyTrigger` or the dialog flags; if the parsed list is the current one nothing else changes, otherwise list and derived fields are recomputed from it |
| AppState.TransformOutcomes | src/appState.ts:71-117 | a transform whose list serialises to `""` changes only the box-form flag; one that keeps the list changes only that flag and the text; any other sets the new list and text, recomputes every derived field and adds one to `copyTrigger` |
| AppState.ReducePreservesConsistent | src/appState.ts:102-117 | every action keeps `boundingBox`, `validSelection`, `isRectangle` and `hasVoid` equal to the helpers applied to the list |
| AppState.InitialStateConsistent | src/appState.ts:29-39 | the initial state's derived fields are those of the empty list, given `isRectangle([])` and `hasVoid([])` are false |
| AppState.RunPreservesConsistent | src/appState.ts:49-118 | the derived fields stay consistent over any sequence of actions |
| AppState.ConsistentFromInitialState | src/appState.ts:29-39 | from `initialState`, the derived fields match the list after any sequence of actions |
| AppState.RunCopyTrigger | src/appState.ts:86-100 | `copyTrigger` never decreases and rises by at most one per action |
| AppState.TransformedWellFormed | src/appState.ts:71-84 | every transform yields polygons with an even, non-zero coordinate count, given `fillVoid` does |
| AppState.SelectionReadsBack | src/appState.ts:88 | given JSON's round trip, the text `toSelection` writes reads back as its list |
| AppState.TransformPreservesDenotes | src/appState.ts:86-117 | after a transform, the text shown still reads back as the current list |
| AppState.ReducePreservesDenotes | src/appState.ts:49-118 | every action keeps the text shown reading back as the current list |
| AppState.RunPreservesDenotes | src/appState.ts:49-118 | any sequence of actions keeps the text reading back as the list |
| AppState.ConvertTextIdempotent | src/logics.ts:30-78 | under the JSON laws, the emitted text parses to an accepted selection, and converting it again with no offset gives the same text (offset >= 0) |
| AppState.DenotesFromInitialState | src/appState.ts:29-39 | from `initialState`, the text always reads back as the current list |
| History.Push | src/appState.test.ts:37-47 | appending a text skips an immediate repeat, and the result ends with the text |
| History.Kept | src/appState.test.ts:49-59 | the kept history is the prefix up to and including the index |
| History.ReduceSelectionTextHistory | src/appState.test.ts:12-84 | the new history ends with the new text, or is the old history unchanged |
| History.PushNoAdjacentRepeats | src/appState.test.ts:37-47 | appending never makes two equal adjacent entries |
| History.ReducePreservesNoAdjacentRepeats | src/appState.test.ts:12-84 | recording never puts the same text twice in a row |
| History.ReduceRecords | src/appState.test.ts:12-84 | when anything is recorded, the entries up to the index are kept, the new text is last, and at most two entries were added; with an invalid previous list only the new text is added |
| History.RecordingEnablesUndo | src/appState.test.ts:86-122 | after a recording that leaves an earlier entry, `canUndo` (`History.CanUndo`) holds at the new last index, and undoing returns to the previous text when it was recorded, otherwise to the last kept entry (`History.CanRedo` is pinned by `History.UndoRedoFixtures`) |
| History.RecordsPreviousAndCurrent | src/appState.test.ts:13-23 | the previous and current texts are appended |
| History.SkipsInvalidPrevious | src/appState.test.ts:25-35 | the previous text is skipped when its list is invalid |
| History.RecordsSameTextOnce | src/appState.test.ts:37-47 | equal previous and current texts are recorded once |
| History.ClearsRedoBuffer | src/appState.test.ts:49-59 | entries after the index are dropped |
| History.WorksFromEmptyHistory | src/appState.test.ts:61-71 | recording into an empty history |
| History.KeepsHistoryWhenNothingIsNew | src/appState.test.ts:73-83 | the history is returned as it was when the text is its last entry |
| History.UndoRedoFixtures | src/appState.test.ts:86-122 | `canUndo` from index 1 but not 0; `canRedo` from history 1 of 3 but not from the last entry or an empty history |
| Fixtures.ReadsPair | src/logics.test.ts:17-27 | two entries written from polygons' coordinate texts read back as those polygons |
| Fixtures.ToPolygonListAccepts | src/logics.test.ts:17-27 | the entries `2,0,0,0,0,1,2,1,2,0` and `5,4,4,4,4,6,5,6,5,4` read as the two rectangles |
| Fixtures.ToPolygonListRejectsOddEntry | src/logics.test.ts:35-41 | an entry with nine coordinates makes the list empty |
| Fixtures.ToPolygonListRejects | src/logics.test.ts:29-45 | a text that is not JSON, and an empty array, give the empty list |
| Fixtures.ToSelectionOfNothing | src/logics.test.ts:76-79 | the empty list serialises to `""` |
| Fixtures.ToPolygonListFromBoxFixtures | src/logics.test.ts:48-59 | box `[1,2,4,8]` gives `[[4,2,1,2,1,8,4,8]]`, no box gives `[]` |
| Fixtures.GetBoundingBoxFixtures | src/logics.test.ts:82-105 | the boxes of the two test lists, and none for `[[]]` |
| Fixtures.IsPolygonListValidFixtures | src/logics.test.ts:107-125 | lists of one and two polygons are valid, the empty list is not |
| Fixtures.MakeRectangleOfQuadrilateral | src/logics.test.ts:160-164 | `[[5,0,1,6,8,10,5,0]]` becomes `[[8,0,1,0,1,10,8,10]]` |
| Fixtures.MakeRectangleOfTwoRectangles | src/logics.test.ts:166-173 | the two rectangles become `[[5,0,0,0,0,6,5,6]]` |
| Fixtures.MakeRectangleWithOffset | src/logics.test.ts:175-182 | with offset 1 they become `[[6,-1,-1,-1,-1,7,6,7]]` |
| Fixtures.FixtureHelpers | src/logics.test.ts:137-240 | some choice of `isRectangle`, `hasVoid` and `fillVoid` meets every test fact about them |
| Fixtures.DialogFixtures | src/appState.test.ts:140-156 | the dialog actions open their dialogs |
| Fixtures.SetSelectionFixture | src/appState.test.ts:158-166 | `set_selection` stores the new text |
| Fixtures.SetBoundingBoxFixture | src/appState.test.ts:168-185 | box `[10,20,650,500]` becomes the polygon `650,20,10,20,10,500,650,500` and its text; the form closes; `copyTrigger` goes from 0 to 1 from the model's starting state, since the test state has no `copyTrigger` |
| Fixtures.ConvertToRectangleFixture | src/appState.test.ts:187-206 | the triangle becomes its rectangle `5,0,0,0,0,4,5,4` with that text and box `[0,0,5,4]`, and it is a rectangle |
| Fixtures.FillVoidFixture | src/appState.test.ts:208-230 | filling leaves the triangle, with its text and box, and it is not a rectangle |

## Left out

- `JSON.parse` is not a parser here. Its outcome is the input datatype `JsonModel.Json`, and
  the reducer reaches it through `Helpers.parse`.
- `JsonLaws` and `FillVoidWellFormed` are hypotheses about the library and about `fillVoid`,
  not proved facts. `JsonLaws` says that `""` is not a selection and that parsing what
  `toSelection` wrote gives back its object. `JsonLaws` is required by
  `AppState.SelectionReadsBack`, `AppState.TransformPreservesDenotes`,
  `AppState.ReducePreservesDenotes`, `AppState.RunPreservesDenotes`,
  `AppState.DenotesFromInitialState` and `AppState.ConvertTextIdempotent`;
  `FillVoidWellFormed` by `AppState.TransformedWellFormed`, `AppState.TransformPreservesDenotes`,
  `AppState.ReducePreservesDenotes`, `AppState.RunPreservesDenotes` and
  `AppState.DenotesFromInitialState`.
- `JSON.stringify` is written out only for `{ polygonList: [strings] }` with an indent of 2.
  Its escaping of `"`, `\` and control characters is modelled, and other characters are
  written unchanged, as the library does. Lone surrogates, which it writes as `\uXXXX`, are
  outside the model: a Dafny `char` cannot hold one.
- Coordinates and offsets are unbounded integers. JavaScript doubles, precision loss beyond
  2^53, fractional offsets, and the exponent form of `String(n)` from 1e21 on are left out.
  In the program, `Logics.SelectionRoundTrip` and `Logics.ConvertIdempotent` therefore fail for
  such coordinates: `1000000000000000000000` is written back as `1e+21`, which `parseInt`
  reads as 1.
- Text.ParseInt: models the whole of `parseInt` with no radix, including white space, sign,
  `0x` and trailing text. `-0` reads as 0 and there are no `Infinity` or fractions.
- `isRectangle`, `hasVoid` and `fillVoid` have no body here. They are fields of `Helpers`.
  The only facts about them are the test facts in `Fixtures.HelperFixtures`, the hypotheses
  above, and the hypothesis `!isRectangle([])` of `AppState.InitialStateConsistent` and
  `AppState.ConsistentFromInitialState`, which no test fixes.
- `boxEquals` and the bounding-box memoisation at `src/appState.ts:102-105` are left out. That
  value is overwritten at line 112, so it has no effect on the returned state.
- `isBoxValid` has unit tests (`src/logics.test.ts:127-135`), but the reducer does not use it.
- The undo and redo actions and the history fields exercised at `src/appState.test.ts:232-280`,
  and the history assertions at `src/appState.test.ts:182-184`, `203-205` and `227-229`, are
  not in the `Action` and `State` types of `src/appState.ts`. They are left out; only the
  three history functions are modelled.
- History.ReduceSelectionTextHistory: an `undefined` previous list is modelled as the empty
  list. When nothing new is recorded, the history is returned as it was, redo buffer
  included; the tests only fix the case where the index is the last entry.
- Geometry.MakeRectangle: returns `[]` for a list with no vertex, which no test pins down.
- Logics.ConvertIdempotent: proved for offsets >= 0 only. A negative offset larger than half
  the box turns the box inside out, and converting that again does not give it back.
- Geometry.GetBoundingBox: a dangling last coordinate of an odd-length polygon is ignored.
  Accepted selections never have one.
- The UI files (`src/App.tsx`, `src/BoxFormDialog.tsx`, `src/PreviewCanvas.tsx`,
  `src/AboutDialog.tsx`) and clipboard I/O are not part of this model.
