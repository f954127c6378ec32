/**
 * The unit-test cases of the selection helpers and of the reducer, restated about the model,
 * and the test facts that are all that is known of `isRectangle`, `hasVoid` and `fillVoid`.
 */
module Fixtures {
  import opened Wrappers
  import opened Text
  import opened JsonModel
  import opened Geometry
  import opened Logics
  import opened AppState

  const TwoRectangles: PolygonList := [[2, 0, 0, 0, 0, 1, 2, 1, 2, 0], [5, 4, 4, 4, 4, 6, 5, 6, 5, 4]]
  const OneRectangle: PolygonList := [[2, 0, 0, 0, 0, 1, 2, 1, 2, 0]]
  const OuterAndInner: PolygonList := [[11, 8, 4, 8, 4, 2, 11, 2], [13, 1, 2, 1, 2, 9, 13, 9]]

  // ---------------------------------------------------------------------------
  // toPolygonList, toSelection, toPolygonListFromBox

  const FirstEntry: seq<string> := ["2", "0", "0", "0", "0", "1", "2", "1", "2", "0"]
  const SecondEntry: seq<string> := ["5", "4", "4", "4", "4", "6", "5", "6", "5", "4"]
  const OddEntry: seq<string> := ["5", "4", "4", "4", "4", "6", "5", "6", "5"]

  /** Two polygons whose coordinates print as `a` and `b` are read back from the entries `a` and `b`. */
  lemma ReadsPair(p: Polygon, q: Polygon, a: seq<string>, b: seq<string>)
    requires CoordinateTexts(p) == a && CoordinateTexts(q) == b
    requires |p| > 0 && |p| % 2 == 0 && |q| > 0 && |q| % 2 == 0
    ensures ToPolygonList(Document(Array([Str(Join(a)), Str(Join(b))]))) == [p, q]
  {
    var items := [Str(Join(a)), Str(Join(b))];
    assert Line(p) == Join(a) by {
      assert seq(|p|, i requires 0 <= i < |p| => IntToString(p[i])) == a;
    }
    assert Line(q) == Join(b) by {
      assert seq(|q|, i requires 0 <= i < |q| => IntToString(q[i])) == b;
    }
    var entries := SelectionJson([p, q]).polygonList.items;
    assert |entries| == 2 && entries[0] == items[0] && entries[1] == items[1];
    assert entries == items;
    SelectionRoundTrip([p, q]);
  }

  /** The two entries `"2,0,0,0,0,1,2,1,2,0"` and `"5,4,4,4,4,6,5,6,5,4"` read as the two rectangles. */
  lemma ToPolygonListAccepts()
    ensures ToPolygonList(Document(Array([Str(Join(FirstEntry)), Str(Join(SecondEntry))]))) == TwoRectangles
  {
    assert CoordinateTexts(TwoRectangles[0]) == FirstEntry;
    assert CoordinateTexts(TwoRectangles[1]) == SecondEntry;
    ReadsPair(TwoRectangles[0], TwoRectangles[1], FirstEntry, SecondEntry);
  }

  /**
   * An entry with a dangling ninth coordinate, `"5,4,4,4,4,6,5,6,5"`, rejects the whole selection,
   * whatever the entry before it.
   */
  lemma ToPolygonListRejectsOddEntry(first: string)
    ensures ToPolygonList(Document(Array([Str(first), Str(Join(OddEntry))]))) == []
  {
    OddEntryRejected([Str(first), Str(Join(OddEntry))], 1, OddEntry);
  }

  /** A text that does not parse and an empty array both give the empty list. */
  lemma ToPolygonListRejects()
    ensures ToPolygonList(NotJson) == []
    ensures ToPolygonList(Document(Array([]))) == []
  {
  }

  lemma ToSelectionOfNothing()
    ensures ToSelection([]) == ""
  {
  }

  lemma ToPolygonListFromBoxFixtures()
    ensures ToPolygonListFromBox(Some(Box(1, 2, 4, 8))) == [[4, 2, 1, 2, 1, 8, 4, 8]]
    ensures ToPolygonListFromBox(None) == []
  {
  }

  // ---------------------------------------------------------------------------
  // getBoundingBox, isPolygonListValid, makeRectangle

  lemma GetBoundingBoxFixtures()
    ensures GetBoundingBox(TwoRectangles) == Some(Box(0, 0, 5, 6))
    ensures GetBoundingBox(OuterAndInner) == Some(Box(2, 1, 13, 9))
    ensures GetBoundingBox([[]]) == None
  {
  }

  lemma IsPolygonListValidFixtures()
    ensures IsPolygonListValid(TwoRectangles) && IsPolygonListValid(OneRectangle)
    ensures !IsPolygonListValid([])
  {
  }

  lemma MakeRectangleOfQuadrilateral()
    ensures MakeRectangle([[5, 0, 1, 6, 8, 10, 5, 0]], None) == [[8, 0, 1, 0, 1, 10, 8, 10]]
  {
    var p := [5, 0, 1, 6, 8, 10, 5, 0];
    assert ScanPolygon(None, p, 2) == Some(Box(1, 0, 5, 6));
    assert ScanPolygon(None, p, 4) == Some(Box(1, 0, 8, 10));
  }

  lemma MakeRectangleOfTwoRectangles()
    ensures MakeRectangle(TwoRectangles, None) == [[5, 0, 0, 0, 0, 6, 5, 6]]
  {
  }

  lemma MakeRectangleWithOffset()
    ensures MakeRectangle(TwoRectangles, Some(1)) == [[6, -1, -1, -1, -1, 7, 6, 7]]
  {
  }

  // ---------------------------------------------------------------------------
  // isRectangle, hasVoid, fillVoid: known only through their tests

  const Triangle: PolygonList := [[0, 0, 0, 4, 5, 0]]
  const TriangleBox: PolygonList := [[5, 0, 0, 0, 0, 4, 5, 4]]
  const SquareAndTriangle: PolygonList := [[1, 2, 2, 2, 2, 3, 1, 3, 1, 2], [0, 0, 0, 4, 5, 0]]

  /** What the helper tests and the reducer tests say of the three helpers. */
  predicate HelperFixtures(h: Helpers)
  {
    h.isRectangle(OneRectangle) && !h.isRectangle(TwoRectangles) &&
    !h.isRectangle([[2, 0, 0, 0, 0, 1, 4, 1, 2, 0]]) &&
    h.hasVoid(OuterAndInner) && !h.hasVoid(TwoRectangles) && !h.hasVoid(OneRectangle) && !h.hasVoid([]) &&
    h.fillVoid(OuterAndInner) == [[13, 1, 2, 1, 2, 9, 13, 9]] &&
    h.fillVoid(TwoRectangles) == TwoRectangles && h.fillVoid(OneRectangle) == OneRectangle &&
    h.fillVoid([]) == [] &&
    h.isRectangle(TriangleBox) && !h.isRectangle(Triangle) &&
    h.fillVoid(SquareAndTriangle) == Triangle
  }

  /** Helpers that behave as the tests require, so the fixture facts are consistent. */
  function FixtureHelpers(): (h: Helpers)
    ensures HelperFixtures(h)
  {
    Helpers(
      _ => NotJson,
      pl => pl == OneRectangle || pl == TriangleBox,
      pl => pl == OuterAndInner,
      pl => if pl == OuterAndInner then [[13, 1, 2, 1, 2, 9, 13, 9]]
            else if pl == SquareAndTriangle then Triangle
            else pl)
  }

  // ---------------------------------------------------------------------------
  // The reducer tests, from a state holding a triangle

  const TriangleState := State(false, false, "{\"polygonList\": [\"0,0,0,4,5,0\"]}", Triangle,
                               Some(Box(0, 0, 5, 4)), true, false, false, 0)

  lemma DialogFixtures(h: Helpers)
    ensures Reduce(h, TriangleState, SetAboutDialogOpen(true)).aboutDialogOpen
    ensures Reduce(h, TriangleState, SetBoxFormDialogOpen(true)).boxFormDialogOpen
  {
  }

  lemma SetSelectionFixture(h: Helpers)
    ensures var text := "{\"polygonList\": [\"5,0,0,0,0,4,5,4\"]}";
      Reduce(h, TriangleState, SetSelection(text)).selectionText == text
  {
  }

  /** The box [10, 20, 650, 500] becomes its corner polygon, and the form closes. */
  lemma SetBoundingBoxFixture(h: Helpers)
    ensures var next := Reduce(h, TriangleState.(boxFormDialogOpen := true),
                               SetBoundingBoxAndCloseDialog(Some(Box(10, 20, 650, 500))));
      next.polygonList == [[650, 20, 10, 20, 10, 500, 650, 500]] && !next.boxFormDialogOpen &&
      next.selectionText == ToSelection(next.polygonList) && next.copyTrigger == 1
  {
    TransformOutcomes(h, TriangleState.(boxFormDialogOpen := true),
                      SetBoundingBoxAndCloseDialog(Some(Box(10, 20, 650, 500))));
  }

  lemma ConvertToRectangleFixture(h: Helpers)
    requires HelperFixtures(h)
    ensures var next := Reduce(h, TriangleState, ConvertToRectangle(None));
      next.polygonList == TriangleBox && next.selectionText == ToSelection(TriangleBox) &&
      next.boundingBox == Some(Box(0, 0, 5, 4)) && next.isRectangle
  {
    assert MakeRectangle(Triangle, None) == TriangleBox;
    TransformOutcomes(h, TriangleState, ConvertToRectangle(None));
  }

  lemma FillVoidFixture(h: Helpers)
    requires HelperFixtures(h)
    ensures var next := Reduce(h, TriangleState.(polygonList := SquareAndTriangle), FillVoid);
      next.polygonList == Triangle && next.selectionText == ToSelection(Triangle) &&
      next.boundingBox == Some(Box(0, 0, 5, 4)) && !next.isRectangle
  {
    TransformOutcomes(h, TriangleState.(polygonList := SquareAndTriangle), FillVoid);
  }
}
