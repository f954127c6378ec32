/**
 * The selection-text logic: the validator `isValidSelection` and the rectangle converter
 * `convertToRectangleSelection`, each a method with its loops, proved against the functions
 * below; and the text helpers the reducer uses, `toPolygonList` and `toSelection`.
 *
 * A selection text is seen through its `JSON.parse` outcome (`Json`).
 */
module Logics {
  import opened Wrappers
  import opened Text
  import opened JsonModel
  import opened Geometry

  /** parseInt reads every token (none gives NaN). */
  predicate Readable(tokens: seq<string>)
  {
    forall j {:trigger ParseInt(tokens[j])} :: 0 <= j < |tokens| ==> ParseInt(tokens[j]).Some?
  }

  /** `p` holds the values parseInt reads from `tokens`, in order. */
  predicate Coordinates(tokens: seq<string>, p: Polygon)
  {
    |tokens| == |p| &&
    forall j {:trigger ParseInt(tokens[j])} :: 0 <= j < |tokens| ==> ParseInt(tokens[j]) == Some(p[j])
  }

  /** One `polygonList` entry passes: an even number of tokens, each of which parseInt reads. */
  predicate ValidLine(line: string)
  {
    var tokens := Split(line);
    |tokens| % 2 == 0 && Readable(tokens)
  }

  /** What `isValidSelection` accepts. */
  predicate ValidSelection(json: Json)
  {
    json.Document? && json.polygonList.Array? && |json.polygonList.items| > 0 &&
    forall k :: 0 <= k < |json.polygonList.items| ==>
      json.polygonList.items[k].Str? && ValidLine(json.polygonList.items[k].s)
  }

  /** The coordinates of an accepted entry: an even, non-zero count of them. */
  function LineCoords(line: string): (p: Polygon)
    requires ValidLine(line)
    ensures |p| > 0 && |p| % 2 == 0
    ensures Coordinates(Split(line), p)
  {
    var tokens := Split(line);
    seq(|tokens|, j requires 0 <= j < |tokens| => ParseInt(tokens[j]).value)
  }

  /**
   * `toPolygonList`: the coordinates of every entry of an accepted selection, and the empty
   * list on any rejection. The list is non-empty exactly when the selection is accepted.
   */
  function ToPolygonList(json: Json): (pl: PolygonList)
    ensures |pl| > 0 <==> ValidSelection(json)
    ensures WellFormed(pl)
  {
    if ValidSelection(json) then
      var items := json.polygonList.items;
      seq(|items|, k requires 0 <= k < |items| => LineCoords(items[k].s))
    else []
  }

  /** The decimal texts of a polygon's coordinates. */
  function CoordinateTexts(p: Polygon): (tokens: seq<string>)
    ensures |tokens| == |p|
    ensures forall i :: 0 <= i < |tokens| ==> ',' !in tokens[i]
  {
    seq(|p|, i requires 0 <= i < |p| => IntToString(p[i]))
  }

  /**
   * `polygon.join(",")`: the join of `CoordinateTexts(p)`. The comprehension is spelled out here
   * so that the verifier does not evaluate the texts of constant polygons eagerly.
   */
  function Line(p: Polygon): string
  {
    Join(seq(|p|, i requires 0 <= i < |p| => IntToString(p[i])))
  }

  function Lines(pl: PolygonList): seq<string>
  {
    seq(|pl|, k requires 0 <= k < |pl| => Line(pl[k]))
  }

  /** The value `{ polygonList: [...] }` that `toSelection` stringifies. */
  function SelectionJson(pl: PolygonList): Json
  {
    Document(Array(seq(|pl|, k requires 0 <= k < |pl| => Str(Line(pl[k])))))
  }

  /** `toSelection`: `""` for no selection, else the pretty-printed JSON text. */
  function ToSelection(pl: PolygonList): (text: string)
    ensures text == "" <==> pl == []
  {
    if |pl| == 0 then "" else StringifySelection(Lines(pl))
  }

  /** The result `convertToRectangleSelection` promises. */
  function RectangleSelection(json: Json, offset: Option<int>): Option<string>
  {
    if ValidSelection(json) then Some(ToSelection(MakeRectangle(ToPolygonList(json), offset)))
    else None
  }

  // ---------------------------------------------------------------------------
  // The two operations of the module, with their loops

  /**
   * `isValidSelection`: walk the entries and their tokens, returning false at the first entry
   * that is not a string (its `split` throws), has an odd token count, or has a token parseInt
   * cannot read.
   */
  method IsValidSelection(json: Json) returns (valid: bool)
    ensures valid == ValidSelection(json)
    ensures valid ==> json.Document? && json.polygonList.Array? && |json.polygonList.items| > 0
  {
    if !json.Document? {
      return false;
    }
    match json.polygonList
    case Missing =>
      return false;
    case NotArray =>
      return false;
    case Array(items) =>
      if |items| == 0 {
        return false;
      }
      var k := 0;
      while k < |items|
        invariant 0 <= k <= |items|
        invariant forall m :: 0 <= m < k ==> items[m].Str? && ValidLine(items[m].s)
      {
        if !items[k].Str? {
          return false;
        }
        var tokens := Split(items[k].s);
        if |tokens| == 0 || |tokens| % 2 == 1 {
          assert !ValidLine(items[k].s);
          return false;
        }
        var i := 0;
        while i < |tokens|
          invariant 0 <= i <= |tokens|
          invariant forall m :: 0 <= m < i ==> ParseInt(tokens[m]).Some?
        {
          if ParseInt(tokens[i]).None? {
            return false;
          }
          i := i + 1;
        }
        k := k + 1;
      }
      return true;
  }

  /** A running variable of the scan: `undefined` until the first vertex, then that bound. */
  function RunningBound(b: Option<Box>, side: Side): Option<int>
  {
    if b.None? then None else Some(Bound(b.value, side))
  }

  /** `parseInt(array[i])` on a token of an accepted entry: the `i`-th coordinate. */
  method ParseCoordinate(tokens: seq<string>, ghost p: Polygon, i: int) returns (x: int)
    requires Coordinates(tokens, p) && 0 <= i < |tokens|
    ensures x == p[i]
  {
    x := ParseInt(tokens[i]).value;
  }

  /**
   * One vertex of the scan: each running bound that is still undefined, or that the vertex
   * beats, takes the vertex's coordinate. The four then bound the box extended by the vertex.
   */
  method VisitVertex(x: int, y: int, ghost acc: Option<Box>,
                     xMin0: Option<int>, yMin0: Option<int>, xMax0: Option<int>, yMax0: Option<int>)
    returns (xMin: Option<int>, yMin: Option<int>, xMax: Option<int>, yMax: Option<int>)
    requires xMin0 == RunningBound(acc, Left) && yMin0 == RunningBound(acc, Top)
    requires xMax0 == RunningBound(acc, Right) && yMax0 == RunningBound(acc, Bottom)
    ensures var b := Some(Extend(acc, x, y));
      xMin == RunningBound(b, Left) && yMin == RunningBound(b, Top) &&
      xMax == RunningBound(b, Right) && yMax == RunningBound(b, Bottom)
  {
    xMin, yMin, xMax, yMax := xMin0, yMin0, xMax0, yMax0;
    if xMin.None? || xMin.value > x {
      xMin := Some(x);
    }
    if xMax.None? || xMax.value < x {
      xMax := Some(x);
    }
    if yMin.None? || yMin.value > y {
      yMin := Some(y);
    }
    if yMax.None? || yMax.value < y {
      yMax := Some(y);
    }
  }

  /**
   * The inner loop of the scan over one entry's tokens, two at a time: the running bounds
   * go from those of `acc` to those of `acc` extended by every vertex of the entry.
   */
  method ScanEntry(tokens: seq<string>, ghost p: Polygon, ghost acc: Option<Box>,
                   xMin0: Option<int>, yMin0: Option<int>, xMax0: Option<int>, yMax0: Option<int>)
    returns (xMin: Option<int>, yMin: Option<int>, xMax: Option<int>, yMax: Option<int>)
    requires Coordinates(tokens, p) && |p| % 2 == 0
    requires xMin0 == RunningBound(acc, Left) && yMin0 == RunningBound(acc, Top)
    requires xMax0 == RunningBound(acc, Right) && yMax0 == RunningBound(acc, Bottom)
    ensures var b := ScanPolygon(acc, p, |p| / 2);
      xMin == RunningBound(b, Left) && yMin == RunningBound(b, Top) &&
      xMax == RunningBound(b, Right) && yMax == RunningBound(b, Bottom)
  {
    xMin, yMin, xMax, yMax := xMin0, yMin0, xMax0, yMax0;
    ghost var m := |p| / 2;
    assert |tokens| == 2 * m;
    var i := 0;
    ghost var n := 0;
    while i < |tokens|
      invariant 0 <= n <= m && i == 2 * n
      invariant xMin == RunningBound(ScanPolygon(acc, p, n), Left)
      invariant yMin == RunningBound(ScanPolygon(acc, p, n), Top)
      invariant xMax == RunningBound(ScanPolygon(acc, p, n), Right)
      invariant yMax == RunningBound(ScanPolygon(acc, p, n), Bottom)
    {
      var x := ParseCoordinate(tokens, p, i);
      var y := ParseCoordinate(tokens, p, i + 1);
      assert ScanPolygon(acc, p, n + 1) == Some(Extend(ScanPolygon(acc, p, n), x, y));
      xMin, yMin, xMax, yMax := VisitVertex(x, y, ScanPolygon(acc, p, n), xMin, yMin, xMax, yMax);
      i := i + 2;
      n := n + 1;
    }
  }

  /**
   * The tail of the conversion: grow the bounds by `offset` when one is given, and write the
   * corners as the one entry of a selection.
   */
  method EmitRectangle(xMin0: Option<int>, yMin0: Option<int>, xMax0: Option<int>, yMax0: Option<int>,
                       offset: Option<int>) returns (text: string)
    requires xMin0.Some? && yMin0.Some? && xMax0.Some? && yMax0.Some?
    ensures text == ToSelection([Corners(Grow(Box(xMin0.value, yMin0.value, xMax0.value, yMax0.value), offset))])
  {
    var xMin, yMin, xMax, yMax := xMin0.value, yMin0.value, xMax0.value, yMax0.value;
    if offset.Some? {
      xMin := xMin - offset.value;
      xMax := xMax + offset.value;
      yMin := yMin - offset.value;
      yMax := yMax + offset.value;
    }
    var list := [xMax, yMin, xMin, yMin, xMin, yMax, xMax, yMax];
    assert list == Corners(Grow(Box(xMin0.value, yMin0.value, xMax0.value, yMax0.value), offset));
    assert Lines([list]) == [Line(list)];
    text := StringifySelection([Line(list)]);
  }

  /** Every entry is a string whose tokens parseInt reads as the matching polygon of `pl`. */
  predicate EntriesDenote(items: seq<Entry>, pl: PolygonList)
  {
    |pl| == |items| &&
    forall k :: 0 <= k < |items| ==> items[k].Str? && Coordinates(Split(items[k].s), pl[k]) && |pl[k]| % 2 == 0
  }

  /** An accepted selection's entries denote its polygon list. */
  lemma ToPolygonListDenotes(json: Json)
    requires ValidSelection(json)
    ensures EntriesDenote(json.polygonList.items, ToPolygonList(json))
    ensures |ToPolygonList(json)[0]| >= 2
  {
  }

  /** The converted text of an accepted selection is that of the grown corners of its box. */
  lemma RectangleSelectionOfBox(json: Json, offset: Option<int>, box: Box)
    requires ValidSelection(json) && GetBoundingBox(ToPolygonList(json)) == Some(box)
    ensures RectangleSelection(json, offset) == Some(ToSelection([Corners(Grow(box, offset))]))
  {
  }

  /**
   * The outer loop of the scan, over the entries: the running bounds end as the bounds of the
   * bounding box of the whole list (`undefined` while no vertex has been seen).
   */
  method ScanEntries(items: seq<Entry>, ghost pl: PolygonList)
    returns (xMin: Option<int>, yMin: Option<int>, xMax: Option<int>, yMax: Option<int>)
    requires EntriesDenote(items, pl)
    ensures var b := GetBoundingBox(pl);
      xMin == RunningBound(b, Left) && yMin == RunningBound(b, Top) &&
      xMax == RunningBound(b, Right) && yMax == RunningBound(b, Bottom)
  {
    xMin, yMin, xMax, yMax := None, None, None, None;
    var k := 0;
    while k < |items|
      invariant 0 <= k <= |items|
      invariant xMin == RunningBound(ScanList(pl, k), Left) && yMin == RunningBound(ScanList(pl, k), Top)
      invariant xMax == RunningBound(ScanList(pl, k), Right) && yMax == RunningBound(ScanList(pl, k), Bottom)
    {
      var tokens := Split(items[k].s);
      xMin, yMin, xMax, yMax := ScanEntry(tokens, pl[k], ScanList(pl, k), xMin, yMin, xMax, yMax);
      k := k + 1;
    }
  }

  /**
   * `convertToRectangleSelection`: `None` (undefined) for a rejected selection; otherwise scan
   * every vertex for the running minima and maxima, grow them by `offset` when one is given,
   * and emit the four corners as a one-entry selection.
   */
  method ConvertToRectangleSelection(json: Json, offset: Option<int>) returns (r: Option<string>)
    ensures r.None? <==> !ValidSelection(json)
    ensures r == RectangleSelection(json, offset)
  {
    var valid := IsValidSelection(json);
    if !valid {
      return None;
    }
    ghost var pl := ToPolygonList(json);
    ToPolygonListDenotes(json);
    var xMin, yMin, xMax, yMax := ScanEntries(json.polygonList.items, pl);
    ScanListDefined(pl, |pl|);
    ghost var box := GetBoundingBox(pl).value;
    assert Box(xMin.value, yMin.value, xMax.value, yMax.value) == box;
    RectangleSelectionOfBox(json, offset, box);
    var text := EmitRectangle(xMin, yMin, xMax, yMax, offset);
    r := Some(text);
  }

  // ---------------------------------------------------------------------------
  // Properties of the selection format

  /** An empty entry is one token, an odd count, so it is rejected (the zero-token test never fires). */
  lemma EmptyEntryRejected(items: seq<Entry>, k: int)
    requires 0 <= k < |items| && items[k] == Str("")
    ensures !ValidSelection(Document(Array(items)))
  {
    assert Split("") == [""];
  }

  /** An entry holding an odd number of comma-free coordinates is rejected, and so is the selection. */
  lemma OddEntryRejected(items: seq<Entry>, k: int, tokens: seq<string>)
    requires 0 <= k < |items| && items[k] == Str(Join(tokens))
    requires |tokens| % 2 == 1
    requires forall i :: 0 <= i < |tokens| ==> ',' !in tokens[i]
    ensures !ValidSelection(Document(Array(items)))
  {
    SplitJoin(tokens);
    assert !ValidLine(items[k].s);
  }

  /** A joined polygon is accepted, and parses back to the same coordinates. */
  lemma LineRoundTrip(p: Polygon)
    requires |p| > 0 && |p| % 2 == 0
    ensures ValidLine(Line(p)) && LineCoords(Line(p)) == p
  {
    var tokens := CoordinateTexts(p);
    assert Line(p) == Join(tokens);
    SplitJoin(tokens);
    forall j | 0 <= j < |tokens|
      ensures ParseInt(tokens[j]) == Some(p[j])
    {
      ParseIntToString(p[j]);
    }
    assert Readable(tokens);
  }

  /** The value `toSelection` stringifies is accepted and parses back to the same list. */
  lemma SelectionRoundTrip(pl: PolygonList)
    requires |pl| > 0 && WellFormed(pl)
    ensures ValidSelection(SelectionJson(pl)) && ToPolygonList(SelectionJson(pl)) == pl
  {
    var items := SelectionJson(pl).polygonList.items;
    forall k | 0 <= k < |pl|
      ensures ValidLine(items[k].s) && LineCoords(items[k].s) == pl[k]
    {
      LineRoundTrip(pl[k]);
    }
  }

  /**
   * The converted text of an accepted selection is the one-entry selection of the four corners
   * of its bounding box, grown by `offset`.
   */
  lemma RectangleSelectionShape(json: Json, offset: Option<int>)
    requires ValidSelection(json)
    ensures GetBoundingBox(ToPolygonList(json)).Some?
    ensures var box := GetBoundingBox(ToPolygonList(json)).value;
      RectangleSelection(json, offset) == Some(StringifySelection([Line(Corners(Grow(box, offset)))]))
  {
    var pl := ToPolygonList(json);
    ToPolygonListDenotes(json);
    ScanListDefined(pl, |pl|);
    var corners := Corners(Grow(GetBoundingBox(pl).value, offset));
    assert Lines([corners]) == [Line(corners)];
  }

  /**
   * The converted selection is itself accepted, and converting it again with no offset gives the
   * same text, for an offset that does not shrink the box.
   */
  lemma ConvertIdempotent(json: Json, offset: Option<int>)
    requires ValidSelection(json)
    requires offset.None? || offset.value >= 0
    ensures var rect := MakeRectangle(ToPolygonList(json), offset);
      RectangleSelection(json, offset) == Some(ToSelection(rect)) &&
      ValidSelection(SelectionJson(rect)) &&
      RectangleSelection(SelectionJson(rect), None) == RectangleSelection(json, offset)
  {
    var pl := ToPolygonList(json);
    ToPolygonListDenotes(json);
    ScanListDefined(pl, |pl|);
    var rect := MakeRectangle(pl, offset);
    assert rect == [Corners(Grow(GetBoundingBox(pl).value, offset))] && |rect[0]| == 8;
    SelectionRoundTrip(rect);
    MakeRectangleIdempotent(pl, offset);
    assert MakeRectangle(ToPolygonList(SelectionJson(rect)), None) == rect;
  }
}
