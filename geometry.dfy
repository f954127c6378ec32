/**
 * Polygon lists and boxes: the bounding-box scan of convertToRectangleSelection and the helpers
 * the reducer builds from it (getBoundingBox, makeRectangle, toPolygonListFromBox,
 * isPolygonListValid).
 *
 * A polygon is the flat coordinate list `[x0, y0, x1, y1, ...]`; its vertices are the pairs at
 * even positions. A box is `[xMin, yMin, xMax, yMax]`, and `undefined` is `None`.
 */
module Geometry {
  import opened Wrappers

  type Polygon = seq<int>
  type PolygonList = seq<Polygon>

  datatype Box = Box(xMin: int, yMin: int, xMax: int, yMax: int)

  predicate Ordered(b: Box)
  {
    b.xMin <= b.xMax && b.yMin <= b.yMax
  }

  predicate Within(b: Box, x: int, y: int)
  {
    b.xMin <= x <= b.xMax && b.yMin <= y <= b.yMax
  }

  /** `j` is the x position of a vertex of polygon `i`. */
  ghost predicate IsVertex(pl: PolygonList, i: int, j: int)
  {
    0 <= i < |pl| && 0 <= j && j % 2 == 0 && j + 1 < |pl[i]|
  }

  /** Every polygon has an even, non-zero number of coordinates: what parsing produces. */
  predicate WellFormed(pl: PolygonList)
  {
    forall i :: 0 <= i < |pl| ==> |pl[i]| > 0 && |pl[i]| % 2 == 0
  }

  /** A single polygon with an even, non-zero number of coordinates is a well-formed list. */
  lemma OnePolygonWellFormed(pl: PolygonList)
    requires |pl| == 1 && |pl[0]| > 0 && |pl[0]| % 2 == 0
    ensures WellFormed(pl)
  {
  }

  /** `isPolygonListValid`: a selection exists. */
  predicate IsPolygonListValid(pl: PolygonList)
  {
    |pl| > 0
  }

  function Min(a: int, b: int): int { if a <= b then a else b }
  function Max(a: int, b: int): int { if a >= b then a else b }

  /**
   * One step of the scan: the running minima and maxima after seeing vertex (x, y). The first
   * vertex sets all four, as the `x_min == null || x_min > x` tests do.
   */
  function Extend(acc: Option<Box>, x: int, y: int): Box
  {
    match acc
    case None => Box(x, y, x, y)
    case Some(b) => Box(Min(b.xMin, x), Min(b.yMin, y), Max(b.xMax, x), Max(b.yMax, y))
  }

  /** The scan continued over the first `n` vertices of `p`. */
  function ScanPolygon(acc: Option<Box>, p: Polygon, n: nat): (r: Option<Box>)
    requires 2 * n <= |p|
    ensures r.None? <==> acc.None? && n == 0
  {
    if n == 0 then acc else Some(Extend(ScanPolygon(acc, p, n - 1), p[2 * n - 2], p[2 * n - 1]))
  }

  /** The scan over the first `k` polygons of `pl`. */
  function ScanList(pl: PolygonList, k: nat): Option<Box>
    requires k <= |pl|
  {
    if k == 0 then None else ScanPolygon(ScanList(pl, k - 1), pl[k - 1], |pl[k - 1]| / 2)
  }

  /** `getBoundingBox`: the scan over every vertex; `None` when there is none. */
  function GetBoundingBox(pl: PolygonList): (r: Option<Box>)
    ensures r.Some? ==> Ordered(r.value)
  {
    var b := ScanList(pl, |pl|);
    if b.Some? then ScanListContains(pl, |pl|); b else b
  }

  /** The box after `if (offset != null)` grows it by `offset` on every side. */
  function Grow(b: Box, offset: Option<int>): Box
  {
    match offset
    case None => b
    case Some(o) => Box(b.xMin - o, b.yMin - o, b.xMax + o, b.yMax + o)
  }

  /** The four corners in the emitted order: top-right, top-left, bottom-left, bottom-right. */
  function Corners(b: Box): Polygon
  {
    [b.xMax, b.yMin, b.xMin, b.yMin, b.xMin, b.yMax, b.xMax, b.yMax]
  }

  /** `toPolygonListFromBox`: the box as one polygon, whose bounding box is the box again. */
  function ToPolygonListFromBox(box: Option<Box>): (r: PolygonList)
    ensures box.None? ==> r == []
    ensures box.Some? && Ordered(box.value) ==> GetBoundingBox(r) == box
  {
    match box
    case None => []
    case Some(b) => if Ordered(b) then CornersBoundingBox(b); [Corners(b)] else [Corners(b)]
  }

  /** `makeRectangle(polygonList, offset)`: the bounding box, grown, as one polygon. */
  function MakeRectangle(pl: PolygonList, offset: Option<int>): (r: PolygonList)
    ensures |r| <= 1
    ensures r != [] ==> |r[0]| == 8
  {
    match GetBoundingBox(pl)
    case None => []
    case Some(b) => ToPolygonListFromBox(Some(Grow(b, offset)))
  }

  // ---------------------------------------------------------------------------
  // What the scan computes

  /** `outer` contains `inner`. */
  predicate Encloses(outer: Box, inner: Box)
  {
    outer.xMin <= inner.xMin && inner.xMax <= outer.xMax &&
    outer.yMin <= inner.yMin && inner.yMax <= outer.yMax
  }

  /** The four bounds of a box, to state one fact for each of them at once. */
  datatype Side = Left | Top | Right | Bottom

  function Bound(b: Box, side: Side): int
  {
    match side
    case Left => b.xMin
    case Top => b.yMin
    case Right => b.xMax
    case Bottom => b.yMax
  }

  /** The coordinate of the vertex at `j` that bounds `side`: its x for Left/Right, its y otherwise. */
  function VertexCoord(p: Polygon, j: int, side: Side): int
    requires 0 <= j && j + 1 < |p|
  {
    if side.Left? || side.Right? then p[j] else p[j + 1]
  }

  /** The bound `side` of `b` is the matching coordinate of some vertex of `pl`. */
  ghost predicate Attained(pl: PolygonList, b: Box, side: Side)
  {
    exists i, j :: IsVertex(pl, i, j) && VertexCoord(pl[i], j, side) == Bound(b, side)
  }

  /** The scan's result contains the box it started from and every vertex it has seen. */
  lemma {:induction false} ScanPolygonContains(acc: Option<Box>, p: Polygon, n: nat)
    requires 2 * n <= |p|
    requires ScanPolygon(acc, p, n).Some?
    ensures acc.Some? ==> Encloses(ScanPolygon(acc, p, n).value, acc.value)
    ensures acc.None? || Ordered(acc.value) ==> Ordered(ScanPolygon(acc, p, n).value)
    ensures forall j :: 0 <= j < 2 * n && j % 2 == 0 ==> Within(ScanPolygon(acc, p, n).value, p[j], p[j + 1])
  {
    if n > 0 && ScanPolygon(acc, p, n - 1).Some? {
      ScanPolygonContains(acc, p, n - 1);
    }
  }

  /** Each bound of the scan's result is a bound of the starting box or a coordinate it has seen. */
  lemma {:induction false} ScanPolygonAttains(acc: Option<Box>, p: Polygon, n: nat, side: Side)
    requires 2 * n <= |p|
    requires ScanPolygon(acc, p, n).Some?
    ensures var v := Bound(ScanPolygon(acc, p, n).value, side);
      (acc.Some? && v == Bound(acc.value, side)) ||
      exists j :: 0 <= j < 2 * n && j % 2 == 0 && VertexCoord(p, j, side) == v
  {
    if n > 0 {
      var j := 2 * n - 2;
      var v := Bound(ScanPolygon(acc, p, n).value, side);
      if VertexCoord(p, j, side) != v {
        ScanPolygonAttains(acc, p, n - 1, side);
      }
    }
  }

  /** A scan over whole polygons yields a box exactly when one of them has a vertex. */
  lemma {:induction false} ScanListDefined(pl: PolygonList, k: nat)
    requires k <= |pl|
    ensures ScanList(pl, k).None? <==> forall i :: 0 <= i < k ==> |pl[i]| < 2
  {
    if k > 0 {
      ScanListDefined(pl, k - 1);
    }
  }

  /** The box of the first `k` polygons is ordered and contains each of their vertices. */
  lemma {:induction false} ScanListContains(pl: PolygonList, k: nat)
    requires k <= |pl|
    requires ScanList(pl, k).Some?
    ensures Ordered(ScanList(pl, k).value)
    ensures forall i, j :: i < k && IsVertex(pl, i, j) ==> Within(ScanList(pl, k).value, pl[i][j], pl[i][j + 1])
  {
    var prev := ScanList(pl, k - 1);
    var b := ScanList(pl, k).value;
    var p := pl[k - 1];
    ScanPolygonContains(prev, p, |p| / 2);
    ScanListDefined(pl, k - 1);
    if prev.Some? {
      ScanListContains(pl, k - 1);
    }
    forall i, j | i < k && IsVertex(pl, i, j)
      ensures Within(b, pl[i][j], pl[i][j + 1])
    {
      if i < k - 1 {
        assert prev.Some?;
      }
    }
  }

  /** Each bound of the box of the first `k` polygons is a coordinate of one of their vertices. */
  lemma {:induction false} ScanListAttains(pl: PolygonList, k: nat, side: Side)
    requires k <= |pl|
    requires ScanList(pl, k).Some?
    ensures exists i, j :: i < k && IsVertex(pl, i, j) && VertexCoord(pl[i], j, side) == Bound(ScanList(pl, k).value, side)
  {
    var prev := ScanList(pl, k - 1);
    var v := Bound(ScanList(pl, k).value, side);
    var p := pl[k - 1];
    ScanPolygonAttains(prev, p, |p| / 2, side);
    if prev.Some? && v == Bound(prev.value, side) {
      ScanListAttains(pl, k - 1, side);
    } else {
      var j :| 0 <= j < 2 * (|p| / 2) && j % 2 == 0 && VertexCoord(p, j, side) == v;
      assert IsVertex(pl, k - 1, j);
    }
  }

  /**
   * `getBoundingBox` is the least box holding every vertex: it is `None` exactly when there is no
   * vertex; otherwise it is ordered, contains every vertex, and each of its four bounds is the
   * matching coordinate of some vertex.
   */
  lemma BoundingBoxIsTight(pl: PolygonList)
    ensures GetBoundingBox(pl).None? <==> forall i :: 0 <= i < |pl| ==> |pl[i]| < 2
    ensures GetBoundingBox(pl).Some? ==> Ordered(GetBoundingBox(pl).value)
    ensures GetBoundingBox(pl).Some? ==>
      forall i, j :: IsVertex(pl, i, j) ==> Within(GetBoundingBox(pl).value, pl[i][j], pl[i][j + 1])
    ensures GetBoundingBox(pl).Some? ==> forall side: Side :: Attained(pl, GetBoundingBox(pl).value, side)
  {
    ScanListDefined(pl, |pl|);
    if GetBoundingBox(pl).Some? {
      ScanListContains(pl, |pl|);
      forall side: Side
        ensures Attained(pl, GetBoundingBox(pl).value, side)
      {
        ScanListAttains(pl, |pl|, side);
        var i, j :| i < |pl| && IsVertex(pl, i, j) && VertexCoord(pl[i], j, side) == Bound(ScanList(pl, |pl|).value, side);
        assert IsVertex(pl, i, j) && VertexCoord(pl[i], j, side) == Bound(GetBoundingBox(pl).value, side);
      }
    }
  }

  /**
   * For a parsed list, `isPolygonListValid` holds exactly when `getBoundingBox` is defined, so the
   * reducer's `validSelection` and `boundingBox` agree.
   */
  lemma ValidListHasBox(pl: PolygonList)
    requires WellFormed(pl)
    ensures IsPolygonListValid(pl) <==> GetBoundingBox(pl).Some?
  {
    ScanListDefined(pl, |pl|);
    if |pl| > 0 {
      assert |pl[0]| >= 2;
    }
  }

  /** Growing by a non-negative offset keeps a box ordered. */
  lemma GrowOrdered(b: Box, offset: Option<int>)
    requires Ordered(b)
    requires offset.None? || offset.value >= 0
    ensures Ordered(Grow(b, offset))
  {
  }

  /** The rectangle emitted for an ordered box has exactly that box as its bounding box. */
  lemma CornersBoundingBox(b: Box)
    requires Ordered(b)
    ensures GetBoundingBox([Corners(b)]) == Some(b)
  {
    var c := Corners(b);
    assert ScanPolygon(None, c, 1) == Some(Box(b.xMax, b.yMin, b.xMax, b.yMin));
    assert ScanPolygon(None, c, 2) == Some(Box(b.xMin, b.yMin, b.xMax, b.yMin));
    assert ScanPolygon(None, c, 3) == Some(Box(b.xMin, b.yMin, b.xMax, b.yMax));
    assert ScanPolygon(None, c, 4) == Some(b);
    assert ScanList([c], 1) == ScanPolygon(ScanList([c], 0), c, |c| / 2);
  }

  /**
   * `makeRectangle` is empty exactly when the list has no vertex, and otherwise one polygon: the
   * corners of the grown bounding box. Fitting that rectangle again without an offset gives it
   * back, as long as the grown box is still ordered (any offset >= 0).
   */
  lemma MakeRectangleIdempotent(pl: PolygonList, offset: Option<int>)
    requires offset.None? || offset.value >= 0
    ensures MakeRectangle(pl, offset) == [] <==> forall i :: 0 <= i < |pl| ==> |pl[i]| < 2
    ensures MakeRectangle(MakeRectangle(pl, offset), None) == MakeRectangle(pl, offset)
  {
    BoundingBoxIsTight(pl);
    if GetBoundingBox(pl).Some? {
      var b := Grow(GetBoundingBox(pl).value, offset);
      GrowOrdered(GetBoundingBox(pl).value, offset);
      CornersBoundingBox(b);
    } else {
      assert GetBoundingBox([]) == None;
    }
  }
}
