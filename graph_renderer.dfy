/**
 * GraphRenderer: the result and simulation screens' line chart. Values are scaled into the container's
 * padded area; one point object per value and one line object per pair of consecutive values.
 * Only the scalar positions are modelled, not the UI objects themselves.
 */
module Graph {

  import opened Wrappers
  import opened Numerics
  import opened Geometry

  /** The smallest value, found by scanning from the front and keeping the first strictly smaller one. */
  function SeqMin(s: seq<real>): (m: real)
    requires |s| > 0
    ensures forall k :: 0 <= k < |s| ==> m <= s[k]
    ensures m in s
    decreases |s|
  {
    if |s| == 1 then s[0]
    else
      var m := SeqMin(s[..|s| - 1]);
      assert m in s[..|s| - 1];
      if s[|s| - 1] < m then s[|s| - 1] else m
  }

  /** The largest value, found by the same scan. */
  function SeqMax(s: seq<real>): (m: real)
    requires |s| > 0
    ensures forall k :: 0 <= k < |s| ==> s[k] <= m
    ensures m in s
    decreases |s|
  {
    if |s| == 1 then s[0]
    else
      var m := SeqMax(s[..|s| - 1]);
      assert m in s[..|s| - 1];
      if s[|s| - 1] > m then s[|s| - 1] else m
  }

  /** One step of the scan: the extremes of the first i + 1 values from those of the first i. */
  lemma ScanStep(s: seq<real>, i: nat)
    requires 1 <= i < |s|
    ensures SeqMin(s[..i + 1]) == if s[i] < SeqMin(s[..i]) then s[i] else SeqMin(s[..i])
    ensures SeqMax(s[..i + 1]) == if s[i] > SeqMax(s[..i]) then s[i] else SeqMax(s[..i])
  {
    assert s[..i + 1][..i] == s[..i];
  }

  /**
   * The value range the chart maps onto its height: minimum and maximum of the values, the maximum
   * being raised to minimum + 1 when all values are equal, so that the range is never empty.
   */
  function ScaleRange(values: seq<real>): (range: (real, real))
    requires |values| > 0
    ensures range.0 < range.1
    ensures range.0 == SeqMin(values)
    ensures forall k :: 0 <= k < |values| ==> range.0 <= values[k] <= range.1
    ensures SeqMax(values) != SeqMin(values) ==> range.1 == SeqMax(values)
    ensures SeqMax(values) == SeqMin(values) ==> range.1 == range.0 + 1.0
  {
    var lo, hi := SeqMin(values), SeqMax(values);
    if hi == lo then (lo, lo + 1.0) else (lo, hi)
  }

  /** The width (or height) left for drawing once both paddings are taken off, never negative. */
  function UsableExtent(size: real, padding: real): (e: real)
    ensures e >= 0.0 && e >= size - padding * 2.0
  {
    MaxReal(0.0, size - padding * 2.0)
  }

  /** A part of a positive whole divided by the whole lies in [0, 1]. */
  lemma FractionWithin(part: real, whole: real)
    requires 0.0 <= part <= whole && whole > 0.0
    ensures 0.0 <= part / whole <= 1.0
  {
    assert part / whole * whole == part;
  }

  /** Horizontal position of point `i` of `n`: a lone point is centred, otherwise the points are evenly spaced. */
  function XPosition(i: nat, n: nat, xPadding: real, usableWidth: real): real
    requires i < n
  {
    var t := if n == 1 then 0.5 else i as real / (n - 1) as real;
    xPadding + usableWidth * t
  }

  lemma XPositionWithin(i: nat, n: nat, xPadding: real, usableWidth: real)
    requires i < n && usableWidth >= 0.0
    ensures xPadding <= XPosition(i, n, xPadding, usableWidth) <= xPadding + usableWidth
  {
    var t := if n == 1 then 0.5 else i as real / (n - 1) as real;
    assert 0.0 <= t <= 1.0;
    ScaledWithin(usableWidth, t);
  }

  /** Vertical position of `value` once the range [lo, hi] is mapped onto [yPadding, yPadding + usableHeight]. */
  function YPosition(value: real, lo: real, hi: real, yPadding: real, usableHeight: real): real
    requires lo < hi
  {
    var normalized := (value - lo) / (hi - lo);
    yPadding + usableHeight * normalized
  }

  lemma YPositionWithin(value: real, lo: real, hi: real, yPadding: real, usableHeight: real)
    requires lo <= value <= hi && lo < hi && usableHeight >= 0.0
    ensures yPadding <= YPosition(value, lo, hi, yPadding, usableHeight) <= yPadding + usableHeight
  {
    var normalized := (value - lo) / (hi - lo);
    FractionWithin(value - lo, hi - lo);
    ScaledWithin(usableHeight, normalized);
  }

  /** The position of point `i` of the chart for `values` whose value range is `range`. */
  function PlotPoint(values: seq<real>, i: nat, range: (real, real), xPadding: real, yPadding: real,
                     usableWidth: real, usableHeight: real): Vec2
    requires i < |values| && range.0 < range.1
  {
    Vec2(XPosition(i, |values|, xPadding, usableWidth), YPosition(values[i], range.0, range.1, yPadding, usableHeight))
  }

  /** The positions of the point objects for `values` in a `width` by `height` container. */
  function PlotPoints(values: seq<real>, xPadding: real, yPadding: real, width: real, height: real): (points: seq<Vec2>)
    requires |values| > 0
    ensures |points| == |values|
  {
    var usableWidth, usableHeight := UsableExtent(width, xPadding), UsableExtent(height, yPadding);
    var range := ScaleRange(values);
    seq(|values|, i requires 0 <= i < |values| => PlotPoint(values, i, range, xPadding, yPadding, usableWidth, usableHeight))
  }

  /** Every point lies inside the padded drawing area. */
  lemma PlotPointsInArea(values: seq<real>, xPadding: real, yPadding: real, width: real, height: real, i: nat)
    requires i < |values|
    ensures var p := PlotPoints(values, xPadding, yPadding, width, height)[i];
      && xPadding <= p.x <= xPadding + UsableExtent(width, xPadding)
      && yPadding <= p.y <= yPadding + UsableExtent(height, yPadding)
  {
    var range := ScaleRange(values);
    XPositionWithin(i, |values|, xPadding, UsableExtent(width, xPadding));
    YPositionWithin(values[i], range.0, range.1, yPadding, UsableExtent(height, yPadding));
  }

  /** Later values are drawn further right: never to the left, and strictly to the right when there is room. */
  lemma PlotPointsLeftToRight(values: seq<real>, xPadding: real, yPadding: real, width: real, height: real, i: nat, j: nat)
    requires i < j < |values|
    ensures var ps := PlotPoints(values, xPadding, yPadding, width, height);
      && ps[i].x <= ps[j].x
      && (UsableExtent(width, xPadding) > 0.0 ==> ps[i].x < ps[j].x)
  {
    var n := |values|;
    var usableWidth := UsableExtent(width, xPadding);
    XPositionOrdered(i, j, n, xPadding, usableWidth);
  }

  /** The horizontal positions of two points of the same chart, in index order. */
  lemma XPositionOrdered(i: nat, j: nat, n: nat, xPadding: real, usableWidth: real)
    requires i < j < n && usableWidth >= 0.0
    ensures XPosition(i, n, xPadding, usableWidth) <= XPosition(j, n, xPadding, usableWidth)
    ensures usableWidth > 0.0 ==> XPosition(i, n, xPadding, usableWidth) < XPosition(j, n, xPadding, usableWidth)
  {
    var d, a, b := (n - 1) as real, i as real, j as real;
    var ti, tj := a / d, b / d;
    assert tj - ti == (b - a) / d;
    assert usableWidth * tj - usableWidth * ti == usableWidth * (tj - ti);
  }

  class GraphRenderer {
    /** Whether `graphContainer` is set, and its size. */
    const hasContainer: bool
    const containerWidth: real
    const containerHeight: real
    /** Whether `pointPrefab` and `linePrefab` are set. */
    const hasPointPrefab: bool
    const hasLinePrefab: bool
    const xPadding: real
    const yPadding: real

    /** Positions of the point objects drawn so far, in drawing order. */
    var pointObjects: seq<Vec2>
    /** The line objects drawn so far, in drawing order. */
    var lineObjects: seq<Segment>

    constructor (hasContainer: bool, containerWidth: real, containerHeight: real,
                 hasPointPrefab: bool, hasLinePrefab: bool, xPadding: real, yPadding: real)
      ensures this.hasContainer == hasContainer
      ensures this.containerWidth == containerWidth && this.containerHeight == containerHeight
      ensures this.hasPointPrefab == hasPointPrefab && this.hasLinePrefab == hasLinePrefab
      ensures this.xPadding == xPadding && this.yPadding == yPadding
      ensures pointObjects == [] && lineObjects == []
    {
      this.hasContainer := hasContainer;
      this.containerWidth := containerWidth;
      this.containerHeight := containerHeight;
      this.hasPointPrefab := hasPointPrefab;
      this.hasLinePrefab := hasLinePrefab;
      this.xPadding := xPadding;
      this.yPadding := yPadding;
      pointObjects := [];
      lineObjects := [];
    }

    /** The points a redraw with `values` leaves: none for a missing or empty list or a missing prefab. */
    function PointsFor(values: Option<seq<real>>): (points: seq<Vec2>)
      ensures values.None? || values.value == [] || !hasPointPrefab || !hasLinePrefab ==> points == []
      ensures values.Some? && values.value != [] && hasPointPrefab && hasLinePrefab ==> |points| == |values.value|
    {
      if values.None? || |values.value| == 0 || !hasPointPrefab || !hasLinePrefab then []
      else PlotPoints(values.value, xPadding, yPadding, containerWidth, containerHeight)
    }

    /**
     * Redraws the chart for `values`: without a container nothing at all happens; otherwise the old
     * objects are removed and one point per value plus one line per consecutive pair are drawn.
     */
    method UpdateGraph(values: Option<seq<real>>)
      modifies this
      ensures !hasContainer ==> unchanged(this)
      ensures hasContainer ==> pointObjects == PointsFor(values) && lineObjects == Segments(pointObjects)
    {
      if !hasContainer {
        return;
      }

      ClearGraph();
      assert pointObjects == [] && lineObjects == [];

      if values.None? || |values.value| == 0 {
        return;
      }

      if !hasPointPrefab || !hasLinePrefab {
        return;
      }

      var vs := values.value;
      var pointCount := |vs|;

      var width := containerWidth;
      var height := containerHeight;

      var usableWidth := MaxReal(0.0, width - xPadding * 2.0);
      var usableHeight := MaxReal(0.0, height - yPadding * 2.0);

      var minValue, maxValue := ScanRange(vs);
      DrawPoints(vs, minValue, maxValue, usableWidth, usableHeight);
    }

    /** The min/max scan over the values, with the all-equal fix. */
    method ScanRange(vs: seq<real>) returns (minValue: real, maxValue: real)
      requires |vs| > 0
      ensures (minValue, maxValue) == ScaleRange(vs)
    {
      var pointCount := |vs|;
      minValue := vs[0];
      maxValue := vs[0];

      for i := 1 to pointCount
        invariant minValue == SeqMin(vs[..i]) && maxValue == SeqMax(vs[..i])
      {
        ScanStep(vs, i);
        var v := vs[i];
        if v < minValue {
          minValue := v;
        }
        if v > maxValue {
          maxValue := v;
        }
      }
      assert vs[..pointCount] == vs;

      if maxValue == minValue {
        maxValue := minValue + 1.0;
      }
    }

    /** Draws one point per value and a line back to the previous point, left to right. */
    method DrawPoints(vs: seq<real>, minValue: real, maxValue: real, usableWidth: real, usableHeight: real)
      requires |vs| > 0 && minValue < maxValue
      requires pointObjects == [] && lineObjects == []
      modifies this
      ensures pointObjects == seq(|vs|, i requires 0 <= i < |vs| =>
        PlotPoint(vs, i, (minValue, maxValue), xPadding, yPadding, usableWidth, usableHeight))
      ensures lineObjects == Segments(pointObjects)
    {
      var pointCount := |vs|;
      ghost var expected := seq(|vs|, i requires 0 <= i < |vs| =>
        PlotPoint(vs, i, (minValue, maxValue), xPadding, yPadding, usableWidth, usableHeight));
      var lastPointPos: Option<Vec2> := None;

      for i := 0 to pointCount
        invariant pointObjects == expected[..i]
        invariant lineObjects == Segments(pointObjects)
        invariant lastPointPos == if i == 0 then None else Some(pointObjects[i - 1])
      {
        var value := vs[i];

        var xPos := XPosition(i, pointCount, xPadding, usableWidth);
        var yPos := YPosition(value, minValue, maxValue, yPadding, usableHeight);

        var anchoredPos := Vec2(xPos, yPos);

        ghost var before := pointObjects;
        CreatePoint(anchoredPos);

        if lastPointPos.Some? {
          SegmentsSnoc(before, anchoredPos);
          CreateLine(lastPointPos.value, anchoredPos);
        }
        assert expected[..i + 1] == expected[..i] + [expected[i]];

        lastPointPos := Some(anchoredPos);
      }
      assert expected[..pointCount] == expected;
    }

    method CreatePoint(anchoredPosition: Vec2)
      modifies this`pointObjects
      ensures pointObjects == old(pointObjects) + [anchoredPosition]
    {
      pointObjects := pointObjects + [anchoredPosition];
    }

    method CreateLine(start: Vec2, end: Vec2)
      modifies this`lineObjects
      ensures lineObjects == old(lineObjects) + [Segment(start, end)]
    {
      lineObjects := lineObjects + [Segment(start, end)];
    }

    /** Removes every point and line object. */
    method ClearGraph()
      modifies this
      ensures pointObjects == [] && lineObjects == []
    {
      pointObjects := [];
      lineObjects := [];
    }
  }
}
