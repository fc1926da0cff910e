/**
 * SimulationGraphUI: the simulation screen's asset chart. It keeps the (year, asset) points added so far,
 * a vertical-axis maximum that only grows when a point exceeds it, the positions of the drawn points
 * and lines, and the values shown on the vertical-axis labels.
 */
module SceneGraph {

  import opened Numerics
  import opened Geometry

  /** One stored chart point (Unity's Vector2Int: x is the year, y the asset in yen). */
  datatype DataPoint = DataPoint(year: int, asset: int)

  /** The chart's year span; the scene sets it in the inspector and it must be positive for the x division. */
  type YearSpan = n: int | n > 0 witness 1

  const DefaultMaxYear: YearSpan := 15
  const DefaultMaxAssetValue: real := 200000.0

  /** The scan AddPoint does: the largest asset among `points`, starting from 0. */
  function MaxSeen(points: seq<DataPoint>): (m: real)
    ensures m >= 0.0
    ensures forall k :: 0 <= k < |points| ==> points[k].asset as real <= m
    ensures m == 0.0 || exists k :: 0 <= k < |points| && points[k].asset as real == m
    decreases |points|
  {
    if |points| == 0 then 0.0
    else
      var m := MaxSeen(points[..|points| - 1]);
      var y := points[|points| - 1].asset as real;
      if y > m then y else m
  }

  /** The axis maximum after a point is added: 1.1 times the largest asset when that exceeds the old maximum. */
  function RaisedMax(points: seq<DataPoint>, maxAssetValue: real): (r: real)
    ensures r >= maxAssetValue
    ensures forall k :: 0 <= k < |points| ==> points[k].asset as real <= r
    ensures MaxSeen(points) <= maxAssetValue ==> r == maxAssetValue
    ensures MaxSeen(points) > maxAssetValue ==> r == MaxSeen(points) * 1.1
  {
    var seen := MaxSeen(points);
    if seen > maxAssetValue then seen * 1.1 else maxAssetValue
  }

  /**
   * The values on `n` vertical-axis labels, bottom to top: a single label shows the maximum itself;
   * otherwise label i shows the maximum times i/(n-1), rounded to an integer.
   */
  function AxisLabelValues(maxAssetValue: real, n: nat): (labels: seq<real>)
    ensures |labels| == n
    ensures n == 1 ==> labels == [maxAssetValue]
  {
    if n == 1 then [maxAssetValue]
    else seq(n, i requires 0 <= i < n => AxisLabelValue(maxAssetValue, i, n))
  }

  function AxisLabelValue(maxAssetValue: real, i: nat, n: nat): real
    requires n >= 2
  {
    RoundToInt(Share(maxAssetValue, i, n)) as real
  }

  /** The unrounded value of label i of n: the maximum times i/(n-1). */
  function Share(maxAssetValue: real, i: nat, n: nat): real
    requires n >= 2
  {
    maxAssetValue * (i as real / (n - 1) as real)
  }

  /** The bottom label shows 0 and the top label the rounded maximum. */
  lemma AxisLabelEnds(maxAssetValue: real, n: nat)
    requires n >= 2
    ensures AxisLabelValues(maxAssetValue, n)[0] == 0.0
    ensures AxisLabelValues(maxAssetValue, n)[n - 1] == RoundToInt(maxAssetValue) as real
  {
    RoundToIntOfInt(0);
    assert Share(maxAssetValue, 0, n) == 0.0;
    assert Share(maxAssetValue, n - 1, n) == maxAssetValue by {
      assert (n - 1) as real / (n - 1) as real == 1.0;
    }
  }

  /** Equal steps of a non-negative maximum: a lower step index never gives a larger share. */
  lemma ShareOrdered(m: real, i: nat, j: nat, n: nat)
    requires m >= 0.0 && i <= j < n && n >= 2
    ensures Share(m, i, n) <= Share(m, j, n)
  {
    var d, a, b := (n - 1) as real, i as real, j as real;
    assert a / d <= b / d by {
      assert b / d - a / d == (b - a) / d;
    }
  }

  /** With a non-negative maximum the labels never decrease from bottom to top. */
  lemma AxisLabelsAscend(maxAssetValue: real, n: nat, i: nat, j: nat)
    requires maxAssetValue >= 0.0 && i <= j < n
    ensures AxisLabelValues(maxAssetValue, n)[i] <= AxisLabelValues(maxAssetValue, n)[j]
  {
    if n >= 2 {
      ShareOrdered(maxAssetValue, i, j, n);
      RoundToIntMonotone(Share(maxAssetValue, i, n), Share(maxAssetValue, j, n));
    }
  }

  /**
   * Where a data point is drawn in a `width` by `height` chart centred on the origin: the year and the asset
   * are each taken as a fraction of their maximum, clamped into [0, 1]; with a non-positive asset maximum
   * every point sits on the bottom edge.
   */
  function PointPosition(p: DataPoint, maxYear: YearSpan, maxAssetValue: real, width: real, height: real): Vec2
  {
    var x01 := Clamp01(p.year as real / maxYear as real);
    var y01 := if maxAssetValue > 0.0 then Clamp01(p.asset as real / maxAssetValue) else 0.0;
    Vec2(-width * 0.5 + x01 * width, -height * 0.5 + y01 * height)
  }

  /** Every drawn point lies inside the chart rectangle. */
  lemma PointPositionInChart(p: DataPoint, maxYear: YearSpan, maxAssetValue: real, width: real, height: real)
    requires width >= 0.0 && height >= 0.0
    ensures var v := PointPosition(p, maxYear, maxAssetValue, width, height);
      && -width * 0.5 <= v.x <= width * 0.5
      && -height * 0.5 <= v.y <= height * 0.5
  {
    var x01 := Clamp01(p.year as real / maxYear as real);
    var y01 := if maxAssetValue > 0.0 then Clamp01(p.asset as real / maxAssetValue) else 0.0;
    ScaledWithin(width, x01);
    ScaledWithin(height, y01);
    assert x01 * width == width * x01 && y01 * height == height * y01;
  }

  /** A point whose year lies in [0, maxYear] is drawn at exactly that fraction of the width. */
  lemma PointPositionYearFraction(p: DataPoint, maxYear: YearSpan, maxAssetValue: real, width: real, height: real)
    requires 0 <= p.year <= maxYear
    ensures PointPosition(p, maxYear, maxAssetValue, width, height).x
      == -width * 0.5 + (p.year as real / maxYear as real) * width
  {
    var f := p.year as real / maxYear as real;
    assert f * maxYear as real == p.year as real;
    assert 0.0 <= f <= 1.0;
    assert Clamp01(f) == f;
  }

  /** The positions of all points, in the order they were added. */
  function PointPositions(points: seq<DataPoint>, maxYear: YearSpan, maxAssetValue: real, width: real, height: real)
    : (positions: seq<Vec2>)
    ensures |positions| == |points|
    ensures forall k :: 0 <= k < |points| ==> positions[k] == PointPosition(points[k], maxYear, maxAssetValue, width, height)
  {
    seq(|points|, k requires 0 <= k < |points| => PointPosition(points[k], maxYear, maxAssetValue, width, height))
  }

  class SimulationGraphUI {
    /** The year mapped onto the right edge. */
    const maxYear: YearSpan
    /** The chart rectangle's size. */
    const width: real
    const height: real
    /** How many vertical-axis labels there are. */
    const labelCount: nat

    var maxAssetValue: real
    var dataPoints: seq<DataPoint>
    /** Positions of the drawn point objects. */
    var pointList: seq<Vec2>
    /** The drawn line objects. */
    var lines: seq<Segment>
    /** The values shown on the vertical-axis labels, bottom to top. */
    var axisLabels: seq<real>

    /** The chart as the scene creates it, including what Awake does. */
    constructor (maxYear: YearSpan, maxAssetValue: real, width: real, height: real, labelCount: nat)
      ensures this.maxYear == maxYear && this.maxAssetValue == maxAssetValue
      ensures this.width == width && this.height == height && this.labelCount == labelCount
      ensures dataPoints == [] && pointList == [] && lines == []
      ensures labelCount > 0 ==> axisLabels == AxisLabelValues(maxAssetValue, labelCount)
    {
      this.maxYear := maxYear;
      this.maxAssetValue := maxAssetValue;
      this.width := width;
      this.height := height;
      this.labelCount := labelCount;
      dataPoints := [];
      pointList := [];
      lines := [];
      axisLabels := seq(labelCount, _ => 0.0);
      new;
      UpdateYAxisLabels();
    }

    /** Removes every point and stored value; the axis maximum stays as it is. */
    method ResetGraph()
      modifies this
      ensures dataPoints == [] && pointList == [] && lines == []
      ensures maxAssetValue == old(maxAssetValue)
      ensures labelCount > 0 ==> axisLabels == AxisLabelValues(maxAssetValue, labelCount)
      ensures labelCount == 0 ==> axisLabels == old(axisLabels)
    {
      lines := [];
      pointList := [];
      dataPoints := [];
      UpdateYAxisLabels();
    }

    /** Sets the axis maximum, never below 1, and redraws. */
    method SetMaxAssetValue(newMax: real)
      modifies this
      ensures maxAssetValue == MaxReal(1.0, newMax) && maxAssetValue >= 1.0
      ensures dataPoints == old(dataPoints)
      ensures pointList == PointPositions(dataPoints, maxYear, maxAssetValue, width, height)
      ensures lines == Segments(pointList)
      ensures labelCount > 0 ==> axisLabels == AxisLabelValues(maxAssetValue, labelCount)
      ensures labelCount == 0 ==> axisLabels == old(axisLabels)
    {
      maxAssetValue := MaxReal(1.0, newMax);
      RedrawAllPoints();
    }

    /**
     * Stores one more point, raises the axis maximum to 1.1 times the largest asset if some asset now
     * exceeds it, and redraws.
     */
    method AddPoint(year: int, asset: int)
      modifies this
      ensures dataPoints == old(dataPoints) + [DataPoint(year, asset)]
      ensures maxAssetValue == RaisedMax(dataPoints, old(maxAssetValue))
      ensures maxAssetValue >= old(maxAssetValue)
      ensures forall k :: 0 <= k < |dataPoints| ==> dataPoints[k].asset as real <= maxAssetValue
      ensures pointList == PointPositions(dataPoints, maxYear, maxAssetValue, width, height)
      ensures lines == Segments(pointList)
      ensures labelCount > 0 ==> axisLabels == AxisLabelValues(maxAssetValue, labelCount)
      ensures labelCount == 0 ==> axisLabels == old(axisLabels)
    {
      dataPoints := dataPoints + [DataPoint(year, asset)];

      var maxSeen := 0.0;
      for i := 0 to |dataPoints|
        invariant maxSeen == MaxSeen(dataPoints[..i])
      {
        assert dataPoints[..i + 1][..i] == dataPoints[..i];
        var p := dataPoints[i];
        if p.asset as real > maxSeen {
          maxSeen := p.asset as real;
        }
      }
      assert dataPoints[..|dataPoints|] == dataPoints;

      if maxSeen > maxAssetValue {
        maxAssetValue := maxSeen * 1.1;
      }

      RedrawAllPoints();
    }

    /** Redraws one point per stored value, each joined to the previous one by a line. */
    method RedrawAllPoints()
      modifies this`pointList, this`lines, this`axisLabels
      ensures pointList == PointPositions(dataPoints, maxYear, maxAssetValue, width, height)
      ensures lines == Segments(pointList)
      ensures labelCount > 0 ==> axisLabels == AxisLabelValues(maxAssetValue, labelCount)
      ensures labelCount == 0 ==> axisLabels == old(axisLabels)
    {
      UpdateYAxisLabels();
      DrawDataPoints();
    }

    /** Removes the drawn objects and draws one point per stored value, each joined to the previous one by a line. */
    method DrawDataPoints()
      modifies this`pointList, this`lines
      ensures pointList == PointPositions(dataPoints, maxYear, maxAssetValue, width, height)
      ensures lines == Segments(pointList)
    {
      lines := [];
      pointList := [];

      ghost var expected := PointPositions(dataPoints, maxYear, maxAssetValue, width, height);
      for i := 0 to |dataPoints|
        invariant pointList == expected[..i]
        invariant lines == Segments(pointList)
      {
        var dp := dataPoints[i];

        var localPos := PointPosition(dp, maxYear, maxAssetValue, width, height);

        DrawPoint(localPos);
        assert expected[..i + 1] == expected[..i] + [localPos];
      }
      assert expected[..|dataPoints|] == expected;
    }

    /** Draws one point and, when an earlier point exists, the line joining it to the new one. */
    method DrawPoint(localPos: Vec2)
      requires lines == Segments(pointList)
      modifies this`pointList, this`lines
      ensures pointList == old(pointList) + [localPos]
      ensures lines == Segments(pointList)
    {
      if |pointList| > 0 {
        var prev := pointList[|pointList| - 1];
        SegmentsSnoc(pointList, localPos);
        lines := lines + [Segment(prev, localPos)];
      }

      pointList := pointList + [localPos];
    }

    /** Sets every vertical-axis label to its value for the current maximum; with no labels nothing happens. */
    method UpdateYAxisLabels()
      modifies this`axisLabels
      ensures labelCount > 0 ==> axisLabels == AxisLabelValues(maxAssetValue, labelCount)
      ensures labelCount == 0 ==> axisLabels == old(axisLabels)
    {
      if labelCount == 0 {
        return;
      }

      var n := labelCount;
      if n == 1 {
        axisLabels := [maxAssetValue];
        return;
      }

      var labels: seq<real> := [];
      for i := 0 to n
        invariant |labels| == i
        invariant forall k :: 0 <= k < i ==> labels[k] == AxisLabelValue(maxAssetValue, k, n)
      {
        var t := i as real / (n - 1) as real;
        var value := RoundToInt(maxAssetValue * t);
        assert maxAssetValue * t == Share(maxAssetValue, i, n);
        labels := labels + [value as real];
      }
      axisLabels := labels;
    }
  }
}
