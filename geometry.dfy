/** Scalar positions of chart points and the straight segments that join consecutive points. */
module Geometry {

  datatype Vec2 = Vec2(x: real, y: real)

  /** A line object drawn from one point position to the next. */
  datatype Segment = Segment(from: Vec2, to: Vec2)

  /** The segments a polyline through `points` draws: one per pair of consecutive points. */
  function Segments(points: seq<Vec2>): (lines: seq<Segment>)
    ensures |lines| == if |points| == 0 then 0 else |points| - 1
    ensures forall k :: 0 <= k < |lines| ==> lines[k] == Segment(points[k], points[k + 1])
  {
    if |points| <= 1 then [] else seq(|points| - 1, k requires 0 <= k < |points| - 1 => Segment(points[k], points[k + 1]))
  }

  /** Adding a point to a non-empty polyline adds exactly the segment from the old last point to it. */
  lemma SegmentsSnoc(points: seq<Vec2>, p: Vec2)
    requires |points| > 0
    ensures Segments(points + [p]) == Segments(points) + [Segment(points[|points| - 1], p)]
  {
    var lhs, rhs := Segments(points + [p]), Segments(points) + [Segment(points[|points| - 1], p)];
    assert |lhs| == |rhs|;
    forall k | 0 <= k < |lhs| ensures lhs[k] == rhs[k] {
      if k < |points| - 1 {
        assert rhs[k] == Segment(points[k], points[k + 1]);
      }
    }
  }
}
