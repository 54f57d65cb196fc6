/** The Bezier smoother: every adjacent pair of curve samples gets a cubic
    Bezier segment whose inner control points lie a third of the angular gap
    inside the pair, along slopes estimated from the neighbouring samples,
    and the segment is sampled at evenly spaced interior parameters. */
module Bezier {
  import opened Curve

  /** `pow(x, 3)`. */
  function Cube(x: real): real
  {
    x * x * x
  }

  /** The cubic Bernstein blend of four control values, one axis at a time. */
  function Bernstein(t: real, c0: real, c1: real, c2: real, c3: real): (r: real)
    ensures t == 0.0 ==> r == c0
    ensures t == 1.0 ==> r == c3
  {
    var tSquared := t * t;
    var oneMinusT := 1.0 - t;
    var oneMinusTSquared := oneMinusT * oneMinusT;
    Cube(oneMinusT) * c0
      + 3.0 * oneMinusTSquared * t * c1
      + 3.0 * oneMinusT * tSquared * c2
      + Cube(t) * c3
  }

  /** BezierPoint: the point at parameter `t` of the cubic Bezier curve with
      the first four `controlPoints`, both axes blended independently. */
  function BezierPoint(t: real, controlPoints: seq<DistortionPoint>): (p: DistortionPoint)
    requires |controlPoints| >= 4
    ensures t == 0.0 ==> p == controlPoints[0]
    ensures t == 1.0 ==> p == controlPoints[3]
  {
    DistortionPoint(
      Bernstein(t, controlPoints[0].degree, controlPoints[1].degree,
                controlPoints[2].degree, controlPoints[3].degree),
      Bernstein(t, controlPoints[0].position, controlPoints[1].position,
                controlPoints[2].position, controlPoints[3].position))
  }

  /** The Bernstein weights sum to one: a constant control polygon gives the
      constant. */
  lemma BernsteinConstant(t: real, c: real)
    ensures Bernstein(t, c, c, c, c) == c
  {
    var s := 1.0 - t;
    assert Cube(s) + 3.0 * s * s * t + 3.0 * s * t * t + Cube(t) == (s + t) * (s + t) * (s + t);
    assert s + t == 1.0;
  }

  /** With the two inner control values a third of the way in from each end,
      the blend is linear in `t`: the evenly spaced control angles make the
      angle axis of the Bezier segment a straight interpolation. */
  lemma BernsteinEvenlySpaced(t: real, a: real, b: real)
    ensures Bernstein(t, a, a + (b - a) / 3.0, b - (b - a) / 3.0, b) == Lerp(a, b, t)
  {
    var s := 1.0 - t;
    var d := b - a;
    assert s + t == 1.0;
    calc {
      Bernstein(t, a, a + d / 3.0, b - d / 3.0, b);
      Cube(s) * a + 3.0 * s * s * t * (a + d / 3.0) + 3.0 * s * t * t * (a + 2.0 * d / 3.0) + Cube(t) * (a + d);
      a * (Cube(s) + 3.0 * s * s * t + 3.0 * s * t * t + Cube(t)) + d * t * (s * s + 2.0 * s * t + t * t);
      { assert Cube(s) + 3.0 * s * s * t + 3.0 * s * t * t + Cube(t) == (s + t) * (s + t) * (s + t);
        assert s * s + 2.0 * s * t + t * t == (s + t) * (s + t); }
      a + d * t;
    }
  }

  /** The number of points inserted per segment: the inner loop of the
      source runs `innerPointCounts` times, not at all when it is negative. */
  function Count(innerPointCounts: int): nat
  {
    if innerPointCounts > 0 then innerPointCounts else 0
  }

  /** Where sample `i` lands in the smoothed curve: each earlier segment
      contributes its anchor and its inserted points. */
  function AnchorIndex(i: nat, innerPointCounts: int): (a: nat)
    ensures a >= i
  {
    if i == 0 then 0 else AnchorIndex(i - 1, innerPointCounts) + Count(innerPointCounts) + 1
  }

  /** Sample `i` lands at index `i (C + 1)`. */
  lemma {:induction false} AnchorIndexProduct(i: nat, innerPointCounts: int)
    ensures AnchorIndex(i, innerPointCounts) == i * (Count(innerPointCounts) + 1)
  {
    if i > 0 {
      AnchorIndexProduct(i - 1, innerPointCounts);
      var w := Count(innerPointCounts) + 1;
      var previous := i - 1;
      assert i * w == previous * w + w;
    }
  }

  /** The parameter of the `j`-th inserted point, `(j + 1) / (K + 1)`. */
  function Param(j: int, innerPointCounts: int): (t: real)
    requires 0 <= j < innerPointCounts
    ensures 0.0 < t < 1.0
  {
    (j + 1) as real / (innerPointCounts + 1) as real
  }

  /** The four control points of segment `i`: the two anchors, and between
      them a point a third of the gap from each anchor, raised along the
      slope estimated at that anchor (the chord slope at the ends of the
      curve, the slope across the neighbours elsewhere). */
  function ControlPoints(points: seq<DistortionPoint>, i: nat): (cp: seq<DistortionPoint>)
    requires i + 1 < |points|
    ensures |cp| == 4 && cp[0] == points[i] && cp[3] == points[i + 1]
    ensures var gap := points[i + 1].degree - points[i].degree;
      cp[1].degree == points[i].degree + gap / 3.0 && cp[2].degree == points[i + 1].degree - gap / 3.0
  {
    var smoothAmount := 1.0 / 3.0;
    var prevPoint := points[i];
    var nextPoint := points[i + 1];
    var centerDistance := (nextPoint.degree - prevPoint.degree) * smoothAmount;
    [prevPoint,
     Lift(prevPoint, centerDistance, PrevSlope(points, i)),
     Lift(nextPoint, -centerDistance, NextSlope(points, i)),
     nextPoint]
  }

  /** The slope of the chord from `a` to `b`. */
  function Slope(a: DistortionPoint, b: DistortionPoint): real
  {
    Quotient(b.position - a.position, b.degree - a.degree)
  }

  /** The slope estimated at sample `i`: across its two neighbours, or the
      chord slope of the segment at the start of the curve. */
  function PrevSlope(points: seq<DistortionPoint>, i: nat): real
    requires i + 1 < |points|
  {
    if i <= 0 then Slope(points[i], points[i + 1]) else Slope(points[i - 1], points[i + 1])
  }

  /** The slope estimated at sample `i + 1`: across its two neighbours, or the
      chord slope of the segment at the end of the curve. */
  function NextSlope(points: seq<DistortionPoint>, i: nat): real
    requires i + 1 < |points|
  {
    if i >= |points| - 2 then Slope(points[i], points[i + 1]) else Slope(points[i], points[i + 2])
  }

  /** The inner control point `distance` along the angle axis from `anchor`,
      raised along `slope`. */
  function Lift(anchor: DistortionPoint, distance: real, slope: real): DistortionPoint
  {
    DistortionPoint(anchor.degree + distance, distance * slope + anchor.position)
  }

  /** A chord between two zero positions is flat. */
  lemma FlatSlope(a: DistortionPoint, b: DistortionPoint)
    requires a.position == 0.0 && b.position == 0.0
    ensures Slope(a, b) == 0.0
  {
  }

  /** A flat lift from a zero anchor stays at zero. */
  lemma FlatLift(anchor: DistortionPoint, slope: real)
    requires anchor.position == 0.0 && slope == 0.0
    ensures forall distance :: Lift(anchor, distance, slope).position == 0.0
  {
  }

  /** Tangent continuity at an interior sample: the last inner control point
      of the segment before it and the first inner control point of the
      segment after it lie on one line through the sample, whose slope is the
      chord across its two neighbours. When the angles rise, the two control
      points sit on either side of the sample. */
  lemma TangentContinuity(points: seq<DistortionPoint>, i: nat)
    requires 0 < i < |points| - 1
    ensures var s := Slope(points[i - 1], points[i + 1]);
      var before := ControlPoints(points, i - 1)[2];
      var after := ControlPoints(points, i)[1];
      before.position - points[i].position == s * (before.degree - points[i].degree)
      && after.position - points[i].position == s * (after.degree - points[i].degree)
    ensures points[i - 1].degree < points[i].degree < points[i + 1].degree ==>
      var s := Slope(points[i - 1], points[i + 1]);
      var before := ControlPoints(points, i - 1)[2];
      var after := ControlPoints(points, i)[1];
      before.degree < points[i].degree < after.degree
      && Slope(before, points[i]) == s && Slope(points[i], after) == s
  {
    var s := Slope(points[i - 1], points[i + 1]);
    var before := ControlPoints(points, i - 1)[2];
    var after := ControlPoints(points, i)[1];
    var left := (points[i].degree - points[i - 1].degree) * (1.0 / 3.0);
    var right := (points[i + 1].degree - points[i].degree) * (1.0 / 3.0);
    assert before == Lift(points[i], -left, s);
    assert after == Lift(points[i], right, s);
    if points[i - 1].degree < points[i].degree < points[i + 1].degree {
      assert points[i].position - before.position == s * left;
      assert points[i].degree - before.degree == left;
      QuotientOfMultiple(s, left);
      assert after.position - points[i].position == s * right;
      assert after.degree - points[i].degree == right;
      QuotientOfMultiple(s, right);
    }
  }

  /** At the start of the curve the inner control point after the first
      sample lies on the chord of the first segment. */
  lemma StartTangent(points: seq<DistortionPoint>)
    requires |points| >= 2
    ensures var first := ControlPoints(points, 0)[1];
      first.position - points[0].position == Slope(points[0], points[1]) * (first.degree - points[0].degree)
  {
    var chord := Slope(points[0], points[1]);
    var gap := (points[1].degree - points[0].degree) * (1.0 / 3.0);
    assert ControlPoints(points, 0)[1] == Lift(points[0], gap, chord);
  }

  /** At the end of the curve the inner control point before the last
      sample lies on the chord of the last segment. */
  lemma EndTangent(points: seq<DistortionPoint>, i: nat)
    requires i == |points| - 2
    ensures var last := ControlPoints(points, i)[2];
      last.position - points[i + 1].position == Slope(points[i], points[i + 1]) * (last.degree - points[i + 1].degree)
  {
    var chord := Slope(points[i], points[i + 1]);
    var gap := (points[i + 1].degree - points[i].degree) * (1.0 / 3.0);
    assert ControlPoints(points, i)[2] == Lift(points[i + 1], -gap, chord);
  }

  /** The points inserted between samples `i` and `i + 1`. */
  function Inner(points: seq<DistortionPoint>, innerPointCounts: int, i: nat): (r: seq<DistortionPoint>)
    requires i + 1 < |points|
    ensures |r| == Count(innerPointCounts)
  {
    seq(Count(innerPointCounts), j requires 0 <= j < Count(innerPointCounts) =>
      BezierPoint(Param(j, innerPointCounts), ControlPoints(points, i)))
  }

  /** What one pass of the outer loop appends: the left anchor, then the
      inserted points. */
  function Segment(points: seq<DistortionPoint>, innerPointCounts: int, i: nat): seq<DistortionPoint>
    requires i + 1 < |points|
  {
    [points[i]] + Inner(points, innerPointCounts, i)
  }

  /** The output after the first `n` passes of the outer loop. */
  function SmoothedPrefix(points: seq<DistortionPoint>, innerPointCounts: int, n: nat): (r: seq<DistortionPoint>)
    requires n < |points|
    ensures |r| == AnchorIndex(n, innerPointCounts)
  {
    if n == 0 then []
    else SmoothedPrefix(points, innerPointCounts, n - 1) + Segment(points, innerPointCounts, n - 1)
  }

  /** The smoothed curve: every segment, then the last sample. */
  function Smoothed(points: seq<DistortionPoint>, innerPointCounts: int): (r: seq<DistortionPoint>)
    requires |points| >= 1
    ensures |r| == AnchorIndex(|points| - 1, innerPointCounts) + 1
    ensures |r| >= |points|
  {
    SmoothedPrefix(points, innerPointCounts, |points| - 1) + [points[|points| - 1]]
  }

  /** The smoothed curve has `N + (N - 1) C` points. */
  lemma SmoothedLength(points: seq<DistortionPoint>, innerPointCounts: int)
    requires |points| >= 1
    ensures |Smoothed(points, innerPointCounts)| == |points| + (|points| - 1) * Count(innerPointCounts)
  {
    var n := |points| - 1;
    var c := Count(innerPointCounts);
    AnchorIndexProduct(n, innerPointCounts);
    assert n * (c + 1) == n + n * c;
  }

  /** SmoothPoints: the source's nested loops, appending to `outPoints`. */
  method SmoothPoints(points: seq<DistortionPoint>, innerPointCounts: int) returns (outPoints: seq<DistortionPoint>)
    requires |points| >= 1
    ensures outPoints == Smoothed(points, innerPointCounts)
    ensures forall i :: 0 <= i < |points| ==>
      AnchorIndex(i, innerPointCounts) < |outPoints| && outPoints[AnchorIndex(i, innerPointCounts)] == points[i]
    ensures outPoints[0] == points[0] && outPoints[|outPoints| - 1] == points[|points| - 1]
  {
    outPoints := [];
    var i := 0;
    while i < |points| - 1
      invariant 0 <= i <= |points| - 1
      invariant outPoints == SmoothedPrefix(points, innerPointCounts, i)
    {
      var controlPoints := ControlPoints(points, i);
      outPoints := outPoints + [points[i]];
      var j := 0;
      while j < innerPointCounts
        invariant 0 <= j <= Count(innerPointCounts)
        invariant outPoints == SmoothedPrefix(points, innerPointCounts, i) + [points[i]]
                               + Inner(points, innerPointCounts, i)[..j]
      {
        ghost var inner := Inner(points, innerPointCounts, i);
        assert inner[..j + 1] == inner[..j] + [inner[j]];
        outPoints := outPoints + [BezierPoint(Param(j, innerPointCounts), controlPoints)];
        j := j + 1;
      }
      assert Inner(points, innerPointCounts, i)[..j] == Inner(points, innerPointCounts, i);
      i := i + 1;
    }
    outPoints := outPoints + [points[|points| - 1]];
    SmoothedAnchors(points, innerPointCounts);
    SmoothedAnchor(points, innerPointCounts, 0);
  }

  /** Position `i * (C + 1) + j` of a prefix is position `j` of segment `i`. */
  lemma {:induction false} SmoothedPrefixAt(points: seq<DistortionPoint>, innerPointCounts: int, n: nat, i: nat, j: nat)
    requires n < |points| && i < n && j <= Count(innerPointCounts)
    ensures AnchorIndex(i, innerPointCounts) + j < |SmoothedPrefix(points, innerPointCounts, n)|
    ensures SmoothedPrefix(points, innerPointCounts, n)[AnchorIndex(i, innerPointCounts) + j]
            == Segment(points, innerPointCounts, i)[j]
  {
    if i < n - 1 {
      SmoothedPrefixAt(points, innerPointCounts, n - 1, i, j);
    }
  }

  /** Every sample of the input stands at index `i * (C + 1)` of the output. */
  lemma SmoothedAnchor(points: seq<DistortionPoint>, innerPointCounts: int, i: nat)
    requires i < |points|
    ensures AnchorIndex(i, innerPointCounts) < |Smoothed(points, innerPointCounts)|
    ensures Smoothed(points, innerPointCounts)[AnchorIndex(i, innerPointCounts)] == points[i]
  {
    var n := |points| - 1;
    if i < n {
      SmoothedPrefixAt(points, innerPointCounts, n, i, 0);
    }
  }

  lemma SmoothedAnchors(points: seq<DistortionPoint>, innerPointCounts: int)
    requires |points| >= 1
    ensures forall i :: 0 <= i < |points| ==>
      AnchorIndex(i, innerPointCounts) < |Smoothed(points, innerPointCounts)| &&
      Smoothed(points, innerPointCounts)[AnchorIndex(i, innerPointCounts)] == points[i]
  {
    forall i | 0 <= i < |points|
      ensures AnchorIndex(i, innerPointCounts) < |Smoothed(points, innerPointCounts)|
      ensures Smoothed(points, innerPointCounts)[AnchorIndex(i, innerPointCounts)] == points[i]
    {
      SmoothedAnchor(points, innerPointCounts, i);
    }
  }

  /** The `j`-th point inserted between samples `i` and `i + 1` is the Bezier
      point at parameter `(j + 1) / (K + 1)`, strictly between 0 and 1, and
      its angle is the angle interpolated at that parameter between the two
      anchors. */
  lemma SmoothedInner(points: seq<DistortionPoint>, innerPointCounts: int, i: nat, j: nat)
    requires i + 1 < |points| && j < Count(innerPointCounts)
    ensures AnchorIndex(i, innerPointCounts) + 1 + j < |Smoothed(points, innerPointCounts)|
    ensures var p := Smoothed(points, innerPointCounts)[AnchorIndex(i, innerPointCounts) + 1 + j];
      && p == BezierPoint(Param(j, innerPointCounts), ControlPoints(points, i))
      && 0.0 < Param(j, innerPointCounts) < 1.0
      && p.degree == Lerp(points[i].degree, points[i + 1].degree, Param(j, innerPointCounts))
  {
    SmoothedPrefixAt(points, innerPointCounts, |points| - 1, i, j + 1);
    InnerDegree(points, innerPointCounts, i, j);
  }

  /** The angle of an inserted point is linear in its parameter. */
  lemma InnerDegree(points: seq<DistortionPoint>, innerPointCounts: int, i: nat, j: nat)
    requires i + 1 < |points| && j < Count(innerPointCounts)
    ensures Inner(points, innerPointCounts, i)[j].degree
            == Lerp(points[i].degree, points[i + 1].degree, Param(j, innerPointCounts))
  {
    var cp := ControlPoints(points, i);
    BernsteinEvenlySpaced(Param(j, innerPointCounts), points[i].degree, points[i + 1].degree);
  }

  lemma ParamIncreasing(j: int, innerPointCounts: int)
    requires 0 <= j && j + 1 < innerPointCounts
    ensures Param(j, innerPointCounts) < Param(j + 1, innerPointCounts)
  {
    var w := (innerPointCounts + 1) as real;
    assert (j + 2) as real / w == (j + 1) as real / w + 1.0 / w;
  }

  /** A segment followed by its right anchor rises strictly when the anchors
      do: every inserted point lies strictly between the anchors, in order. */
  lemma SegmentIncreasing(points: seq<DistortionPoint>, innerPointCounts: int, i: nat)
    requires i + 1 < |points| && points[i].degree < points[i + 1].degree
    ensures AdjacentIncreasing(Segment(points, innerPointCounts, i) + [points[i + 1]])
  {
    var s := Segment(points, innerPointCounts, i) + [points[i + 1]];
    forall k | 0 <= k < |s| - 1
      ensures s[k].degree < s[k + 1].degree
    {
      SegmentAt(points, innerPointCounts, i, k);
      SegmentAt(points, innerPointCounts, i, k + 1);
      SegmentStep(points, innerPointCounts, i, k);
    }
  }

  /** The interpolation parameter that index `k` of a segment followed by its
      right anchor stands for: 0 for the left anchor, `Param(k - 1)` for an
      inserted point, 1 for the right anchor. */
  function SegmentParam(innerPointCounts: int, k: nat): (t: real)
    requires k <= Count(innerPointCounts) + 1
  {
    if k == 0 then 0.0
    else if k <= Count(innerPointCounts) then Param(k - 1, innerPointCounts)
    else 1.0
  }

  function SegmentDegree(points: seq<DistortionPoint>, innerPointCounts: int, i: nat, k: nat): real
    requires i + 1 < |points| && k <= Count(innerPointCounts) + 1
  {
    Lerp(points[i].degree, points[i + 1].degree, SegmentParam(innerPointCounts, k))
  }

  lemma SegmentAt(points: seq<DistortionPoint>, innerPointCounts: int, i: nat, k: nat)
    requires i + 1 < |points| && k <= Count(innerPointCounts) + 1
    ensures var s := Segment(points, innerPointCounts, i) + [points[i + 1]];
      |s| == Count(innerPointCounts) + 2 && s[k].degree == SegmentDegree(points, innerPointCounts, i, k)
  {
    SegmentIndex(points, innerPointCounts, i, k);
    if 0 < k <= Count(innerPointCounts) {
      InnerSegmentDegree(points, innerPointCounts, i, k - 1);
    }
  }

  /** An inserted point's angle, as the segment angle at its index. */
  lemma InnerSegmentDegree(points: seq<DistortionPoint>, innerPointCounts: int, i: nat, j: nat)
    requires i + 1 < |points| && j < Count(innerPointCounts)
    ensures Inner(points, innerPointCounts, i)[j].degree == SegmentDegree(points, innerPointCounts, i, j + 1)
  {
    InnerDegree(points, innerPointCounts, i, j);
    assert SegmentParam(innerPointCounts, j + 1) == Param(j, innerPointCounts);
  }

  /** Index `k` of a segment followed by its right anchor: the left anchor,
      an inserted point, or the right anchor. */
  lemma SegmentIndex(points: seq<DistortionPoint>, innerPointCounts: int, i: nat, k: nat)
    requires i + 1 < |points| && k <= Count(innerPointCounts) + 1
    ensures var s := Segment(points, innerPointCounts, i) + [points[i + 1]];
      && |s| == Count(innerPointCounts) + 2
      && (k == 0 ==> s[k] == points[i])
      && (0 < k <= Count(innerPointCounts) ==> s[k] == Inner(points, innerPointCounts, i)[k - 1])
      && (k == Count(innerPointCounts) + 1 ==> s[k] == points[i + 1])
  {
  }

  lemma SegmentParamIncreasing(innerPointCounts: int, k: nat)
    requires k < Count(innerPointCounts) + 1
    ensures SegmentParam(innerPointCounts, k) < SegmentParam(innerPointCounts, k + 1)
  {
    var c := Count(innerPointCounts);
    if 0 < k < c {
      ParamIncreasing(k - 1, innerPointCounts);
    }
  }

  lemma SegmentStep(points: seq<DistortionPoint>, innerPointCounts: int, i: nat, k: nat)
    requires i + 1 < |points| && points[i].degree < points[i + 1].degree
    requires k < Count(innerPointCounts) + 1
    ensures SegmentDegree(points, innerPointCounts, i, k) < SegmentDegree(points, innerPointCounts, i, k + 1)
  {
    SegmentParamIncreasing(innerPointCounts, k);
    LerpIncreasing(points[i].degree, points[i + 1].degree,
                   SegmentParam(innerPointCounts, k), SegmentParam(innerPointCounts, k + 1));
  }

  lemma {:induction false} SmoothedPrefixIncreasing(points: seq<DistortionPoint>, innerPointCounts: int, n: nat)
    requires n < |points| && DegreesIncreasing(points)
    ensures AdjacentIncreasing(SmoothedPrefix(points, innerPointCounts, n) + [points[n]])
  {
    if n > 0 {
      var prefix := SmoothedPrefix(points, innerPointCounts, n - 1);
      var segment := Segment(points, innerPointCounts, n - 1) + [points[n]];
      SmoothedPrefixIncreasing(points, innerPointCounts, n - 1);
      SegmentIncreasing(points, innerPointCounts, n - 1);
      AdjacentConcat(prefix, points[n - 1], segment);
      assert SmoothedPrefix(points, innerPointCounts, n) + [points[n]] == prefix + segment;
    }
  }

  /** Smoothing keeps strictly increasing angles strictly increasing. */
  lemma SmoothedIncreasing(points: seq<DistortionPoint>, innerPointCounts: int)
    requires |points| >= 1 && DegreesIncreasing(points)
    ensures DegreesIncreasing(Smoothed(points, innerPointCounts))
  {
    SmoothedPrefixIncreasing(points, innerPointCounts, |points| - 1);
    AdjacentToIncreasing(Smoothed(points, innerPointCounts));
  }

  /** A flat zero curve has flat zero control points: every slope is zero. */
  lemma ControlPointsZero(points: seq<DistortionPoint>, i: nat)
    requires i + 1 < |points| && ZeroPositions(points)
    ensures ZeroPositions(ControlPoints(points, i))
  {
    assert points[i].position == 0.0 && points[i + 1].position == 0.0;
    FlatSlope(points[i], points[i + 1]);
    if i > 0 {
      FlatSlope(points[i - 1], points[i + 1]);
    }
    if i < |points| - 2 {
      FlatSlope(points[i], points[i + 2]);
    }
    FlatLift(points[i], PrevSlope(points, i));
    FlatLift(points[i + 1], NextSlope(points, i));
  }

  lemma {:induction false} SmoothedPrefixZero(points: seq<DistortionPoint>, innerPointCounts: int, n: nat)
    requires n < |points| && ZeroPositions(points)
    ensures ZeroPositions(SmoothedPrefix(points, innerPointCounts, n))
  {
    if n > 0 {
      SmoothedPrefixZero(points, innerPointCounts, n - 1);
      var cp := ControlPoints(points, n - 1);
      ControlPointsZero(points, n - 1);
      var inner := Inner(points, innerPointCounts, n - 1);
      forall j | 0 <= j < |inner|
        ensures inner[j].position == 0.0
      {
        BernsteinConstant(Param(j, innerPointCounts), 0.0);
      }
      var prefix := SmoothedPrefix(points, innerPointCounts, n - 1);
      var segment := Segment(points, innerPointCounts, n - 1);
      assert SmoothedPrefix(points, innerPointCounts, n) == prefix + segment;
    }
  }

  /** Smoothing a flat zero curve gives a flat zero curve. */
  lemma SmoothedZero(points: seq<DistortionPoint>, innerPointCounts: int)
    requires |points| >= 1 && ZeroPositions(points)
    ensures ZeroPositions(Smoothed(points, innerPointCounts))
  {
    SmoothedPrefixZero(points, innerPointCounts, |points| - 1);
  }
}
