/** The piecewise-linear samplers: forward (angle to position) and inverse
    (position to angle), with the asymmetric extrapolation policy of the
    source, flat below the first sample and linear above the last. */
module Sampler {
  import opened Curve

  /** The key `x` falls in segment `i`, end points included. */
  predicate InSegment(points: seq<DistortionPoint>, i: nat, x: real)
    requires i + 1 < |points|
  {
    points[i].degree <= x <= points[i + 1].degree
  }

  /** Linear interpolation (or extrapolation) along segment `i` at key `x`. */
  function SegmentValue(points: seq<DistortionPoint>, i: nat, x: real): real
    requires i + 1 < |points|
  {
    Lerp(points[i].position, points[i + 1].position,
         Quotient(x - points[i].degree, points[i + 1].degree - points[i].degree))
  }

  /** The sampler's linear search, resumed at segment `i`: the first segment
      holding `x` decides; when none does, a key below the first sample
      gives the first position and any other key extrapolates along the
      last segment. */
  function SampleFrom(points: seq<DistortionPoint>, x: real, i: nat): real
    requires 2 <= |points| && i < |points|
    decreases |points| - i
  {
    if i == |points| - 1 then
      if x < points[0].degree then points[0].position
      else SegmentValue(points, |points| - 2, x)
    else if InSegment(points, i, x) then SegmentValue(points, i, x)
    else SampleFrom(points, x, i + 1)
  }

  /** The position the forward sampler gives for angle `x`. */
  function Sample(points: seq<DistortionPoint>, x: real): real
    requires 2 <= |points|
  {
    SampleFrom(points, x, 0)
  }

  /** The angle the inverse sampler gives for position `x`: the same rule
      keyed on position. */
  function SampleInverse(points: seq<DistortionPoint>, x: real): real
    requires 2 <= |points|
  {
    Sample(Swapped(points), x)
  }

  /** SampleFromPoints: the source's search loop with early return. */
  method SampleFromPoints(points: seq<DistortionPoint>, degree: real) returns (r: real)
    requires 2 <= |points|
    ensures r == Sample(points, degree)
  {
    var i := 0;
    while i < |points| - 1
      invariant 0 <= i <= |points| - 1
      invariant SampleFrom(points, degree, i) == Sample(points, degree)
    {
      if degree >= points[i].degree && degree <= points[i + 1].degree {
        var t := Quotient(degree - points[i].degree, points[i + 1].degree - points[i].degree);
        return points[i].position + t * (points[i + 1].position - points[i].position);
      }
      i := i + 1;
    }
    if degree < points[0].degree {
      return points[0].position;
    } else {
      var k := |points| - 2;
      var t := Quotient(degree - points[k].degree, points[k + 1].degree - points[k].degree);
      return Lerp(points[k].position, points[k + 1].position, t);
    }
  }

  /** SampleFromPointsInverse: the same loop comparing positions. */
  method SampleFromPointsInverse(points: seq<DistortionPoint>, position: real) returns (r: real)
    requires 2 <= |points|
    ensures r == SampleInverse(points, position)
  {
    ghost var swapped := Swapped(points);
    var i := 0;
    while i < |points| - 1
      invariant 0 <= i <= |points| - 1
      invariant SampleFrom(swapped, position, i) == SampleInverse(points, position)
    {
      if position >= points[i].position && position <= points[i + 1].position {
        var t := Quotient(position - points[i].position, points[i + 1].position - points[i].position);
        return points[i].degree + t * (points[i + 1].degree - points[i].degree);
      }
      i := i + 1;
    }
    if position < points[0].position {
      return points[0].degree;
    } else {
      var k := |points| - 2;
      var t := Quotient(position - points[k].position, points[k + 1].position - points[k].position);
      return Lerp(points[k].degree, points[k + 1].degree, t);
    }
  }

  /** Segments that do not hold `x` are passed over by the search. */
  lemma {:induction false} SampleFromSkips(points: seq<DistortionPoint>, x: real, k: nat, i: nat)
    requires 2 <= |points| && k <= i < |points|
    requires forall m :: k <= m < i ==> !InSegment(points, m, x)
    ensures SampleFrom(points, x, k) == SampleFrom(points, x, i)
    decreases i - k
  {
    if k < i {
      SampleFromSkips(points, x, k + 1, i);
    }
  }

  /** The first segment holding `x` decides the sample. */
  lemma SampleFirstSegment(points: seq<DistortionPoint>, x: real, i: nat)
    requires 2 <= |points| && i + 1 < |points|
    requires InSegment(points, i, x)
    requires forall m :: 0 <= m < i ==> !InSegment(points, m, x)
    ensures Sample(points, x) == SegmentValue(points, i, x)
  {
    SampleFromSkips(points, x, 0, i);
  }

  /** Below the first sample of a sorted curve the sampler is flat. */
  lemma SampleBelow(points: seq<DistortionPoint>, x: real)
    requires 2 <= |points| && DegreesSorted(points)
    requires x < points[0].degree
    ensures Sample(points, x) == points[0].position
  {
    forall m | 0 <= m < |points| - 1
      ensures !InSegment(points, m, x)
    {
      assert points[0].degree <= points[m].degree;
    }
    SampleFromSkips(points, x, 0, |points| - 1);
  }

  /** Above the last sample of a sorted curve the sampler extrapolates along
      the last segment. */
  lemma SampleAbove(points: seq<DistortionPoint>, x: real)
    requires 2 <= |points| && DegreesSorted(points)
    requires x > points[|points| - 1].degree
    ensures Sample(points, x) == SegmentValue(points, |points| - 2, x)
  {
    var n := |points|;
    forall m | 0 <= m < n - 1
      ensures !InSegment(points, m, x)
    {
      assert points[m + 1].degree <= points[n - 1].degree;
    }
    assert points[0].degree <= points[n - 1].degree;
    SampleFromSkips(points, x, 0, n - 1);
  }

  /** One segment width beyond the last sample, the sampler continues the
      last segment's slope: it is not flat there. */
  lemma SampleOneSegmentBeyond(points: seq<DistortionPoint>)
    requires 2 <= |points| && DegreesSorted(points)
    requires points[|points| - 2].degree < points[|points| - 1].degree
    ensures var n := |points|;
      Sample(points, 2.0 * points[n - 1].degree - points[n - 2].degree)
        == 2.0 * points[n - 1].position - points[n - 2].position
  {
    var n := |points|;
    var delta := points[n - 1].degree - points[n - 2].degree;
    var x := 2.0 * points[n - 1].degree - points[n - 2].degree;
    SampleAbove(points, x);
    assert x - points[n - 2].degree == 2.0 * delta;
    assert Quotient(2.0 * delta, delta) == 2.0;
  }

  /** On a curve with strictly increasing angles, a key inside any segment is
      interpolated on that segment. */
  lemma SampleInsideSegment(points: seq<DistortionPoint>, x: real, i: nat)
    requires 2 <= |points| && i + 1 < |points| && DegreesIncreasing(points)
    requires InSegment(points, i, x)
    ensures Sample(points, x) == SegmentValue(points, i, x)
  {
    if i > 0 && InSegment(points, i - 1, x) {
      assert x == points[i].degree;
      forall m | 0 <= m < i - 1
        ensures !InSegment(points, m, x)
      {
        assert points[m + 1].degree < points[i].degree;
      }
      SampleFirstSegment(points, x, i - 1);
      QuotientSelf(points[i].degree - points[i - 1].degree);
      QuotientOfZero(x - points[i].degree, points[i + 1].degree - points[i].degree);
    } else {
      forall m | 0 <= m < i
        ensures !InSegment(points, m, x)
      {
        if m < i - 1 {
          assert points[m + 1].degree < points[i].degree;
        }
      }
      SampleFirstSegment(points, x, i);
    }
  }

  /** At each sample angle of a curve with strictly increasing angles the
      sampler returns that sample's position. */
  lemma SampleAtKnot(points: seq<DistortionPoint>, k: nat)
    requires 2 <= |points| && k < |points| && DegreesIncreasing(points)
    ensures Sample(points, points[k].degree) == points[k].position
  {
    var x := points[k].degree;
    if k + 1 < |points| {
      SampleInsideSegment(points, x, k);
    } else {
      SampleInsideSegment(points, x, k - 1);
      var d := points[k].degree - points[k - 1].degree;
      assert points[k - 1].degree < points[k].degree;
      QuotientOfMultiple(1.0, d);
    }
  }

  /** Every key between the first and last angle lies in some segment. */
  lemma {:induction false} FindSegment(points: seq<DistortionPoint>, x: real, k: nat) returns (i: nat)
    requires 2 <= |points| && k + 1 < |points|
    requires points[k].degree <= x <= points[|points| - 1].degree
    ensures k <= i && i + 1 < |points| && InSegment(points, i, x)
    decreases |points| - k
  {
    if x <= points[k + 1].degree {
      i := k;
    } else {
      i := FindSegment(points, x, k + 1);
    }
  }

  /** Inverse sampling below the first position of a curve with sorted
      positions is flat. */
  lemma SampleInverseBelow(points: seq<DistortionPoint>, x: real)
    requires 2 <= |points|
    requires forall a, b :: 0 <= a < b < |points| ==> points[a].position <= points[b].position
    requires x < points[0].position
    ensures SampleInverse(points, x) == points[0].degree
  {
    SwappedIncreasing(points);
    SampleBelow(Swapped(points), x);
  }

  /** Inverse sampling above the last position extrapolates along the last
      segment. */
  lemma SampleInverseAbove(points: seq<DistortionPoint>, x: real)
    requires 2 <= |points|
    requires forall a, b :: 0 <= a < b < |points| ==> points[a].position <= points[b].position
    requires x > points[|points| - 1].position
    ensures var n := |points|;
      SampleInverse(points, x)
        == Lerp(points[n - 2].degree, points[n - 1].degree,
                Quotient(x - points[n - 2].position, points[n - 1].position - points[n - 2].position))
  {
    SwappedIncreasing(points);
    SampleAbove(Swapped(points), x);
  }

  /** At each sample position of a curve with strictly increasing positions
      the inverse sampler returns that sample's angle. */
  lemma SampleInverseAtKnot(points: seq<DistortionPoint>, k: nat)
    requires 2 <= |points| && k < |points| && PositionsIncreasing(points)
    ensures SampleInverse(points, points[k].position) == points[k].degree
  {
    SwappedIncreasing(points);
    SampleAtKnot(Swapped(points), k);
  }

  /** Dividing the offset of an interpolated value by the segment's rise gives
      back the interpolation parameter. */
  lemma LerpParameter(a: real, b: real, t: real)
    requires a != b
    ensures Quotient(Lerp(a, b, t) - a, b - a) == t
  {
    var gap := b - a;
    assert Lerp(a, b, t) - a == t * gap;
    QuotientOfMultiple(t, gap);
  }

  /** Interpolating a segment at the parameter of `x` gives back `x`. */
  lemma LerpAtParameter(a: real, b: real, x: real)
    requires a != b
    ensures Lerp(a, b, Quotient(x - a, b - a)) == x
  {
    var gap := b - a;
    var t := Quotient(x - a, gap);
    assert t * gap == x - a;
    assert t * (b - a) == t * gap;
  }

  /** Forward then inverse sampling is the identity on every angle from the
      first sample on, for a curve strictly increasing on both axes: inside
      the curve both samplers interpolate the same segment, and beyond its
      end both extrapolate the last one. */
  lemma SampleRoundTrip(points: seq<DistortionPoint>, x: real)
    requires 2 <= |points| && DegreesIncreasing(points) && PositionsIncreasing(points)
    requires x >= points[0].degree
    ensures SampleInverse(points, Sample(points, x)) == x
  {
    if x <= points[|points| - 1].degree {
      var i := FindSegment(points, x, 0);
      RoundTripInside(points, x, i);
    } else {
      RoundTripBeyond(points, x);
    }
  }

  /** Inverse then forward sampling is the identity on every output
      position from the first sample's on: the round trip above, applied to
      the curve with its axes exchanged. */
  lemma InverseRoundTrip(points: seq<DistortionPoint>, y: real)
    requires 2 <= |points| && DegreesIncreasing(points) && PositionsIncreasing(points)
    requires y >= points[0].position
    ensures Sample(points, SampleInverse(points, y)) == y
  {
    var w := Swapped(points);
    SwappedIncreasing(points);
    SwappedIncreasing(w);
    SwappedInvolution(points);
    SampleRoundTrip(w, y);
  }

  lemma RoundTripInside(points: seq<DistortionPoint>, x: real, i: nat)
    requires 2 <= |points| && DegreesIncreasing(points) && PositionsIncreasing(points)
    requires i + 1 < |points| && InSegment(points, i, x)
    ensures SampleInverse(points, Sample(points, x)) == x
  {
    var w := Swapped(points);
    SwappedIncreasing(points);
    SampleInsideSegment(points, x, i);
    var y := SegmentValue(points, i, x);
    SegmentRoundTrip(points[i].degree, points[i + 1].degree, points[i].position, points[i + 1].position, x);
    assert InSegment(w, i, y);
    SampleInsideSegment(w, y, i);
  }

  lemma RoundTripBeyond(points: seq<DistortionPoint>, x: real)
    requires 2 <= |points| && DegreesIncreasing(points) && PositionsIncreasing(points)
    requires x > points[|points| - 1].degree
    ensures SampleInverse(points, Sample(points, x)) == x
  {
    var n := |points|;
    var w := Swapped(points);
    SwappedIncreasing(points);
    SampleAbove(points, x);
    var y := SegmentValue(points, n - 2, x);
    SegmentRoundTrip(points[n - 2].degree, points[n - 1].degree, points[n - 2].position, points[n - 1].position, x);
    assert w[n - 1].degree == points[n - 1].position;
    SampleAbove(w, y);
  }

  /** The arithmetic of one segment (d0, p0) .. (d1, p1), rising on both
      axes: interpolating at `x` and then interpolating back with the axes
      exchanged gives `x`; inside the segment the value stays inside, beyond
      its end it lands beyond. */
  lemma SegmentRoundTrip(d0: real, d1: real, p0: real, p1: real, x: real)
    requires d0 < d1 && p0 < p1 && d0 <= x
    ensures var y := Lerp(p0, p1, Quotient(x - d0, d1 - d0));
      && (x <= d1 ==> p0 <= y <= p1)
      && (x > d1 ==> y > p1)
      && Lerp(d0, d1, Quotient(y - p0, p1 - p0)) == x
  {
    var d := d1 - d0;
    var t := Quotient(x - d0, d);
    assert t * d == x - d0;
    if x <= d1 {
      if t > 1.0 {
        ScaleAboveOne(t, d);
      }
      if t < 0.0 {
        ScaleNegative(t, d);
      }
    } else {
      QuotientAboveOne(x - d0, d);
      LerpBeyondEnd(p0, p1, t);
    }
    LerpParameter(p0, p1, t);
    LerpAtParameter(d0, d1, x);
  }

  /** The single-segment curve (0, 0) .. (10, 100): angle 5 samples to
      position 50 and position 50 inverts to angle 5. */
  lemma SingleSegmentExample()
    ensures Sample([DistortionPoint(0.0, 0.0), DistortionPoint(10.0, 100.0)], 5.0) == 50.0
    ensures SampleInverse([DistortionPoint(0.0, 0.0), DistortionPoint(10.0, 100.0)], 50.0) == 5.0
  {
    var points := [DistortionPoint(0.0, 0.0), DistortionPoint(10.0, 100.0)];
    assert InSegment(points, 0, 5.0);
    var w := Swapped(points);
    assert w[0] == DistortionPoint(0.0, 0.0) && w[1] == DistortionPoint(100.0, 10.0);
    assert InSegment(w, 0, 50.0);
  }

  /** A curve whose positions are all zero samples to zero everywhere. */
  lemma {:induction false} SampleFromZero(points: seq<DistortionPoint>, x: real, i: nat)
    requires 2 <= |points| && i < |points| && ZeroPositions(points)
    ensures SampleFrom(points, x, i) == 0.0
    decreases |points| - i
  {
    if i < |points| - 1 && !InSegment(points, i, x) {
      SampleFromZero(points, x, i + 1);
    }
  }

  lemma SampleOfZeroCurve(points: seq<DistortionPoint>, x: real)
    requires 2 <= |points| && ZeroPositions(points)
    ensures Sample(points, x) == 0.0
  {
    SampleFromZero(points, x, 0);
  }
}
