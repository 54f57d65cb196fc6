/** The curve model shared by the smoother, the samplers and the profile:
    a distortion curve is a sequence of (angle, output position) samples. */
module Curve {

  /** One sample of a radial distortion curve: `degree` is the angle from the
      optical centre, `position` the output displacement at that angle. */
  datatype DistortionPoint = DistortionPoint(degree: real, position: real)

  /** The source's float division `a / b`. A zero divisor, which gives an
      infinity or a NaN in IEEE arithmetic, has no real counterpart; it is
      given the value 0 here. */
  function Quotient(a: real, b: real): (q: real)
    ensures b != 0.0 ==> q * b == a
    ensures b == 0.0 ==> q == 0.0
  {
    if b == 0.0 then 0.0 else a / b
  }

  /** Linear interpolation between `a` and `b` by the parameter `t`. */
  function Lerp(a: real, b: real, t: real): (r: real)
    ensures t == 0.0 ==> r == a
    ensures t == 1.0 ==> r == b
    ensures 0.0 <= t <= 1.0 && a <= b ==> a <= r <= b
    ensures 0.0 <= t <= 1.0 && b <= a ==> b <= r <= a
  {
    ScaleBounded(t, b - a);
    a + t * (b - a)
  }

  /** A fraction `t` in [0, 1] of `d` lies between 0 and `d`. */
  lemma ScaleBounded(t: real, d: real)
    ensures 0.0 <= t <= 1.0 && d >= 0.0 ==> 0.0 <= t * d <= d
    ensures 0.0 <= t <= 1.0 && d <= 0.0 ==> d <= t * d <= 0.0
  {
    if 0.0 <= t <= 1.0 {
      if d >= 0.0 {
        ScaleBoundedNonNegative(t, d);
      } else {
        var m := -d;
        ScaleBoundedNonNegative(t, m);
        assert t * d == -(t * m);
      }
    }
  }

  lemma ScaleBoundedNonNegative(t: real, d: real)
    requires 0.0 <= t <= 1.0 && d >= 0.0
    ensures 0.0 <= t * d <= d
  {
    MulNonNegative(t, d);
    var rest := 1.0 - t;
    MulNonNegative(rest, d);
    assert d == t * d + rest * d;
  }

  /** Dividing a multiple of `d` by `d` gives back the factor. */
  lemma QuotientOfMultiple(c: real, d: real)
    requires d != 0.0
    ensures Quotient(c * d, d) == c
  {
  }

  lemma QuotientSelf(d: real)
    requires d != 0.0
    ensures Quotient(d, d) == 1.0
  {
  }

  lemma QuotientOfZero(a: real, d: real)
    requires a == 0.0
    ensures Quotient(a, d) == 0.0
  {
  }

  lemma QuotientAboveOne(a: real, d: real)
    requires d > 0.0 && a > d
    ensures Quotient(a, d) > 1.0
  {
  }

  /** On a rising pair, a larger parameter interpolates further along. */
  lemma LerpIncreasing(a: real, b: real, t1: real, t2: real)
    requires a < b && t1 < t2
    ensures Lerp(a, b, t1) < Lerp(a, b, t2)
  {
    var step := t2 - t1;
    var gap := b - a;
    MulPositive(step, gap);
    assert t2 * (b - a) == t1 * (b - a) + step * gap;
  }

  /** Interpolating past the end of a rising pair overshoots its end. */
  lemma LerpBeyondEnd(a: real, b: real, t: real)
    requires a < b && t > 1.0
    ensures Lerp(a, b, t) > b
  {
    var excess := t - 1.0;
    var gap := b - a;
    MulPositive(excess, gap);
    assert t * (b - a) == excess * gap + gap;
  }

  /** Scaling a positive `e` by more than one enlarges it. */
  lemma ScaleAboveOne(t: real, e: real)
    requires t > 1.0 && e > 0.0
    ensures t * e > e
  {
    var excess := t - 1.0;
    MulPositive(excess, e);
    assert t * e == excess * e + e;
  }

  /** Scaling a positive `e` by a negative factor makes it negative. */
  lemma ScaleNegative(t: real, e: real)
    requires t < 0.0 && e > 0.0
    ensures t * e < 0.0
  {
    var opposite := -t;
    MulPositive(opposite, e);
    assert t * e == -(opposite * e);
  }

  lemma MulPositive(x: real, y: real)
    requires x > 0.0 && y > 0.0
    ensures x * y > 0.0
  {
  }

  lemma MulNonNegative(x: real, y: real)
    requires x >= 0.0 && y >= 0.0
    ensures x * y >= 0.0
  {
  }

  function Max(a: real, b: real): (m: real)
    ensures m >= a && m >= b
    ensures m == a || m == b
  {
    if a >= b then a else b
  }

  /** The angles of the curve never decrease. */
  predicate DegreesSorted(s: seq<DistortionPoint>)
  {
    forall a, b :: 0 <= a < b < |s| ==> s[a].degree <= s[b].degree
  }

  /** The angles of the curve strictly increase. */
  predicate DegreesIncreasing(s: seq<DistortionPoint>)
  {
    forall a, b :: 0 <= a < b < |s| ==> s[a].degree < s[b].degree
  }

  /** Each angle is below the next one. */
  predicate AdjacentIncreasing(s: seq<DistortionPoint>)
  {
    forall k :: 0 <= k < |s| - 1 ==> s[k].degree < s[k + 1].degree
  }

  /** Angles rising from each sample to the next rise across the curve. */
  lemma {:induction false} AdjacentToIncreasing(s: seq<DistortionPoint>)
    requires AdjacentIncreasing(s)
    ensures DegreesIncreasing(s)
  {
    if |s| > 1 {
      var front := s[..|s| - 1];
      assert AdjacentIncreasing(front);
      AdjacentToIncreasing(front);
      forall a, b | 0 <= a < b < |s|
        ensures s[a].degree < s[b].degree
      {
        if b < |s| - 1 {
          assert front[a] == s[a] && front[b] == s[b];
        } else if a < |s| - 2 {
          assert front[a].degree < front[|s| - 2].degree;
        }
      }
    }
  }

  /** Gluing: a rising curve ending in `x`, followed by a rising curve
      starting at `x`, rises throughout. */
  lemma AdjacentConcat(a: seq<DistortionPoint>, x: DistortionPoint, b: seq<DistortionPoint>)
    requires AdjacentIncreasing(a + [x]) && AdjacentIncreasing(b)
    requires |b| > 0 && b[0] == x
    ensures AdjacentIncreasing(a + b)
  {
    var ab := a + b;
    forall k | 0 <= k < |ab| - 1
      ensures ab[k].degree < ab[k + 1].degree
    {
      if k < |a| - 1 {
        assert (a + [x])[k] == ab[k] && (a + [x])[k + 1] == ab[k + 1];
      } else if k == |a| - 1 {
        assert (a + [x])[k] == ab[k] && (a + [x])[k + 1] == x;
      } else {
        assert b[k - |a|] == ab[k] && b[k - |a| + 1] == ab[k + 1];
      }
    }
  }

  /** The positions of the curve strictly increase. */
  predicate PositionsIncreasing(s: seq<DistortionPoint>)
  {
    forall a, b :: 0 <= a < b < |s| ==> s[a].position < s[b].position
  }

  /** Every position of the curve is zero (a flat 0 % offset curve). */
  predicate ZeroPositions(s: seq<DistortionPoint>)
  {
    forall k :: 0 <= k < |s| ==> s[k].position == 0.0
  }

  /** The curve with its two axes exchanged: the inverse sampler is the
      forward sampler keyed on position. */
  function Swapped(s: seq<DistortionPoint>): (r: seq<DistortionPoint>)
    ensures |r| == |s|
  {
    seq(|s|, k requires 0 <= k < |s| => DistortionPoint(s[k].position, s[k].degree))
  }

  lemma SwappedIncreasing(s: seq<DistortionPoint>)
    ensures DegreesIncreasing(Swapped(s)) <==> PositionsIncreasing(s)
    ensures DegreesSorted(Swapped(s)) <==> (forall a, b :: 0 <= a < b < |s| ==> s[a].position <= s[b].position)
  {
    var w := Swapped(s);
    assert forall k :: 0 <= k < |s| ==> w[k].degree == s[k].position;
  }

  lemma SwappedInvolution(s: seq<DistortionPoint>)
    ensures Swapped(Swapped(s)) == s
  {
  }
}
