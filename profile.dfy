/** The radial Bezier distortion profile: smoothing the three curves,
    chromatic correction of red and blue against green, the field of view,
    the conversion of angles into tangent-space input coordinates, the three
    radial maps, and the per-sample lookup at render time. */
module Profile {
  import opened Curve
  import opened Bezier
  import opened Sampler

  datatype ColorChannel = Red | Green | Blue

  datatype Point2D = Point2D(x: real, y: real)

  /** The tangent-space clip bounds returned by GetProjectionRaw. */
  datatype Projection = Projection(left: real, right: real, bottom: real, top: real)

  /** `M_PI`, as written in the C library headers. */
  const Pi: real := 3.14159265358979323846

  /** The tangent of an angle given in degrees; `tan` stands for the C
      library's tangent, which is not modelled. */
  function TanOfDegrees(tan: real -> real, degree: real): real
  {
    tan(degree * Pi / 180.0)
  }

  // ---------------------------------------------------------------------
  // Chromatic correction

  /** A red or blue curve: the smoothed green curve with each position scaled
      by `1 + p / 100`, `p` the offset curve's percentage sampled at that
      sample's own angle. The angles are green's, index for index. */
  function Chromatic(green: seq<DistortionPoint>, percent: seq<DistortionPoint>): (r: seq<DistortionPoint>)
    requires 2 <= |percent|
    ensures |r| == |green|
    ensures forall k :: 0 <= k < |green| ==> r[k].degree == green[k].degree
  {
    seq(|green|, k requires 0 <= k < |green| => ScaledPoint(green[k], percent))
  }

  /** One green sample scaled by the offset percentage at its angle. */
  function ScaledPoint(p: DistortionPoint, percent: seq<DistortionPoint>): (q: DistortionPoint)
    requires 2 <= |percent|
    ensures q.degree == p.degree
  {
    DistortionPoint(p.degree, p.position * (Sample(percent, p.degree) / 100.0 + 1.0))
  }

  /** A flat 0 % offset curve, smoothed as Initialize smooths it, leaves the
      green curve unchanged. */
  lemma ChromaticZeroOffset(green: seq<DistortionPoint>, percentPoints: seq<DistortionPoint>, innerPointCounts: int)
    requires 2 <= |percentPoints| && ZeroPositions(percentPoints)
    ensures Chromatic(green, Smoothed(percentPoints, innerPointCounts)) == green
  {
    var percent := Smoothed(percentPoints, innerPointCounts);
    SmoothedZero(percentPoints, innerPointCounts);
    var r := Chromatic(green, percent);
    forall k | 0 <= k < |green|
      ensures r[k] == green[k]
    {
      SampleOfZeroCurve(percent, green[k].degree);
    }
  }

  // ---------------------------------------------------------------------
  // Field of view

  /** The field of view after folding `max` over the angles of `s`, starting
      from the previous value `h` (it is never reset). */
  function FoldMax(h: real, s: seq<DistortionPoint>): real
    decreases |s|
  {
    if s == [] then h
    else Max(FoldMax(h, s[..|s| - 1]), s[|s| - 1].degree)
  }

  /** The folded field of view is the largest of its prior value and the
      angles: at least each of them, and equal to one of them. */
  lemma {:induction false} FoldMaxIsMax(h: real, s: seq<DistortionPoint>)
    ensures FoldMax(h, s) >= h
    ensures forall k :: 0 <= k < |s| ==> FoldMax(h, s) >= s[k].degree
    ensures FoldMax(h, s) == h || exists k :: 0 <= k < |s| && FoldMax(h, s) == s[k].degree
    decreases |s|
  {
    if s != [] {
      var front := s[..|s| - 1];
      FoldMaxIsMax(h, front);
      assert forall k :: 0 <= k < |front| ==> front[k] == s[k];
    }
  }

  /** One more sample folds in by one more `max`. */
  lemma FoldMaxStep(h: real, s: seq<DistortionPoint>, i: int)
    requires 0 <= i < |s|
    ensures FoldMax(h, s[..i + 1]) == Max(FoldMax(h, s[..i]), s[i].degree)
  {
    assert s[..i + 1][..i] == s[..i];
  }

  // ---------------------------------------------------------------------
  // Tangent-space conversion

  /** Every angle replaced by its tangent divided by the tangent at the edge
      of the field of view; positions kept. */
  function ToInputSpace(curve: seq<DistortionPoint>, tan: real -> real, halfFov: real): (r: seq<DistortionPoint>)
    ensures |r| == |curve|
    ensures forall k :: 0 <= k < |curve| ==> r[k].position == curve[k].position
  {
    var edgeTan := TanOfDegrees(tan, halfFov);
    seq(|curve|, k requires 0 <= k < |curve| =>
      DistortionPoint(Quotient(TanOfDegrees(tan, curve[k].degree), edgeTan), curve[k].position))
  }

  /** The tangent increases on the angles from 0 to `halfFov`. */
  ghost predicate TanIncreasingUpTo(tan: real -> real, halfFov: real)
  {
    forall a, b :: 0.0 <= a < b <= halfFov ==> TanOfDegrees(tan, a) < TanOfDegrees(tan, b)
  }

  lemma QuotientMonotone(a: real, b: real, e: real)
    requires e > 0.0 && a < b
    ensures Quotient(a, e) < Quotient(b, e)
  {
  }

  lemma QuotientAtMostOne(a: real, e: real)
    requires e > 0.0 && a <= e
    ensures Quotient(a, e) <= 1.0
  {
  }

  /** With an increasing tangent and a one-sided curve inside the field of
      view, the conversion keeps the angles strictly increasing, maps them
      into coordinates no larger than 1, and maps the edge angle to 1. */
  lemma ToInputSpaceIncreasing(curve: seq<DistortionPoint>, tan: real -> real, halfFov: real)
    requires DegreesIncreasing(curve)
    requires forall k :: 0 <= k < |curve| ==> 0.0 <= curve[k].degree <= halfFov
    requires TanIncreasingUpTo(tan, halfFov) && TanOfDegrees(tan, halfFov) > 0.0
    ensures DegreesIncreasing(ToInputSpace(curve, tan, halfFov))
    ensures forall k :: 0 <= k < |curve| ==> ToInputSpace(curve, tan, halfFov)[k].degree <= 1.0
    ensures forall k :: 0 <= k < |curve| && curve[k].degree == halfFov ==>
      ToInputSpace(curve, tan, halfFov)[k].degree == 1.0
  {
    var r := ToInputSpace(curve, tan, halfFov);
    var e := TanOfDegrees(tan, halfFov);
    forall a, b | 0 <= a < b < |curve|
      ensures r[a].degree < r[b].degree
    {
      QuotientMonotone(TanOfDegrees(tan, curve[a].degree), TanOfDegrees(tan, curve[b].degree), e);
    }
    forall k | 0 <= k < |curve|
      ensures r[k].degree <= 1.0
    {
      if curve[k].degree < halfFov {
        assert TanOfDegrees(tan, curve[k].degree) < e;
      }
      QuotientAtMostOne(TanOfDegrees(tan, curve[k].degree), e);
    }
  }

  // ---------------------------------------------------------------------
  // The curves behind the radial maps

  /** The curve a channel's radial map is sampled from, for the field of
      view `halfFov`: green smoothed, red and blue chromatically corrected
      from it, all three converted to tangent space. */
  function ChannelCurve(channel: ColorChannel, green: seq<DistortionPoint>, redPercent: seq<DistortionPoint>,
                        bluePercent: seq<DistortionPoint>, innerPointCounts: int,
                        tan: real -> real, halfFov: real): (r: seq<DistortionPoint>)
    requires 2 <= |green| && 2 <= |redPercent| && 2 <= |bluePercent|
    ensures |r| == |Smoothed(green, innerPointCounts)| >= 2
    ensures forall k :: 0 <= k < |r| ==>
      r[k].degree == ToInputSpace(Smoothed(green, innerPointCounts), tan, halfFov)[k].degree
  {
    var smoothGreen := Smoothed(green, innerPointCounts);
    match channel
    case Red => ToInputSpace(Chromatic(smoothGreen, Smoothed(redPercent, innerPointCounts)), tan, halfFov)
    case Green => ToInputSpace(smoothGreen, tan, halfFov)
    case Blue => ToInputSpace(Chromatic(smoothGreen, Smoothed(bluePercent, innerPointCounts)), tan, halfFov)
  }

  /** A flat 0 % red (or blue) offset curve gives that channel the green
      channel's curve. */
  lemma ZeroOffsetChannel(channel: ColorChannel, green: seq<DistortionPoint>, redPercent: seq<DistortionPoint>,
                          bluePercent: seq<DistortionPoint>, innerPointCounts: int,
                          tan: real -> real, halfFov: real)
    requires 2 <= |green| && 2 <= |redPercent| && 2 <= |bluePercent|
    requires channel == Red ==> ZeroPositions(redPercent)
    requires channel == Blue ==> ZeroPositions(bluePercent)
    ensures ChannelCurve(channel, green, redPercent, bluePercent, innerPointCounts, tan, halfFov)
         == ChannelCurve(Green, green, redPercent, bluePercent, innerPointCounts, tan, halfFov)
  {
    var smoothGreen := Smoothed(green, innerPointCounts);
    match channel
    case Red => ChromaticZeroOffset(smoothGreen, redPercent, innerPointCounts);
    case Green =>
    case Blue => ChromaticZeroOffset(smoothGreen, bluePercent, innerPointCounts);
  }

  /** The output radius, in percent, that entry `i` of a radial map of `size`
      entries stands for. */
  function OutputRadius(i: int, size: int): (r: real)
    requires 0 <= i < size
    ensures 0.0 <= r < 100.0
  {
    i as real / size as real * 100.0
  }

  /** The contents of a radial map of `size` entries built from `curve`:
      entry `i` is the angle, in tangent space, at which the curve reaches
      the output radius of that entry. */
  function RadialMap(curve: seq<DistortionPoint>, size: nat): (m: seq<real>)
    requires 2 <= |curve|
    ensures |m| == size
  {
    seq(size, i requires 0 <= i < size => SampleInverse(curve, OutputRadius(i, size)))
  }

  /** For a curve increasing on both axes that starts at or below the
      entry's output radius, the forward sampler takes each map entry back to
      that entry's output radius: the map inverts the curve. */
  lemma RadialMapInvertsCurve(curve: seq<DistortionPoint>, size: nat, i: int)
    requires 2 <= |curve| && DegreesIncreasing(curve) && PositionsIncreasing(curve)
    requires 0 <= i < size && curve[0].position <= OutputRadius(i, size)
    ensures Sample(curve, RadialMap(curve, size)[i]) == OutputRadius(i, size)
  {
    InverseRoundTrip(curve, OutputRadius(i, size));
  }

  // ---------------------------------------------------------------------
  // Runtime lookup

  /** The C++ conversion `(int)x`: truncation toward zero. */
  function TruncateToInt(x: real): (n: int)
    ensures x >= 0.0 ==> n == x.Floor
    ensures x < 0.0 ==> n <= 0 && x <= n as real < x + 1.0
  {
    if x >= 0.0 then x.Floor else -((-x).Floor)
  }

  /** The clamped index SampleFromMap reads at: it always leaves room for the
      entry after it. */
  function MapIndex(indexFloat: real, radialMapSize: int): (index: int)
    requires radialMapSize >= 2
    ensures 0 <= index <= radialMapSize - 2
    ensures 0.0 <= indexFloat < (radialMapSize - 1) as real ==> index == indexFloat.Floor
    ensures indexFloat >= (radialMapSize - 1) as real ==> index == radialMapSize - 2
    ensures indexFloat < 0.0 ==> index == 0
  {
    var index := TruncateToInt(indexFloat);
    if index < 0 then 0
    else if index >= radialMapSize - 1 then radialMapSize - 2
    else index
  }

  /** SampleFromMap: linear interpolation into a radial map; the result lies
      between the two entries read whenever the scaled radius is inside the
      map. */
  function SampleFromMap(radialMap: seq<real>, radialMapConversion: real, radius: real): (r: real)
    requires |radialMap| >= 2
    ensures var indexFloat := radius * radialMapConversion;
      var index := MapIndex(indexFloat, |radialMap|);
      0.0 <= indexFloat <= (|radialMap| - 1) as real ==>
        (radialMap[index] <= radialMap[index + 1] ==> radialMap[index] <= r <= radialMap[index + 1]) &&
        (radialMap[index + 1] <= radialMap[index] ==> radialMap[index + 1] <= r <= radialMap[index])
  {
    var indexFloat := radius * radialMapConversion;
    var index := MapIndex(indexFloat, |radialMap|);
    Lerp(radialMap[index], radialMap[index + 1], indexFloat - index as real)
  }

  /** At a radius that scales to a whole index of the map, the lookup returns
      that entry exactly. */
  lemma SampleFromMapAtEntry(radialMap: seq<real>, radialMapConversion: real, radius: real, i: int)
    requires |radialMap| >= 2 && 0 <= i < |radialMap|
    requires radius * radialMapConversion == i as real
    ensures SampleFromMap(radialMap, radialMapConversion, radius) == radialMap[i]
  {
    var index := MapIndex(i as real, |radialMap|);
    if i < |radialMap| - 1 {
      assert index == i;
    } else {
      assert index == |radialMap| - 2;
      assert i as real - index as real == 1.0;
    }
  }

  /** Beyond the last entry the lookup extrapolates along the last two
      entries' slope. */
  lemma SampleFromMapBeyond(radialMap: seq<real>, radialMapConversion: real, radius: real)
    requires |radialMap| >= 2
    requires radius * radialMapConversion >= (|radialMap| - 1) as real
    ensures var n := |radialMap|;
      SampleFromMap(radialMap, radialMapConversion, radius)
        == radialMap[n - 2] + (radius * radialMapConversion - (n - 2) as real) * (radialMap[n - 1] - radialMap[n - 2])
  {
  }

  /** `c / radius`, forced to 0 where the source's division yields NaN: at
      radius 0, where `c` is 0 too. */
  function UnitComponent(c: real, radius: real): real
  {
    if radius == 0.0 then 0.0 else c / radius
  }

  /** ComputeDistortion for one channel's map: the input's direction scaled
      by the radius sampled from the map. Away from the origin the output is
      the input multiplied by `sampled / radius`, so it points the input's way
      and its length is the sampled radius; the origin maps to the origin. */
  function RadialDistortion(radialMap: seq<real>, radialMapConversion: real, fU: real, fV: real, radius: real): (d: Point2D)
    requires |radialMap| >= 2 && radius >= 0.0
    ensures fU == 0.0 && fV == 0.0 ==> d == Point2D(0.0, 0.0)
    ensures radius > 0.0 ==>
      && d.x * radius == fU * SampleFromMap(radialMap, radialMapConversion, radius)
      && d.y * radius == fV * SampleFromMap(radialMap, radialMapConversion, radius)
    ensures d.x * fV == d.y * fU
  {
    var unitU := UnitComponent(fU, radius);
    var unitV := UnitComponent(fV, radius);
    var sampled := SampleFromMap(radialMap, radialMapConversion, radius);
    DirectionFacts(fU, fV, radius, sampled);
    Point2D(unitU * sampled, unitV * sampled)
  }

  lemma DirectionFacts(fU: real, fV: real, radius: real, s: real)
    requires radius >= 0.0
    ensures var x := UnitComponent(fU, radius) * s;
      var y := UnitComponent(fV, radius) * s;
      && (fU == 0.0 && fV == 0.0 ==> x == 0.0 && y == 0.0)
      && (radius > 0.0 ==> x * radius == fU * s && y * radius == fV * s)
      && x * fV == y * fU
  {
    if radius != 0.0 {
      var a := fU / radius;
      var b := fV / radius;
      assert fU == a * radius && fV == b * radius;
      ScaledDirection(fU, fV, a, b, radius, s);
    }
  }

  /** The unit direction (a, b) of the input (u, v), scaled by `s`. */
  lemma ScaledDirection(u: real, v: real, a: real, b: real, r: real, s: real)
    requires u == a * r && v == b * r
    ensures (a * s) * r == u * s && (b * s) * r == v * s
    ensures (a * s) * v == (b * s) * u
  {
  }

  // ---------------------------------------------------------------------
  // The profile object

  class RadialBezierDistortionProfile {
    /** The green curve and the red and blue percentage offset curves, as
        supplied by the configuration. */
    const distortions: seq<DistortionPoint>
    const distortionsRed: seq<DistortionPoint>
    const distortionsBlue: seq<DistortionPoint>
    /** Points inserted by the smoother between each pair of samples. */
    const inBetweenPoints: int
    /** Entries per radial map. */
    const radialMapSize: int

    var halfFov: real
    var radialMapConversion: real
    var radialUVMapR: array?<real>
    var radialUVMapG: array?<real>
    var radialUVMapB: array?<real>

    /** A profile whose three maps are not yet built. */
    constructor (distortions: seq<DistortionPoint>, distortionsRed: seq<DistortionPoint>,
                 distortionsBlue: seq<DistortionPoint>, inBetweenPoints: int, radialMapSize: int,
                 halfFov: real)
      ensures this.distortions == distortions && this.distortionsRed == distortionsRed
      ensures this.distortionsBlue == distortionsBlue && this.inBetweenPoints == inBetweenPoints
      ensures this.radialMapSize == radialMapSize && this.halfFov == halfFov
      ensures radialUVMapR == null && radialUVMapG == null && radialUVMapB == null
    {
      this.distortions := distortions;
      this.distortionsRed := distortionsRed;
      this.distortionsBlue := distortionsBlue;
      this.inBetweenPoints := inBetweenPoints;
      this.radialMapSize := radialMapSize;
      this.halfFov := halfFov;
      radialUVMapR, radialUVMapG, radialUVMapB := null, null, null;
    }

    /** The three maps are present, distinct and `radialMapSize` long, and
        that size leaves room for interpolation. */
    predicate MapsReady()
      reads this
    {
      && radialMapSize >= 2
      && radialUVMapR != null && radialUVMapG != null && radialUVMapB != null
      && radialUVMapR.Length == radialMapSize && radialUVMapG.Length == radialMapSize
      && radialUVMapB.Length == radialMapSize
    }

    /** The curves Initialize can work on: each has at least two samples. */
    predicate CurvesReady()
    {
      2 <= |distortions| && 2 <= |distortionsRed| && 2 <= |distortionsBlue|
    }

    /** The three maps are distinct arrays of `radialMapSize` entries holding
        the radial maps of `red`, `green` and `blue`. */
    ghost predicate MapsFilledFrom(red: seq<DistortionPoint>, green: seq<DistortionPoint>, blue: seq<DistortionPoint>)
      reads this, radialUVMapR, radialUVMapG, radialUVMapB
    {
      && radialUVMapR != null && radialUVMapG != null && radialUVMapB != null
      && radialUVMapR != radialUVMapG && radialUVMapG != radialUVMapB && radialUVMapR != radialUVMapB
      && radialUVMapR.Length == radialMapSize && radialUVMapG.Length == radialMapSize
      && radialUVMapB.Length == radialMapSize
      && 2 <= |red| && 2 <= |green| && 2 <= |blue|
      && radialUVMapR[..] == RadialMap(red, radialMapSize)
      && radialUVMapG[..] == RadialMap(green, radialMapSize)
      && radialUVMapB[..] == RadialMap(blue, radialMapSize)
    }

    /** The curve behind a channel's map, for the field of view `fov`. */
    function ChannelCurveOf(channel: ColorChannel, tan: real -> real, fov: real): seq<DistortionPoint>
      requires CurvesReady()
    {
      ChannelCurve(channel, distortions, distortionsRed, distortionsBlue, inBetweenPoints, tan, fov)
    }

    /** Cleanup: drops the three maps; safe when they are already absent, and
        it leaves every other field as it was. */
    method Cleanup()
      modifies this`radialUVMapR, this`radialUVMapG, this`radialUVMapB
      ensures radialUVMapR == null && radialUVMapG == null && radialUVMapB == null
    {
      if radialUVMapR != null {
        radialUVMapR := null;
      }
      if radialUVMapG != null {
        radialUVMapG := null;
      }
      if radialUVMapB != null {
        radialUVMapB := null;
      }
    }

    /** Initialize: drops the old maps, smooths the three curves, corrects red
        and blue for chromatic aberration, widens the field of view to the
        largest green angle, converts to tangent space and fills three fresh
        maps by inverse sampling at evenly spaced output radii. */
    method Initialize(tan: real -> real)
      requires CurvesReady() && radialMapSize >= 0
      modifies this
      ensures halfFov == FoldMax(old(halfFov), Smoothed(distortions, inBetweenPoints))
      ensures radialMapConversion == radialMapSize as real
      ensures MapsFilledFrom(ChannelCurveOf(Red, tan, halfFov), ChannelCurveOf(Green, tan, halfFov), ChannelCurveOf(Blue, tan, halfFov))
      ensures fresh(radialUVMapR) && fresh(radialUVMapG) && fresh(radialUVMapB)
    {
      Cleanup();
      Rebuild(tan);
    }

    /** Everything Initialize does after dropping the old maps. */
    method Rebuild(tan: real -> real)
      requires CurvesReady() && radialMapSize >= 0
      modifies this`halfFov, this`radialMapConversion, this`radialUVMapR, this`radialUVMapG, this`radialUVMapB
      ensures halfFov == FoldMax(old(halfFov), Smoothed(distortions, inBetweenPoints))
      ensures radialMapConversion == radialMapSize as real
      ensures MapsFilledFrom(ChannelCurveOf(Red, tan, halfFov), ChannelCurveOf(Green, tan, halfFov), ChannelCurveOf(Blue, tan, halfFov))
      ensures fresh(radialUVMapR) && fresh(radialUVMapG) && fresh(radialUVMapB)
    {
      var smoothRed, smoothGreen, smoothBlue := PrepareCurves(tan);
      CreateRadialMaps(smoothRed, smoothGreen, smoothBlue);
    }

    /** The curve stages of Initialize: smoothing, chromatic correction with
        the widening of the field of view, and the tangent-space conversion. */
    method PrepareCurves(tan: real -> real)
      returns (smoothRed: seq<DistortionPoint>, smoothGreen: seq<DistortionPoint>, smoothBlue: seq<DistortionPoint>)
      requires CurvesReady()
      modifies this`halfFov
      ensures halfFov == FoldMax(old(halfFov), Smoothed(distortions, inBetweenPoints))
      ensures smoothRed == ChannelCurveOf(Red, tan, halfFov)
      ensures smoothGreen == ChannelCurveOf(Green, tan, halfFov)
      ensures smoothBlue == ChannelCurveOf(Blue, tan, halfFov)
    {
      smoothGreen := SmoothPoints(distortions, inBetweenPoints);
      var redPercent := SmoothPoints(distortionsRed, inBetweenPoints);
      var bluePercent := SmoothPoints(distortionsBlue, inBetweenPoints);
      smoothRed, smoothBlue := CorrectChromaticAberration(smoothGreen, redPercent, bluePercent);

      // convert to input coordinates
      smoothRed := ConvertToInputSpace(smoothRed, tan, halfFov);
      smoothGreen := ConvertToInputSpace(smoothGreen, tan, halfFov);
      smoothBlue := ConvertToInputSpace(smoothBlue, tan, halfFov);
    }

    /** The map stage of Initialize: three fresh maps of `radialMapSize`
        entries, filled from the three curves. */
    method CreateRadialMaps(smoothRed: seq<DistortionPoint>, smoothGreen: seq<DistortionPoint>,
                            smoothBlue: seq<DistortionPoint>)
      requires radialMapSize >= 0
      requires 2 <= |smoothRed| && 2 <= |smoothGreen| && 2 <= |smoothBlue|
      modifies this`radialUVMapR, this`radialUVMapG, this`radialUVMapB, this`radialMapConversion
      ensures radialMapConversion == radialMapSize as real
      ensures MapsFilledFrom(smoothRed, smoothGreen, smoothBlue)
      ensures fresh(radialUVMapR) && fresh(radialUVMapG) && fresh(radialUVMapB)
    {
      var mapR := new real[radialMapSize];
      var mapG := new real[radialMapSize];
      var mapB := new real[radialMapSize];
      radialUVMapR, radialUVMapG, radialUVMapB := mapR, mapG, mapB;
      radialMapConversion := radialMapSize as real / 1.0;
      FillRadialMaps(mapR, mapG, mapB, smoothRed, smoothGreen, smoothBlue, radialMapConversion);
    }

    /** The chromatic-correction pass of Initialize: one walk over the smoothed
        green curve that scales the red and blue copies by their offset curves
        and widens the field of view to every green angle it passes. */
    method CorrectChromaticAberration(smoothGreen: seq<DistortionPoint>, redPercent: seq<DistortionPoint>,
                                      bluePercent: seq<DistortionPoint>)
      returns (smoothRed: seq<DistortionPoint>, smoothBlue: seq<DistortionPoint>)
      requires 2 <= |redPercent| && 2 <= |bluePercent|
      modifies this`halfFov
      ensures smoothRed == Chromatic(smoothGreen, redPercent)
      ensures smoothBlue == Chromatic(smoothGreen, bluePercent)
      ensures halfFov == FoldMax(old(halfFov), smoothGreen)
    {
      smoothRed := smoothGreen;
      smoothBlue := smoothGreen;
      ghost var red := Chromatic(smoothGreen, redPercent);
      ghost var blue := Chromatic(smoothGreen, bluePercent);
      var i := 0;
      while i < |smoothGreen|
        invariant 0 <= i <= |smoothGreen|
        invariant |smoothRed| == |smoothGreen| && |smoothBlue| == |smoothGreen|
        invariant forall k :: 0 <= k < i ==> smoothRed[k] == red[k] && smoothBlue[k] == blue[k]
        invariant forall k :: i <= k < |smoothGreen| ==> smoothRed[k] == smoothGreen[k] && smoothBlue[k] == smoothGreen[k]
        invariant halfFov == FoldMax(old(halfFov), smoothGreen[..i])
      {
        var redScale := SampleFromPoints(redPercent, smoothRed[i].degree);
        var blueScale := SampleFromPoints(bluePercent, smoothBlue[i].degree);
        smoothRed := smoothRed[i := DistortionPoint(smoothRed[i].degree, smoothRed[i].position * (redScale / 100.0 + 1.0))];
        smoothBlue := smoothBlue[i := DistortionPoint(smoothBlue[i].degree, smoothBlue[i].position * (blueScale / 100.0 + 1.0))];
        assert smoothRed[i] == ScaledPoint(smoothGreen[i], redPercent) == red[i];
        assert smoothBlue[i] == ScaledPoint(smoothGreen[i], bluePercent) == blue[i];
        halfFov := Max(halfFov, smoothGreen[i].degree);
        FoldMaxStep(old(halfFov), smoothGreen, i);
        i := i + 1;
      }
      assert smoothGreen[..i] == smoothGreen;
    }

    /** The tangent-space pass of Initialize, for one curve. */
    static method ConvertToInputSpace(curve: seq<DistortionPoint>, tan: real -> real, halfFov: real)
      returns (converted: seq<DistortionPoint>)
      ensures converted == ToInputSpace(curve, tan, halfFov)
    {
      var edgeTan := TanOfDegrees(tan, halfFov);
      converted := curve;
      ghost var target := ToInputSpace(curve, tan, halfFov);
      var i := 0;
      while i < |curve|
        invariant 0 <= i <= |curve| && |converted| == |curve|
        invariant forall k :: 0 <= k < i ==> converted[k] == target[k]
        invariant forall k :: i <= k < |curve| ==> converted[k] == curve[k]
      {
        converted := converted[i := DistortionPoint(Quotient(TanOfDegrees(tan, converted[i].degree), edgeTan), converted[i].position)];
        i := i + 1;
      }
    }

    /** The map-filling pass of Initialize: entry `i` of each map is the
        inverse sample of that channel's curve at the output radius of entry
        `i`. */
    static method FillRadialMaps(mapR: array<real>, mapG: array<real>, mapB: array<real>,
                                 smoothRed: seq<DistortionPoint>, smoothGreen: seq<DistortionPoint>,
                                 smoothBlue: seq<DistortionPoint>, radialMapConversion: real)
      requires mapG.Length == mapR.Length && mapB.Length == mapR.Length
      requires mapR != mapG && mapG != mapB && mapR != mapB
      requires 2 <= |smoothRed| && 2 <= |smoothGreen| && 2 <= |smoothBlue|
      requires radialMapConversion == mapR.Length as real
      modifies mapR, mapG, mapB
      ensures mapR[..] == RadialMap(smoothRed, mapR.Length)
      ensures mapG[..] == RadialMap(smoothGreen, mapR.Length)
      ensures mapB[..] == RadialMap(smoothBlue, mapR.Length)
    {
      ghost var red := RadialMap(smoothRed, mapR.Length);
      ghost var green := RadialMap(smoothGreen, mapR.Length);
      ghost var blue := RadialMap(smoothBlue, mapR.Length);
      var i := 0;
      while i < mapR.Length
        invariant 0 <= i <= mapR.Length
        invariant forall k :: 0 <= k < i ==> mapR[k] == red[k] && mapG[k] == green[k] && mapB[k] == blue[k]
      {
        var outputRadius := i as real / radialMapConversion * 100.0;
        assert outputRadius == OutputRadius(i, mapR.Length);
        mapR[i] := SampleFromPointsInverse(smoothRed, outputRadius);
        mapG[i] := SampleFromPointsInverse(smoothGreen, outputRadius);
        mapB[i] := SampleFromPointsInverse(smoothBlue, outputRadius);
        i := i + 1;
      }
      assert mapR[..] == red && mapG[..] == green && mapB[..] == blue;
    }

    /** The contents of a channel's map. */
    function ChannelMap(colorChannel: ColorChannel): (m: seq<real>)
      reads this, radialUVMapR, radialUVMapG, radialUVMapB
      requires MapsReady()
      ensures |m| == radialMapSize
    {
      match colorChannel
      case Red => radialUVMapR[..]
      case Green => radialUVMapG[..]
      case Blue => radialUVMapB[..]
    }

    /** ComputeDistortion: the corrected sample position for a normalized
        offset (fU, fV) from the optical centre, in the given channel;
        `radius` is the offset's length (the source's `sqrt`). */
    function ComputeDistortion(colorChannel: ColorChannel, fU: real, fV: real, radius: real): (d: Point2D)
      reads this, radialUVMapR, radialUVMapG, radialUVMapB
      requires MapsReady()
      requires radius >= 0.0 && radius * radius == fU * fU + fV * fV
      ensures d == RadialDistortion(ChannelMap(colorChannel), radialMapConversion, fU, fV, radius)
      ensures fU == 0.0 && fV == 0.0 ==> d == Point2D(0.0, 0.0)
    {
      RadialDistortion(ChannelMap(colorChannel), radialMapConversion, fU, fV, radius)
    }

    /** GetProjectionRaw: the symmetric tangent-space bounds of the field of
        view; with an odd tangent the left and bottom bounds are the negated
        right and top bounds. */
    function GetProjectionRaw(tan: real -> real): (p: Projection)
      reads this
      ensures p.top == p.right && p.bottom == p.left
      ensures p.right == TanOfDegrees(tan, halfFov)
      ensures (forall a :: tan(-a) == -tan(a)) ==> p.left == -p.right && p.bottom == -p.top
    {
      var hFovHalf := halfFov * Pi / 180.0;
      var vFovHalf := halfFov * Pi / 180.0;
      Projection(tan(-hFovHalf), tan(hFovHalf), tan(-vFovHalf), tan(vFovHalf))
    }
  }

  /** After Initialize, the runtime lookup at the radius of radialMap entry `i`
      returns that entry, in the input's direction. */
  lemma ComputeDistortionAtEntry(p: RadialBezierDistortionProfile, colorChannel: ColorChannel,
                                 fU: real, fV: real, radius: real, i: int)
    requires p.MapsReady() && 0 <= i < p.radialMapSize
    requires radius >= 0.0 && radius * radius == fU * fU + fV * fV
    requires radius * p.radialMapConversion == i as real
    ensures p.ComputeDistortion(colorChannel, fU, fV, radius)
         == Point2D(UnitComponent(fU, radius) * p.ChannelMap(colorChannel)[i],
                    UnitComponent(fV, radius) * p.ChannelMap(colorChannel)[i])
  {
    SampleFromMapAtEntry(p.ChannelMap(colorChannel), p.radialMapConversion, radius, i);
  }
}
