# Radial Bezier distortion profile, modelled in Dafny

This project models the lens-distortion profile of the CustomHeadsetOpenVR
driver (`RadialBezierDistortionProfile.cpp`). At start-up the profile turns a
short list of (angle, output radius) samples for the green channel, plus two
percentage-offset curves for red and blue, into three lookup tables. At
render time it uses those tables to move each sample point radially.

The pipeline, as modelled:

- **Smoothing** (`Bezier`). `SmoothPoints` inserts `K` points between each
  pair of samples. The points lie on a cubic Bezier curve whose inner control
  points sit a third of the gap in from each anchor, along slopes estimated
  from the neighbouring samples.
- **Sampling** (`Sampler`). `SampleFromPoints` is a piecewise-linear lookup
  that returns the first segment containing the angle. Below the first sample
  it is flat. Above the last sample it extrapolates the last segment.
  `SampleFromPointsInverse` follows the same rule keyed on position.
- **Initialize** (`Profile`).
  - It drops any old maps and smooths the three curves.
  - It scales the red and blue copies of smoothed green by `1 + p/100`, where
    `p` is the offset sampled at the same angle.
  - It widens `halfFov` to the largest green angle.
  - It converts angles to tangent-space coordinates (`tan(angle)/tan(halfFov)`).
  - It fills three maps of `radialMapSize` entries by inverse sampling at
    output radii `i / radialMapSize * 100`.
- **Lookup** (`Profile`). `SampleFromMap` interpolates a map at a clamped,
  truncated index. `ComputeDistortion` scales the unit direction of the input
  by the radius read from the channel's map. At the origin it forces a zero
  direction instead of the 0/0 NaN.
- **GetProjectionRaw** returns the symmetric tangent bounds of the field of
  view. **Cleanup** drops the three maps.

Modelling choices:

- Arithmetic is over `real`.
- `Quotient(a, b)` is the float division. It is 0 when `b` is 0, where the
  source gets an infinity or a NaN.
- `tan` is a parameter of type `real -> real`. Its oddness is assumed only in
  the one contract that needs it. `M_PI` is its decimal literal.
- The `sqrt` in ComputeDistortion is replaced by a `radius` argument that must
  satisfy `radius >= 0` and `radius * radius == fU * fU + fV * fV`. The
  function behind it, `RadialDistortion`, takes any `radius >= 0`.
- The C++ `(int)` conversion truncates toward zero (`TruncateToInt`).
- The class header `RadialBezierDistortionProfile.h` is not part of this
  model. The curves, `inBetweenPoints`, `radialMapSize` and the initial
  `halfFov` are therefore constructor arguments.
- Initialize needs at least two samples in every curve. With one sample, the
  source's samplers read `points[size - 2]` out of bounds.

Each algorithm that works step by step keeps its loops. The loops are
SmoothPoints, the two samplers, and the chromatic, tangent and map passes of
Initialize. Each is proved against a specification function (`Smoothed`,
`Sample`, `SampleInverse`, `Chromatic`, `FoldMax`, `ToInputSpace`,
`RadialMap`). Lemmas about those functions state what the source promises.

Initialize calls `Cleanup` and then `Rebuild`. `Rebuild` runs two stages:
`PrepareCurves` (smoothing, chromatic pass, tangent pass) and
`CreateRadialMaps` (allocation and fill). The statements run in the source's
order, except in the tangent pass. The source converts red, green and blue in
one loop, index by index. The model converts each curve in its own loop,
first red, then green, then blue. Each entry's conversion reads only that
entry and `halfFov`, so the three curves come out the same.

Output indices of the smoother are written as `AnchorIndex(i, K)`: the
number of points emitted before sample `i`. `AnchorIndexProduct` proves
that this is `i (K + 1)`.

## Model

| member | source | states |
|---|---|---|
| Curve.Quotient | CustomHeadsetOpenVR/src/Distortion/RadialBezierDistortionProfile.cpp:77 | for a non-zero divisor the quotient times the divisor is the dividend; a zero divisor gives 0 |
| Curve.Lerp | CustomHeadsetOpenVR/src/Distortion/RadialBezierDistortionProfile.cpp:67-69 | `lerp` returns `a` at t = 0 and `b` at t = 1, and lies between `a` and `b` for t in [0, 1] |
| Curve.LerpIncreasing | CustomHeadsetOpenVR/src/Distortion/RadialBezierDistortionProfile.cpp:67-69 | on a rising pair, a larger parameter gives a strictly larger interpolation |
| Curve.LerpBeyondEnd | CustomHeadsetOpenVR/src/Distortion/RadialBezierDistortionProfile.cpp:67-69 | on a rising pair, a parameter past 1 interpolates beyond the right end |
| Curve.Max | CustomHeadsetOpenVR/src/Distortion/RadialBezierDistortionProfile.cpp:145 | `std::max` is at least both arguments and equals one of them |
| Curve.Swapped | CustomHeadsetOpenVR/src/Distortion/RadialBezierDistortionProfile.cpp:93-111 | the curve with angle and position exchanged has the same length |
| Curve.SwappedIncreasing | CustomHeadsetOpenVR/src/Distortion/RadialBezierDistortionProfile.cpp:93-111 | angles of the swapped curve increase (or never decrease) exactly when the positions of the original do |
| Curve.SwappedInvolution | CustomHeadsetOpenVR/src/Distortion/RadialBezierDistortionProfile.cpp:93-111 | swapping twice gives back the curve |
| Curve.AdjacentToIncreasing | CustomHeadsetOpenVR/src/Distortion/RadialBezierDistortionProfile.cpp:56-62 | angles rising from each output point to the next rise across the whole output |
| Curve.AdjacentConcat | CustomHeadsetOpenVR/src/Distortion/RadialBezierDistortionProfile.cpp:56-62 | appending a rising segment that starts at the previous segment's right anchor keeps the output rising |
| Bezier.Cube | CustomHeadsetOpenVR/src/Distortion/RadialBezierDistortionProfile.cpp:12-21 | no contract of its own: `pow(x, 3)` as `x * x * x`; the endpoint ensures of `Bernstein` rest on it |
| Bezier.Bernstein | CustomHeadsetOpenVR/src/Distortion/RadialBezierDistortionProfile.cpp:11-22 | the cubic Bernstein blend of one axis equals the first control value at t = 0 and the last at t = 1 |
| Bezier.BezierPoint | CustomHeadsetOpenVR/src/Distortion/RadialBezierDistortionProfile.cpp:6-25 | the Bezier point is `controlPoints[0]` at t = 0 and `controlPoints[3]` at t = 1 |
| Bezier.BernsteinConstant | CustomHeadsetOpenVR/src/Distortion/RadialBezierDistortionProfile.cpp:11-22 | the four weights sum to one: a constant control polygon blends to that constant |
| Bezier.BernsteinEvenlySpaced | CustomHeadsetOpenVR/src/Distortion/RadialBezierDistortionProfile.cpp:44-54 | with the inner control values a third of the gap in from each end, the blend is the linear interpolation of the ends at t |
| Bezier.Param | CustomHeadsetOpenVR/src/Distortion/RadialBezierDistortionProfile.cpp:59 | the parameter `(j + 1) / (K + 1)` of every inserted point lies strictly between 0 and 1 |
| Bezier.ControlPoints | CustomHeadsetOpenVR/src/Distortion/RadialBezierDistortionProfile.cpp:35-54 | the four control points start and end at the segment's anchors, and the inner control angles sit a third of the angle gap in from each anchor; the inner control positions are stated by `TangentContinuity`, `StartTangent` and `EndTangent` |
| Bezier.Slope | CustomHeadsetOpenVR/src/Distortion/RadialBezierDistortionProfile.cpp:40-42 | no contract of its own: the chord slope, position difference over angle difference, 0 for equal angles; `TangentContinuity` states what the slopes deliver |
| Bezier.PrevSlope | CustomHeadsetOpenVR/src/Distortion/RadialBezierDistortionProfile.cpp:37-41 | no contract of its own: the slope at the left anchor, the chord slope on the first segment and the slope across the anchor's neighbours elsewhere; see `StartTangent` and `TangentContinuity` |
| Bezier.NextSlope | CustomHeadsetOpenVR/src/Distortion/RadialBezierDistortionProfile.cpp:38-42 | no contract of its own: the slope at the right anchor, the chord slope on the last segment and the slope across the anchor's neighbours elsewhere; see `EndTangent` and `TangentContinuity` |
| Bezier.Lift | CustomHeadsetOpenVR/src/Distortion/RadialBezierDistortionProfile.cpp:44-46 | no contract of its own: the point `distance` along the angle axis from the anchor, raised by `distance` times the slope |
| Bezier.TangentContinuity | CustomHeadsetOpenVR/src/Distortion/RadialBezierDistortionProfile.cpp:37-54 | at an interior sample, the last inner control point before it and the first inner control point after it lie on one line through the sample with the slope across its neighbours; with rising angles they sit on either side of the sample, each at exactly that slope from it |
| Bezier.StartTangent | CustomHeadsetOpenVR/src/Distortion/RadialBezierDistortionProfile.cpp:40-45 | the first inner control point of the curve lies on the chord of the first segment |
| Bezier.EndTangent | CustomHeadsetOpenVR/src/Distortion/RadialBezierDistortionProfile.cpp:40-46 | the last inner control point of the curve lies on the chord of the last segment |
| Bezier.Count | CustomHeadsetOpenVR/src/Distortion/RadialBezierDistortionProfile.cpp:58 | no contract of its own: the inner loop's trip count, `K` when positive and 0 otherwise; `Inner` and `SmoothedLength` state what it means for the output |
| Bezier.Inner | CustomHeadsetOpenVR/src/Distortion/RadialBezierDistortionProfile.cpp:58-60 | each segment contributes `K` inserted points, none when `K <= 0` |
| Bezier.AnchorIndex | CustomHeadsetOpenVR/src/Distortion/RadialBezierDistortionProfile.cpp:56-62 | input sample `i` is preceded in the output by at least `i` points |
| Bezier.AnchorIndexProduct | CustomHeadsetOpenVR/src/Distortion/RadialBezierDistortionProfile.cpp:56-62 | each pass of the outer loop emits its anchor and `K` inserted points, so sample `i` lands at index `i (K + 1)` |
| Bezier.SmoothedPrefix | CustomHeadsetOpenVR/src/Distortion/RadialBezierDistortionProfile.cpp:33-61 | after `n` passes of the outer loop the output holds exactly the points that precede anchor `n` |
| Bezier.Smoothed | CustomHeadsetOpenVR/src/Distortion/RadialBezierDistortionProfile.cpp:33-63 | the smoothed curve ends one past the anchor index of the last sample, so it has at least `N` points |
| Bezier.SmoothedLength | CustomHeadsetOpenVR/src/Distortion/RadialBezierDistortionProfile.cpp:28-64 | the smoothed curve has `N + (N - 1) K` points |
| Bezier.SmoothPoints | CustomHeadsetOpenVR/src/Distortion/RadialBezierDistortionProfile.cpp:28-64 | the nested loops produce the smoothed curve: input sample `i` at its anchor index, first and last outputs equal to the first and last inputs |
| Bezier.SmoothedPrefixAt | CustomHeadsetOpenVR/src/Distortion/RadialBezierDistortionProfile.cpp:33-61 | the output index `j` past anchor `i` holds point `j` of segment `i` |
| Bezier.SmoothedAnchor | CustomHeadsetOpenVR/src/Distortion/RadialBezierDistortionProfile.cpp:56-62 | input sample `i` appears unchanged at its anchor index |
| Bezier.SmoothedAnchors | CustomHeadsetOpenVR/src/Distortion/RadialBezierDistortionProfile.cpp:56-62 | every input sample appears unchanged at its anchor index |
| Bezier.SmoothedInner | CustomHeadsetOpenVR/src/Distortion/RadialBezierDistortionProfile.cpp:44-60 | the `j`-th inserted point of segment `i` is the Bezier point at a parameter in (0, 1), and its angle is the linear interpolation of the anchors' angles at that parameter |
| Bezier.InnerDegree | CustomHeadsetOpenVR/src/Distortion/RadialBezierDistortionProfile.cpp:44-59 | an inserted point's angle is the linear interpolation of the two anchors' angles at its parameter `t` |
| Bezier.ParamIncreasing | CustomHeadsetOpenVR/src/Distortion/RadialBezierDistortionProfile.cpp:58-59 | successive inserted points have increasing parameters |
| Bezier.SegmentIncreasing | CustomHeadsetOpenVR/src/Distortion/RadialBezierDistortionProfile.cpp:44-60 | when a segment's anchors have rising angles, its points followed by the right anchor have strictly rising angles |
| Bezier.SegmentAt | CustomHeadsetOpenVR/src/Distortion/RadialBezierDistortionProfile.cpp:56-60 | every point of a segment followed by its right anchor has the angle given by its interpolation parameter |
| Bezier.SegmentParamIncreasing | CustomHeadsetOpenVR/src/Distortion/RadialBezierDistortionProfile.cpp:56-60 | the interpolation parameters along a segment strictly increase |
| Bezier.SegmentStep | CustomHeadsetOpenVR/src/Distortion/RadialBezierDistortionProfile.cpp:44-59 | consecutive points of a rising segment have strictly rising angles |
| Bezier.SmoothedPrefixIncreasing | CustomHeadsetOpenVR/src/Distortion/RadialBezierDistortionProfile.cpp:33-61 | for strictly increasing input angles, every prefix of the output followed by the next anchor rises strictly |
| Bezier.SmoothedIncreasing | CustomHeadsetOpenVR/src/Distortion/RadialBezierDistortionProfile.cpp:28-64 | smoothing keeps strictly increasing angles strictly increasing |
| Bezier.ControlPointsZero | CustomHeadsetOpenVR/src/Distortion/RadialBezierDistortionProfile.cpp:40-54 | a flat zero curve has zero slopes and so flat zero control points |
| Bezier.SmoothedPrefixZero | CustomHeadsetOpenVR/src/Distortion/RadialBezierDistortionProfile.cpp:33-61 | every prefix of the smoothed output of a flat zero curve is flat zero |
| Bezier.SmoothedZero | CustomHeadsetOpenVR/src/Distortion/RadialBezierDistortionProfile.cpp:28-64 | smoothing a flat zero curve gives a flat zero curve |
| Sampler.InSegment | CustomHeadsetOpenVR/src/Distortion/RadialBezierDistortionProfile.cpp:75 | no contract of its own: the closed range test of segment `i`, `points[i].degree <= x <= points[i + 1].degree` |
| Sampler.SegmentValue | CustomHeadsetOpenVR/src/Distortion/RadialBezierDistortionProfile.cpp:77-78 | no contract of its own: `lerp` along segment `i` at the parameter of `x`; `LerpParameter` and `SegmentRoundTrip` state what it computes |
| Sampler.SampleFrom | CustomHeadsetOpenVR/src/Distortion/RadialBezierDistortionProfile.cpp:74-89 | no contract of its own: the search resumed at segment `i`; `SampleFromSkips` and `SampleFirstSegment` state which segment decides |
| Sampler.Sample | CustomHeadsetOpenVR/src/Distortion/RadialBezierDistortionProfile.cpp:72-90 | no contract of its own: the forward sampling rule; `SampleFirstSegment`, `SampleBelow`, `SampleAbove`, `SampleAtKnot` and `SampleRoundTrip` state its behaviour |
| Sampler.SampleInverse | CustomHeadsetOpenVR/src/Distortion/RadialBezierDistortionProfile.cpp:93-111 | no contract of its own: the forward rule applied to the swapped curve; `SampleInverseBelow`, `SampleInverseAbove`, `SampleInverseAtKnot` and `InverseRoundTrip` state its behaviour |
| Sampler.SampleFromPoints | CustomHeadsetOpenVR/src/Distortion/RadialBezierDistortionProfile.cpp:72-90 | the search loop returns the forward sample `Sample(points, degree)` |
| Sampler.SampleFromPointsInverse | CustomHeadsetOpenVR/src/Distortion/RadialBezierDistortionProfile.cpp:93-111 | the search loop returns the inverse sample, the forward rule keyed on position |
| Sampler.SampleFromSkips | CustomHeadsetOpenVR/src/Distortion/RadialBezierDistortionProfile.cpp:74-80 | segments that do not contain the angle are passed over by the search |
| Sampler.SampleFirstSegment | CustomHeadsetOpenVR/src/Distortion/RadialBezierDistortionProfile.cpp:74-79 | the sample is the interpolation on the first segment whose closed angle range holds the angle |
| Sampler.SampleBelow | CustomHeadsetOpenVR/src/Distortion/RadialBezierDistortionProfile.cpp:82-83 | below the first angle of a sorted curve the sample is the first position (flat) |
| Sampler.SampleAbove | CustomHeadsetOpenVR/src/Distortion/RadialBezierDistortionProfile.cpp:84-89 | above the last angle of a sorted curve the sample extrapolates the last segment |
| Sampler.SampleOneSegmentBeyond | CustomHeadsetOpenVR/src/Distortion/RadialBezierDistortionProfile.cpp:84-89 | one segment width past the end, the sample is `2 p[n-1] - p[n-2]`, linear extrapolation and not a clamp |
| Sampler.SampleInsideSegment | CustomHeadsetOpenVR/src/Distortion/RadialBezierDistortionProfile.cpp:74-79 | for strictly increasing angles, an angle inside segment `i` samples by that segment |
| Sampler.SampleAtKnot | CustomHeadsetOpenVR/src/Distortion/RadialBezierDistortionProfile.cpp:74-79 | at a sample's own angle, a strictly increasing curve returns that sample's position |
| Sampler.FindSegment | CustomHeadsetOpenVR/src/Distortion/RadialBezierDistortionProfile.cpp:74-80 | every angle within the curve's range lies in some segment |
| Sampler.SampleInverseBelow | CustomHeadsetOpenVR/src/Distortion/RadialBezierDistortionProfile.cpp:103-104 | below the first position the inverse sample is the first angle |
| Sampler.SampleInverseAbove | CustomHeadsetOpenVR/src/Distortion/RadialBezierDistortionProfile.cpp:105-110 | above the last position the inverse sample extrapolates the last segment |
| Sampler.SampleInverseAtKnot | CustomHeadsetOpenVR/src/Distortion/RadialBezierDistortionProfile.cpp:95-100 | at a sample's own position, a curve with strictly increasing positions returns that sample's angle |
| Sampler.LerpParameter | CustomHeadsetOpenVR/src/Distortion/RadialBezierDistortionProfile.cpp:77-78 | the interpolation parameter is recovered from the interpolated value |
| Sampler.LerpAtParameter | CustomHeadsetOpenVR/src/Distortion/RadialBezierDistortionProfile.cpp:98-99 | interpolating at the parameter computed for a value gives back that value |
| Sampler.SampleRoundTrip | CustomHeadsetOpenVR/src/Distortion/RadialBezierDistortionProfile.cpp:72-111 | for a curve increasing on both axes, inverse after forward sampling is the identity on every angle from the first on |
| Sampler.InverseRoundTrip | CustomHeadsetOpenVR/src/Distortion/RadialBezierDistortionProfile.cpp:72-111 | for a curve increasing on both axes, forward after inverse sampling is the identity on every position from the first on |
| Sampler.RoundTripInside | CustomHeadsetOpenVR/src/Distortion/RadialBezierDistortionProfile.cpp:72-111 | the round trip holds within the curve's angle range |
| Sampler.RoundTripBeyond | CustomHeadsetOpenVR/src/Distortion/RadialBezierDistortionProfile.cpp:84-110 | the round trip holds past the last angle, where both samplers extrapolate the last segment |
| Sampler.SegmentRoundTrip | CustomHeadsetOpenVR/src/Distortion/RadialBezierDistortionProfile.cpp:72-111 | on one segment rising on both axes, interpolating at an angle from the left end on gives a value inside the positions up to the right end and above them past it, and inverting that value gives back the angle |
| Sampler.SingleSegmentExample | CustomHeadsetOpenVR/src/Distortion/RadialBezierDistortionProfile.cpp:72-111 | on the segment (0, 0)-(10, 100), angle 5 samples to 50 and 50 inverts to 5 |
| Sampler.SampleFromZero | CustomHeadsetOpenVR/src/Distortion/RadialBezierDistortionProfile.cpp:72-90 | the search over a flat zero curve returns 0 from every starting segment |
| Sampler.SampleOfZeroCurve | CustomHeadsetOpenVR/src/Distortion/RadialBezierDistortionProfile.cpp:72-90 | sampling a flat zero curve gives 0 at every angle |
| Profile.Chromatic | CustomHeadsetOpenVR/src/Distortion/RadialBezierDistortionProfile.cpp:139-146 | the corrected red or blue curve has green's length and green's angle at every index |
| Profile.ScaledPoint | CustomHeadsetOpenVR/src/Distortion/RadialBezierDistortionProfile.cpp:143-144 | scaling a point by its offset keeps its angle |
| Profile.ChromaticZeroOffset | CustomHeadsetOpenVR/src/Distortion/RadialBezierDistortionProfile.cpp:135-146 | a flat 0 % offset curve, smoothed, reproduces green exactly |
| Profile.FoldMax | CustomHeadsetOpenVR/src/Distortion/RadialBezierDistortionProfile.cpp:142-146 | no contract of its own: `std::max` folded over the angles from the prior field of view; `FoldMaxIsMax` states that it is their maximum |
| Profile.FoldMaxIsMax | CustomHeadsetOpenVR/src/Distortion/RadialBezierDistortionProfile.cpp:142-146 | the folded field of view is at least its prior value and every green angle, and equals one of them |
| Profile.FoldMaxStep | CustomHeadsetOpenVR/src/Distortion/RadialBezierDistortionProfile.cpp:142-146 | one more loop pass folds one more angle in with `max` |
| Profile.TanOfDegrees | CustomHeadsetOpenVR/src/Distortion/RadialBezierDistortionProfile.cpp:158-163 | no contract of its own: `tan(degree * M_PI / 180)` with `tan` a parameter; `ToInputSpaceIncreasing` states what follows from an increasing `tan` |
| Profile.ToInputSpace | CustomHeadsetOpenVR/src/Distortion/RadialBezierDistortionProfile.cpp:158-164 | the tangent conversion keeps the length and every position |
| Profile.ToInputSpaceIncreasing | CustomHeadsetOpenVR/src/Distortion/RadialBezierDistortionProfile.cpp:158-164 | with a tangent increasing up to `halfFov` and angles in [0, halfFov], converted angles strictly increase, are at most 1, and the edge angle maps to 1 |
| Profile.ChannelCurve | CustomHeadsetOpenVR/src/Distortion/RadialBezierDistortionProfile.cpp:135-164 | the curve behind each channel's map has smoothed green's length, and at every index the tangent-space angle of smoothed green |
| Profile.ZeroOffsetChannel | CustomHeadsetOpenVR/src/Distortion/RadialBezierDistortionProfile.cpp:135-164 | with a flat 0 % offset curve, red's (or blue's) map curve equals green's |
| Profile.OutputRadius | CustomHeadsetOpenVR/src/Distortion/RadialBezierDistortionProfile.cpp:194 | map entry `i` of `size` stands for an output radius in [0, 100) |
| Profile.RadialMap | CustomHeadsetOpenVR/src/Distortion/RadialBezierDistortionProfile.cpp:193-198 | a radial map has one entry per slot |
| Profile.RadialMapInvertsCurve | CustomHeadsetOpenVR/src/Distortion/RadialBezierDistortionProfile.cpp:193-198 | for a curve increasing on both axes, forward sampling a map entry gives back that entry's output radius |
| Profile.TruncateToInt | CustomHeadsetOpenVR/src/Distortion/RadialBezierDistortionProfile.cpp:117 | `(int)` is the floor on non-negative values, and on negative ones the integer in [x, x + 1), rounding toward zero |
| Profile.MapIndex | CustomHeadsetOpenVR/src/Distortion/RadialBezierDistortionProfile.cpp:116-122 | the clamped index lies in [0, size - 2]; it is the floor inside the map, `size - 2` at or past its end and 0 below it |
| Profile.SampleFromMap | CustomHeadsetOpenVR/src/Distortion/RadialBezierDistortionProfile.cpp:115-124 | inside the map, the lookup lies between the two entries it reads |
| Profile.SampleFromMapAtEntry | CustomHeadsetOpenVR/src/Distortion/RadialBezierDistortionProfile.cpp:115-124 | at a radius that scales to a whole index `i`, the lookup returns entry `i` exactly, including the last entry |
| Profile.SampleFromMapBeyond | CustomHeadsetOpenVR/src/Distortion/RadialBezierDistortionProfile.cpp:115-124 | past the last entry the lookup extrapolates along the last two entries |
| Profile.RadialDistortion | CustomHeadsetOpenVR/src/Distortion/RadialBezierDistortionProfile.cpp:226-257 | the origin maps to the origin; away from it, output times radius equals input times the sampled radius; the output is collinear with the input |
| Profile.UnitComponent | CustomHeadsetOpenVR/src/Distortion/RadialBezierDistortionProfile.cpp:230-238 | no contract of its own: `c / radius`, with the NaN at radius 0 replaced by 0; `DirectionFacts` states what the guarded direction satisfies |
| Profile.DirectionFacts | CustomHeadsetOpenVR/src/Distortion/RadialBezierDistortionProfile.cpp:229-256 | the NaN-guarded unit vector scaled by `s` is zero at the origin, equals the input times `s / radius` elsewhere, and is collinear with the input |
| Profile.RadialBezierDistortionProfile.ChannelCurveOf | CustomHeadsetOpenVR/src/Distortion/RadialBezierDistortionProfile.cpp:135-164 | no contract of its own: `ChannelCurve` over the profile's own curves and `inBetweenPoints`; `Initialize`'s ensures are stated through it |
| Profile.RadialBezierDistortionProfile.Cleanup | CustomHeadsetOpenVR/src/Distortion/RadialBezierDistortionProfile.cpp:260-273 | all three maps are absent afterwards, and only the three map fields change |
| Profile.RadialBezierDistortionProfile.Initialize | CustomHeadsetOpenVR/src/Distortion/RadialBezierDistortionProfile.cpp:132-210 | `halfFov` is its old value folded with `max` over smoothed green; the conversion is `radialMapSize`; three fresh, distinct maps of `radialMapSize` entries; each map is the inverse sampling of its channel's curve at radii `i / size * 100` |
| Profile.RadialBezierDistortionProfile.Rebuild | CustomHeadsetOpenVR/src/Distortion/RadialBezierDistortionProfile.cpp:133-210 | everything after the old maps are dropped: the same new `halfFov`, conversion and three fresh maps as Initialize |
| Profile.RadialBezierDistortionProfile.PrepareCurves | CustomHeadsetOpenVR/src/Distortion/RadialBezierDistortionProfile.cpp:133-164 | the three curves leaving the smoothing, chromatic and tangent passes are the channel curves for the new `halfFov` |
| Profile.RadialBezierDistortionProfile.CorrectChromaticAberration | CustomHeadsetOpenVR/src/Distortion/RadialBezierDistortionProfile.cpp:139-146 | the in-place loop leaves red and blue as green scaled by their offsets, and `halfFov` as the fold of `max` over green's angles |
| Profile.RadialBezierDistortionProfile.ConvertToInputSpace | CustomHeadsetOpenVR/src/Distortion/RadialBezierDistortionProfile.cpp:157-164 | the in-place loop leaves the curve converted to tangent space |
| Profile.RadialBezierDistortionProfile.CreateRadialMaps | CustomHeadsetOpenVR/src/Distortion/RadialBezierDistortionProfile.cpp:188-198 | three fresh, distinct maps of `radialMapSize` entries holding the radial maps of the three curves, and conversion `radialMapSize` |
| Profile.RadialBezierDistortionProfile.FillRadialMaps | CustomHeadsetOpenVR/src/Distortion/RadialBezierDistortionProfile.cpp:193-198 | the fill loop leaves each array equal to the radial map of its curve |
| Profile.RadialBezierDistortionProfile.ChannelMap | CustomHeadsetOpenVR/src/Distortion/RadialBezierDistortionProfile.cpp:241-251 | the selected channel's map has `radialMapSize` entries |
| Profile.RadialBezierDistortionProfile.ComputeDistortion | CustomHeadsetOpenVR/src/Distortion/RadialBezierDistortionProfile.cpp:226-258 | the distortion is the radial distortion on the selected channel's map; the origin maps to the origin in every channel |
| Profile.RadialBezierDistortionProfile.GetProjectionRaw | CustomHeadsetOpenVR/src/Distortion/RadialBezierDistortionProfile.cpp:212-224 | top equals right, bottom equals left, right is `tan` of `halfFov`; with an odd `tan`, left is minus right and bottom is minus top |
| Profile.ComputeDistortionAtEntry | CustomHeadsetOpenVR/src/Distortion/RadialBezierDistortionProfile.cpp:226-258 | at a radius that scales to map index `i`, the distortion is the unit direction times entry `i` of the channel's map |

## Left out

- Float arithmetic: everything is exact over `real`. `smoothAmount` is exactly 1/3, and rounding, overflow and precision near the field-of-view edge are outside the model.
- Quotient: division by zero gives 0 instead of an IEEE infinity or NaN. So the quotient is 0 in three places. With equal neighbouring angles, SmoothPoints gets slope 0. On a flat sampler segment the parameter is 0, so the sampler returns that segment's left value. With `tan(halfFov) == 0`, every converted angle is 0. The one NaN the source relies on, the 0/0 direction at the origin in ComputeDistortion, is modelled by `UnitComponent`.
- `tan` and `sqrt` from the C library: `tan` is a parameter, and `sqrt` is replaced by a `radius` argument that satisfies `radius * radius == fU * fU + fV * fV`.
- ComputePPD, the oversampling-ratio loop and every `DriverLog` call: these are diagnostics that only write to the log.
- The two `if(false)` blocks that format the curve and the blue map into a log buffer: this code never runs.
- The `eEye` parameter of ComputeDistortion and GetProjectionRaw: it is unused.
- The destructor: it only calls Cleanup.
- Freeing memory: `delete[]` is modelled as dropping the reference, since Dafny has no explicit memory management.
- The class header: `RadialBezierDistortionProfile.h` is not part of this model. Its constants, the initial values of `halfFov` and `radialMapConversion`, and the `resolution` field are unknown. The first two become constructor arguments, `radialMapConversion` starts unassigned, and `resolution` is used only by the diagnostics.
- The configuration loader (JSON files, directory watching, the global configuration mutex) is not part of this model, and neither is the decoding of its flat number arrays into curves.
- Profile.RadialDistortion: does not state the output's length directly. It states that, away from the origin, output times radius equals the input times the sampled radius, which fixes the length at the sampled radius.
