# Magnum keyframe interpolation and animation track table, in Dafny

This project models two parts of Magnum's animation support:

- **Keyframe evaluation** (`Animation::interpolate`, `Animation::interpolateStrict`). The caller gives a non-decreasing key sequence, a value sequence, an interpolator `(V, V, t) -> R`, a query time and an in/out search hint. The call finds the segment that brackets the time, leaves that segment's index in the hint, and computes the result. Outside the key range it applies one `Extrapolation` policy before the first key and another after the last key: `DefaultConstructed`, `Constant` or `Extrapolated`. The lenient variant also handles zero keys, one key, and keys and values of different lengths. The strict variant always extrapolates and reports fewer than two keys, or mismatched lengths, as errors.
- **The track table of `Trade::AnimationData`**. It holds a buffer, an array of track descriptors and an opaque importer state. A descriptor has a stored-type tag, a result-type tag, a target, a target id and a typed track view. Every accessor checks the index. `track<V, R>(i)` also compares the requested tags with the descriptor's tags before handing out the view.

Files and modules:

- `results.dfy` (`Results`): `Result<T>`. `Ok` carries a value. `Err` carries the diagnostic message the operation prints; the caller then gets a default value.
- `math.dfy` (`Math`): the interpolators the tests use. These are `Lerp` (`(1 - t)*a + t*b`), `Lerp3` and `Select` (the step interpolator of `Interpolation::Constant`), plus the small vector types they need.
- `animation.dfy` (`Animation`): the evaluation engine.
  - The pure specification is `Segment`, `Factor`, `Evaluate` and `EvaluateStrict`, all independent of the hint.
  - The imperative search is `FindSegment`. It resets a stale hint and walks forward with a loop.
  - `Interpolate` and `InterpolateStrict` take the caller's hint and return the updated hint as `hint'`.
  - The lemmas state the before/inside/after behaviour, the one-key and zero-key cases, and the equivalence of the strict variant with "extrapolate on both sides".
- `track.dfy` (`Track`): `TrackView`, which binds keys, values, interpolation mode, interpolator and policies. `At` evaluates it at a time.
- `trade.dfy` (`Trade`): the type and target tags, the descriptors, `AnimationData` and its accessors.
- `interpolation_test.dfy`, `animation_data_test.dfy`: the test tables of the two test files.
  - Each lenient or strict test function is a method. It calls the model as the test does and promises the expected value and hint.
  - The lookup tests are lemmas about the container.

Keys and times are `real`. Every expected value in the tests is exact in the reals. The result type's default value `R{}` is an explicit `zero` parameter.

Interpolation choices made where the evidence is thin:

- **Interpolator calls.** The `Constant` policy returns `interpolator(v, v, 0)` of the boundary value. A single keyframe returns the same unless the time is off the key on a `DefaultConstructed` side.
- **Segment search.** A hint is reset to 0 when its segment does not exist (`hint + 1 >= n`) or starts after the time. The search then moves forward while the next key is not after the time. Neither the result nor the final hint depends on the incoming hint (`Interpolate`'s contract).
- **Errors.** An error leaves the hint as it was. The strict variant checks "at least two keyframes" before it checks equal sizes.
- **Sorted keys.** The keys must be sorted (`Sorted`). The caller guarantees this; the code relies on it without checking.

## Model

| member | source | states |
|---|---|---|
| `Math.Lerp` | src/Magnum/Animation/Test/InterpolationTest.cpp:157-159 | the test's interpolator: gives `a` at 0, `b` at 1, and `a` when both ends are equal |
| `Math.Lerp3` | src/Magnum/Trade/Test/AnimationDataTest.cpp:145 | component-wise lerp, `a` at 0 and `b` at 1 |
| `Math.Select` | src/Magnum/Trade/Test/AnimationDataTest.cpp:85-86 | the `Constant` interpolator: the first value below factor 1, the second from 1 on |
| `Animation.Segment` | src/Magnum/Animation/Test/InterpolationTest.cpp:73-87 | the segment index is a valid segment (`i + 2 <= n`), and `keys[i] <= time` unless it is segment 0 |
| `Animation.SegmentBrackets` | src/Magnum/Animation/Test/InterpolationTest.cpp:73-87 | the segment `Segment` picks brackets the time: it starts at or before the time (or is the first) and ends after it (or is the last) |
| `Animation.SegmentCharacterized` | src/Magnum/Animation/Test/InterpolationTest.cpp:112-120 | on sorted keys a segment brackets the time if and only if it is `Segment`'s, so exactly one hint value is correct |
| `Animation.Factor` | src/Magnum/Animation/Test/InterpolationTest.cpp:148-149 | the normalised time maps back to the time (`k0 + f*(k1-k0) == time`). On a proper segment it is in [0,1) iff the time is in [k0,k1), negative iff before k0, above 1 iff after k1 |
| `Animation.Evaluate` | src/Magnum/Animation/Test/InterpolationTest.cpp:239-250 | lenient evaluation: the size error exactly when the lengths differ, with the test's message; the default value for an empty track |
| `Animation.EvaluateStrict` | src/Magnum/Animation/Test/InterpolationTest.cpp:252-272 | strict evaluation: an error exactly when there are fewer than two keys or the lengths differ. "at least two keyframes required" takes precedence over the size message |
| `Animation.FindSegment` | src/Magnum/Animation/Test/InterpolationTest.cpp:112-120 | the hinted search ends on the bracketing segment, `Segment(keys, time)`, from any incoming hint |
| `Animation.Interpolate` | src/Magnum/Animation/Test/InterpolationTest.cpp:152-161 | `interpolate()` returns `Evaluate` and leaves the hint unchanged on error, 0 for fewer than two keys, otherwise the bracketing segment; neither depends on the incoming hint |
| `Animation.InterpolateStrict` | src/Magnum/Animation/Test/InterpolationTest.cpp:163-171 | `interpolateStrict()` returns `EvaluateStrict` and leaves the hint unchanged on error, otherwise the bracketing segment; neither depends on the incoming hint |
| `Animation.BeforeFirstKey` | src/Magnum/Animation/Test/InterpolationTest.cpp:64-72 | before the first key the hint is 0. The result is the default (`DefaultConstructed`), the first value passed through the interpolator (`Constant`), or the first segment's interpolator at a negative factor (`Extrapolated`) |
| `Animation.AfterLastKey` | src/Magnum/Animation/Test/InterpolationTest.cpp:79-87 | after the last key the hint is n-2. The result is the default (`DefaultConstructed`), the last value passed through the interpolator (`Constant`), or the last segment's interpolator at a factor above 1 (`Extrapolated`) |
| `Animation.InsideSegment` | src/Magnum/Animation/Test/InterpolationTest.cpp:73-78 | for `keys[i] <= time < keys[i+1]` the hint is `i` and the result is `interpolator(values[i], values[i+1], (time-keys[i])/(keys[i+1]-keys[i]))` with that factor in [0,1), whatever the policies |
| `Animation.StrictIsExtrapolated` | src/Magnum/Animation/Test/InterpolationTest.cpp:61-87 | on two or more keys of matching length, strict evaluation equals lenient evaluation with `Extrapolated` on both sides, at every time |
| `Animation.SingleKeyframePolicies` | src/Magnum/Animation/Test/InterpolationTest.cpp:95-110 | one keyframe: the key's value unless the time is off the key on a side whose policy is `DefaultConstructed`, and then the default; so `Constant` and `Extrapolated` behave alike and every policy gives the value at the key |
| `Animation.NoKeyframes` | src/Magnum/Animation/Test/InterpolationTest.cpp:186-192 | no keyframes: the default value for every policy pair and time |
| `Track.TrackView.At` | src/Magnum/Trade/Test/AnimationDataTest.cpp:149 | a view's value at a time is defined exactly when keys and values have the same length |
| `Track.ConstantViewHoldsEarlierKey` | src/Magnum/Trade/Test/AnimationDataTest.cpp:106-110 | on a `Constant` view, a time from key `i` up to key `i+1` gives `values[i]` |
| `Trade.TrackData` | src/Magnum/Trade/Test/AnimationDataTest.cpp:80-86 | a descriptor built without a result type has result type equal to its stored type, and keeps target, id and view |
| `Trade.AnimationData.TrackCount` | src/Magnum/Trade/Test/AnimationDataTest.cpp:97 | the track count is the number of descriptors |
| `Trade.AnimationData.TrackType` | src/Magnum/Trade/Test/AnimationDataTest.cpp:157-164 | the descriptor's stored type for an index in range, otherwise the `trackType(): index out of range` error |
| `Trade.AnimationData.TrackResultType` | src/Magnum/Trade/Test/AnimationDataTest.cpp:158-165 | the descriptor's result type in range, otherwise the `trackResultType()` out-of-range error |
| `Trade.AnimationData.TrackTarget` | src/Magnum/Trade/Test/AnimationDataTest.cpp:159-166 | the descriptor's target in range, otherwise the `trackTarget()` out-of-range error |
| `Trade.AnimationData.TrackTargetId` | src/Magnum/Trade/Test/AnimationDataTest.cpp:160-167 | the descriptor's target id in range, otherwise the `trackTargetId()` out-of-range error |
| `Trade.AnimationData.Track` | src/Magnum/Trade/Test/AnimationDataTest.cpp:171-199 | the view exactly when the index is in range and both tags match. Otherwise the index error first, then the stored-type error naming the descriptor's stored type, then the result-type error naming the descriptor's result type |
| `Trade.AnimationData.TrackOf` | src/Magnum/Trade/Test/AnimationDataTest.cpp:106 | `track<V>(i)` asks for result type = stored type: succeeds exactly when both descriptor tags are `V`; a stored mismatch names the descriptor's stored type |
| `Trade.ConstructRoundTrip` | src/Magnum/Trade/Test/AnimationDataTest.cpp:79-98 | the container gives back the buffer size, the descriptor count, the importer state and every descriptor field unchanged |
| `InterpolationTest.DataTable` | src/Magnum/Animation/Test/InterpolationTest.cpp:56-88 | all eight rows of the main table hold (lenient value, strict value, hint) |
| `InterpolationTest.BeforeRows` | src/Magnum/Animation/Test/InterpolationTest.cpp:64-72 | the three "before" rows hold |
| `InterpolationTest.DuringRows` | src/Magnum/Animation/Test/InterpolationTest.cpp:73-78 | the two "during" rows hold |
| `InterpolationTest.AfterRows` | src/Magnum/Animation/Test/InterpolationTest.cpp:79-87 | the three "after" rows hold |
| `InterpolationTest.RunInterpolate` | src/Magnum/Animation/Test/InterpolationTest.cpp:152-161 | `interpolate()` from hint 0 gives each row's expected value and hint |
| `InterpolationTest.RunInterpolateStrict` | src/Magnum/Animation/Test/InterpolationTest.cpp:163-171 | `interpolateStrict()` from hint 0 gives each row's strict value and hint |
| `InterpolationTest.RunInterpolateSingleKeyframe` | src/Magnum/Animation/Test/InterpolationTest.cpp:173-184 | each single-keyframe row's value, hint 0 |
| `InterpolationTest.RunInterpolateNoKeyframe` | src/Magnum/Animation/Test/InterpolationTest.cpp:186-192 | empty track: default value, hint 0, from any hint |
| `InterpolationTest.RunInterpolateHint` | src/Magnum/Animation/Test/InterpolationTest.cpp:194-203 | time 4.75 gives 1.0 and hint 2 from every incoming hint, including 405780454 |
| `InterpolationTest.RunInterpolateStrictHint` | src/Magnum/Animation/Test/InterpolationTest.cpp:205-213 | the same for the strict variant |
| `InterpolationTest.LerpVia` | src/Magnum/Animation/Test/InterpolationTest.cpp:220-222 | the stored-type interpolator (`lerpHalf`): converts both ends and interpolates linearly, giving the first converted value at 0 and the second at 1 |
| `InterpolationTest.RunInterpolateDifferentResultType` | src/Magnum/Animation/Test/InterpolationTest.cpp:225-237 | values stored in any type that converts to the track's values give 1.0 and hint 2 at 4.75, in both variants |
| `InterpolationTest.RunInterpolateError` | src/Magnum/Animation/Test/InterpolationTest.cpp:239-250 | four keys, no values: the size error, hint untouched |
| `InterpolationTest.RunInterpolateStrictError` | src/Magnum/Animation/Test/InterpolationTest.cpp:252-272 | one key: the "at least two keyframes" error; three keys and four values: the size error; hint untouched |
| `AnimationDataTest.Construct` | src/Magnum/Trade/Test/AnimationDataTest.cpp:64-123 | the construction test: buffer size, count, importer state, every metadata accessor, both typed views' sizes and modes, and `at(2.5)` on the position track is the first position |
| `AnimationDataTest.ScaledLerp` | src/Magnum/Trade/Test/AnimationDataTest.cpp:144-146 | the custom interpolator from integer positions to real vectors: the first position in hundredths at 0, the second at 1 |
| `AnimationDataTest.CustomResultType` | src/Magnum/Trade/Test/AnimationDataTest.cpp:125-150 | over any buffer, `track<Vector3i, Vector3>(0)` returns the view and its `at(2.5)` is (1.65, 0.8, 0.55), whatever the third keyframe holds |
| `AnimationDataTest.WrongIndex` | src/Magnum/Trade/Test/AnimationDataTest.cpp:152-169 | on an empty container each accessor reports its own "index out of range" message at index 0 |
| `AnimationDataTest.WrongType` | src/Magnum/Trade/Test/AnimationDataTest.cpp:171-184 | `track<Vector3>` on a `Vector3i`→`Vector3` track reports the improper stored type `Vector3i` |
| `AnimationDataTest.WrongResultType` | src/Magnum/Trade/Test/AnimationDataTest.cpp:186-199 | `track<Vector3i, Vector2>` on that track reports the improper result type `Vector3` |

Helpers without a row: `Animation.Outside` (the policy choice), `Animation.SingleKeyframe` (the one-key branch) and `Animation.Keyframes` (the multi-key branch) make up `Animation.Evaluate`; `Animation.BeforeFirstKey`, `Animation.InsideSegment`, `Animation.AfterLastKey` and `Animation.SingleKeyframePolicies` state what they give. `Track.TrackView.Size` is the view's `keys().size()` (src/Magnum/Trade/Test/AnimationDataTest.cpp:107) as used by `AnimationDataTest.Construct`. `Trade.TypeName` is the printed name of a type tag that `Trade.AnimationData.Track` puts into its type-mismatch messages (src/Magnum/Trade/Test/AnimationDataTest.cpp:183, 198); `AnimationDataTest.WrongType` and `AnimationDataTest.WrongResultType` state those messages in full.

## Left out

- The headers `Magnum/Animation/Interpolation.h`, `Magnum/Animation/Track.h` and `Magnum/Trade/AnimationData.h` are not part of this model. The model follows what the two test files pin down. The hint-reset guard, the check order in the strict variant and the `interpolator(v, v, 0)` form of `Constant` are the choices stated above.
- Behaviour exactly at the last key of a multi-key track is not pinned by the tests. The model treats it as "after the range", so the `after` policy applies; no lemma states it. Exactly at an inner key, the segment starting there is used.
- `Animation.AfterLastKey`: requires a time strictly after the last key, because the tests do not pin the time equal to it.
- Floating point: keys, times and values are reals. When two neighbouring keys are equal, `Extrapolated` would divide by zero and give infinity or NaN in floats. The model uses factor 0 for such a zero-length segment instead.
- Unsorted keys: `Interpolate`, `InterpolateStrict` and `FindSegment` require sorted keys, which is the caller's contract. `Evaluate`, `EvaluateStrict` and `Track.TrackView.At` are defined on any keys: they pick the segment by `Segment`, the last segment whose start is not after the time. They are claimed to match the source's forward search from a hint only on sorted keys; on unsorted keys the source's result depends on the hint. In the custom-result-type test the third key is unconstrained, and both searches stop on segment 0 at time 2.5 whatever it is: the forward search from hint 0 because 2.5 is before the second key, `Segment` because the second key is after 2.5.
- The number of comparisons the search makes (amortised constant time for sequential playback) is not modelled, only its outcome. So is the choice between a binary search and a forward scan.
- Debug output of `Extrapolation`, `AnimationTrackType` and `AnimationTrackTarget` values, including `Custom(135)` and the hexadecimal form of unknown values. This is text formatting. The type names appear only inside the type-mismatch messages.
- Only the type tags the tests name are modelled: Float, Vector2, Vector3, Vector3i, Quaternion, DualQuaternion. Targets are the three the tests use plus `Custom(id)`.
- Quaternion track contents and their interpolation (`Quaternion::rotation`, degree literals, the linear quaternion result at 2.5). These are floating-point trigonometry. In `AnimationDataTest.Construct` the rotation values and interpolator are arbitrary parameters.
- Half floats: the stored type of the different-result-type test is any type `H` with a conversion to real.
- The byte layout of strided views, `arrayCast`, `sizeof`-based strides, and buffer move and ownership. Keys and values are sequences. The buffer is a byte sequence whose only observed property is its size.
- The view length in the custom-result-type test is passed as the buffer's byte size, not as its element count of three. The test writes only the first two keyframes, so the third key and value are whatever the buffer holds. The model uses three keyframes whose third key and value are unconstrained parameters. The lemma shows that the result at 2.5 depends only on the first two.
- `animationInterpolatorFor()`: the construction scenario uses `Math.Select` for the `Constant` track directly.
- The extrapolation defaults of `TrackView`: the tests build views without naming policies. The scenarios use `Constant`; no result in them depends on it.
- `TrackView::at()` threads a hint into `interpolate`. `At` is hint-free because the result does not depend on the hint (`Animation.Interpolate`).
- The importer-state pointer is an opaque handle returned unchanged. Accessors that fail return a default value in the source; here they return `Err` with the message instead.
- The test harness itself: instanced tests, `CORRADE_TEST_MAIN`, and redirecting `Error` into a string stream.
