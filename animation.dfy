/** Keyframe evaluation: find the segment of a key sequence that brackets a
    query time, starting from a caller-owned hint, and turn the two values at
    its ends into a result with a caller-supplied interpolator, applying an
    extrapolation policy before the first and after the last key.

    Keys and times are reals; the stored value type `V` and the result type
    `R` are type parameters, and the interpolator is a function value
    `(V, V, real) -> R`. The result type's default-constructed value is passed
    in as `zero`. */
module Animation {
  import opened Results

  /** What to return for a time outside the key range. */
  datatype Extrapolation =
    | DefaultConstructed  // the result type's default value
    | Constant            // the value of the nearest boundary key
    | Extrapolated        // the nearest segment's interpolator, with a factor outside [0, 1)

  const INTERPOLATE_SIZE_ERROR := "Animation::interpolate(): keys and values don't have the same size"
  const STRICT_COUNT_ERROR := "Animation::interpolateStrict(): at least two keyframes required"
  const STRICT_SIZE_ERROR := "Animation::interpolateStrict(): keys and values don't have the same size"

  /** Keys are non-decreasing; equal neighbouring keys are allowed. */
  predicate Sorted(keys: seq<real>)
  {
    forall i, j :: 0 <= i <= j < |keys| ==> keys[i] <= keys[j]
  }

  /** Segment `i` (from `keys[i]` to `keys[i + 1]`) brackets `time`: it is the
      first segment or starts at or before `time`, and it is the last segment
      or ends after `time`. */
  predicate Brackets(keys: seq<real>, time: real, i: nat)
  {
    i + 2 <= |keys|
    && (i == 0 || keys[i] <= time)
    && (i + 2 == |keys| || time < keys[i + 1])
  }

  /** The segment a query at `time` falls into: the last segment whose start
      key is not after `time`, or the first one if there is none. */
  function Segment(keys: seq<real>, time: real): (i: nat)
    requires |keys| >= 2
    ensures i + 2 <= |keys|
    ensures i == 0 || keys[i] <= time
    decreases |keys|
  {
    if |keys| == 2 then 0
    else if keys[|keys| - 2] <= time then |keys| - 2
    else Segment(keys[..|keys| - 1], time)
  }

  lemma {:induction false} SegmentBrackets(keys: seq<real>, time: real)
    requires |keys| >= 2
    ensures Brackets(keys, time, Segment(keys, time))
    decreases |keys|
  {
    if |keys| > 2 && time < keys[|keys| - 2] {
      var prefix := keys[..|keys| - 1];
      SegmentBrackets(prefix, time);
      var i := Segment(prefix, time);
      assert prefix[i] == keys[i];
      assert i + 2 < |prefix| ==> prefix[i + 1] == keys[i + 1];
    }
  }

  /** On sorted keys exactly one segment brackets a time, and `Segment` is it. */
  lemma {:induction false} SegmentCharacterized(keys: seq<real>, time: real, i: nat)
    requires |keys| >= 2 && Sorted(keys)
    ensures Brackets(keys, time, i) <==> i == Segment(keys, time)
  {
    SegmentBrackets(keys, time);
  }

  /** Where `time` lies in the segment from `k0` to `k1`: 0 at `k0`, 1 at `k1`.
      A segment of zero length gives 0. */
  function Factor(k0: real, k1: real, time: real): (f: real)
    ensures k0 != k1 ==> k0 + f * (k1 - k0) == time
    ensures k0 < k1 ==> (k0 <= time < k1 <==> 0.0 <= f < 1.0)
    ensures k0 < k1 ==> (time < k0 <==> f < 0.0)
    ensures k0 < k1 ==> (time > k1 <==> f > 1.0)
  {
    if k0 == k1 then 0.0
    else
      var f := (time - k0) / (k1 - k0);
      if k0 < k1 then ScaledOrder(f, k1 - k0, time - k0); f else f
  }

  /** Comparing a quotient `a / d` with 0 and 1 is comparing `a` with 0 and `d`. */
  lemma ScaledOrder(f: real, d: real, a: real)
    requires d > 0.0 && f * d == a
    ensures 0.0 <= f < 1.0 <==> 0.0 <= a < d
    ensures f < 0.0 <==> a < 0.0
    ensures f > 1.0 <==> a > d
  {
    if f < 0.0 { assert f * d < 0.0; }
    if f >= 1.0 { assert f * d >= 1.0 * d; }
    if f > 1.0 { assert f * d > 1.0 * d; }
    if f <= 1.0 { assert f * d <= 1.0 * d; }
  }

  /** The interpolator applied to segment `i` at `time`. */
  function SegmentValue<V, R>(keys: seq<real>, values: seq<V>, interpolator: (V, V, real) -> R,
                              i: nat, time: real): R
    requires i + 1 < |keys| == |values|
  {
    interpolator(values[i], values[i + 1], Factor(keys[i], keys[i + 1], time))
  }

  /** The value a policy gives outside the key range, next to the key holding
      `boundary`; `extrapolated` is the nearest segment's interpolation. */
  function Outside<V, R>(policy: Extrapolation, boundary: V, extrapolated: R,
                         interpolator: (V, V, real) -> R, zero: R): R
  {
    match policy
    case DefaultConstructed => zero
    case Constant => interpolator(boundary, boundary, 0.0)
    case Extrapolated => extrapolated
  }

  /** A track of one keyframe: its value, unless `time` is off the key on a
      side whose policy is `DefaultConstructed`. */
  function SingleKeyframe<V, R>(key: real, value: V, before: Extrapolation, after: Extrapolation,
                                interpolator: (V, V, real) -> R, zero: R, time: real): R
  {
    if (time < key && before == DefaultConstructed) || (time > key && after == DefaultConstructed) then zero
    else interpolator(value, value, 0.0)
  }

  /** A track of two or more keyframes, evaluated on the segment `Segment`
      finds. A time at or past the last key counts as after the range. */
  function Keyframes<V, R>(keys: seq<real>, values: seq<V>, before: Extrapolation, after: Extrapolation,
                           interpolator: (V, V, real) -> R, zero: R, time: real): R
    requires 2 <= |keys| == |values|
  {
    var i := Segment(keys, time);
    var inSegment := SegmentValue(keys, values, interpolator, i, time);
    if time < keys[i] then Outside(before, values[i], inSegment, interpolator, zero)
    else if time >= keys[i + 1] then Outside(after, values[i + 1], inSegment, interpolator, zero)
    else inSegment
  }

  /** What `interpolate` returns, independently of the hint. */
  function Evaluate<V, R>(keys: seq<real>, values: seq<V>, before: Extrapolation, after: Extrapolation,
                          interpolator: (V, V, real) -> R, zero: R, time: real): (r: Result<R>)
    ensures r.Err? <==> |keys| != |values|
    ensures r.Err? ==> r.message == INTERPOLATE_SIZE_ERROR
    ensures |keys| == |values| == 0 ==> r == Ok(zero)
  {
    if |keys| != |values| then Err(INTERPOLATE_SIZE_ERROR)
    else if |keys| == 0 then Ok(zero)
    else if |keys| == 1 then Ok(SingleKeyframe(keys[0], values[0], before, after, interpolator, zero, time))
    else Ok(Keyframes(keys, values, before, after, interpolator, zero, time))
  }

  /** What `interpolateStrict` returns, independently of the hint: always the
      bracketing segment's interpolation, extrapolating at both ends. */
  function EvaluateStrict<V, R>(keys: seq<real>, values: seq<V>, interpolator: (V, V, real) -> R,
                                time: real): (r: Result<R>)
    ensures r.Err? <==> |keys| < 2 || |keys| != |values|
    ensures |keys| < 2 ==> r == Err(STRICT_COUNT_ERROR)
    ensures |keys| >= 2 && |keys| != |values| ==> r == Err(STRICT_SIZE_ERROR)
  {
    if |keys| < 2 then Err(STRICT_COUNT_ERROR)
    else if |keys| != |values| then Err(STRICT_SIZE_ERROR)
    else Ok(SegmentValue(keys, values, interpolator, Segment(keys, time), time))
  }

  /** The hinted search. An out-of-range hint, or one whose segment starts
      after `time`, restarts from the first segment; the search then moves
      forward while the next key is not after `time`. */
  method FindSegment(keys: seq<real>, time: real, hint: nat) returns (i: nat)
    requires |keys| >= 2 && Sorted(keys)
    ensures Brackets(keys, time, i)
    ensures i == Segment(keys, time)
  {
    i := hint;
    if i + 1 >= |keys| || time < keys[i] {
      i := 0;
    }
    while i + 2 < |keys| && time >= keys[i + 1]
      invariant i + 2 <= |keys|
      invariant i == 0 || keys[i] <= time
      decreases |keys| - i
    {
      i := i + 1;
    }
    SegmentCharacterized(keys, time, i);
  }

  /** `interpolate()`: `hint` is the caller's in/out hint, returned as
      `hint'`. A size mismatch is reported and leaves the hint alone; fewer
      than two keys set it to 0; otherwise it ends on the bracketing segment.
      Neither the result nor the new hint depends on the incoming hint. */
  method Interpolate<V, R>(keys: seq<real>, values: seq<V>, before: Extrapolation, after: Extrapolation,
                           interpolator: (V, V, real) -> R, zero: R, time: real, hint: nat)
    returns (r: Result<R>, hint': nat)
    requires Sorted(keys)
    ensures r == Evaluate(keys, values, before, after, interpolator, zero, time)
    ensures hint' == if |keys| != |values| then hint else if |keys| < 2 then 0 else Segment(keys, time)
  {
    if |keys| != |values| {
      return Err(INTERPOLATE_SIZE_ERROR), hint;
    }
    if |keys| == 0 {
      return Ok(zero), 0;
    }
    if |keys| == 1 {
      hint' := 0;
      if (time < keys[0] && before == DefaultConstructed) || (time > keys[0] && after == DefaultConstructed) {
        r := Ok(zero);
      } else {
        r := Ok(interpolator(values[0], values[0], 0.0));
      }
      return;
    }
    hint' := FindSegment(keys, time, hint);
    var i := hint';
    if time < keys[i] && before == DefaultConstructed {
      r := Ok(zero);
    } else if time < keys[i] && before == Constant {
      r := Ok(interpolator(values[i], values[i], 0.0));
    } else if time >= keys[i + 1] && after == DefaultConstructed {
      r := Ok(zero);
    } else if time >= keys[i + 1] && after == Constant {
      r := Ok(interpolator(values[i + 1], values[i + 1], 0.0));
    } else {
      r := Ok(interpolator(values[i], values[i + 1], Factor(keys[i], keys[i + 1], time)));
    }
  }

  /** `interpolateStrict()`: at least two keys and equal sizes are checked, in
      that order; an error leaves the hint alone. */
  method InterpolateStrict<V, R>(keys: seq<real>, values: seq<V>, interpolator: (V, V, real) -> R,
                                 time: real, hint: nat)
    returns (r: Result<R>, hint': nat)
    requires Sorted(keys)
    ensures r == EvaluateStrict(keys, values, interpolator, time)
    ensures hint' == if |keys| < 2 || |keys| != |values| then hint else Segment(keys, time)
  {
    if |keys| < 2 {
      return Err(STRICT_COUNT_ERROR), hint;
    }
    if |keys| != |values| {
      return Err(STRICT_SIZE_ERROR), hint;
    }
    hint' := FindSegment(keys, time, hint);
    var i := hint';
    r := Ok(interpolator(values[i], values[i + 1], Factor(keys[i], keys[i + 1], time)));
  }

  /** Before the first key the first segment is used and the `before` policy
      decides: default, first value, or the first segment's interpolator at a
      negative factor. */
  lemma BeforeFirstKey<V, R>(keys: seq<real>, values: seq<V>, before: Extrapolation, after: Extrapolation,
                             interpolator: (V, V, real) -> R, zero: R, time: real)
    requires 2 <= |keys| == |values| && Sorted(keys)
    requires time < keys[0]
    ensures Segment(keys, time) == 0
    ensures var r := Evaluate(keys, values, before, after, interpolator, zero, time);
      && (before == DefaultConstructed ==> r == Ok(zero))
      && (before == Constant ==> r == Ok(interpolator(values[0], values[0], 0.0)))
      && (before == Extrapolated ==> r == Ok(interpolator(values[0], values[1], Factor(keys[0], keys[1], time))))
    ensures keys[0] < keys[1] ==> Factor(keys[0], keys[1], time) < 0.0
  {
    SegmentCharacterized(keys, time, 0);
  }

  /** After the last key the last segment is used and the `after` policy
      decides: default, last value, or the last segment's interpolator at a
      factor above 1. */
  lemma AfterLastKey<V, R>(keys: seq<real>, values: seq<V>, before: Extrapolation, after: Extrapolation,
                           interpolator: (V, V, real) -> R, zero: R, time: real)
    requires 2 <= |keys| == |values| && Sorted(keys)
    requires time > keys[|keys| - 1]
    ensures Segment(keys, time) == |keys| - 2
    ensures var n := |keys|;
      var r := Evaluate(keys, values, before, after, interpolator, zero, time);
      && (after == DefaultConstructed ==> r == Ok(zero))
      && (after == Constant ==> r == Ok(interpolator(values[n - 1], values[n - 1], 0.0)))
      && (after == Extrapolated ==> r == Ok(interpolator(values[n - 2], values[n - 1], Factor(keys[n - 2], keys[n - 1], time))))
    ensures keys[|keys| - 2] < keys[|keys| - 1] ==> Factor(keys[|keys| - 2], keys[|keys| - 1], time) > 1.0
  {
    var n := |keys|;
    assert keys[0] <= keys[n - 2];
    SegmentCharacterized(keys, time, n - 2);
  }

  /** Inside the key range the bracketing segment `i` is used, with the time
      mapped linearly to a factor in [0, 1), whatever the policies. */
  lemma {:induction false} InsideSegment<V, R>(keys: seq<real>, values: seq<V>, before: Extrapolation, after: Extrapolation,
                            interpolator: (V, V, real) -> R, zero: R, time: real, i: nat)
    requires |keys| == |values| && Sorted(keys)
    requires i + 1 < |keys| && keys[i] <= time < keys[i + 1]
    ensures Segment(keys, time) == i
    ensures var f := (time - keys[i]) / (keys[i + 1] - keys[i]);
      && 0.0 <= f < 1.0
      && Evaluate(keys, values, before, after, interpolator, zero, time) == Ok(interpolator(values[i], values[i + 1], f))
  {
    SegmentCharacterized(keys, time, i);
    assert Factor(keys[i], keys[i + 1], time) == (time - keys[i]) / (keys[i + 1] - keys[i]);
  }

  /** The strict variant is the lenient one with `Extrapolated` on both sides,
      and it leaves the same hint. */
  lemma StrictIsExtrapolated<V, R>(keys: seq<real>, values: seq<V>, interpolator: (V, V, real) -> R,
                                   zero: R, time: real)
    requires 2 <= |keys| == |values| && Sorted(keys)
    ensures EvaluateStrict(keys, values, interpolator, time)
         == Evaluate(keys, values, Extrapolated, Extrapolated, interpolator, zero, time)
  {
    var i := Segment(keys, time);
    if time < keys[i] {
      assert keys[i] <= keys[i + 1];
    }
  }

  /** With one keyframe, the key's value comes back unless the time is off
      the key on a side whose policy is `DefaultConstructed`; then the
      default does. `Constant` and `Extrapolated` behave alike. */
  lemma SingleKeyframePolicies<V, R>(keys: seq<real>, values: seq<V>, interpolator: (V, V, real) -> R,
                                     zero: R, time: real, before: Extrapolation, after: Extrapolation)
    requires |keys| == |values| == 1
    ensures (time < keys[0] ==> before != DefaultConstructed) && (time > keys[0] ==> after != DefaultConstructed) ==>
      Evaluate(keys, values, before, after, interpolator, zero, time) == Ok(interpolator(values[0], values[0], 0.0))
    ensures (time < keys[0] && before == DefaultConstructed) || (time > keys[0] && after == DefaultConstructed) ==>
      Evaluate(keys, values, before, after, interpolator, zero, time) == Ok(zero)
  {
  }

  /** With no keyframes the result is the default value whatever the
      policies and the time. */
  lemma NoKeyframes<V, R>(interpolator: (V, V, real) -> R, zero: R, time: real,
                          before: Extrapolation, after: Extrapolation)
    ensures Evaluate([], [], before, after, interpolator, zero, time) == Ok(zero)
  {
  }
}
