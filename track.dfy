/** A typed track view: keys, stored values, the interpolation mode it was
    built for, the interpolator and the two extrapolation policies, queried
    as a function of time. */
module Track {
  import opened Results
  import Animation
  import Math

  /** How values between keys are computed. */
  datatype Interpolation = Constant | Linear | Custom

  datatype TrackView<!V, R> = TrackView(
    keys: seq<real>,
    values: seq<V>,
    interpolation: Interpolation,
    interpolator: (V, V, real) -> R,
    before: Animation.Extrapolation,
    after: Animation.Extrapolation)
  {
    /** Number of keyframes. */
    function Size(): nat
    {
      |keys|
    }

    /** The value at `time`; `zero` is the result type's default value. */
    function At(time: real, zero: R): (r: Result<R>)
      ensures r.Err? <==> |keys| != |values|
    {
      Animation.Evaluate(keys, values, before, after, interpolator, zero, time)
    }
  }

  /** On a view interpolated with `Constant` (the step interpolator), a time
      from a key up to, but not including, the next key gives the earlier key's
      value. */
  lemma ConstantViewHoldsEarlierKey<V>(keys: seq<real>, values: seq<V>, before: Animation.Extrapolation,
                                       after: Animation.Extrapolation, zero: V, time: real, i: nat)
    requires |keys| == |values| && Animation.Sorted(keys)
    requires i + 1 < |keys| && keys[i] <= time < keys[i + 1]
    ensures TrackView(keys, values, Constant, Math.Select, before, after).At(time, zero) == Ok(values[i])
  {
    Animation.InsideSegment(keys, values, before, after, Math.Select, zero, time, i);
  }
}
