/** The interpolation test cases: the four-key linear track, its one-key
    prefix, the empty track, stale hints, a stored type different from the
    result type, and the error cases. Each test function becomes a method
    that calls the model's `Interpolate` or `InterpolateStrict` as the test
    does and promises the expected value and hint. */
module InterpolationTest {
  import opened Results
  import opened Animation
  import Math

  const KEYS: seq<real> := [0.0, 2.0, 4.0, 5.0]
  const VALUES: seq<real> := [3.0, 1.0, 2.5, 0.5]

  /** One instance of the main table: the policies, the time, the lenient and
      strict results and the hint both leave behind. */
  datatype Row = Row(before: Extrapolation, after: Extrapolation, time: real,
                     expected: real, expectedStrict: real, expectedHint: nat)

  const DATA: seq<Row> := [
    Row(DefaultConstructed, Extrapolated, -1.0, 0.0, 4.0, 0),   // before default-constructed
    Row(Constant, Extrapolated, -1.0, 3.0, 4.0, 0),             // before constant
    Row(Extrapolated, DefaultConstructed, -1.0, 4.0, 4.0, 0),   // before extrapolated
    Row(DefaultConstructed, DefaultConstructed, 1.5, 1.5, 1.5, 0),   // during first
    Row(DefaultConstructed, DefaultConstructed, 4.75, 1.0, 1.0, 2),  // during second
    Row(Extrapolated, DefaultConstructed, 6.0, 0.0, -1.5, 2),   // after default-constructed
    Row(Extrapolated, Constant, 6.0, 0.5, -1.5, 2),             // after constant
    Row(DefaultConstructed, Extrapolated, 6.0, -1.5, -1.5, 2)   // after extrapolated
  ]

  predicate RowHolds(row: Row)
  {
    && Evaluate(KEYS, VALUES, row.before, row.after, Math.Lerp, 0.0, row.time) == Ok(row.expected)
    && EvaluateStrict(KEYS, VALUES, Math.Lerp, row.time) == Ok(row.expectedStrict)
    && Segment(KEYS, row.time) == row.expectedHint
  }

  /** Every row of the main table holds of the model. */
  lemma DataTable()
    ensures forall k :: 0 <= k < |DATA| ==> RowHolds(DATA[k])
  {
    BeforeRows();
    DuringRows();
    AfterRows();
  }

  /** Rows 0-2: time -1, before the first key. */
  lemma BeforeRows()
    ensures forall k :: 0 <= k < 3 ==> RowHolds(DATA[k])
  {
    forall k | 0 <= k < 3
      ensures RowHolds(DATA[k])
    {
      var row := DATA[k];
      StrictIsExtrapolated(KEYS, VALUES, Math.Lerp, 0.0, row.time);
      BeforeFirstKey(KEYS, VALUES, row.before, row.after, Math.Lerp, 0.0, row.time);
      BeforeFirstKey(KEYS, VALUES, Extrapolated, Extrapolated, Math.Lerp, 0.0, row.time);
    }
  }

  /** Rows 3-4: times 1.5 and 4.75, inside the first and the third segment. */
  lemma DuringRows()
    ensures forall k :: 3 <= k < 5 ==> RowHolds(DATA[k])
  {
    forall k | 3 <= k < 5
      ensures RowHolds(DATA[k])
    {
      var row := DATA[k];
      var i := if k == 3 then 0 else 2;
      StrictIsExtrapolated(KEYS, VALUES, Math.Lerp, 0.0, row.time);
      InsideSegment(KEYS, VALUES, row.before, row.after, Math.Lerp, 0.0, row.time, i);
      InsideSegment(KEYS, VALUES, Extrapolated, Extrapolated, Math.Lerp, 0.0, row.time, i);
    }
  }

  /** Rows 5-7: time 6, after the last key. */
  lemma AfterRows()
    ensures forall k :: 5 <= k < 8 ==> RowHolds(DATA[k])
  {
    forall k | 5 <= k < 8
      ensures RowHolds(DATA[k])
    {
      var row := DATA[k];
      StrictIsExtrapolated(KEYS, VALUES, Math.Lerp, 0.0, row.time);
      AfterLastKey(KEYS, VALUES, row.before, row.after, Math.Lerp, 0.0, row.time);
      AfterLastKey(KEYS, VALUES, Extrapolated, Extrapolated, Math.Lerp, 0.0, row.time);
    }
  }

  /** `interpolate()` on row `k`, starting from a zero hint. */
  method RunInterpolate(k: nat) returns (r: Result<real>, hint: nat)
    requires k < |DATA|
    ensures r == Ok(DATA[k].expected) && hint == DATA[k].expectedHint
  {
    DataTable();
    var row := DATA[k];
    r, hint := Interpolate(KEYS, VALUES, row.before, row.after, Math.Lerp, 0.0, row.time, 0);
  }

  /** `interpolateStrict()` on row `k`, starting from a zero hint. */
  method RunInterpolateStrict(k: nat) returns (r: Result<real>, hint: nat)
    requires k < |DATA|
    ensures r == Ok(DATA[k].expectedStrict) && hint == DATA[k].expectedHint
  {
    DataTable();
    r, hint := InterpolateStrict(KEYS, VALUES, Math.Lerp, DATA[k].time, 0);
  }

  /** One instance of the single-keyframe table; the same policy is used on
      both sides. */
  datatype SingleRow = SingleRow(extrapolation: Extrapolation, time: real, expected: real)

  const SINGLE_KEYFRAME_DATA: seq<SingleRow> := [
    SingleRow(DefaultConstructed, -1.0, 0.0),  // before default-constructed
    SingleRow(Constant, -1.0, 3.0),            // before constant
    SingleRow(Extrapolated, -1.0, 3.0),        // before extrapolated
    SingleRow(DefaultConstructed, 0.0, 3.0),   // at
    SingleRow(DefaultConstructed, 1.0, 0.0),   // after default-constructed
    SingleRow(Constant, 1.0, 3.0),             // after constant
    SingleRow(Extrapolated, 1.0, 3.0)          // after extrapolated
  ]

  /** `interpolate()` on the one-key prefix of the track: the hint ends at 0. */
  method RunInterpolateSingleKeyframe(k: nat) returns (r: Result<real>, hint: nat)
    requires k < |SINGLE_KEYFRAME_DATA|
    ensures r == Ok(SINGLE_KEYFRAME_DATA[k].expected) && hint == 0
  {
    var row := SINGLE_KEYFRAME_DATA[k];
    SingleKeyframePolicies(KEYS[..1], VALUES[..1], Math.Lerp, 0.0, row.time, row.extrapolation, row.extrapolation);
    r, hint := Interpolate(KEYS[..1], VALUES[..1], row.extrapolation, row.extrapolation, Math.Lerp, 0.0, row.time, 0);
  }

  /** `interpolate()` on an empty track: the default value, hint 0. */
  method RunInterpolateNoKeyframe(hint: nat) returns (r: Result<real>, hint': nat)
    ensures r == Ok(0.0) && hint' == 0
  {
    r, hint' := Interpolate([], [], Extrapolated, Extrapolated, Math.Lerp, 0.0, 3.5, hint);
  }

  /** `interpolate()` at time 4.75 from any incoming hint (the test uses 1, 2,
      3 and 405780454): value 1.0, hint 2. */
  method RunInterpolateHint(hint: nat) returns (r: Result<real>, hint': nat)
    ensures r == Ok(1.0) && hint' == 2
  {
    InsideSegment(KEYS, VALUES, Extrapolated, Extrapolated, Math.Lerp, 0.0, 4.75, 2);
    r, hint' := Interpolate(KEYS, VALUES, Extrapolated, Extrapolated, Math.Lerp, 0.0, 4.75, hint);
  }

  /** `interpolateStrict()` at time 4.75 from any incoming hint. */
  method RunInterpolateStrictHint(hint: nat) returns (r: Result<real>, hint': nat)
    ensures r == Ok(1.0) && hint' == 2
  {
    InsideSegment(KEYS, VALUES, Extrapolated, Extrapolated, Math.Lerp, 0.0, 4.75, 2);
    StrictIsExtrapolated(KEYS, VALUES, Math.Lerp, 0.0, 4.75);
    r, hint' := InterpolateStrict(KEYS, VALUES, Math.Lerp, 4.75, hint);
  }

  /** An interpolator over a stored type `H` that converts both ends to a real
      and interpolates linearly (the half-float interpolator of the test). */
  function LerpVia<H(!new)>(toReal: H -> real): (f: (H, H, real) -> real)
    ensures forall a: H, b: H :: f(a, b, 0.0) == toReal(a) && f(a, b, 1.0) == toReal(b)
  {
    (a: H, b: H, t: real) => Math.Lerp(toReal(a), toReal(b), t)
  }

  /** Values stored in another type `H` that convert to the track's values
      give the same result as the real track: 1.0 at 4.75, hint 2, for both
      variants. */
  method RunInterpolateDifferentResultType<H(!new)>(stored: seq<H>, toReal: H -> real, hint: nat)
    returns (r: Result<real>, rStrict: Result<real>, hint': nat, hintStrict: nat)
    requires |stored| == |VALUES| && forall k :: 0 <= k < |stored| ==> toReal(stored[k]) == VALUES[k]
    ensures r == Ok(1.0) && rStrict == Ok(1.0) && hint' == 2 && hintStrict == 2
  {
    InsideSegment(KEYS, stored, Extrapolated, Extrapolated, LerpVia(toReal), 0.0, 4.75, 2);
    StrictIsExtrapolated(KEYS, stored, LerpVia(toReal), 0.0, 4.75);
    assert toReal(stored[2]) == 2.5 && toReal(stored[3]) == 0.5;
    r, hint' := Interpolate(KEYS, stored, Extrapolated, Extrapolated, LerpVia(toReal), 0.0, 4.75, hint);
    rStrict, hintStrict := InterpolateStrict(KEYS, stored, LerpVia(toReal), 4.75, hint);
  }

  /** Four keys and no values: the size error. */
  method RunInterpolateError(hint: nat) returns (r: Result<real>, hint': nat)
    ensures r == Err("Animation::interpolate(): keys and values don't have the same size")
    ensures hint' == hint
  {
    r, hint' := Interpolate(KEYS, [], Extrapolated, Extrapolated, Math.Lerp, 0.0, 0.0, hint);
  }

  /** One key and one value, then three keys and four values: the two strict
      errors, in that order; neither touches the hint. */
  method RunInterpolateStrictError(hint: nat) returns (first: Result<real>, second: Result<real>,
                                                      firstHint: nat, secondHint: nat)
    ensures first == Err("Animation::interpolateStrict(): at least two keyframes required")
    ensures second == Err("Animation::interpolateStrict(): keys and values don't have the same size")
    ensures firstHint == hint && secondHint == hint
  {
    first, firstHint := InterpolateStrict(KEYS[..1], VALUES[..1], Math.Lerp, 0.0, hint);
    second, secondHint := InterpolateStrict(KEYS[..3], VALUES, Math.Lerp, 0.0, hint);
  }
}
