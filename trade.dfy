/** The animation container an importer hands out: one backing buffer, an
    array of track descriptors and an opaque importer state. Every accessor
    checks the track index; `Track` also checks the requested stored and
    result type against the descriptor before handing out the view. */
module Trade {
  import opened Results

  newtype Byte = b: int | 0 <= b < 256

  /** Type tag of the values a track stores or produces. */
  datatype AnimationTrackType = Float | Vector2 | Vector3 | Vector3i | Quaternion | DualQuaternion

  /** What a track animates; `Custom` carries an importer-specific number. */
  datatype AnimationTrackTarget = Translation3D | Rotation3D | Scaling3D | Custom(id: nat)

  /** The opaque importer state: a handle the container returns unchanged. */
  datatype ImporterState = NoState | State(handle: nat)

  /** The qualified name of a type tag, as embedded in the type-mismatch messages. */
  function TypeName(t: AnimationTrackType): string
  {
    match t
    case Float => "Trade::AnimationTrackType::Float"
    case Vector2 => "Trade::AnimationTrackType::Vector2"
    case Vector3 => "Trade::AnimationTrackType::Vector3"
    case Vector3i => "Trade::AnimationTrackType::Vector3i"
    case Quaternion => "Trade::AnimationTrackType::Quaternion"
    case DualQuaternion => "Trade::AnimationTrackType::DualQuaternion"
  }

  const TRACK_TYPE_OUT_OF_RANGE := "Trade::AnimationData::trackType(): index out of range"
  const TRACK_RESULT_TYPE_OUT_OF_RANGE := "Trade::AnimationData::trackResultType(): index out of range"
  const TRACK_TARGET_OUT_OF_RANGE := "Trade::AnimationData::trackTarget(): index out of range"
  const TRACK_TARGET_ID_OUT_OF_RANGE := "Trade::AnimationData::trackTargetId(): index out of range"
  const TRACK_OUT_OF_RANGE := "Trade::AnimationData::track(): index out of range"

  const IMPROPER_TYPE := "Trade::AnimationData::track(): improper type requested for "
  const IMPROPER_RESULT_TYPE := "Trade::AnimationData::track(): improper result type requested for "

  function ImproperType(t: AnimationTrackType): string
  {
    IMPROPER_TYPE + TypeName(t)
  }

  function ImproperResultType(t: AnimationTrackType): string
  {
    IMPROPER_RESULT_TYPE + TypeName(t)
  }

  /** A track descriptor. The view `T` is the track's typed view; the type
      tags say which stored and result types it was built with. */
  datatype AnimationTrackData<T> = AnimationTrackData(
    storedType: AnimationTrackType,
    resultType: AnimationTrackType,
    target: AnimationTrackTarget,
    targetId: nat,
    view: T)

  /** A descriptor built without a separate result type: the result type is
      the stored type. */
  function TrackData<T>(storedType: AnimationTrackType, target: AnimationTrackTarget, targetId: nat,
                        view: T): (d: AnimationTrackData<T>)
    ensures d.storedType == storedType && d.resultType == storedType
    ensures d.target == target && d.targetId == targetId && d.view == view
  {
    AnimationTrackData(storedType, storedType, target, targetId, view)
  }

  datatype AnimationData<T> = AnimationData(
    data: seq<Byte>,
    tracks: seq<AnimationTrackData<T>>,
    importerState: ImporterState)
  {
    function TrackCount(): (n: nat)
      ensures n == |tracks|
    {
      |tracks|
    }

    function TrackType(i: nat): (r: Result<AnimationTrackType>)
      ensures r.Ok? <==> i < |tracks|
      ensures r.Ok? ==> r.value == tracks[i].storedType
      ensures r.Err? ==> r.message == TRACK_TYPE_OUT_OF_RANGE
    {
      if i < |tracks| then Ok(tracks[i].storedType) else Err(TRACK_TYPE_OUT_OF_RANGE)
    }

    function TrackResultType(i: nat): (r: Result<AnimationTrackType>)
      ensures r.Ok? <==> i < |tracks|
      ensures r.Ok? ==> r.value == tracks[i].resultType
      ensures r.Err? ==> r.message == TRACK_RESULT_TYPE_OUT_OF_RANGE
    {
      if i < |tracks| then Ok(tracks[i].resultType) else Err(TRACK_RESULT_TYPE_OUT_OF_RANGE)
    }

    function TrackTarget(i: nat): (r: Result<AnimationTrackTarget>)
      ensures r.Ok? <==> i < |tracks|
      ensures r.Ok? ==> r.value == tracks[i].target
      ensures r.Err? ==> r.message == TRACK_TARGET_OUT_OF_RANGE
    {
      if i < |tracks| then Ok(tracks[i].target) else Err(TRACK_TARGET_OUT_OF_RANGE)
    }

    function TrackTargetId(i: nat): (r: Result<nat>)
      ensures r.Ok? <==> i < |tracks|
      ensures r.Ok? ==> r.value == tracks[i].targetId
      ensures r.Err? ==> r.message == TRACK_TARGET_ID_OUT_OF_RANGE
    {
      if i < |tracks| then Ok(tracks[i].targetId) else Err(TRACK_TARGET_ID_OUT_OF_RANGE)
    }

    /** `track<V, R>(i)`, with the tags of `V` and `R` passed in. The index is
        checked first, then the stored type, then the result type. */
    function Track(i: nat, stored: AnimationTrackType, result: AnimationTrackType): (r: Result<T>)
      ensures r.Ok? <==> i < |tracks| && tracks[i].storedType == stored && tracks[i].resultType == result
      ensures r.Ok? ==> r.value == tracks[i].view
      ensures i >= |tracks| ==> r == Err(TRACK_OUT_OF_RANGE)
      ensures i < |tracks| && tracks[i].storedType != stored ==> r == Err(ImproperType(tracks[i].storedType))
      ensures i < |tracks| && tracks[i].storedType == stored && tracks[i].resultType != result ==>
        r == Err(ImproperResultType(tracks[i].resultType))
    {
      if i >= |tracks| then Err(TRACK_OUT_OF_RANGE)
      else if tracks[i].storedType != stored then Err(ImproperType(tracks[i].storedType))
      else if tracks[i].resultType != result then Err(ImproperResultType(tracks[i].resultType))
      else Ok(tracks[i].view)
    }

    /** `track<V>(i)`: the result type defaults to the stored type. */
    function TrackOf(i: nat, stored: AnimationTrackType): (r: Result<T>)
      ensures r.Ok? <==> i < |tracks| && tracks[i].storedType == stored && tracks[i].resultType == stored
      ensures i < |tracks| && tracks[i].storedType != stored ==> r == Err(ImproperType(tracks[i].storedType))
    {
      Track(i, stored, stored)
    }
  }

  /** The container hands back what it was built from: the buffer, the number
      of descriptors, the importer state, and each descriptor's fields. */
  lemma ConstructRoundTrip<T>(buffer: seq<Byte>, tracks: seq<AnimationTrackData<T>>, state: ImporterState, i: nat)
    requires i < |tracks|
    ensures var d := AnimationData(buffer, tracks, state);
      && |d.data| == |buffer| && d.TrackCount() == |tracks| && d.importerState == state
      && d.TrackType(i) == Ok(tracks[i].storedType)
      && d.TrackResultType(i) == Ok(tracks[i].resultType)
      && d.TrackTarget(i) == Ok(tracks[i].target)
      && d.TrackTargetId(i) == Ok(tracks[i].targetId)
      && d.Track(i, tracks[i].storedType, tracks[i].resultType) == Ok(tracks[i].view)
  {
  }
}
