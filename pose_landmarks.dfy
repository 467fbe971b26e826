/**
 * The pose landmarks the gesture engine reads. A MediaPipe landmark's `x` and `y` are
 * absent when they are not numbers; `visibility` is optional.
 */
module PoseLandmarks {
  import opened Wrappers

  /** MediaPipe Pose landmark indices. */
  const LeftShoulder := 11
  const RightShoulder := 12
  const LeftWrist := 15
  const RightWrist := 16

  /** A frame needs at least this many landmarks to hold both wrists. */
  const RequiredLandmarks := 17

  datatype Landmark = Landmark(x: Option<real>, y: Option<real>, visibility: Option<real>)

  /** `typeof x === 'number' && typeof y === 'number'` */
  predicate HasCoordinates(l: Landmark) {
    l.x.Some? && l.y.Some?
  }

  /** `visibility === undefined || visibility > minVis` */
  predicate VisibleAbove(l: Landmark, minVis: real) {
    l.visibility.None? || l.visibility.value > minVis
  }

  /** `visibility === undefined || visibility >= minVis` */
  predicate VisibleAtLeast(l: Landmark, minVis: real) {
    l.visibility.None? || l.visibility.value >= minVis
  }

  /** The y coordinate of a landmark known to have one. */
  function Y(l: Landmark): real
    requires l.y.Some?
  {
    l.y.value
  }

  /** The four points the engine reads, by name. */
  datatype Points = Points(leftShoulder: Landmark, rightShoulder: Landmark, leftWrist: Landmark, rightWrist: Landmark)

  function PointsOf(landmarks: seq<Landmark>): (p: Points)
    requires |landmarks| >= RequiredLandmarks
    ensures p.leftShoulder == landmarks[LeftShoulder] && p.rightShoulder == landmarks[RightShoulder]
    ensures p.leftWrist == landmarks[LeftWrist] && p.rightWrist == landmarks[RightWrist]
  {
    Points(landmarks[LeftShoulder], landmarks[RightShoulder], landmarks[LeftWrist], landmarks[RightWrist])
  }

  /** A strict visibility bound implies the non-strict one; the converse fails at `minVis` itself. */
  lemma AboveImpliesAtLeast(l: Landmark, minVis: real)
    ensures VisibleAbove(l, minVis) ==> VisibleAtLeast(l, minVis)
    ensures l.visibility == Some(minVis) ==> VisibleAtLeast(l, minVis) && !VisibleAbove(l, minVis)
  {}
}
