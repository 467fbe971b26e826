/**
 * Head gestures of lib/vision/faceGestures.ts: an EMA-smoothed head pose drives a tilt
 * detector (toggles melody or drums), a nod detector (start/stop, or faster on a double
 * nod) and a shake detector (slower). The pose itself is an input: the trigonometry that
 * derives it from face landmarks is not part of this model.
 */
module Face {
  import opened Events
  import opened Smoothing
  import opened TimedSamples

  const TiltHoldMs := 350
  const TiltThresh: real := 0.10
  const NodDelta: real := 0.06
  const NodWindow := 500
  const DoubleWindow := 900
  const ShakeDelta: real := 0.08
  const CooldownMs := 700
  const Alpha: real := 0.35

  datatype Pose = Pose(yaw: real, roll: real, pitch: real)

  /** The module-level detector state. */
  datatype Face = Face(
    pose: Pose,
    tiltStart: int,
    tiltDirection: int,
    lastGesture: int,
    nodHistory: seq<Sample>,
    lastNod: int,
    shakeHistory: seq<Sample>)

  const Initial: Face := Face(Pose(0.0, 0.0, 0.0), 0, 0, 0, [], 0, [])

  /** A detector's new state and what it published. */
  datatype Step = Step(face: Face, events: seq<AppEvent>)

  /** `smoothPose`: each angle moves `Alpha` of the way towards the new sample. */
  function Smoothed(p: Pose, raw: Pose): (r: Pose)
    ensures p.yaw <= r.yaw <= raw.yaw || raw.yaw <= r.yaw <= p.yaw
    ensures p.roll <= r.roll <= raw.roll || raw.roll <= r.roll <= p.roll
    ensures p.pitch <= r.pitch <= raw.pitch || raw.pitch <= r.pitch <= p.pitch
    ensures Abs(r.roll - raw.roll) <= Abs(p.roll - raw.roll)
  {
    Pose(Ema(Alpha, raw.yaw, p.yaw), Ema(Alpha, raw.roll, p.roll), Ema(Alpha, raw.pitch, p.pitch))
  }

  /** From the initial pose the first smoothed pose is 0.35 of the sample. */
  lemma FirstSmoothing(raw: Pose)
    ensures Smoothed(Initial.pose, raw) == Pose(0.35 * raw.yaw, 0.35 * raw.roll, 0.35 * raw.pitch)
  {}

  /** All three detectors do nothing within 700 ms of the last gesture. */
  predicate InCooldown(f: Face, now: int) {
    now - f.lastGesture < CooldownMs
  }

  /** `roll > TILT_THRESH ? 1 : roll < -TILT_THRESH ? -1 : 0` */
  function TiltDirection(roll: real): (d: int)
    ensures d == 1 <==> roll > TiltThresh
    ensures d == -1 <==> roll < -TiltThresh
    ensures d == 0 <==> -TiltThresh <= roll <= TiltThresh
  {
    if roll > TiltThresh then 1 else if roll < -TiltThresh then -1 else 0
  }

  /** Tilting right toggles the melody layer, tilting left the drums layer. */
  function TiltEvent(d: int, melodyOn: bool, drumsOn: bool): EventType {
    if d == 1 then (if melodyOn then VoiceMelodyOff else VoiceMelodyOn)
    else (if drumsOn then VoiceDrumsOff else VoiceDrumsOn)
  }

  /** `detectTilt` */
  function TiltStep(f: Face, now: int, melodyOn: bool, drumsOn: bool): (r: Step)
    ensures r.face.pose == f.pose && r.face.nodHistory == f.nodHistory && r.face.lastNod == f.lastNod
    ensures r.face.shakeHistory == f.shakeHistory
  {
    if InCooldown(f, now) then Step(f, [])
    else
      var d := TiltDirection(f.pose.roll);
      if d != 0 && f.tiltDirection == 0 then Step(f.(tiltStart := now, tiltDirection := d), [])
      else if d == f.tiltDirection && d != 0 then
        if now - f.tiltStart >= TiltHoldMs then
          Step(f.(lastGesture := now, tiltDirection := 0), [Bare(TiltEvent(d, melodyOn, drumsOn))])
        else Step(f, [])
      else Step(f.(tiltDirection := 0), [])
  }

  /**
   * A tilt fires exactly when it is out of cooldown and the current direction is the held,
   * non-zero direction of at least 350 ms; firing publishes the toggle, records the time and
   * resets the direction.
   */
  lemma TiltFiresIff(f: Face, now: int, melodyOn: bool, drumsOn: bool)
    ensures var r := TiltStep(f, now, melodyOn, drumsOn);
            r.events != [] <==> (!InCooldown(f, now) && f.tiltDirection != 0 &&
                                 TiltDirection(f.pose.roll) == f.tiltDirection && now - f.tiltStart >= TiltHoldMs)
    ensures var r := TiltStep(f, now, melodyOn, drumsOn);
            r.events != [] ==> r.events == [Bare(TiltEvent(f.tiltDirection, melodyOn, drumsOn))] &&
                               r.face.lastGesture == now && r.face.tiltDirection == 0
  {}

  /**
   * The stored direction only becomes non-zero from zero, starting the hold clock; any other
   * change resets it to zero. Out of cooldown, a direction other than the held one resets it.
   */
  lemma TiltDirectionChanges(f: Face, now: int, melodyOn: bool, drumsOn: bool)
    ensures var r := TiltStep(f, now, melodyOn, drumsOn);
            r.face.tiltDirection != f.tiltDirection && r.face.tiltDirection != 0 ==>
              f.tiltDirection == 0 && r.face.tiltStart == now && r.face.tiltDirection == TiltDirection(f.pose.roll)
    ensures var r := TiltStep(f, now, melodyOn, drumsOn);
            !InCooldown(f, now) && f.tiltDirection != 0 && TiltDirection(f.pose.roll) != f.tiltDirection ==>
              r.face.tiltDirection == 0 && r.events == []
    ensures InCooldown(f, now) ==> TiltStep(f, now, melodyOn, drumsOn) == Step(f, [])
  {}

  /**
   * Holding the head tilted right from rest for 350 ms toggles the melody: the first frame
   * starts the tilt, a frame 350 ms later with the same pose fires.
   */
  lemma TiltRightHeld(f: Face, t0: int, t1: int, melodyOn: bool, drumsOn: bool)
    requires f.tiltDirection == 0 && !InCooldown(f, t0) && f.pose.roll > TiltThresh
    requires t1 >= t0 + TiltHoldMs
    ensures var s := TiltStep(f, t0, melodyOn, drumsOn);
            s.events == [] &&
            TiltStep(s.face, t1, melodyOn, drumsOn).events ==
              [Bare(if melodyOn then VoiceMelodyOff else VoiceMelodyOn)]
  {
    var s := TiltStep(f, t0, melodyOn, drumsOn);
    assert s.face == f.(tiltStart := t0, tiltDirection := 1);
    assert !InCooldown(s.face, t1);
  }

  /** The index of the first smallest value: where the `<` scan leaves `minPitch`. */
  function MinIndex(h: seq<Sample>): (k: nat)
    requires |h| > 0
    ensures k < |h|
  {
    if |h| == 1 then 0
    else
      var k := MinIndex(h[..|h| - 1]);
      if h[|h| - 1].value < h[k].value then |h| - 1 else k
  }

  /** The index of the first largest value: where the `>` scan leaves `maxPitch`. */
  function MaxIndex(h: seq<Sample>): (k: nat)
    requires |h| > 0
    ensures k < |h|
  {
    if |h| == 1 then 0
    else
      var k := MaxIndex(h[..|h| - 1]);
      if h[|h| - 1].value > h[k].value then |h| - 1 else k
  }

  /** `MinIndex` is a smallest value and every earlier value is larger; dually for `MaxIndex`. */
  lemma {:induction false} ExtremesFacts(h: seq<Sample>)
    requires |h| > 0
    ensures forall i :: 0 <= i < |h| ==> h[MinIndex(h)].value <= h[i].value
    ensures forall i :: 0 <= i < MinIndex(h) ==> h[i].value > h[MinIndex(h)].value
    ensures forall i :: 0 <= i < |h| ==> h[MaxIndex(h)].value >= h[i].value
    ensures forall i :: 0 <= i < MaxIndex(h) ==> h[i].value < h[MaxIndex(h)].value
  {
    if |h| > 1 {
      var p := h[..|h| - 1];
      ExtremesFacts(p);
      assert forall i :: 0 <= i < |h| - 1 ==> p[i] == h[i];
    }
  }

  /** The min/max loop of `detectNod`. */
  method ScanExtremes(h: seq<Sample>) returns (minValue: real, maxValue: real, minTime: int, maxTime: int)
    requires |h| > 0
    ensures minValue == h[MinIndex(h)].value && minTime == h[MinIndex(h)].time
    ensures maxValue == h[MaxIndex(h)].value && maxTime == h[MaxIndex(h)].time
  {
    minValue, maxValue := h[0].value, h[0].value;
    minTime, maxTime := h[0].time, h[0].time;
    ghost var lo, hi := 0, 0;
    var i := 0;
    while i < |h|
      invariant 0 <= i <= |h|
      invariant lo < |h| && hi < |h|
      invariant i > 0 ==> lo == MinIndex(h[..i]) && hi == MaxIndex(h[..i])
      invariant i == 0 ==> lo == 0 && hi == 0
      invariant minValue == h[lo].value && minTime == h[lo].time
      invariant maxValue == h[hi].value && maxTime == h[hi].time
    {
      PrefixStep(h, i);
      if h[i].value < minValue {
        minValue := h[i].value;
        minTime := h[i].time;
        lo := i;
      }
      if h[i].value > maxValue {
        maxValue := h[i].value;
        maxTime := h[i].time;
        hi := i;
      }
      i := i + 1;
    }
    assert h[..|h|] == h;
  }

  /** Extending a prefix by one sample moves each extreme only on a strict improvement. */
  lemma PrefixStep(h: seq<Sample>, i: nat)
    requires i < |h|
    ensures i == 0 ==> MinIndex(h[..1]) == 0 && MaxIndex(h[..1]) == 0
    ensures i > 0 ==> (MinIndex(h[..i + 1]) ==
                        if h[i].value < h[MinIndex(h[..i])].value then i else MinIndex(h[..i]))
    ensures i > 0 ==> (MaxIndex(h[..i + 1]) ==
                        if h[i].value > h[MaxIndex(h[..i])].value then i else MaxIndex(h[..i]))
  {
    assert h[..i + 1][..i] == h[..i];
    assert h[..i + 1][i] == h[i];
  }

  /** A nod: at least three samples, the maximum after the minimum, and a range of at least 0.06. */
  predicate NodShape(h: seq<Sample>) {
    |h| >= 3 && h[MaxIndex(h)].time > h[MinIndex(h)].time &&
    h[MaxIndex(h)].value - h[MinIndex(h)].value >= NodDelta
  }

  /** The pruned nod history after pushing the current pitch. */
  function NodWindowOf(f: Face, now: int): seq<Sample> {
    Recent(f.nodHistory + [Sample(now, f.pose.pitch)], now, NodWindow)
  }

  /** `detectNod` */
  function NodStep(f: Face, now: int, isPlaying: bool): (r: Step)
    ensures r.face.pose == f.pose && r.face.tiltStart == f.tiltStart && r.face.tiltDirection == f.tiltDirection
    ensures r.face.shakeHistory == f.shakeHistory
  {
    if InCooldown(f, now) then Step(f, [])
    else
      var h := NodWindowOf(f, now);
      if !NodShape(h) then Step(f.(nodHistory := h), [])
      else if now - f.lastNod <= DoubleWindow then
        Step(f.(lastNod := 0, lastGesture := now, nodHistory := []), [Bare(VoiceFaster)])
      else
        Step(f.(lastNod := now, lastGesture := now, nodHistory := []), [Bare(if isPlaying then VoiceStop else VoiceStart)])
  }

  /**
   * A nod fires exactly when out of cooldown the pruned history has the nod shape; it then
   * publishes one event and clears the history. Otherwise the pruned history is kept, and it
   * holds only samples of the last 500 ms, the current one included.
   */
  lemma NodFiresIff(f: Face, now: int, isPlaying: bool)
    ensures var r := NodStep(f, now, isPlaying);
            r.events != [] <==> !InCooldown(f, now) && NodShape(NodWindowOf(f, now))
    ensures var r := NodStep(f, now, isPlaying);
            r.events != [] ==> |r.events| == 1 && r.face.nodHistory == [] && r.face.lastGesture == now
    ensures var r := NodStep(f, now, isPlaying);
            !InCooldown(f, now) && r.events == [] ==>
              r.face.nodHistory == NodWindowOf(f, now) && Sample(now, f.pose.pitch) in r.face.nodHistory &&
              forall i :: 0 <= i < |r.face.nodHistory| ==> now - r.face.nodHistory[i].time <= NodWindow
    ensures InCooldown(f, now) ==> NodStep(f, now, isPlaying) == Step(f, [])
  {
    RecentKeepsNewest(f.nodHistory, now, f.pose.pitch, NodWindow);
    RecentFacts(f.nodHistory + [Sample(now, f.pose.pitch)], now, NodWindow);
  }

  /**
   * A nod within 900 ms of the last single nod publishes `voice.faster` and zeroes the nod
   * time; otherwise it publishes stop when playing and start when not, and records the time.
   */
  lemma NodEvents(f: Face, now: int, isPlaying: bool)
    requires !InCooldown(f, now) && NodShape(NodWindowOf(f, now))
    ensures now - f.lastNod <= DoubleWindow ==>
              NodStep(f, now, isPlaying).events == [Bare(VoiceFaster)] && NodStep(f, now, isPlaying).face.lastNod == 0
    ensures now - f.lastNod > DoubleWindow ==>
              NodStep(f, now, isPlaying).events == [Bare(if isPlaying then VoiceStop else VoiceStart)] &&
              NodStep(f, now, isPlaying).face.lastNod == now
  {}

  /**
   * Zeroing the nod time after a double nod prevents a triple: once more than 900 ms of
   * clock time have passed, the next nod is a single one again.
   */
  lemma NoTripleNod(f: Face, now: int, isPlaying: bool)
    requires f.lastNod == 0 && now > DoubleWindow
    ensures NodStep(f, now, isPlaying).events != [] ==>
              NodStep(f, now, isPlaying).events == [Bare(if isPlaying then VoiceStop else VoiceStart)]
  {}

  /** `Math.abs(delta) >= SHAKE_DELTA ? (delta > 0 ? 1 : -1) : 0` */
  function StepDirection(delta: real): (d: int)
    ensures d == 0 <==> Abs(delta) < ShakeDelta
    ensures d == 1 <==> delta >= ShakeDelta
    ensures d == -1 <==> delta <= -ShakeDelta
  {
    if Abs(delta) >= ShakeDelta then (if delta > 0.0 then 1 else -1) else 0
  }

  /** `(alternations, lastDirection)` after the loop has looked at the steps into samples 1 .. n-1. */
  function ScanTo(h: seq<Sample>, n: nat): (r: (nat, int))
    requires n <= |h|
    ensures r.1 in {-1, 0, 1}
    ensures r.1 == 0 ==> r.0 == 0
    ensures n >= 2 ==> r.0 <= n - 2
    ensures n < 2 ==> r.0 == 0
  {
    if n < 2 then (0, 0)
    else
      var prev := ScanTo(h, n - 1);
      var c := StepDirection(h[n - 1].value - h[n - 2].value);
      var count := if c != 0 && c != prev.1 && prev.1 != 0 then prev.0 + 1 else prev.0;
      (count, if c != 0 then c else prev.1)
  }

  /** The number of direction reversals among the yaw steps of a history. */
  function Alternations(h: seq<Sample>): nat {
    ScanTo(h, |h|).0
  }

  /** The alternation loop of `detectShake`. */
  method CountAlternations(h: seq<Sample>) returns (alternations: nat)
    ensures alternations == Alternations(h)
  {
    alternations := 0;
    var lastDirection := 0;
    var i := 1;
    if |h| == 0 {
      return;
    }
    while i < |h|
      invariant 1 <= i <= |h|
      invariant (alternations, lastDirection) == ScanTo(h, i)
    {
      var delta := h[i].value - h[i - 1].value;
      var currentDirection := StepDirection(delta);
      if currentDirection != 0 && currentDirection != lastDirection && lastDirection != 0 {
        alternations := alternations + 1;
      }
      if currentDirection != 0 {
        lastDirection := currentDirection;
      }
      i := i + 1;
    }
  }

  /** A reversal needs a step each way, so two reversals need at least four samples. */
  lemma ShakeNeedsFourSamples(h: seq<Sample>)
    requires Alternations(h) >= 2
    ensures |h| >= 4
  {}

  /** Steps smaller than 0.08 have no direction: jitter never counts as a reversal. */
  lemma {:induction false} JitterNoAlternation(h: seq<Sample>, n: nat)
    requires n <= |h|
    requires forall j :: 1 <= j < n ==> Abs(h[j].value - h[j - 1].value) < ShakeDelta
    ensures ScanTo(h, n) == (0, 0)
  {
    if n >= 2 {
      JitterNoAlternation(h, n - 1);
    }
  }

  /** Turning the head one way only (yaw never decreasing) is no reversal. */
  lemma {:induction false} OneWayNoAlternation(h: seq<Sample>, n: nat)
    requires n <= |h|
    requires forall j :: 1 <= j < n ==> h[j].value >= h[j - 1].value
    ensures ScanTo(h, n).0 == 0 && ScanTo(h, n).1 in {0, 1}
  {
    if n >= 2 {
      OneWayNoAlternation(h, n - 1);
    }
  }

  /** Right, left, right in steps of 0.1 is two reversals. */
  lemma ShakeExample(t: int)
    ensures Alternations([Sample(t, 0.0), Sample(t + 1, 0.1), Sample(t + 2, 0.0), Sample(t + 3, 0.1)]) == 2
  {
    var h := [Sample(t, 0.0), Sample(t + 1, 0.1), Sample(t + 2, 0.0), Sample(t + 3, 0.1)];
    assert ScanTo(h, 2) == (0, 1);
    assert ScanTo(h, 3) == (1, -1);
  }

  /** The pruned shake history after pushing the current yaw. */
  function ShakeWindowOf(f: Face, now: int): seq<Sample> {
    Recent(f.shakeHistory + [Sample(now, f.pose.yaw)], now, DoubleWindow)
  }

  /** `detectShake` */
  function ShakeStep(f: Face, now: int): (r: Step)
    ensures r.face.pose == f.pose && r.face.tiltStart == f.tiltStart && r.face.tiltDirection == f.tiltDirection
    ensures r.face.nodHistory == f.nodHistory && r.face.lastNod == f.lastNod
  {
    if InCooldown(f, now) then Step(f, [])
    else
      var h := ShakeWindowOf(f, now);
      if |h| < 4 || Alternations(h) < 2 then Step(f.(shakeHistory := h), [])
      else Step(f.(lastGesture := now, shakeHistory := []), [Bare(VoiceSlower)])
  }

  /**
   * A shake fires exactly when out of cooldown the pruned history (900 ms) reverses direction
   * at least twice; it publishes `voice.slower` and clears the history.
   */
  lemma ShakeFiresIff(f: Face, now: int)
    ensures ShakeStep(f, now).events != [] <==> !InCooldown(f, now) && Alternations(ShakeWindowOf(f, now)) >= 2
    ensures ShakeStep(f, now).events != [] ==>
              ShakeStep(f, now).events == [Bare(VoiceSlower)] && ShakeStep(f, now).face.shakeHistory == [] &&
              ShakeStep(f, now).face.lastGesture == now
    ensures !InCooldown(f, now) && ShakeStep(f, now).events == [] ==>
              forall i :: 0 <= i < |ShakeStep(f, now).face.shakeHistory| ==>
                now - ShakeStep(f, now).face.shakeHistory[i].time <= DoubleWindow
    ensures InCooldown(f, now) ==> ShakeStep(f, now) == Step(f, [])
  {
    if !InCooldown(f, now) && Alternations(ShakeWindowOf(f, now)) >= 2 {
      ShakeNeedsFourSamples(ShakeWindowOf(f, now));
    }
    RecentFacts(f.shakeHistory + [Sample(now, f.pose.yaw)], now, DoubleWindow);
  }

  /** `onResults`: smooth the pose, then tilt, nod and shake in that order. */
  function FrameStep(f: Face, raw: Pose, now: int, melodyOn: bool, drumsOn: bool, isPlaying: bool): Step {
    var s := f.(pose := Smoothed(f.pose, raw));
    var t := TiltStep(s, now, melodyOn, drumsOn);
    var n := NodStep(t.face, now, isPlaying);
    var k := ShakeStep(n.face, now);
    Step(k.face, t.events + n.events + k.events)
  }

  /**
   * A frame publishes at most one event: whichever detector fires first records the time,
   * which puts the detectors after it in cooldown.
   */
  lemma OneGesturePerFrame(f: Face, raw: Pose, now: int, melodyOn: bool, drumsOn: bool, isPlaying: bool)
    ensures |FrameStep(f, raw, now, melodyOn, drumsOn, isPlaying).events| <= 1
  {
    var s := f.(pose := Smoothed(f.pose, raw));
    var t := TiltStep(s, now, melodyOn, drumsOn);
    TiltFiresIff(s, now, melodyOn, drumsOn);
    var n := NodStep(t.face, now, isPlaying);
    NodFiresIff(t.face, now, isPlaying);
    ShakeFiresIff(n.face, now);
  }

  /** The module-level variables of faceGestures.ts, and what it publishes, in order. */
  class FaceGestures {
    var isRunning: bool
    var yaw: real
    var roll: real
    var pitch: real
    var lastTiltStartTime: int
    var lastTiltDirection: int
    var lastGestureTime: int
    var nodHistory: seq<Sample>
    var lastNodTime: int
    var shakeHistory: seq<Sample>
    var outbox: seq<AppEvent>

    function Snapshot(): Face
      reads this
    {
      Face(Pose(yaw, roll, pitch), lastTiltStartTime, lastTiltDirection, lastGestureTime,
           nodHistory, lastNodTime, shakeHistory)
    }

    method Restore(f: Face)
      modifies this
      ensures Snapshot() == f
      ensures isRunning == old(isRunning) && outbox == old(outbox)
    {
      yaw, roll, pitch := f.pose.yaw, f.pose.roll, f.pose.pitch;
      lastTiltStartTime, lastTiltDirection, lastGestureTime := f.tiltStart, f.tiltDirection, f.lastGesture;
      nodHistory, lastNodTime, shakeHistory := f.nodHistory, f.lastNod, f.shakeHistory;
    }

    constructor ()
      ensures Snapshot() == Initial && !isRunning && outbox == []
    {
      isRunning := false;
      yaw, roll, pitch := 0.0, 0.0, 0.0;
      lastTiltStartTime, lastTiltDirection, lastGestureTime := 0, 0, 0;
      nodHistory, lastNodTime, shakeHistory := [], 0, [];
      outbox := [];
    }

    /** `smoothPose` */
    method SmoothPose(raw: Pose)
      modifies this
      ensures Snapshot() == old(Snapshot()).(pose := Smoothed(old(Snapshot()).pose, raw))
      ensures isRunning == old(isRunning) && outbox == old(outbox)
    {
      yaw := Alpha * raw.yaw + (1.0 - Alpha) * yaw;
      roll := Alpha * raw.roll + (1.0 - Alpha) * roll;
      pitch := Alpha * raw.pitch + (1.0 - Alpha) * pitch;
    }

    /** `detectTilt`; `melodyOn` and `drumsOn` are `state.layers` at the time of the call. */
    method DetectTilt(now: int, melodyOn: bool, drumsOn: bool)
      modifies this
      ensures Snapshot() == TiltStep(old(Snapshot()), now, melodyOn, drumsOn).face
      ensures outbox == old(outbox) + TiltStep(old(Snapshot()), now, melodyOn, drumsOn).events
      ensures isRunning == old(isRunning)
    {
      if now - lastGestureTime < CooldownMs {
        return;
      }
      var currentDirection := TiltDirection(roll);
      if currentDirection != 0 && lastTiltDirection == 0 {
        lastTiltStartTime := now;
        lastTiltDirection := currentDirection;
        return;
      }
      if currentDirection == lastTiltDirection && currentDirection != 0 {
        if now - lastTiltStartTime >= TiltHoldMs {
          outbox := outbox + [Bare(TiltEvent(currentDirection, melodyOn, drumsOn))];
          lastGestureTime := now;
          lastTiltDirection := 0;
        }
        return;
      }
      lastTiltDirection := 0;
    }

    /** `detectNod`; `isPlaying` is `state.isPlaying` at the time of the call. */
    method DetectNod(now: int, isPlaying: bool)
      modifies this
      ensures Snapshot() == NodStep(old(Snapshot()), now, isPlaying).face
      ensures outbox == old(outbox) + NodStep(old(Snapshot()), now, isPlaying).events
      ensures isRunning == old(isRunning)
    {
      ghost var f := Snapshot();
      if now - lastGestureTime < CooldownMs {
        return;
      }
      nodHistory := Recent(nodHistory + [Sample(now, pitch)], now, NodWindow);
      assert nodHistory == NodWindowOf(f, now);
      if |nodHistory| < 3 {
        return;
      }
      var minPitch, maxPitch, minTime, maxTime := ScanExtremes(nodHistory);
      assert NodShape(nodHistory) <==> maxTime > minTime && maxPitch - minPitch >= NodDelta;
      if maxTime > minTime && maxPitch - minPitch >= NodDelta {
        if now - lastNodTime <= DoubleWindow {
          outbox := outbox + [Bare(VoiceFaster)];
          lastNodTime := 0;
        } else {
          outbox := outbox + [Bare(if isPlaying then VoiceStop else VoiceStart)];
          lastNodTime := now;
        }
        lastGestureTime := now;
        nodHistory := [];
      }
    }

    /** `detectShake` */
    method DetectShake(now: int)
      modifies this
      ensures Snapshot() == ShakeStep(old(Snapshot()), now).face
      ensures outbox == old(outbox) + ShakeStep(old(Snapshot()), now).events
      ensures isRunning == old(isRunning)
    {
      if now - lastGestureTime < CooldownMs {
        return;
      }
      shakeHistory := Recent(shakeHistory + [Sample(now, yaw)], now, DoubleWindow);
      if |shakeHistory| < 4 {
        return;
      }
      var alternations := CountAlternations(shakeHistory);
      if alternations >= 2 {
        outbox := outbox + [Bare(VoiceSlower)];
        lastGestureTime := now;
        shakeHistory := [];
      }
    }

    /** `onResults` for a frame with a face whose head pose is `raw`. */
    method OnResults(raw: Pose, now: int, melodyOn: bool, drumsOn: bool, isPlaying: bool)
      modifies this
      ensures Snapshot() == FrameStep(old(Snapshot()), raw, now, melodyOn, drumsOn, isPlaying).face
      ensures outbox == old(outbox) + FrameStep(old(Snapshot()), raw, now, melodyOn, drumsOn, isPlaying).events
      ensures isRunning == old(isRunning)
    {
      ghost var f := Snapshot();
      ghost var s := f.(pose := Smoothed(f.pose, raw));
      SmoothPose(raw);
      assert Snapshot() == s;
      ghost var t := TiltStep(s, now, melodyOn, drumsOn);
      DetectTilt(now, melodyOn, drumsOn);
      assert Snapshot() == t.face;
      ghost var n := NodStep(t.face, now, isPlaying);
      DetectNod(now, isPlaying);
      assert Snapshot() == n.face;
      DetectShake(now);
    }

    /**
     * `startFaceGestures`: a no-op when running; otherwise running only once the camera has
     * started (`startFails` says whether loading or starting throws; the error is rethrown).
     */
    method StartFaceGestures(startFails: bool) returns (threw: bool)
      modifies this
      ensures Snapshot() == old(Snapshot()) && outbox == old(outbox)
      ensures old(isRunning) ==> isRunning && !threw
      ensures !old(isRunning) ==> isRunning == !startFails && threw == startFails
    {
      if isRunning {
        return false;
      }
      if startFails {
        return true;
      }
      isRunning := true;
      threw := false;
    }

    /** `stopFaceGestures`: a no-op when not running; otherwise every detector field is reset. */
    method StopFaceGestures()
      modifies this
      ensures outbox == old(outbox) && !isRunning
      ensures old(isRunning) ==> Snapshot() == Initial
      ensures !old(isRunning) ==> Snapshot() == old(Snapshot())
    {
      if !isRunning {
        return;
      }
      isRunning := false;
      Restore(Initial);
    }
  }
}
