/**
 * The pose gesture engine of lib/vision/gestureDetector.ts: landmark frames are gated for
 * validity, then feed a right-wrist flick classifier, two quick-tap state machines (right:
 * melody, left: drums) and a two-handed down-chop halt. The thresholds are the calibrated
 * configuration; `haltOnly` and `gesturesEnabled` are the source's two compile-time switches
 * (true and false there), so that every branch of the engine is part of the model.
 */
module Gestures {
  import opened Wrappers
  import opened Events
  import opened Smoothing
  import opened TimedSamples
  import opened PoseLandmarks
  import opened Calibration

  const FlickWindowMs := 180
  const FlickMinSpeed: real := 1.2
  const FlickMinDeltaY: real := 0.08
  const FlickCooldown := 500
  const FlickSuppressRaiseMs := 400
  const FlickBufferMs := 250
  const FlickBufferMax := 15
  const FlickMinSamples := 3
  const TapMinMs := 120
  const TapCooldownMs := 900
  const HaltCooldown := 1500
  const HaltHystBack: real := 0.06

  // ---------------------------------------------------------------- validity

  /** `isLandmarkValid`: numeric coordinates, and visibility absent or strictly above `minVis`. */
  predicate IsLandmarkValid(l: Landmark, minVis: real) {
    HasCoordinates(l) && VisibleAbove(l, minVis)
  }

  /** The gate at the top of `processLandmarks`. */
  predicate FrameValid(landmarks: seq<Landmark>, minVis: real) {
    |landmarks| >= RequiredLandmarks &&
    IsLandmarkValid(landmarks[LeftShoulder], minVis) && IsLandmarkValid(landmarks[RightShoulder], minVis) &&
    IsLandmarkValid(landmarks[LeftWrist], minVis) && IsLandmarkValid(landmarks[RightWrist], minVis)
  }

  /** One side's shoulder and wrist heights, and whether both pass the `>=` visibility test. */
  datatype Reading = Reading(shoulderY: real, wristY: real, visible: bool)

  function ReadingOf(shoulder: Landmark, wrist: Landmark, minVis: real): Reading
    requires shoulder.y.Some? && wrist.y.Some?
  {
    Reading(Y(shoulder), Y(wrist), VisibleAtLeast(wrist, minVis) && VisibleAtLeast(shoulder, minVis))
  }

  function LeftReading(landmarks: seq<Landmark>, minVis: real): Reading
    requires FrameValid(landmarks, minVis)
  {
    ReadingOf(landmarks[LeftShoulder], landmarks[LeftWrist], minVis)
  }

  function RightReading(landmarks: seq<Landmark>, minVis: real): Reading
    requires FrameValid(landmarks, minVis)
  {
    ReadingOf(landmarks[RightShoulder], landmarks[RightWrist], minVis)
  }

  /**
   * On a frame that passed the strict gate both sides pass the classifiers' `>=` visibility
   * tests, which so never skip a side; a visibility of exactly `minVis` is refused by the gate.
   */
  lemma ValidFrameSidesVisible(landmarks: seq<Landmark>, minVis: real)
    requires FrameValid(landmarks, minVis)
    ensures LeftReading(landmarks, minVis).visible && RightReading(landmarks, minVis).visible
  {
    AboveImpliesAtLeast(landmarks[LeftShoulder], minVis);
    AboveImpliesAtLeast(landmarks[LeftWrist], minVis);
    AboveImpliesAtLeast(landmarks[RightShoulder], minVis);
    AboveImpliesAtLeast(landmarks[RightWrist], minVis);
  }

  // ---------------------------------------------------------------- quick tap

  datatype TapState = TapState(smoothedY: real, isArmed: bool, armTime: int, lastCooldownEnd: int)

  const TapRest: TapState := TapState(0.0, false, 0, 0)

  datatype TapResult = TapResult(state: TapState, fired: bool)

  /** `processTap`: smooth, then arm, fire or time out unless in cooldown. */
  function TapStep(s: TapState, wristY: real, shoulderY: real, now: int, cfg: Config): (r: TapResult)
    ensures r.state.smoothedY == SeededEma(cfg.emaAlpha, wristY, s.smoothedY)
  {
    var y := SeededEma(cfg.emaAlpha, wristY, s.smoothedY);
    var t := s.(smoothedY := y);
    if now < s.lastCooldownEnd then TapResult(t, false)
    else if !s.isArmed then
      if y < shoulderY - cfg.tapPeakDeltaY then TapResult(t.(isArmed := true, armTime := now), false)
      else TapResult(t, false)
    else
      var armed := now - s.armTime;
      if TapMinMs <= armed && armed as real <= cfg.tapMaxMs then
        if y > shoulderY + cfg.tapDropHyst then
          TapResult(t.(isArmed := false, lastCooldownEnd := now + TapCooldownMs), true)
        else TapResult(t, false)
      else if armed as real > cfg.tapMaxMs then TapResult(t.(isArmed := false), false)
      else TapResult(t, false)
  }

  /**
   * An established average moves towards the sample and stays between the two; within the
   * cooldown nothing but the average changes.
   */
  lemma TapSmoothing(s: TapState, wristY: real, shoulderY: real, now: int, cfg: Config)
    ensures var y := TapStep(s, wristY, shoulderY, now, cfg).state.smoothedY;
            s.smoothedY != 0.0 && 0.0 <= cfg.emaAlpha <= 1.0 ==>
              (s.smoothedY <= y <= wristY || wristY <= y <= s.smoothedY)
    ensures s.smoothedY == 0.0 ==> TapStep(s, wristY, shoulderY, now, cfg).state.smoothedY == wristY
    ensures now < s.lastCooldownEnd ==>
              TapStep(s, wristY, shoulderY, now, cfg) ==
                TapResult(s.(smoothedY := SeededEma(cfg.emaAlpha, wristY, s.smoothedY)), false)
  {}

  /** An unarmed tap never fires; out of cooldown it arms at `now` iff the average is above the peak line. */
  lemma TapArming(s: TapState, wristY: real, shoulderY: real, now: int, cfg: Config)
    requires !s.isArmed
    ensures !TapStep(s, wristY, shoulderY, now, cfg).fired
    ensures var r := TapStep(s, wristY, shoulderY, now, cfg).state;
            now >= s.lastCooldownEnd ==>
              (r.isArmed <==> r.smoothedY < shoulderY - cfg.tapPeakDeltaY) &&
              (r.isArmed ==> r.armTime == now) && r.lastCooldownEnd == s.lastCooldownEnd
  {}

  /**
   * An armed tap fires iff out of cooldown, 120 ms to `tapMaxMs` after arming, the average has
   * dropped below the drop line; firing disarms and starts a 900 ms cooldown. Past `tapMaxMs`
   * it disarms without firing.
   */
  lemma TapFiring(s: TapState, wristY: real, shoulderY: real, now: int, cfg: Config)
    ensures var r := TapStep(s, wristY, shoulderY, now, cfg);
            r.fired <==> (now >= s.lastCooldownEnd && s.isArmed && TapMinMs <= now - s.armTime &&
                          (now - s.armTime) as real <= cfg.tapMaxMs &&
                          r.state.smoothedY > shoulderY + cfg.tapDropHyst)
    ensures var r := TapStep(s, wristY, shoulderY, now, cfg);
            r.fired ==> !r.state.isArmed && r.state.lastCooldownEnd == now + TapCooldownMs
    ensures var r := TapStep(s, wristY, shoulderY, now, cfg);
            now >= s.lastCooldownEnd && s.isArmed && (now - s.armTime) as real > cfg.tapMaxMs ==>
              !r.fired && !r.state.isArmed
  {}

  /** One frame's input to a tap: wrist and shoulder heights and the time. */
  datatype TapInput = TapInput(wristY: real, shoulderY: real, now: int)

  /** The tap state after a run of frames, and how many of them fired. */
  function TapRun(s: TapState, inputs: seq<TapInput>, cfg: Config): (TapState, nat)
    decreases |inputs|
  {
    if |inputs| == 0 then (s, 0)
    else
      var r := TapStep(s, inputs[0].wristY, inputs[0].shoulderY, inputs[0].now, cfg);
      var rest := TapRun(r.state, inputs[1..], cfg);
      (rest.0, rest.1 + (if r.fired then 1 else 0))
  }

  /** Frames before the cooldown's end never fire and never arm or disarm. */
  lemma {:induction false} CooldownIsQuiet(s: TapState, inputs: seq<TapInput>, cfg: Config)
    requires forall i :: 0 <= i < |inputs| ==> inputs[i].now < s.lastCooldownEnd
    ensures TapRun(s, inputs, cfg).1 == 0
    ensures TapRun(s, inputs, cfg).0.isArmed == s.isArmed
    ensures TapRun(s, inputs, cfg).0.lastCooldownEnd == s.lastCooldownEnd
    decreases |inputs|
  {
    if |inputs| > 0 {
      var r := TapStep(s, inputs[0].wristY, inputs[0].shoulderY, inputs[0].now, cfg);
      CooldownIsQuiet(r.state, inputs[1..], cfg);
    }
  }

  /**
   * After a tap fires it is disarmed, so the next frame cannot fire, and no frame in the
   * following 900 ms fires.
   */
  lemma OneTapPerArm(s: TapState, i: TapInput, next: TapInput, inputs: seq<TapInput>, cfg: Config)
    requires TapStep(s, i.wristY, i.shoulderY, i.now, cfg).fired
    requires forall k :: 0 <= k < |inputs| ==> inputs[k].now < i.now + TapCooldownMs
    ensures !TapStep(TapStep(s, i.wristY, i.shoulderY, i.now, cfg).state, next.wristY, next.shoulderY, next.now, cfg).fired
    ensures TapRun(TapStep(s, i.wristY, i.shoulderY, i.now, cfg).state, inputs, cfg).1 == 0
  {
    var r := TapStep(s, i.wristY, i.shoulderY, i.now, cfg);
    TapFiring(s, i.wristY, i.shoulderY, i.now, cfg);
    TapArming(r.state, next.wristY, next.shoulderY, next.now, cfg);
    CooldownIsQuiet(r.state, inputs, cfg);
  }

  // ---------------------------------------------------------------- flick

  /** `updateFlickSamples`: push, prune to 250 ms, then drop the oldest if more than 15 remain. */
  function UpdatedSamples(samples: seq<Sample>, y: real, now: int): seq<Sample> {
    var kept := Recent(samples + [Sample(now, y)], now, FlickBufferMs);
    if |kept| > FlickBufferMax then kept[1..] else kept
  }

  /**
   * The buffer holds only samples of the last 250 ms, ends with the new sample, and stays
   * within 15 entries if it was.
   */
  lemma FlickBuffer(samples: seq<Sample>, y: real, now: int)
    ensures var r := UpdatedSamples(samples, y, now);
            |r| > 0 && r[|r| - 1] == Sample(now, y) &&
            (forall i :: 0 <= i < |r| ==> now - r[i].time <= FlickBufferMs) &&
            (|samples| <= FlickBufferMax ==> |r| <= FlickBufferMax)
  {
    var kept := Recent(samples + [Sample(now, y)], now, FlickBufferMs);
    RecentAppend(samples, Sample(now, y), now, FlickBufferMs);
    RecentFacts(samples + [Sample(now, y)], now, FlickBufferMs);
    var r := UpdatedSamples(samples, y, now);
    assert forall i :: 0 <= i < |r| ==> r[i] in kept;
  }

  /** The samples of the flick window (180 ms). */
  function FlickWindow(samples: seq<Sample>, now: int): seq<Sample> {
    Recent(samples, now, FlickWindowMs)
  }

  /** Seconds between the window's oldest and newest samples. */
  function WindowDeltaT(w: seq<Sample>): real
    requires |w| >= 2
  {
    (w[|w| - 1].time - w[0].time) as real / 1000.0
  }

  /** The window's net vertical movement (positive = downward). */
  function WindowDeltaY(w: seq<Sample>): real
    requires |w| >= 2
  {
    w[|w| - 1].value - w[0].value
  }

  /** `checkFlickGestures`' decision: faster for an upward flick, slower for a downward one. */
  function FlickEvent(samples: seq<Sample>, now: int, lastFlickTime: int): (r: Option<EventType>)
    ensures r.Some? ==> r.value == VoiceFaster || r.value == VoiceSlower
  {
    if now - lastFlickTime < FlickCooldown || |samples| < FlickMinSamples then None
    else
      var w := FlickWindow(samples, now);
      if |w| < 2 then None
      else
        var dt := WindowDeltaT(w);
        var dy := WindowDeltaY(w);
        if dt <= 0.0 then None
        else
          var speed := dy / dt;
          if speed <= -FlickMinSpeed && Abs(dy) >= FlickMinDeltaY && dy < 0.0 then Some(VoiceFaster)
          else if speed >= FlickMinSpeed && Abs(dy) >= FlickMinDeltaY && dy > 0.0 then Some(VoiceSlower)
          else None
  }

  /** The conditions under which a flick fires, whichever way. */
  predicate FlickConditions(samples: seq<Sample>, now: int, lastFlickTime: int) {
    now - lastFlickTime >= FlickCooldown && |samples| >= FlickMinSamples &&
    var w := FlickWindow(samples, now);
    |w| >= 2 && WindowDeltaT(w) > 0.0 && Abs(WindowDeltaY(w) / WindowDeltaT(w)) >= FlickMinSpeed &&
    Abs(WindowDeltaY(w)) >= FlickMinDeltaY
  }

  /** The quotient of a positive divisor has the dividend's sign. */
  lemma QuotientSign(dy: real, dt: real)
    requires dt > 0.0
    ensures dy < 0.0 <==> dy / dt < 0.0
    ensures dy > 0.0 <==> dy / dt > 0.0
  {
    assert (dy / dt) * dt == dy;
    if dy / dt < 0.0 {
      assert (-(dy / dt)) * dt > 0.0 by { MulPositive(-(dy / dt), dt); }
    } else if dy / dt > 0.0 {
      MulPositive(dy / dt, dt);
    }
  }

  lemma MulPositive(a: real, b: real)
    requires a > 0.0 && b > 0.0
    ensures a * b > 0.0
  {}

  /**
   * A flick fires iff out of cooldown, with at least 3 buffered and 2 windowed samples, the
   * window spans a positive time, its speed is at least 1.2 and its movement at least 0.08;
   * upward is `voice.faster`, downward `voice.slower`.
   */
  lemma FlickFiresIff(samples: seq<Sample>, now: int, lastFlickTime: int)
    ensures FlickEvent(samples, now, lastFlickTime).Some? <==> FlickConditions(samples, now, lastFlickTime)
    ensures FlickEvent(samples, now, lastFlickTime) == Some(VoiceFaster) <==>
              FlickConditions(samples, now, lastFlickTime) && WindowDeltaY(FlickWindow(samples, now)) < 0.0
  {
    var w := FlickWindow(samples, now);
    if now - lastFlickTime >= FlickCooldown && |samples| >= FlickMinSamples && |w| >= 2 && WindowDeltaT(w) > 0.0 {
      QuotientSign(WindowDeltaY(w), WindowDeltaT(w));
    }
  }

  // ---------------------------------------------------------------- chop and halt

  datatype ChopState = ChopState(hasChopped: bool, chopTime: int, smoothedY: real, lastY: real, lastTime: int)

  const ChopRest: ChopState := ChopState(false, 0, 0.0, 0.0, 0)

  datatype HaltState = HaltState(leftChop: ChopState, rightChop: ChopState, lastHaltTime: int, suppressUntilReturn: bool)

  const HaltRest: HaltState := HaltState(ChopRest, ChopRest, 0, false)

  /** The downward speed of a chop step, per second. */
  function ChopSpeed(c: ChopState, y: real, now: int): real
    requires now > c.lastTime
  {
    (y - c.lastY) / ((now - c.lastTime) as real / 1000.0)
  }

  /** `processChop` */
  function ChopStep(c: ChopState, wristY: real, shoulderY: real, now: int, cfg: Config): ChopState {
    if c.smoothedY == 0.0 then c.(smoothedY := wristY, lastY := wristY, lastTime := now)
    else
      var y := Ema(cfg.emaAlpha, wristY, c.smoothedY);
      if (now - c.lastTime) as real / 1000.0 <= 0.0 then c.(smoothedY := y)
      else
        var moved := c.(smoothedY := y, lastY := y, lastTime := now);
        if !c.hasChopped && y > shoulderY + cfg.chopDeltaY && ChopSpeed(c, y, now) >= cfg.chopMinSpeed then
          moved.(hasChopped := true, chopTime := now)
        else moved
  }

  /**
   * The first sample of a side only seeds the average, the last height and time; a step that
   * is not later than the last one only smooths.
   */
  lemma ChopSeedingAndStaleTime(c: ChopState, wristY: real, shoulderY: real, now: int, cfg: Config)
    ensures c.smoothedY == 0.0 ==>
              var r := ChopStep(c, wristY, shoulderY, now, cfg);
              r.smoothedY == wristY && r.lastY == wristY && r.lastTime == now &&
              r.hasChopped == c.hasChopped && r.chopTime == c.chopTime
    ensures c.smoothedY != 0.0 && now <= c.lastTime ==>
              ChopStep(c, wristY, shoulderY, now, cfg) == c.(smoothedY := Ema(cfg.emaAlpha, wristY, c.smoothedY))
  {}

  /**
   * The chop latch only goes from unset to set, at `now`, when the average is below the chop
   * line and moving down fast enough; a set latch survives with its time.
   */
  lemma ChopLatch(c: ChopState, wristY: real, shoulderY: real, now: int, cfg: Config)
    ensures c.hasChopped ==> ChopStep(c, wristY, shoulderY, now, cfg).hasChopped &&
                             ChopStep(c, wristY, shoulderY, now, cfg).chopTime == c.chopTime
    ensures !c.hasChopped && c.smoothedY != 0.0 && now > c.lastTime ==>
              (ChopStep(c, wristY, shoulderY, now, cfg).hasChopped <==>
                 Ema(cfg.emaAlpha, wristY, c.smoothedY) > shoulderY + cfg.chopDeltaY &&
                 ChopSpeed(c, Ema(cfg.emaAlpha, wristY, c.smoothedY), now) >= cfg.chopMinSpeed)
    ensures !c.hasChopped && ChopStep(c, wristY, shoulderY, now, cfg).hasChopped ==>
              ChopStep(c, wristY, shoulderY, now, cfg).chopTime == now && c.smoothedY != 0.0 && now > c.lastTime
  {
    if now > c.lastTime {
      assert (now - c.lastTime) as real / 1000.0 > 0.0;
    }
  }

  function Distance(a: int, b: int): nat {
    if a >= b then a - b else b - a
  }

  /** Both sides have chopped, within `chopPairMs` of each other. */
  predicate Paired(h: HaltState, pairMs: int) {
    h.leftChop.hasChopped && h.rightChop.hasChopped && Distance(h.leftChop.chopTime, h.rightChop.chopTime) <= pairMs
  }

  /** A latch older than the pair window is dropped. */
  function Expired(c: ChopState, now: int, pairMs: int): ChopState {
    if c.hasChopped && now - c.chopTime > pairMs then c.(hasChopped := false) else c
  }

  datatype HaltResult = HaltResult(state: HaltState, fired: bool)

  /** `checkDoubleChopCompletion`: fire on a pair, expire old latches, re-arm on raised wrists. */
  function CompletionStep(h: HaltState, left: Reading, right: Reading, now: int, cfg: Config): HaltResult {
    var fired := Paired(h, cfg.chopPairMs);
    var h1 := if fired then
                HaltState(h.leftChop.(hasChopped := false), h.rightChop.(hasChopped := false), now, true)
              else h;
    var h2 := h1.(leftChop := Expired(h1.leftChop, now, cfg.chopPairMs),
                  rightChop := Expired(h1.rightChop, now, cfg.chopPairMs));
    var back := left.wristY < left.shoulderY - HaltHystBack && right.wristY < right.shoulderY - HaltHystBack;
    HaltResult(if h2.suppressUntilReturn && back then h2.(suppressUntilReturn := false) else h2, fired)
  }

  /** The chop states after each visible side has processed its wrist. */
  function Latched(h: HaltState, left: Reading, right: Reading, now: int, cfg: Config): HaltState {
    h.(leftChop := if left.visible then ChopStep(h.leftChop, left.wristY, left.shoulderY, now, cfg) else h.leftChop,
       rightChop := if right.visible then ChopStep(h.rightChop, right.wristY, right.shoulderY, now, cfg) else h.rightChop)
  }

  /** `checkDoubleChopHalt` */
  function HaltStep(h: HaltState, left: Reading, right: Reading, now: int, cfg: Config): HaltResult {
    if now - h.lastHaltTime < HaltCooldown then HaltResult(h, false)
    else CompletionStep(Latched(h, left, right, now, cfg), left, right, now, cfg)
  }

  /**
   * Within 1500 ms of a halt nothing changes. Otherwise a halt fires iff after the chop
   * updates both sides are latched within the pair window; it clears both latches, records the
   * time and suppresses until both raw wrists are back 0.06 above the shoulders, which may
   * already be the case in the same frame.
   */
  lemma HaltFiresIff(h: HaltState, left: Reading, right: Reading, now: int, cfg: Config)
    ensures now - h.lastHaltTime < HaltCooldown ==> HaltStep(h, left, right, now, cfg) == HaltResult(h, false)
    ensures HaltStep(h, left, right, now, cfg).fired <==>
              now - h.lastHaltTime >= HaltCooldown && Paired(Latched(h, left, right, now, cfg), cfg.chopPairMs)
    ensures var r := HaltStep(h, left, right, now, cfg);
            r.fired ==> !r.state.leftChop.hasChopped && !r.state.rightChop.hasChopped && r.state.lastHaltTime == now &&
                        (r.state.suppressUntilReturn <==>
                           !(left.wristY < left.shoulderY - HaltHystBack && right.wristY < right.shoulderY - HaltHystBack))
  {}

  /**
   * Out of cooldown, a latch that survives the frame is at most `chopPairMs` old, and a halt
   * never fires again within 1500 ms of the last.
   */
  lemma HaltLatchesExpire(h: HaltState, left: Reading, right: Reading, now: int, cfg: Config)
    requires now - h.lastHaltTime >= HaltCooldown
    ensures var r := HaltStep(h, left, right, now, cfg).state;
            (r.leftChop.hasChopped ==> now - r.leftChop.chopTime <= cfg.chopPairMs) &&
            (r.rightChop.hasChopped ==> now - r.rightChop.chopTime <= cfg.chopPairMs)
  {}

  lemma NoHaltWithinCooldown(h: HaltState, left: Reading, right: Reading, now: int,
                             left2: Reading, right2: Reading, later: int, cfg: Config)
    requires HaltStep(h, left, right, now, cfg).fired && later < now + HaltCooldown
    ensures !HaltStep(HaltStep(h, left, right, now, cfg).state, left2, right2, later, cfg).fired
  {
    HaltFiresIff(h, left, right, now, cfg);
  }

  /** `suppressUntilReturn` is not a gate: whether a halt fires does not depend on it. */
  lemma SuppressIsNoGate(h: HaltState, left: Reading, right: Reading, now: int, cfg: Config, b: bool)
    ensures HaltStep(h.(suppressUntilReturn := b), left, right, now, cfg).fired == HaltStep(h, left, right, now, cfg).fired
  {
    assert Latched(h.(suppressUntilReturn := b), left, right, now, cfg).leftChop == Latched(h, left, right, now, cfg).leftChop;
    assert Latched(h.(suppressUntilReturn := b), left, right, now, cfg).rightChop == Latched(h, left, right, now, cfg).rightChop;
  }

  // ---------------------------------------------------------------- the whole frame

  /** The classifier fields of the detector. */
  datatype Detector = Detector(
    samples: seq<Sample>,
    lastFlickTime: int,
    raiseSuppressionUntil: int,
    rightTap: TapState,
    leftTap: TapState,
    halt: HaltState)

  const Fresh: Detector := Detector([], 0, 0, TapRest, TapRest, HaltRest)

  datatype Outcome = Outcome(detector: Detector, events: seq<AppEvent>)

  /** The visual gesture that accompanies a tempo flick. */
  function FlickGesture(e: EventType): EventType {
    if e == VoiceFaster then GestureFlickRightUp else GestureFlickRightDown
  }

  /** `publishFlick` / `fireTap` / `fireHalt` payloads carry the firing time. */
  function Stamp(e: EventType, now: int): AppEvent {
    AppEvent(e, Stamped(now))
  }

  /** The flick stage: buffer update, decision, and its effects on the detector. */
  function FlickStage(d: Detector, right: Reading, now: int, gesturesEnabled: bool): Outcome {
    var s := UpdatedSamples(d.samples, right.wristY, now);
    match FlickEvent(s, now, d.lastFlickTime)
    case None => Outcome(d.(samples := s), [])
    case Some(e) =>
      Outcome(d.(samples := s, lastFlickTime := now, raiseSuppressionUntil := now + FlickSuppressRaiseMs,
                 rightTap := d.rightTap.(isArmed := false)),
              if gesturesEnabled then [Stamp(e, now), Stamp(FlickGesture(e), now)] else [])
  }

  /** `checkQuickTapGestures`: the right tap unless a flick suppresses it, then the left tap. */
  function TapStage(d: Detector, left: Reading, right: Reading, now: int, cfg: Config, gesturesEnabled: bool): Outcome {
    var r := if right.visible && now > d.raiseSuppressionUntil
             then TapStep(d.rightTap, right.wristY, right.shoulderY, now, cfg) else TapResult(d.rightTap, false);
    var l := if left.visible then TapStep(d.leftTap, left.wristY, left.shoulderY, now, cfg) else TapResult(d.leftTap, false);
    Outcome(d.(rightTap := r.state, leftTap := l.state),
            (if r.fired && gesturesEnabled then [Stamp(GestureWaveRight, now)] else []) +
            (if l.fired && gesturesEnabled then [Stamp(GestureWaveLeft, now)] else []))
  }

  /** The halt stage; `fireHalt` publishes whatever the switches say. */
  function HaltStage(d: Detector, left: Reading, right: Reading, now: int, cfg: Config): Outcome {
    var h := HaltStep(d.halt, left, right, now, cfg);
    Outcome(d.(halt := h.state), if h.fired then [Stamp(GestureHalt, now)] else [])
  }

  /** `processLandmarks` */
  function FrameStep(d: Detector, landmarks: seq<Landmark>, now: int, cameraEnabled: bool, cfg: Config,
                     haltOnly: bool, gesturesEnabled: bool): Outcome
  {
    if |landmarks| < RequiredLandmarks || !cameraEnabled || !FrameValid(landmarks, cfg.minVis) then Outcome(d, [])
    else
      var left := LeftReading(landmarks, cfg.minVis);
      var right := RightReading(landmarks, cfg.minVis);
      if haltOnly then HaltStage(d, left, right, now, cfg)
      else
        var f := FlickStage(d, right, now, gesturesEnabled);
        var t := TapStage(f.detector, left, right, now, cfg, gesturesEnabled);
        var h := HaltStage(t.detector, left, right, now, cfg);
        Outcome(h.detector, f.events + t.events + h.events)
  }

  /** Short frames, a disabled camera, or an invalid point change nothing and publish nothing. */
  lemma GatedFrames(d: Detector, landmarks: seq<Landmark>, now: int, cameraEnabled: bool, cfg: Config,
                    haltOnly: bool, gesturesEnabled: bool)
    requires |landmarks| < RequiredLandmarks || !cameraEnabled || !FrameValid(landmarks, cfg.minVis)
    ensures FrameStep(d, landmarks, now, cameraEnabled, cfg, haltOnly, gesturesEnabled) == Outcome(d, [])
  {}

  /**
   * In halt-only mode only the halt state changes and the only event is at most one
   * `gesture.halt`.
   */
  lemma HaltOnlyMode(d: Detector, landmarks: seq<Landmark>, now: int, cameraEnabled: bool, cfg: Config,
                     gesturesEnabled: bool)
    ensures var o := FrameStep(d, landmarks, now, cameraEnabled, cfg, true, gesturesEnabled);
            o.detector == d.(halt := o.detector.halt) && |o.events| <= 1 &&
            forall i :: 0 <= i < |o.events| ==> o.events[i].kind == GestureHalt
  {}

  /** With gestures disabled, taps and flicks publish nothing: every event is a halt. */
  lemma DisabledGesturesOnlyHalt(d: Detector, landmarks: seq<Landmark>, now: int, cameraEnabled: bool, cfg: Config,
                                 haltOnly: bool)
    ensures var o := FrameStep(d, landmarks, now, cameraEnabled, cfg, haltOnly, false);
            |o.events| <= 1 && forall i :: 0 <= i < |o.events| ==> o.events[i].kind == GestureHalt
  {}

  /**
   * A flick disarms the right tap and suppresses it for 400 ms, so the right tap cannot fire
   * in the frame of the flick.
   */
  lemma FlickSuppressesRightTap(d: Detector, left: Reading, right: Reading, now: int, cfg: Config, gesturesEnabled: bool)
    requires FlickEvent(UpdatedSamples(d.samples, right.wristY, now), now, d.lastFlickTime).Some?
    ensures var f := FlickStage(d, right, now, gesturesEnabled);
            f.detector.lastFlickTime == now && f.detector.raiseSuppressionUntil == now + FlickSuppressRaiseMs &&
            !f.detector.rightTap.isArmed &&
            TapStage(f.detector, left, right, now, cfg, gesturesEnabled).detector.rightTap == f.detector.rightTap
  {}

  /** The detector object: its classifier fields and what it has published, in order. */
  class GestureDetector {
    const haltOnly: bool
    const gesturesEnabled: bool
    var subscribed: bool
    var rightWristSamples: seq<Sample>
    var lastFlickTime: int
    var raiseSuppressionUntil: int
    var rightTapState: TapState
    var leftTapState: TapState
    var haltState: HaltState
    var outbox: seq<AppEvent>

    function Snapshot(): Detector
      reads this
    {
      Detector(rightWristSamples, lastFlickTime, raiseSuppressionUntil, rightTapState, leftTapState, haltState)
    }

    constructor (haltOnly: bool, gesturesEnabled: bool)
      ensures this.haltOnly == haltOnly && this.gesturesEnabled == gesturesEnabled
      ensures Snapshot() == Fresh && !subscribed && outbox == []
    {
      this.haltOnly := haltOnly;
      this.gesturesEnabled := gesturesEnabled;
      subscribed := false;
      rightWristSamples := [];
      lastFlickTime, raiseSuppressionUntil := 0, 0;
      rightTapState, leftTapState := TapRest, TapRest;
      haltState := HaltRest;
      outbox := [];
    }

    /**
     * `init`: subscribes once; a repeated call is a no-op. `startsCalibration` says whether
     * it kicks off the automatic calibration, which it does when not yet calibrated.
     */
    method Init(calibrated: bool) returns (startsCalibration: bool)
      modifies this
      ensures subscribed
      ensures old(subscribed) ==> !startsCalibration
      ensures !old(subscribed) ==> startsCalibration == !calibrated
      ensures Snapshot() == old(Snapshot()) && outbox == old(outbox)
    {
      if subscribed {
        return false;
      }
      subscribed := true;
      startsCalibration := !calibrated;
    }

    /** `dispose`: unsubscribes and restores every classifier field. */
    method Dispose()
      modifies this
      ensures !subscribed && Snapshot() == Fresh && outbox == old(outbox)
    {
      subscribed := false;
      rightWristSamples := [];
      lastFlickTime := 0;
      raiseSuppressionUntil := 0;
      rightTapState := TapRest;
      leftTapState := TapRest;
      haltState := HaltRest;
    }

    /** `updateFlickSamples` */
    method UpdateFlickSamples(y: real, now: int)
      modifies this
      ensures rightWristSamples == UpdatedSamples(old(rightWristSamples), y, now)
      ensures Snapshot() == old(Snapshot()).(samples := rightWristSamples)
      ensures outbox == old(outbox) && subscribed == old(subscribed)
    {
      rightWristSamples := rightWristSamples + [Sample(now, y)];
      rightWristSamples := Recent(rightWristSamples, now, FlickBufferMs);
      if |rightWristSamples| > FlickBufferMax {
        rightWristSamples := rightWristSamples[1..];
      }
    }

    /** `checkFlickGestures` and `publishFlick` */
    method CheckFlickGestures(now: int)
      modifies this
      ensures var f := FlickEvent(old(rightWristSamples), now, old(lastFlickTime));
              Snapshot() == (if f.Some? then
                               old(Snapshot()).(lastFlickTime := now, raiseSuppressionUntil := now + FlickSuppressRaiseMs,
                                                rightTap := old(rightTapState).(isArmed := false))
                             else old(Snapshot())) &&
              outbox == old(outbox) + (if f.Some? && gesturesEnabled then [Stamp(f.value, now), Stamp(FlickGesture(f.value), now)] else [])
      ensures subscribed == old(subscribed)
    {
      if now - lastFlickTime < FlickCooldown {
        return;
      }
      if |rightWristSamples| < FlickMinSamples {
        return;
      }
      var windowSamples := Recent(rightWristSamples, now, FlickWindowMs);
      if |windowSamples| < 2 {
        return;
      }
      var oldest := windowSamples[0];
      var newest := windowSamples[|windowSamples| - 1];
      var deltaT := (newest.time - oldest.time) as real / 1000.0;
      var deltaY := newest.value - oldest.value;
      if deltaT <= 0.0 {
        return;
      }
      var speed := deltaY / deltaT;
      var absDeltaY := Abs(deltaY);
      if speed <= -FlickMinSpeed && absDeltaY >= FlickMinDeltaY && deltaY < 0.0 {
        PublishFlick(VoiceFaster, now);
        rightTapState := rightTapState.(isArmed := false);
        return;
      }
      if speed >= FlickMinSpeed && absDeltaY >= FlickMinDeltaY && deltaY > 0.0 {
        PublishFlick(VoiceSlower, now);
        rightTapState := rightTapState.(isArmed := false);
        return;
      }
    }

    method PublishFlick(e: EventType, now: int)
      modifies this
      ensures lastFlickTime == now && raiseSuppressionUntil == now + FlickSuppressRaiseMs
      ensures outbox == old(outbox) + (if gesturesEnabled then [Stamp(e, now), Stamp(FlickGesture(e), now)] else [])
      ensures rightWristSamples == old(rightWristSamples) && rightTapState == old(rightTapState)
      ensures leftTapState == old(leftTapState) && haltState == old(haltState) && subscribed == old(subscribed)
    {
      lastFlickTime := now;
      raiseSuppressionUntil := now + FlickSuppressRaiseMs;
      if gesturesEnabled {
        outbox := outbox + [Stamp(e, now)];
        outbox := outbox + [Stamp(FlickGesture(e), now)];
      }
    }

    /** `processTap` for one side. */
    method ProcessTap(side: bool, wristY: real, shoulderY: real, now: int, cfg: Config)
      modifies this
      ensures var s := if side then old(rightTapState) else old(leftTapState);
              var r := TapStep(s, wristY, shoulderY, now, cfg);
              (if side then rightTapState == r.state && leftTapState == old(leftTapState)
               else leftTapState == r.state && rightTapState == old(rightTapState)) &&
              outbox == old(outbox) +
                (if r.fired && gesturesEnabled then [Stamp(if side then GestureWaveRight else GestureWaveLeft, now)] else [])
      ensures rightWristSamples == old(rightWristSamples) && lastFlickTime == old(lastFlickTime)
      ensures raiseSuppressionUntil == old(raiseSuppressionUntil) && haltState == old(haltState)
      ensures subscribed == old(subscribed)
    {
      var s := if side then rightTapState else leftTapState;
      if s.smoothedY == 0.0 {
        s := s.(smoothedY := wristY);
      } else {
        s := s.(smoothedY := cfg.emaAlpha * wristY + (1.0 - cfg.emaAlpha) * s.smoothedY);
      }
      var peakThreshold := shoulderY - cfg.tapPeakDeltaY;
      var dropThreshold := shoulderY + cfg.tapDropHyst;
      if now >= s.lastCooldownEnd {
        if !s.isArmed {
          if s.smoothedY < peakThreshold {
            s := s.(isArmed := true, armTime := now);
          }
        } else {
          var timeArmed := now - s.armTime;
          if timeArmed >= TapMinMs && timeArmed as real <= cfg.tapMaxMs {
            if s.smoothedY > dropThreshold {
              if gesturesEnabled {
                outbox := outbox + [Stamp(if side then GestureWaveRight else GestureWaveLeft, now)];
              }
              s := s.(isArmed := false, lastCooldownEnd := now + TapCooldownMs);
            }
          } else if timeArmed as real > cfg.tapMaxMs {
            s := s.(isArmed := false);
          }
        }
      }
      if side {
        rightTapState := s;
      } else {
        leftTapState := s;
      }
    }

    /** `checkQuickTapGestures` */
    method CheckQuickTapGestures(left: Reading, right: Reading, now: int, cfg: Config)
      modifies this
      ensures var t := TapStage(old(Snapshot()), left, right, now, cfg, gesturesEnabled);
              Snapshot() == t.detector && outbox == old(outbox) + t.events
      ensures subscribed == old(subscribed)
    {
      if right.visible && now > raiseSuppressionUntil {
        ProcessTap(true, right.wristY, right.shoulderY, now, cfg);
      }
      if left.visible {
        ProcessTap(false, left.wristY, left.shoulderY, now, cfg);
      }
    }

    /** `processChop` for one side. */
    method ProcessChop(side: bool, wristY: real, shoulderY: real, now: int, cfg: Config)
      modifies this
      ensures var c := if side then old(haltState).rightChop else old(haltState).leftChop;
              haltState == (if side then old(haltState).(rightChop := ChopStep(c, wristY, shoulderY, now, cfg))
                            else old(haltState).(leftChop := ChopStep(c, wristY, shoulderY, now, cfg)))
      ensures rightWristSamples == old(rightWristSamples) && lastFlickTime == old(lastFlickTime)
      ensures raiseSuppressionUntil == old(raiseSuppressionUntil)
      ensures rightTapState == old(rightTapState) && leftTapState == old(leftTapState)
      ensures outbox == old(outbox) && subscribed == old(subscribed)
    {
      var c := if side then haltState.rightChop else haltState.leftChop;
      if c.smoothedY == 0.0 {
        c := c.(smoothedY := wristY, lastY := wristY, lastTime := now);
      } else {
        var old0 := c;
        c := c.(smoothedY := cfg.emaAlpha * wristY + (1.0 - cfg.emaAlpha) * c.smoothedY);
        var deltaT := (now - c.lastTime) as real / 1000.0;
        if deltaT > 0.0 {
          var deltaY := c.smoothedY - c.lastY;
          var speed := deltaY / deltaT;
          assert speed == ChopSpeed(old0, c.smoothedY, now);
          c := c.(lastY := c.smoothedY, lastTime := now);
          var chopThreshold := shoulderY + cfg.chopDeltaY;
          if !c.hasChopped && c.smoothedY > chopThreshold && speed >= cfg.chopMinSpeed {
            c := c.(hasChopped := true, chopTime := now);
          }
        }
      }
      if side {
        haltState := haltState.(rightChop := c);
      } else {
        haltState := haltState.(leftChop := c);
      }
    }

    /** `checkDoubleChopCompletion` and `fireHalt` */
    method CheckDoubleChopCompletion(left: Reading, right: Reading, now: int, cfg: Config)
      modifies this
      ensures var r := CompletionStep(old(haltState), left, right, now, cfg);
              haltState == r.state && outbox == old(outbox) + (if r.fired then [Stamp(GestureHalt, now)] else [])
      ensures rightWristSamples == old(rightWristSamples) && lastFlickTime == old(lastFlickTime)
      ensures raiseSuppressionUntil == old(raiseSuppressionUntil)
      ensures rightTapState == old(rightTapState) && leftTapState == old(leftTapState)
      ensures subscribed == old(subscribed)
    {
      var leftChop := haltState.leftChop;
      var rightChop := haltState.rightChop;
      if leftChop.hasChopped && rightChop.hasChopped {
        var timeDiff := Distance(leftChop.chopTime, rightChop.chopTime);
        if timeDiff <= cfg.chopPairMs {
          outbox := outbox + [Stamp(GestureHalt, now)];
          leftChop := leftChop.(hasChopped := false);
          rightChop := rightChop.(hasChopped := false);
          haltState := haltState.(lastHaltTime := now, suppressUntilReturn := true);
        }
      }
      if leftChop.hasChopped && now - leftChop.chopTime > cfg.chopPairMs {
        leftChop := leftChop.(hasChopped := false);
      }
      if rightChop.hasChopped && now - rightChop.chopTime > cfg.chopPairMs {
        rightChop := rightChop.(hasChopped := false);
      }
      haltState := haltState.(leftChop := leftChop, rightChop := rightChop);
      if haltState.suppressUntilReturn {
        var leftBackUp := left.wristY < left.shoulderY - HaltHystBack;
        var rightBackUp := right.wristY < right.shoulderY - HaltHystBack;
        if leftBackUp && rightBackUp {
          haltState := haltState.(suppressUntilReturn := false);
        }
      }
    }

    /** `checkDoubleChopHalt` */
    method CheckDoubleChopHalt(left: Reading, right: Reading, now: int, cfg: Config)
      modifies this
      ensures var h := HaltStage(old(Snapshot()), left, right, now, cfg);
              Snapshot() == h.detector && outbox == old(outbox) + h.events
      ensures subscribed == old(subscribed)
    {
      if now - haltState.lastHaltTime < HaltCooldown {
        return;
      }
      if left.visible {
        ProcessChop(false, left.wristY, left.shoulderY, now, cfg);
      }
      if right.visible {
        ProcessChop(true, right.wristY, right.shoulderY, now, cfg);
      }
      CheckDoubleChopCompletion(left, right, now, cfg);
    }

    /** Flick, taps and halt in order: the part of `processLandmarks` outside halt-only mode. */
    method RunClassifiers(left: Reading, right: Reading, now: int, cfg: Config)
      modifies this
      ensures var f := FlickStage(old(Snapshot()), right, now, gesturesEnabled);
              var t := TapStage(f.detector, left, right, now, cfg, gesturesEnabled);
              var h := HaltStage(t.detector, left, right, now, cfg);
              Snapshot() == h.detector && outbox == old(outbox) + f.events + t.events + h.events
      ensures subscribed == old(subscribed)
    {
      ghost var d0 := Snapshot();
      ghost var f := FlickStage(d0, right, now, gesturesEnabled);
      UpdateFlickSamples(right.wristY, now);
      CheckFlickGestures(now);
      assert Snapshot() == f.detector;
      ghost var t := TapStage(f.detector, left, right, now, cfg, gesturesEnabled);
      CheckQuickTapGestures(left, right, now, cfg);
      assert Snapshot() == t.detector;
      CheckDoubleChopHalt(left, right, now, cfg);
    }

    /** `processLandmarks`, with the camera flag and the current thresholds as inputs. */
    method ProcessLandmarks(landmarks: seq<Landmark>, now: int, cameraEnabled: bool, cfg: Config)
      modifies this
      ensures var o := FrameStep(old(Snapshot()), landmarks, now, cameraEnabled, cfg, haltOnly, gesturesEnabled);
              Snapshot() == o.detector && outbox == old(outbox) + o.events
      ensures subscribed == old(subscribed)
    {
      if |landmarks| < RequiredLandmarks {
        return;
      }
      if !cameraEnabled {
        return;
      }
      if !IsLandmarkValid(landmarks[LeftShoulder], cfg.minVis) || !IsLandmarkValid(landmarks[RightShoulder], cfg.minVis) ||
         !IsLandmarkValid(landmarks[LeftWrist], cfg.minVis) || !IsLandmarkValid(landmarks[RightWrist], cfg.minVis) {
        return;
      }
      assert FrameValid(landmarks, cfg.minVis);
      var left := LeftReading(landmarks, cfg.minVis);
      var right := RightReading(landmarks, cfg.minVis);
      if haltOnly {
        CheckDoubleChopHalt(left, right, now, cfg);
        return;
      }
      RunClassifiers(left, right, now, cfg);
    }
  }
}
