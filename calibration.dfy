/**
 * The adaptive thresholds of lib/vision/gestureDetector.ts and the calibration that derives
 * them from a baseline of still poses: `clamp`, `mean`, `stddev`, `processCalibrationData`,
 * and the sample filter and already-calibrated guard of `calibrate`.
 */
module Calibration {
  import opened Wrappers
  import opened PoseLandmarks
  import opened Smoothing

  /** The module-level tunable thresholds that calibration overwrites. */
  datatype Config = Config(
    tapPeakDeltaY: real,
    tapDropHyst: real,
    tapMaxMs: real,
    emaAlpha: real,
    minVis: real,
    chopDeltaY: real,
    chopMinSpeed: real,
    chopPairMs: int)

  /** The values the thresholds start with. */
  const Defaults: Config := Config(0.08, 0.04, 500.0, 0.35, 0.6, 0.12, 1.0, 300)

  const MinSamples := 10

  function Min(a: real, b: real): real { if a <= b then a else b }
  function Max(a: real, b: real): real { if a >= b then a else b }

  /** `Math.min(Math.max(value, min), max)` */
  function Clamp(value: real, lo: real, hi: real): (r: real)
    ensures lo <= hi ==> lo <= r <= hi
    ensures lo <= value <= hi ==> r == value
    ensures value < lo && lo <= hi ==> r == lo
    ensures value > hi ==> r == hi
  {
    Min(Max(value, lo), hi)
  }

  /** `values.reduce((a, b) => a + b, 0)` */
  function Sum(xs: seq<real>): real {
    if |xs| == 0 then 0.0 else Sum(xs[..|xs| - 1]) + xs[|xs| - 1]
  }

  /** `mean`: 0 for no values. */
  function Mean(xs: seq<real>): (r: real)
    ensures |xs| == 0 ==> r == 0.0
    ensures |xs| > 0 ==> r * (|xs| as real) == Sum(xs)
  {
    if |xs| > 0 then Sum(xs) / (|xs| as real) else 0.0
  }

  /** Values within bounds sum to within n times the bounds. */
  lemma {:induction false} SumWithin(xs: seq<real>, lo: real, hi: real)
    requires forall i :: 0 <= i < |xs| ==> lo <= xs[i] <= hi
    ensures lo * (|xs| as real) <= Sum(xs) <= hi * (|xs| as real)
  {
    if |xs| > 0 {
      SumWithin(xs[..|xs| - 1], lo, hi);
    }
  }

  /** The mean of values within bounds lies within the bounds. */
  lemma MeanWithin(xs: seq<real>, lo: real, hi: real)
    requires |xs| > 0
    requires forall i :: 0 <= i < |xs| ==> lo <= xs[i] <= hi
    ensures lo <= Mean(xs) <= hi
  {
    SumWithin(xs, lo, hi);
    var n := |xs| as real;
    ScaleLe(lo, Mean(xs), n);
    ScaleLe(Mean(xs), hi, n);
  }

  /** Multiplying by a positive factor keeps the order. */
  lemma ScaleLe(a: real, b: real, n: real)
    requires n > 0.0
    ensures a <= b <==> a * n <= b * n
  {
    assert b * n - a * n == (b - a) * n;
    if a <= b {
      NonNegProduct(b - a, n);
    } else {
      NonNegProduct(a - b, n);
      assert (a - b) * n != 0.0;
    }
  }

  lemma NonNegProduct(a: real, b: real)
    requires a >= 0.0 && b >= 0.0
    ensures a * b >= 0.0
  {}

  /** A square is never negative. */
  lemma NonNegSquare(d: real)
    ensures d * d >= 0.0
  {
    if d < 0.0 {
      assert d * d == (-d) * (-d);
      NonNegProduct(-d, -d);
    } else {
      NonNegProduct(d, d);
    }
  }

  /** The mean of a constant sequence is that constant. */
  lemma MeanOfConstant(xs: seq<real>, c: real)
    requires |xs| > 0
    requires forall i :: 0 <= i < |xs| ==> xs[i] == c
    ensures Mean(xs) == c
  {
    MeanWithin(xs, c, c);
  }

  /** `values.reduce((acc, val) => acc + Math.pow(val - avg, 2), 0)` */
  function SquaredDeviations(xs: seq<real>, avg: real): (r: real)
    ensures r >= 0.0
  {
    if |xs| == 0 then 0.0
    else
      NonNegSquare(xs[|xs| - 1] - avg);
      SquaredDeviations(xs[..|xs| - 1], avg) + (xs[|xs| - 1] - avg) * (xs[|xs| - 1] - avg)
  }

  /** The sample variance, with the n - 1 divisor, of at least two values. */
  function Variance(xs: seq<real>): (r: real)
    requires |xs| >= 2
    ensures r >= 0.0
  {
    SquaredDeviations(xs, Mean(xs)) / ((|xs| - 1) as real)
  }

  /**
   * `stddev`: 0 for fewer than two values, otherwise `sqrt` of the variance. `sqrt` stands
   * for `Math.sqrt`; the result is non-negative whenever `sqrt` is on non-negative arguments.
   */
  function StdDev(xs: seq<real>, sqrt: real -> real): (r: real)
    ensures |xs| < 2 ==> r == 0.0
    ensures (forall v :: v >= 0.0 ==> sqrt(v) >= 0.0) ==> r >= 0.0
  {
    if |xs| < 2 then 0.0 else sqrt(Variance(xs))
  }

  /** Values all at their mean deviate by nothing. */
  lemma {:induction false} NoDeviation(xs: seq<real>, c: real)
    requires forall i :: 0 <= i < |xs| ==> xs[i] == c
    ensures SquaredDeviations(xs, c) == 0.0
  {
    if |xs| > 0 {
      NoDeviation(xs[..|xs| - 1], c);
    }
  }

  /** A perfectly still wrist has variance 0. */
  lemma ConstantHasNoVariance(xs: seq<real>, c: real)
    requires |xs| >= 2
    requires forall i :: 0 <= i < |xs| ==> xs[i] == c
    ensures Variance(xs) == 0.0
  {
    MeanOfConstant(xs, c);
    NoDeviation(xs, c);
  }

  /** `CalibrationSample` */
  datatype CalibrationSample = CalibrationSample(
    leftShoulderY: real,
    rightShoulderY: real,
    leftWristY: real,
    rightWristY: real,
    shoulderWidth: real,
    timestamp: int)

  /**
   * The sample filter of `calibrate`: a frame of at least 17 landmarks whose four points all
   * have visibility absent or above `minVis` yields a sample; the shoulder width is the
   * horizontal distance between the shoulders.
   */
  function SampleOf(landmarks: seq<Landmark>, now: int, minVis: real): (r: Option<CalibrationSample>)
    ensures r.Some? <==> |landmarks| >= RequiredLandmarks &&
                         (var p := PointsOf(landmarks);
                          VisibleAbove(p.leftShoulder, minVis) && VisibleAbove(p.rightShoulder, minVis) &&
                          VisibleAbove(p.leftWrist, minVis) && VisibleAbove(p.rightWrist, minVis) &&
                          HasCoordinates(p.leftShoulder) && HasCoordinates(p.rightShoulder) &&
                          p.leftWrist.y.Some? && p.rightWrist.y.Some?)
    ensures r.Some? ==> r.value.timestamp == now && r.value.shoulderWidth >= 0.0
    ensures r.Some? ==> r.value.leftWristY == landmarks[LeftWrist].y.value &&
                        r.value.rightWristY == landmarks[RightWrist].y.value
  {
    if |landmarks| < RequiredLandmarks then None
    else
      var p := PointsOf(landmarks);
      if VisibleAbove(p.leftShoulder, minVis) && VisibleAbove(p.rightShoulder, minVis) &&
         VisibleAbove(p.leftWrist, minVis) && VisibleAbove(p.rightWrist, minVis) &&
         HasCoordinates(p.leftShoulder) && HasCoordinates(p.rightShoulder) &&
         p.leftWrist.y.Some? && p.rightWrist.y.Some?
      then
        Some(CalibrationSample(
          p.leftShoulder.y.value, p.rightShoulder.y.value, p.leftWrist.y.value, p.rightWrist.y.value,
          Abs(p.rightShoulder.x.value - p.leftShoulder.x.value), now))
      else None
  }

  function ShoulderWidths(samples: seq<CalibrationSample>): (r: seq<real>)
    ensures |r| == |samples| && forall i :: 0 <= i < |r| ==> r[i] == samples[i].shoulderWidth
  {
    if |samples| == 0 then [] else ShoulderWidths(samples[..|samples| - 1]) + [samples[|samples| - 1].shoulderWidth]
  }

  function LeftWristYs(samples: seq<CalibrationSample>): (r: seq<real>)
    ensures |r| == |samples| && forall i :: 0 <= i < |r| ==> r[i] == samples[i].leftWristY
  {
    if |samples| == 0 then [] else LeftWristYs(samples[..|samples| - 1]) + [samples[|samples| - 1].leftWristY]
  }

  function RightWristYs(samples: seq<CalibrationSample>): (r: seq<real>)
    ensures |r| == |samples| && forall i :: 0 <= i < |r| ==> r[i] == samples[i].rightWristY
  {
    if |samples| == 0 then [] else RightWristYs(samples[..|samples| - 1]) + [samples[|samples| - 1].rightWristY]
  }

  /** The ranges calibration keeps each derived threshold in. */
  predicate InCalibratedRange(c: Config) {
    0.06 <= c.tapPeakDeltaY <= 0.12 && 0.03 <= c.tapDropHyst <= 0.08 && 450.0 <= c.tapMaxMs <= 700.0 &&
    0.10 <= c.chopDeltaY <= 0.18 && 0.80 <= c.chopMinSpeed <= 1.25
  }

  /** The five thresholds derived from the average shoulder width and the wrist noise. */
  function Derive(cfg: Config, shoulderWidth: real, wristStdY: real): (r: Config)
    ensures InCalibratedRange(r)
    ensures r.emaAlpha == cfg.emaAlpha && r.minVis == cfg.minVis && r.chopPairMs == cfg.chopPairMs
  {
    cfg.(
      tapPeakDeltaY := Clamp(Max(0.06, 2.5 * wristStdY), 0.05, 0.12),
      tapDropHyst := Clamp(Max(0.03, 1.5 * wristStdY), 0.02, 0.08),
      tapMaxMs := Clamp(500.0 + 100.0 * (1.0 - shoulderWidth / 0.3), 450.0, 700.0),
      chopDeltaY := Clamp(0.10 + 0.15 * (0.25 - shoulderWidth), 0.10, 0.18),
      chopMinSpeed := Clamp(0.85 + 0.3 * (0.25 - shoulderWidth), 0.80, 1.25))
  }

  /**
   * `processCalibrationData`: fewer than 10 samples is an error and changes nothing;
   * otherwise the derived thresholds, from the mean shoulder width and the larger of the two
   * wrists' standard deviations.
   */
  function Calibrated(cfg: Config, samples: seq<CalibrationSample>, sqrt: real -> real): (r: Option<Config>)
    ensures r.None? <==> |samples| < MinSamples
    ensures r.Some? ==> InCalibratedRange(r.value)
    ensures r.Some? ==> r.value.emaAlpha == cfg.emaAlpha && r.value.minVis == cfg.minVis &&
                        r.value.chopPairMs == cfg.chopPairMs
  {
    if |samples| < MinSamples then None
    else
      var wristStdY := Max(StdDev(LeftWristYs(samples), sqrt), StdDev(RightWristYs(samples), sqrt));
      Some(Derive(cfg, Mean(ShoulderWidths(samples)), wristStdY))
  }

  /**
   * A still baseline (zero wrist noise) at the reference shoulder width 0.25 sets the tap
   * thresholds to their floors and the chop thresholds to their base values.
   */
  lemma StillBaseline(cfg: Config)
    ensures var c := Derive(cfg, 0.25, 0.0);
            c.tapPeakDeltaY == 0.06 && c.tapDropHyst == 0.03 && c.chopDeltaY == 0.10 && c.chopMinSpeed == 0.85 &&
            500.0 < c.tapMaxMs < 520.0
  {}

  /**
   * A baseline in which neither wrist moves has no wrist noise, so calibration lowers the tap
   * thresholds to their floors 0.06 and 0.03 (given `sqrt(0) = 0`).
   */
  lemma StillWristsCalibrateToFloors(cfg: Config, samples: seq<CalibrationSample>, sqrt: real -> real)
    requires |samples| >= MinSamples && sqrt(0.0) == 0.0
    requires forall i :: 0 <= i < |samples| ==>
               samples[i].leftWristY == samples[0].leftWristY && samples[i].rightWristY == samples[0].rightWristY
    ensures Calibrated(cfg, samples, sqrt).value.tapPeakDeltaY == 0.06
    ensures Calibrated(cfg, samples, sqrt).value.tapDropHyst == 0.03
  {
    ConstantHasNoVariance(LeftWristYs(samples), samples[0].leftWristY);
    ConstantHasNoVariance(RightWristYs(samples), samples[0].rightWristY);
  }

  /** Wider shoulders (a closer player) never lengthen the tap window or raise the chop thresholds. */
  lemma WiderShouldersTighter(cfg: Config, w1: real, w2: real, noise: real)
    requires w1 <= w2
    ensures Derive(cfg, w2, noise).tapMaxMs <= Derive(cfg, w1, noise).tapMaxMs
    ensures Derive(cfg, w2, noise).chopDeltaY <= Derive(cfg, w1, noise).chopDeltaY
    ensures Derive(cfg, w2, noise).chopMinSpeed <= Derive(cfg, w1, noise).chopMinSpeed
  {
    assert w2 / 0.3 >= w1 / 0.3;
  }

  /** More wrist noise never lowers the tap thresholds. */
  lemma NoisierWristsLooser(cfg: Config, w: real, n1: real, n2: real)
    requires n1 <= n2
    ensures Derive(cfg, w, n1).tapPeakDeltaY <= Derive(cfg, w, n2).tapPeakDeltaY
    ensures Derive(cfg, w, n1).tapDropHyst <= Derive(cfg, w, n2).tapDropHyst
  {}

  /** The default thresholds already lie in the calibrated ranges. */
  lemma DefaultsInRange()
    ensures InCalibratedRange(Defaults)
  {}

  /** The `(samples[i].timestamp - samples[i-1].timestamp) / 1000` of consecutive samples. */
  function StepSeconds(samples: seq<CalibrationSample>, i: nat): real
    requires 1 <= i < |samples|
  {
    (samples[i].timestamp - samples[i - 1].timestamp) as real / 1000.0
  }

  /** The wrist speeds of the pairs 1 .. n-1 whose time step lies strictly between 0 and 0.1 s. */
  function SpeedsTo(samples: seq<CalibrationSample>, n: nat, left: bool): (r: seq<real>)
    requires 1 <= n <= |samples|
    ensures |r| <= n - 1
    ensures forall k :: 0 <= k < |r| ==> r[k] >= 0.0
  {
    if n == 1 then []
    else
      var prev := SpeedsTo(samples, n - 1, left);
      var dt := StepSeconds(samples, n - 1);
      if 0.0 < dt < 0.1 then
        var dy := if left then samples[n - 1].leftWristY - samples[n - 2].leftWristY
                  else samples[n - 1].rightWristY - samples[n - 2].rightWristY;
        prev + [Abs(dy) / dt]
      else prev
  }

  /** Both sides record a speed for the same pairs. */
  lemma {:induction false} SpeedsPaired(samples: seq<CalibrationSample>, n: nat)
    requires 1 <= n <= |samples|
    ensures |SpeedsTo(samples, n, true)| == |SpeedsTo(samples, n, false)|
  {
    if n > 1 {
      SpeedsPaired(samples, n - 1);
    }
  }

  /** The speed loop of `processCalibrationData`. */
  method WristSpeeds(samples: seq<CalibrationSample>) returns (leftSpeeds: seq<real>, rightSpeeds: seq<real>)
    requires |samples| >= 1
    ensures leftSpeeds == SpeedsTo(samples, |samples|, true)
    ensures rightSpeeds == SpeedsTo(samples, |samples|, false)
  {
    leftSpeeds, rightSpeeds := [], [];
    var i := 1;
    while i < |samples|
      invariant 1 <= i <= |samples|
      invariant leftSpeeds == SpeedsTo(samples, i, true)
      invariant rightSpeeds == SpeedsTo(samples, i, false)
    {
      var dt := (samples[i].timestamp - samples[i - 1].timestamp) as real / 1000.0;
      if dt > 0.0 && dt < 0.1 {
        leftSpeeds := leftSpeeds + [Abs(samples[i].leftWristY - samples[i - 1].leftWristY) / dt];
        rightSpeeds := rightSpeeds + [Abs(samples[i].rightWristY - samples[i - 1].rightWristY) / dt];
      }
      i := i + 1;
    }
  }

  /**
   * The calibration state: the thresholds, the `calibrated` flag and the samples of the
   * collection in progress. `sqrt` stands for `Math.sqrt`.
   */
  class Calibrator {
    var config: Config
    var calibrated: bool
    var collecting: bool
    var startTime: int
    var durationMs: int
    var samples: seq<CalibrationSample>

    constructor ()
      ensures config == Defaults && !calibrated && !collecting && samples == []
    {
      config := Defaults;
      calibrated := false;
      collecting := false;
      startTime := 0;
      durationMs := 2000;
      samples := [];
    }

    /** `processCalibrationData`: `threw` for too few samples, which leaves the thresholds. */
    method ProcessCalibrationData(sqrt: real -> real) returns (threw: bool)
      modifies this
      ensures threw <==> |samples| < MinSamples
      ensures threw ==> config == old(config)
      ensures !threw ==> config == Calibrated(old(config), samples, sqrt).value
      ensures calibrated == old(calibrated) && collecting == old(collecting) && samples == old(samples)
      ensures startTime == old(startTime) && durationMs == old(durationMs)
    {
      if |samples| < MinSamples {
        return true;
      }
      var shoulderWidthAvg := Mean(ShoulderWidths(samples));
      var leftStd := StdDev(LeftWristYs(samples), sqrt);
      var rightStd := StdDev(RightWristYs(samples), sqrt);
      var wristStdY := Max(leftStd, rightStd);
      var leftSpeeds, rightSpeeds := WristSpeeds(samples);
      config := Derive(config, shoulderWidthAvg, wristStdY);
      threw := false;
    }

    /**
     * `calibrate(durationMs)` up to the subscription: skipped once calibrated, otherwise a
     * new collection starts at `now`.
     */
    method Calibrate(now: int, duration: int) returns (skipped: bool)
      modifies this
      ensures skipped == old(calibrated)
      ensures config == old(config) && calibrated == old(calibrated)
      ensures skipped ==> collecting == old(collecting) && samples == old(samples) && startTime == old(startTime)
      ensures !skipped ==> collecting && samples == [] && startTime == now && durationMs == duration
    {
      if calibrated {
        return true;
      }
      collecting := true;
      startTime := now;
      durationMs := duration;
      samples := [];
      skipped := false;
    }

    /**
     * One landmark frame of a collection: past the duration it ends the collection and
     * processes the samples (`calibrated` only on success, `rejected` otherwise); before
     * that it keeps the frame's sample if the filter yields one.
     */
    method OnCalibrationFrame(landmarks: seq<Landmark>, now: int, sqrt: real -> real) returns (rejected: bool)
      modifies this
      ensures !old(collecting) ==> !rejected && config == old(config) && calibrated == old(calibrated) &&
                                   samples == old(samples) && collecting == old(collecting)
      ensures old(collecting) && now - old(startTime) > old(durationMs) ==>
                !collecting && samples == old(samples) &&
                (rejected <==> |old(samples)| < MinSamples) &&
                (rejected ==> config == old(config) && calibrated == old(calibrated)) &&
                (!rejected ==> calibrated && config == Calibrated(old(config), old(samples), sqrt).value)
      ensures old(collecting) && now - old(startTime) <= old(durationMs) ==>
                !rejected && collecting && config == old(config) && calibrated == old(calibrated) &&
                samples == old(samples) + (match SampleOf(landmarks, now, old(config).minVis)
                                           case Some(s) => [s]
                                           case None => [])
      ensures startTime == old(startTime) && durationMs == old(durationMs)
    {
      if !collecting {
        return false;
      }
      if now - startTime > durationMs {
        collecting := false;
        rejected := ProcessCalibrationData(sqrt);
        if !rejected {
          calibrated := true;
        }
        return;
      }
      match SampleOf(landmarks, now, config.minVis) {
        case Some(s) =>
          samples := samples + [s];
        case None =>
      }
      rejected := false;
    }
  }
}
