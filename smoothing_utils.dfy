/** The pointer-stabilisation steps applied to one coordinate sample: a moving
    average over a caller-owned history buffer, a one-dimensional Kalman update,
    a velocity clamp, a deadzone and the choice of an adaptive smoothing gain.
    All arithmetic is exact arithmetic over `real`. */
module SmoothingUtils {
  import opened RealArith

  datatype Option<T> = None | Some(value: T)

  /** A screen point, as the (x, y) pairs the filters return. */
  datatype Point = Point(x: real, y: real)

  /** The pair (new_estimate, new_estimate_error) returned by the Kalman step. */
  datatype KalmanEstimate = KalmanEstimate(estimate: real, error: real)

  // ---------------------------------------------------------------------------
  // Moving average
  // ---------------------------------------------------------------------------

  /** The sum of a sequence, added left to right from 0 as Python's `sum` does. */
  function Sum(s: seq<real>): real
  {
    if s == [] then 0.0 else Sum(s[..|s| - 1]) + s[|s| - 1]
  }

  function Min(s: seq<real>): real
    requires |s| > 0
  {
    if |s| == 1 then s[0] else MinOf(Min(s[..|s| - 1]), s[|s| - 1])
  }

  function Max(s: seq<real>): real
    requires |s| > 0
  {
    if |s| == 1 then s[0] else MaxOf(Max(s[..|s| - 1]), s[|s| - 1])
  }

  /** The arithmetic mean `sum(s) / len(s)`. */
  function Mean(s: seq<real>): real
    requires |s| > 0
  {
    Sum(s) / (|s| as real)
  }

  /** Python's `sum(buffer)`: a running total over the buffer, left to right. */
  method SumOf(s: seq<real>) returns (total: real)
    ensures total == Sum(s)
  {
    total := 0.0;
    var i := 0;
    while i < |s|
      invariant 0 <= i <= |s|
      invariant total == Sum(s[..i])
    {
      assert s[..i + 1][..i] == s[..i];
      total := total + s[i];
      i := i + 1;
    }
    assert s[..|s|] == s;
  }

  /** Every element lies between the minimum and the maximum. */
  lemma {:induction false} MinMaxBound(s: seq<real>, k: nat)
    requires k < |s|
    ensures Min(s) <= s[k] <= Max(s)
  {
    if |s| > 1 && k < |s| - 1 {
      MinMaxBound(s[..|s| - 1], k);
      assert s[..|s| - 1][k] == s[k];
    }
  }

  /** The minimum and the maximum are elements of the sequence. */
  lemma {:induction false} MinMaxAttained(s: seq<real>)
    requires |s| > 0
    ensures Min(s) in s && Max(s) in s
  {
    if |s| > 1 {
      var init := s[..|s| - 1];
      MinMaxAttained(init);
      assert forall x :: x in init ==> x in s;
    }
  }

  /** `len(s) * min(s) <= sum(s)`. */
  lemma {:induction false} SumAtLeastMin(s: seq<real>)
    requires |s| > 0
    ensures (|s| as real) * Min(s) <= Sum(s)
  {
    if |s| > 1 {
      var init := s[..|s| - 1];
      SumAtLeastMin(init);
      assert Sum(s) == Sum(init) + s[|s| - 1];
      assert Min(s) == MinOf(Min(init), s[|s| - 1]);
      assert |s| as real == (|init| as real) + 1.0;
      StepLower(|s| as real, |init| as real, Min(s), Min(init), Sum(init), s[|s| - 1]);
    }
  }

  /** `sum(s) <= len(s) * max(s)`. */
  lemma {:induction false} SumAtMostMax(s: seq<real>)
    requires |s| > 0
    ensures Sum(s) <= (|s| as real) * Max(s)
  {
    if |s| > 1 {
      var init := s[..|s| - 1];
      SumAtMostMax(init);
      assert Sum(s) == Sum(init) + s[|s| - 1];
      assert Max(s) == MaxOf(Max(init), s[|s| - 1]);
      assert |s| as real == (|init| as real) + 1.0;
      StepUpper(|s| as real, |init| as real, Max(s), Max(init), Sum(init), s[|s| - 1]);
    }
  }

  /** The mean lies between the minimum and the maximum of the sequence. */
  lemma MeanBounds(s: seq<real>)
    requires |s| > 0
    ensures Min(s) <= Mean(s) <= Max(s)
  {
    SumAtLeastMin(s);
    SumAtMostMax(s);
    assert |s| as real > 0.0;
    DivBetween(Sum(s), |s| as real, Min(s), Max(s));
  }

  /** A buffer holding one repeated value averages to exactly that value. */
  lemma MeanOfConstant(s: seq<real>, v: real)
    requires |s| > 0
    requires forall i :: 0 <= i < |s| ==> s[i] == v
    ensures Mean(s) == v
  {
    MinMaxAttained(s);
    MeanBounds(s);
  }

  /** The caller-owned history buffer that `moving_average_filter` appends to.
      Nothing here removes old entries: the source only appends. */
  class PositionBuffer {
    var values: seq<real>

    constructor (initial: seq<real>)
      ensures values == initial
    {
      values := initial;
    }

    /** Append `newValue` to the buffer and return the mean of the buffer after
        the append; the buffer is never empty then, so the division is defined. */
    method MovingAverageFilter(newValue: real) returns (mean: real)
      modifies this
      ensures values == old(values) + [newValue]
      ensures |values| >= 1
      ensures mean == Mean(values)
      ensures Min(values) <= mean <= Max(values)
      ensures (forall i :: 0 <= i < |values| ==> values[i] == newValue) ==> mean == newValue
    {
      values := values + [newValue];
      var total := SumOf(values);
      mean := total / (|values| as real);
      MeanBounds(values);
      if forall i :: 0 <= i < |values| ==> values[i] == newValue {
        MeanOfConstant(values, newValue);
      }
    }
  }

  // ---------------------------------------------------------------------------
  // One-dimensional Kalman update
  // ---------------------------------------------------------------------------

  /** The Kalman gain `p / (p + m)` of a prediction error `p` against a
      measurement error `m`. */
  function KalmanGain(predictionError: real, measurementError: real): real
    requires predictionError + measurementError != 0.0
  {
    predictionError / (predictionError + measurementError)
  }

  /** With both variances positive the gain is strictly between 0 and 1, and
      `gain * (p + m) == p`, `(1 - gain) * (p + m) == m`. */
  lemma KalmanGainBounds(predictionError: real, measurementError: real)
    requires predictionError > 0.0 && measurementError > 0.0
    ensures 0.0 < KalmanGain(predictionError, measurementError) < 1.0
    ensures KalmanGain(predictionError, measurementError) * (predictionError + measurementError)
         == predictionError
    ensures (1.0 - KalmanGain(predictionError, measurementError)) * (predictionError + measurementError)
         == measurementError
  {
    Quotient(predictionError, predictionError + measurementError);
    Complement(KalmanGain(predictionError, measurementError), predictionError + measurementError);
  }

  /** A gain `k` with `k * (p + m) == p` blends `e` and `z` with weights `m`
      and `p`. */
  lemma BlendClosedForm(e: real, z: real, k: real, p: real, m: real)
    requires k * (p + m) == p
    ensures (e + k * (z - e)) * (p + m) == m * e + p * z
  {
    assert (e + k * (z - e)) * (p + m) == e * (p + m) + (k * (p + m)) * (z - e);
    MulEq(k * (p + m), p, z - e);
  }

  /** A gain `k` with `k * (p + m) == p` leaves the error `(1 - k) * p`, which
      is `k * m`, and that times `p + m` is `p * m`. */
  lemma ErrorClosedForm(k: real, p: real, m: real)
    requires k * (p + m) == p
    ensures (1.0 - k) * p == k * m
    ensures ((1.0 - k) * p) * (p + m) == p * m
  {
    Distrib(k, p, m);
    Complement(k, p);
    MulEq((1.0 - k) * p, k * m, p + m);
    assert (k * m) * (p + m) == m * (k * (p + m));
    MulEq(k * (p + m), p, m);
  }

  /** For a gain `0 < k < 1` with `k * (p + m) == p` and positive `p`, `m`, the
      error `(1 - k) * p` lies strictly between 0 and both `p` and `m`. */
  lemma ErrorBounds(k: real, p: real, m: real)
    requires p > 0.0 && m > 0.0 && 0.0 < k < 1.0 && k * (p + m) == p
    ensures 0.0 < (1.0 - k) * p < p
    ensures (1.0 - k) * p < m
  {
    ErrorClosedForm(k, p, m);
    ProductSign(1.0 - k, p);
    ProductSign(k, p);
    Complement(k, p);
    ProductSign(1.0 - k, m);
    Complement(k, m);
  }

  /** One predict-and-correct step. The prediction keeps the estimate and grows
      its error by the process variance. The source divides by
      `prediction_error + measurement_error`; when that is zero Python raises
      ZeroDivisionError, which is the `None` result here. */
  function KalmanFilter(estimate: real, estimateError: real, measurement: real,
                        measurementError: real, processVariance: real): (r: Option<KalmanEstimate>)
    ensures r.None? <==> estimateError + processVariance + measurementError == 0.0
  {
    var prediction := estimate;
    var predictionError := estimateError + processVariance;
    if predictionError + measurementError == 0.0 then None
    else
      var gain := KalmanGain(predictionError, measurementError);
      Some(KalmanEstimate(prediction + gain * (measurement - prediction),
                          (1.0 - gain) * predictionError))
  }

  /** The result of a step whose denominator is not zero, with the gain named. */
  lemma KalmanUnfold(estimate: real, estimateError: real, measurement: real,
                     measurementError: real, processVariance: real)
    requires estimateError + processVariance + measurementError != 0.0
    ensures KalmanFilter(estimate, estimateError, measurement, measurementError, processVariance)
         == Some(KalmanEstimate(
              estimate + KalmanGain(estimateError + processVariance, measurementError) * (measurement - estimate),
              (1.0 - KalmanGain(estimateError + processVariance, measurementError)) * (estimateError + processVariance)))
  {
  }

  /** The Kalman step is an inverse-variance blend: the new estimate times
      `p + m` is `m * estimate + p * measurement`, and the new error times
      `p + m` is `p * m`, where `p` is the prediction error and `m` the
      measurement error. */
  lemma KalmanClosedForm(estimate: real, estimateError: real, measurement: real,
                         measurementError: real, processVariance: real)
    requires estimateError >= 0.0 && processVariance > 0.0 && measurementError > 0.0
    ensures KalmanFilter(estimate, estimateError, measurement, measurementError, processVariance).Some?
    ensures var r := KalmanFilter(estimate, estimateError, measurement, measurementError, processVariance).value;
            r.estimate * (estimateError + processVariance + measurementError)
              == measurementError * estimate + (estimateError + processVariance) * measurement
    ensures var r := KalmanFilter(estimate, estimateError, measurement, measurementError, processVariance).value;
            r.error * (estimateError + processVariance + measurementError)
              == (estimateError + processVariance) * measurementError
  {
    KalmanUnfold(estimate, estimateError, measurement, measurementError, processVariance);
    KalmanGainBounds(estimateError + processVariance, measurementError);
    BlendClosedForm(estimate, measurement, KalmanGain(estimateError + processVariance, measurementError),
                    estimateError + processVariance, measurementError);
    ErrorClosedForm(KalmanGain(estimateError + processVariance, measurementError),
                    estimateError + processVariance, measurementError);
  }

  /** With a non-negative prior error and positive variances the new estimate
      lies between the prior estimate and the measurement, and strictly inside
      when the two differ. */
  lemma KalmanEstimateBetween(estimate: real, estimateError: real, measurement: real,
                              measurementError: real, processVariance: real)
    requires estimateError >= 0.0 && processVariance > 0.0 && measurementError > 0.0
    ensures KalmanFilter(estimate, estimateError, measurement, measurementError, processVariance).Some?
    ensures var r := KalmanFilter(estimate, estimateError, measurement, measurementError, processVariance).value;
            Between(estimate, measurement, r.estimate)
    ensures var r := KalmanFilter(estimate, estimateError, measurement, measurementError, processVariance).value;
            estimate != measurement ==> r.estimate != estimate && r.estimate != measurement
  {
    KalmanUnfold(estimate, estimateError, measurement, measurementError, processVariance);
    KalmanGainBounds(estimateError + processVariance, measurementError);
    Interpolate(estimate, measurement, KalmanGain(estimateError + processVariance, measurementError));
  }

  /** The new error equals `(1 - gain) * prediction_error` and, with a
      non-negative prior error and positive variances, is positive, strictly
      below the prediction error and strictly below the measurement error. */
  lemma KalmanErrorShrinks(estimate: real, estimateError: real, measurement: real,
                           measurementError: real, processVariance: real)
    requires estimateError >= 0.0 && processVariance > 0.0 && measurementError > 0.0
    ensures KalmanFilter(estimate, estimateError, measurement, measurementError, processVariance).Some?
    ensures var r := KalmanFilter(estimate, estimateError, measurement, measurementError, processVariance).value;
            r.error == (1.0 - KalmanGain(estimateError + processVariance, measurementError))
                       * (estimateError + processVariance)
    ensures var r := KalmanFilter(estimate, estimateError, measurement, measurementError, processVariance).value;
            0.0 < r.error < estimateError + processVariance && r.error < measurementError
  {
    KalmanUnfold(estimate, estimateError, measurement, measurementError, processVariance);
    KalmanGainBounds(estimateError + processVariance, measurementError);
    ErrorBounds(KalmanGain(estimateError + processVariance, measurementError),
                estimateError + processVariance, measurementError);
  }

  /** A measurement equal to the estimate leaves the estimate unchanged,
      whatever the gain. */
  lemma KalmanFixedPoint(estimate: real, estimateError: real,
                         measurementError: real, processVariance: real)
    requires estimateError + processVariance + measurementError != 0.0
    ensures KalmanFilter(estimate, estimateError, estimate, measurementError, processVariance).Some?
    ensures KalmanFilter(estimate, estimateError, estimate, measurementError, processVariance).value.estimate
         == estimate
  {
  }

  /** Repeated use of the Kalman step over a stream of measurements, each call
      fed the previous call's result. An empty stream leaves the state as it
      is; a single measurement is exactly one step. */
  function KalmanRun(estimate: real, estimateError: real, measurements: seq<real>,
                     measurementError: real, processVariance: real): (r: Option<KalmanEstimate>)
    decreases |measurements|
    ensures measurements == [] ==> r == Some(KalmanEstimate(estimate, estimateError))
    ensures |measurements| == 1 ==>
              r == KalmanFilter(estimate, estimateError, measurements[0], measurementError, processVariance)
  {
    if measurements == [] then Some(KalmanEstimate(estimate, estimateError))
    else
      match KalmanFilter(estimate, estimateError, measurements[0], measurementError, processVariance)
      case None => None
      case Some(next) => KalmanRun(next.estimate, next.error, measurements[1..], measurementError, processVariance)
  }

  /** Feeding the filter its own output keeps the error in (0, measurement
      error): after at least one step from a non-negative error, the error is
      positive and below the measurement error, so no step ever divides by zero. */
  lemma {:induction false} KalmanErrorInvariant(estimate: real, estimateError: real,
                                                measurements: seq<real>,
                                                measurementError: real, processVariance: real)
    requires estimateError >= 0.0 && processVariance > 0.0 && measurementError > 0.0
    decreases |measurements|
    ensures KalmanRun(estimate, estimateError, measurements, measurementError, processVariance).Some?
    ensures measurements != [] ==>
              0.0 < KalmanRun(estimate, estimateError, measurements, measurementError, processVariance).value.error
                  < measurementError
  {
    if measurements != [] {
      KalmanErrorShrinks(estimate, estimateError, measurements[0], measurementError, processVariance);
      var next := KalmanFilter(estimate, estimateError, measurements[0], measurementError, processVariance).value;
      KalmanErrorInvariant(next.estimate, next.error, measurements[1..], measurementError, processVariance);
    }
  }

  /** Running over a stream and then one more measurement is the run over the
      longer stream: the stream is consumed in order, one step per sample. */
  lemma {:induction false} KalmanRunAppend(estimate: real, estimateError: real,
                                           measurements: seq<real>, measurement: real,
                                           measurementError: real, processVariance: real)
    decreases |measurements|
    ensures KalmanRun(estimate, estimateError, measurements + [measurement],
                      measurementError, processVariance)
         == match KalmanRun(estimate, estimateError, measurements, measurementError, processVariance)
            case None => None
            case Some(last) => KalmanFilter(last.estimate, last.error, measurement,
                                            measurementError, processVariance)
  {
    if measurements != [] {
      assert (measurements + [measurement])[0] == measurements[0];
      assert (measurements + [measurement])[1..] == measurements[1..] + [measurement];
      match KalmanFilter(estimate, estimateError, measurements[0], measurementError, processVariance)
      case None =>
      case Some(next) =>
        KalmanRunAppend(next.estimate, next.error, measurements[1..], measurement,
                        measurementError, processVariance);
    }
  }

  // ---------------------------------------------------------------------------
  // Velocity clamp
  // ---------------------------------------------------------------------------

  /** `distance` is the Euclidean length of the move from (oldX, oldY) to
      (newX, newY): the square root the source computes. */
  predicate IsLength(newX: real, newY: real, oldX: real, oldY: real, distance: real)
  {
    distance >= 0.0 &&
    distance * distance == (newX - oldX) * (newX - oldX) + (newY - oldY) * (newY - oldY)
  }

  /** Limit the move from (oldX, oldY) to (newX, newY) to length `maxVelocity`
      by scaling the move down when it is longer. */
  function ApplyVelocityLimit(newX: real, newY: real, oldX: real, oldY: real,
                              maxVelocity: real, distance: real): (r: Point)
    requires IsLength(newX, newY, oldX, oldY, distance)
    ensures distance <= maxVelocity ==> r == Point(newX, newY)
    ensures distance == 0.0 ==> r == Point(newX, newY)
  {
    var dx := newX - oldX;
    var dy := newY - oldY;
    if distance > maxVelocity && distance > 0.0 then
      var scale := maxVelocity / distance;
      Point(oldX + dx * scale, oldY + dy * scale)
    else
      Point(newX, newY)
  }

  /** The clamped point of a move longer than the limit, with the scale named. */
  lemma VelocityLimitUnfold(newX: real, newY: real, oldX: real, oldY: real,
                            maxVelocity: real, distance: real)
    requires IsLength(newX, newY, oldX, oldY, distance)
    requires distance > maxVelocity && distance > 0.0
    ensures ApplyVelocityLimit(newX, newY, oldX, oldY, maxVelocity, distance)
         == Point(oldX + (newX - oldX) * (maxVelocity / distance),
                  oldY + (newY - oldY) * (maxVelocity / distance))
  {
  }

  /** When the move is longer than a non-negative limit, the clamped point is at
      distance exactly `maxVelocity` from the old point. */
  lemma VelocityLimitLength(newX: real, newY: real, oldX: real, oldY: real,
                            maxVelocity: real, distance: real)
    requires IsLength(newX, newY, oldX, oldY, distance)
    requires maxVelocity >= 0.0 && distance > maxVelocity
    ensures var r := ApplyVelocityLimit(newX, newY, oldX, oldY, maxVelocity, distance);
            (r.x - oldX) * (r.x - oldX) + (r.y - oldY) * (r.y - oldY) == maxVelocity * maxVelocity
  {
    VelocityLimitUnfold(newX, newY, oldX, oldY, maxVelocity, distance);
    DivMul(maxVelocity, distance);
    var r := ApplyVelocityLimit(newX, newY, oldX, oldY, maxVelocity, distance);
    ScaledLength(newX - oldX, newY - oldY, maxVelocity / distance, distance, maxVelocity,
                 r.x - oldX, r.y - oldY);
  }

  /** When the move is longer than a non-negative limit, the clamped move lies on
      the line of the requested move and points the same way. */
  lemma VelocityLimitDirection(newX: real, newY: real, oldX: real, oldY: real,
                               maxVelocity: real, distance: real)
    requires IsLength(newX, newY, oldX, oldY, distance)
    requires maxVelocity >= 0.0 && distance > maxVelocity
    ensures var r := ApplyVelocityLimit(newX, newY, oldX, oldY, maxVelocity, distance);
            (r.x - oldX) * (newY - oldY) == (r.y - oldY) * (newX - oldX)
    ensures var r := ApplyVelocityLimit(newX, newY, oldX, oldY, maxVelocity, distance);
            (r.x - oldX) * (newX - oldX) + (r.y - oldY) * (newY - oldY) >= 0.0
  {
    VelocityLimitUnfold(newX, newY, oldX, oldY, maxVelocity, distance);
    Quotient(maxVelocity, distance);
    var r := ApplyVelocityLimit(newX, newY, oldX, oldY, maxVelocity, distance);
    ScaledCollinear(newX - oldX, newY - oldY, maxVelocity / distance, r.x - oldX, r.y - oldY);
    ScaledForward(newX - oldX, newY - oldY, maxVelocity / distance, r.x - oldX, r.y - oldY);
  }

  /** When the move is longer than a non-negative limit, each coordinate of the
      clamped point lies between the old and the new coordinate. */
  lemma VelocityLimitOnSegment(newX: real, newY: real, oldX: real, oldY: real,
                               maxVelocity: real, distance: real)
    requires IsLength(newX, newY, oldX, oldY, distance)
    requires maxVelocity >= 0.0 && distance > maxVelocity
    ensures var r := ApplyVelocityLimit(newX, newY, oldX, oldY, maxVelocity, distance);
            Between(oldX, newX, r.x) && Between(oldY, newY, r.y)
  {
    VelocityLimitUnfold(newX, newY, oldX, oldY, maxVelocity, distance);
    Quotient(maxVelocity, distance);
    var r := ApplyVelocityLimit(newX, newY, oldX, oldY, maxVelocity, distance);
    ScaledAxis(oldX, newX, maxVelocity / distance, r.x);
    ScaledAxis(oldY, newY, maxVelocity / distance, r.y);
  }

  /** The move (dx, dy) of length `d`, scaled by `s` with `s * d == v`, has
      length `v`. */
  lemma ScaledLength(dx: real, dy: real, s: real, d: real, v: real, ux: real, uy: real)
    requires d * d == dx * dx + dy * dy && s * d == v
    requires ux == dx * s && uy == dy * s
    ensures ux * ux + uy * uy == v * v
  {
    assert ux * ux + uy * uy == (s * s) * (dx * dx + dy * dy);
    assert (s * s) * (dx * dx + dy * dy) == (s * d) * (s * d);
  }

  /** A scaled move lies on the line of the move. */
  lemma ScaledCollinear(dx: real, dy: real, s: real, ux: real, uy: real)
    requires ux == dx * s && uy == dy * s
    ensures ux * dy == uy * dx
  {
  }

  /** A move scaled by `s >= 0` does not point backwards. */
  lemma ScaledForward(dx: real, dy: real, s: real, ux: real, uy: real)
    requires s >= 0.0 && ux == dx * s && uy == dy * s
    ensures ux * dx + uy * dy >= 0.0
  {
    assert ux * dx + uy * dy == s * (dx * dx + dy * dy);
    ProductSign(dx, dx);
    ProductSign(dy, dy);
    ProductSign(s, dx * dx + dy * dy);
  }

  /** One coordinate moved a fraction `0 <= s <= 1` of the way to `n` stays
      between `o` and `n`. */
  lemma ScaledAxis(o: real, n: real, s: real, p: real)
    requires 0.0 <= s <= 1.0 && p == o + (n - o) * s
    ensures Between(o, n, p)
  {
    MulComm(n - o, s);
    Interpolate(o, n, s);
  }

  /** With a non-negative limit the result is never farther than `maxVelocity`
      from the old point. */
  lemma VelocityLimitBound(newX: real, newY: real, oldX: real, oldY: real,
                           maxVelocity: real, distance: real)
    requires IsLength(newX, newY, oldX, oldY, distance)
    requires maxVelocity >= 0.0
    ensures var r := ApplyVelocityLimit(newX, newY, oldX, oldY, maxVelocity, distance);
            (r.x - oldX) * (r.x - oldX) + (r.y - oldY) * (r.y - oldY) <= maxVelocity * maxVelocity
  {
    if distance > maxVelocity {
      VelocityLimitLength(newX, newY, oldX, oldY, maxVelocity, distance);
    } else {
      var r := ApplyVelocityLimit(newX, newY, oldX, oldY, maxVelocity, distance);
      SquareEq(r.x - oldX, newX - oldX);
      SquareEq(r.y - oldY, newY - oldY);
      SquareMono(distance, maxVelocity);
    }
  }

  // ---------------------------------------------------------------------------
  // Deadzone
  // ---------------------------------------------------------------------------

  /** Hold the old point when both axis deltas are below `deadzone`. */
  function ApplyDeadzone(newX: real, newY: real, oldX: real, oldY: real, deadzone: real): (r: Point)
    ensures r == Point(oldX, oldY) || r == Point(newX, newY)
  {
    var dx := Abs(newX - oldX);
    var dy := Abs(newY - oldY);
    if dx < deadzone && dy < deadzone then Point(oldX, oldY) else Point(newX, newY)
  }

  /** The deadzone selects the whole old point exactly when both deltas lie
      strictly inside (-deadzone, deadzone), and the whole new point otherwise. */
  lemma DeadzoneSelects(newX: real, newY: real, oldX: real, oldY: real, deadzone: real)
    ensures -deadzone < newX - oldX < deadzone && -deadzone < newY - oldY < deadzone ==>
              ApplyDeadzone(newX, newY, oldX, oldY, deadzone) == Point(oldX, oldY)
    ensures !(-deadzone < newX - oldX < deadzone && -deadzone < newY - oldY < deadzone) ==>
              ApplyDeadzone(newX, newY, oldX, oldY, deadzone) == Point(newX, newY)
  {
  }

  /** The output either stays put or moves by at least `deadzone` on some axis:
      no sub-threshold move gets through. Applying the deadzone to its own output
      changes nothing. */
  lemma DeadzoneNoSmallMoves(newX: real, newY: real, oldX: real, oldY: real, deadzone: real)
    ensures var r := ApplyDeadzone(newX, newY, oldX, oldY, deadzone);
            r == Point(oldX, oldY) || Abs(r.x - oldX) >= deadzone || Abs(r.y - oldY) >= deadzone
    ensures var r := ApplyDeadzone(newX, newY, oldX, oldY, deadzone);
            ApplyDeadzone(r.x, r.y, oldX, oldY, deadzone) == r
  {
  }

  // ---------------------------------------------------------------------------
  // Adaptive smoothing gain
  // ---------------------------------------------------------------------------

  /** A slow hand (velocity below the threshold) gets half the base gain, floored
      at 0.1; a moving hand gets the base gain. */
  function AdaptiveSmoothingFactor(velocity: real, baseFactor: real, threshold: real): (g: real)
    ensures velocity >= threshold ==> g == baseFactor
    ensures velocity < threshold ==> 0.1 <= g <= MaxOf(0.1, baseFactor)
    ensures velocity < threshold ==> g >= baseFactor * 0.5 && (g == 0.1 || g == baseFactor * 0.5)
  {
    if velocity < threshold then MaxOf(0.1, baseFactor * 0.5) else baseFactor
  }

  /** For a base gain of at least 0.1 the gain never decreases as the velocity
      grows: a still hand is smoothed at least as heavily as a moving one. */
  lemma AdaptiveMonotone(v1: real, v2: real, baseFactor: real, threshold: real)
    requires baseFactor >= 0.1 && v1 <= v2
    ensures AdaptiveSmoothingFactor(v1, baseFactor, threshold)
         <= AdaptiveSmoothingFactor(v2, baseFactor, threshold)
  {
  }
}
