/** The tuning defaults of the pointer pipeline, and what the filter steps
    guarantee when they are run with them. */
module Config {
  import opened SmoothingUtils

  /** Base gain of the exponential smoothing step. */
  const SmoothingFactor: real := 0.3
  const KalmanProcessVariance: real := 0.01
  const KalmanMeasurementVariance: real := 0.1
  /** Pixels below which a move is ignored. */
  const DeadzonePixels: real := 3.0
  /** Largest move, in pixels per frame. */
  const MaxVelocity: real := 80.0
  /** Velocity, in pixels per frame, below which the gain is halved. */
  const VelocityThresholdForAdaptive: real := 20.0

  /** With the default variances the Kalman filter can be fed any stream of
      measurements from a non-negative starting error: no step divides by zero,
      and after the first step the error stays inside (0, 0.1). */
  lemma DefaultKalmanStable(estimate: real, estimateError: real, measurements: seq<real>)
    requires estimateError >= 0.0
    ensures KalmanRun(estimate, estimateError, measurements,
                      KalmanMeasurementVariance, KalmanProcessVariance).Some?
    ensures measurements != [] ==>
              0.0 < KalmanRun(estimate, estimateError, measurements,
                              KalmanMeasurementVariance, KalmanProcessVariance).value.error
                  < KalmanMeasurementVariance
  {
    KalmanErrorInvariant(estimate, estimateError, measurements,
                         KalmanMeasurementVariance, KalmanProcessVariance);
  }

  /** With the default base gain and threshold the 0.1 floor never applies: a
      slow hand gets 0.15, a moving one 0.3. */
  lemma DefaultAdaptiveGain(velocity: real)
    ensures velocity < VelocityThresholdForAdaptive ==>
              AdaptiveSmoothingFactor(velocity, SmoothingFactor, VelocityThresholdForAdaptive) == 0.15
    ensures velocity >= VelocityThresholdForAdaptive ==>
              AdaptiveSmoothingFactor(velocity, SmoothingFactor, VelocityThresholdForAdaptive) == 0.3
  {
  }

  /** With the default limit of 80 pixels per frame no output is farther than
      80 pixels from the previous point. */
  lemma DefaultVelocityLimitBound(newX: real, newY: real, oldX: real, oldY: real, distance: real)
    requires IsLength(newX, newY, oldX, oldY, distance)
    ensures var r := ApplyVelocityLimit(newX, newY, oldX, oldY, MaxVelocity, distance);
            (r.x - oldX) * (r.x - oldX) + (r.y - oldY) * (r.y - oldY) <= 6400.0
  {
    VelocityLimitBound(newX, newY, oldX, oldY, MaxVelocity, distance);
  }

  /** With the default deadzone of 3 pixels the pointer holds still exactly when
      both deltas are under 3 pixels in size. */
  lemma DefaultDeadzone(newX: real, newY: real, oldX: real, oldY: real)
    ensures -3.0 < newX - oldX < 3.0 && -3.0 < newY - oldY < 3.0 ==>
              ApplyDeadzone(newX, newY, oldX, oldY, DeadzonePixels) == Point(oldX, oldY)
    ensures !(-3.0 < newX - oldX < 3.0 && -3.0 < newY - oldY < 3.0) ==>
              ApplyDeadzone(newX, newY, oldX, oldY, DeadzonePixels) == Point(newX, newY)
  {
    DeadzoneSelects(newX, newY, oldX, oldY, DeadzonePixels);
  }
}
