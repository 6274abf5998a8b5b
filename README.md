# Pointer smoothing steps of Visual-Controller

Visual-Controller moves the mouse pointer from a webcam image of a hand. The
fingertip position is noisy from frame to frame, so each new sample passes
through a small library of stabilisation steps in `smoothing_utils.py`:

- a **moving average** that appends the sample to a history buffer and returns
  the buffer's mean;
- a **one-dimensional Kalman update** that predicts, then corrects, an estimate
  and its error variance;
- a **velocity clamp** that shortens any move longer than a maximum length;
- a **deadzone** that holds the pointer still when both axis deltas are small;
- an **adaptive smoothing gain** that halves the gain, with a floor of 0.1,
  while the hand is slow.

This project models those five steps in Dafny and proves what they guarantee.

- `real_arith.dfy` (module `RealArith`) holds `abs`, `min`, `max` and an
  interval predicate. It also holds small sign and ordering facts about products
  and quotients over plain variables, which the filter proofs use.
- `smoothing_utils.dfy` (module `SmoothingUtils`) holds the five steps.
  - The moving average's buffer is mutated in place in the source. Here it is
    the class `PositionBuffer`, whose `values` field the method
    `MovingAverageFilter` appends to. Python's `sum` is the loop method `SumOf`,
    proved against the specification function `Sum`.
  - The other four steps are pure in the source and are functions here, each
    with lemmas.
  - The Kalman step divides by `prediction_error + measurement_error`. When that
    is zero Python raises `ZeroDivisionError`. Here that case is the result
    `None` of an `Option`.
  - `KalmanRun` models repeated use of the step, each call fed the previous
    call's result. None of the files modelled here calls `kalman_filter`; how a
    caller threads the state from frame to frame is not modelled.
- `config.dfy` (module `Config`) holds the defaults from `config.py`. It states
  what the Kalman step, the velocity clamp, the deadzone and the adaptive gain
  do with them.

All arithmetic is exact arithmetic over `real`. The velocity clamp's
`np.sqrt(dx**2 + dy**2)` becomes a `distance` argument. Its precondition
`IsLength` says that `distance >= 0` and that `distance * distance` is
`dx * dx + dy * dy`.

## Model

| member | source | states |
|---|---|---|
| SmoothingUtils.SumOf | smoothing_utils.py:7 | the running total over the buffer equals the sum of its elements |
| SmoothingUtils.PositionBuffer.MovingAverageFilter | smoothing_utils.py:4-7 | the buffer becomes the old contents followed by the new value, so it is non-empty and the division is defined; the result is the buffer's sum divided by its length; it lies between the buffer's minimum and maximum; a buffer holding one repeated value returns that value |
| SmoothingUtils.MinMaxBound | smoothing_utils.py:6-7 | every buffer element lies between the minimum and the maximum |
| SmoothingUtils.MinMaxAttained | smoothing_utils.py:6-7 | the minimum and the maximum are elements of the buffer |
| SmoothingUtils.SumAtLeastMin | smoothing_utils.py:7 | the sum is at least length times minimum |
| SmoothingUtils.SumAtMostMax | smoothing_utils.py:7 | the sum is at most length times maximum |
| SmoothingUtils.MeanBounds | smoothing_utils.py:7 | sum divided by length lies between the minimum and the maximum |
| SmoothingUtils.MeanOfConstant | smoothing_utils.py:7 | a buffer of one repeated value has exactly that mean |
| SmoothingUtils.KalmanGainBounds | smoothing_utils.py:16 | with both variances positive the gain is strictly between 0 and 1; the gain times (p + m) is p, and one minus the gain times (p + m) is m |
| SmoothingUtils.KalmanFilter | smoothing_utils.py:9-20 | the step fails, as a division by zero, exactly when estimate error + process variance + measurement error is zero |
| SmoothingUtils.KalmanClosedForm | smoothing_utils.py:12-18 | the step is an inverse-variance blend: new estimate times (p + m) is m * estimate + p * measurement, and new error times (p + m) is p * m |
| SmoothingUtils.KalmanEstimateBetween | smoothing_utils.py:12-17 | with a non-negative prior error and positive variances the step succeeds; the new estimate lies between estimate and measurement, and differs from both when they differ |
| SmoothingUtils.KalmanErrorShrinks | smoothing_utils.py:13-18 | the new error is (1 - gain) * prediction error; it is positive, below the prediction error and below the measurement error |
| SmoothingUtils.KalmanFixedPoint | smoothing_utils.py:17 | a measurement equal to the estimate leaves the estimate unchanged, whatever the gain |
| SmoothingUtils.KalmanRun | smoothing_utils.py:9-20 | repeated steps, each fed the previous result: an empty stream leaves the state unchanged, and one measurement is exactly one step |
| SmoothingUtils.KalmanRunAppend | smoothing_utils.py:9-20 | a run over a stream followed by one more measurement is one more step applied to the run's result, and a failed run stays failed |
| SmoothingUtils.KalmanErrorInvariant | smoothing_utils.py:9-20 | feeding the step's output back in never divides by zero; after one step the error stays in (0, measurement error) |
| SmoothingUtils.ApplyVelocityLimit | smoothing_utils.py:22-35 | a move no longer than the limit, or a move of length zero, is returned unchanged |
| SmoothingUtils.VelocityLimitLength | smoothing_utils.py:28-33 | a move longer than a non-negative limit is shortened to length exactly the limit |
| SmoothingUtils.VelocityLimitDirection | smoothing_utils.py:28-33 | the shortened move lies on the line of the requested move and points the same way |
| SmoothingUtils.VelocityLimitOnSegment | smoothing_utils.py:28-33 | each coordinate of the shortened point lies between the old and the new coordinate |
| SmoothingUtils.VelocityLimitBound | smoothing_utils.py:22-35 | with a non-negative limit the result is never farther than the limit from the old point |
| SmoothingUtils.ApplyDeadzone | smoothing_utils.py:37-44 | the result is the whole old point or the whole new point, never one axis from each |
| SmoothingUtils.DeadzoneSelects | smoothing_utils.py:39-44 | the old point is returned if and only if both deltas lie strictly inside (-deadzone, deadzone); otherwise the new point |
| SmoothingUtils.DeadzoneNoSmallMoves | smoothing_utils.py:39-44 | the result either stays put or moves by at least the deadzone on some axis; applying the deadzone again to its result changes nothing |
| SmoothingUtils.AdaptiveSmoothingFactor | smoothing_utils.py:46-53 | at or above the threshold the gain is the base gain; below it the gain is 0.1 or half the base gain, at least both, and never above max(0.1, base gain) |
| SmoothingUtils.AdaptiveMonotone | smoothing_utils.py:48-53 | for a base gain of at least 0.1 the gain never decreases as the velocity grows |
| Config.DefaultKalmanStable | config.py:9-10 | with the default variances 0.01 and 0.1 the Kalman step can be fed any measurements without dividing by zero, and its error stays in (0, 0.1) |
| Config.DefaultVelocityLimitBound | config.py:16 | with the default limit of 80 the output is never more than 80 pixels from the previous point |
| Config.DefaultDeadzone | config.py:13 | with the default deadzone of 3 the pointer holds still exactly when both deltas are strictly between -3 and 3 |
| Config.DefaultAdaptiveGain | config.py:2-20 | with base gain 0.3 and threshold 20 the gain is 0.15 below the threshold and 0.3 otherwise |

## Left out

- IEEE-754 floating point. All arithmetic is exact over `real`, so rounding, `inf` and `nan` are not modelled.
- `np.sqrt` is not defined. The distance is a parameter constrained by `IsLength`.
- PositionBuffer.MovingAverageFilter: the buffer only grows. Eviction and a capacity bound, as a capped deque would add, are not modelled: the buffer's concrete type is created outside `smoothing_utils.py`, and the default size of 5 in `config.py` is not used by this code.
- VelocityLimitLength, VelocityLimitDirection, VelocityLimitOnSegment and VelocityLimitBound are stated only for a non-negative `max_velocity`. `ApplyVelocityLimit` itself keeps the source's behaviour for a negative limit, where the scale is negative: the move is reversed and given length `|max_velocity|`. For example, on one axis from 0 to 10 with limit -5 the result is -5.
- AdaptiveMonotone is stated only for a base gain of at least 0.1. Below that, the slow-hand gain of 0.1 exceeds the base gain.
- Who computes the per-frame velocity passed to the adaptive gain is not part of this model. The same holds for which filters run in which order.
- The remaining files are not part of this model:
  - drawing overlays onto camera frames with OpenCV (`ui_utils.py`);
  - MediaPipe hand tracking (`gesture_recognizer.py`);
  - the capture and display loop (`main.py`);
  - the `pyautogui` calls (`computer_controller.py`).
  They are device I/O or calls into libraries whose code is not visible.
- The gesture classifier, the click and scroll state machine and the exponential smoothing step do not appear in `smoothing_utils.py`, so they are not modelled.
