# CATS flight computer: state estimation, preprocessing and actions

This project models the estimation core of the CATS rocket flight computer,
together with the preprocessing that feeds it and the actions that events trigger:

- **Matrix kernel of the rev1 board** (`math_utils.c`). `transpose`,
  `cofactor`, `determinant` (Laplace expansion along the first row), `adjoint`
  and the damped `inverse` work in place on square arrays. The Dafny methods
  keep the arrays. Each is proved against a value-level definition in module
  `Matrices`. For the 1-, 2- and 3-dimensional matrices the filter uses, the
  kernel's inverse is proved to be a true two-sided inverse. It reports a
  singular matrix exactly when the determinant is zero.
- **Kalman filter of the rev1 board**. `initialize_matrices` builds the
  constant-acceleration model from the sampling time. `kalman_step` predicts
  with the mean of three accelerations and corrects with three barometer
  heights. When the innovation covariance is singular, it rolls the gain back.
  The filter struct is a class whose fields the methods update.
- **Kalman filter of the rev1Pro board**. It has a scalar barometer update and
  row-major storage of every matrix. The noise schedule `R_interpolation`
  depends on the flight phase. There are two resets (`reset_kalman`,
  `thrust_reset_kalman`). The `kalman_step` of this board skips the prediction
  while the accelerometers are out and skips the update while the barometers
  are out. The two filter error flags are boolean parameters.
- **Preprocessing task** (`task_preprocessing.c`):
  - `avg_and_to_SI` averages the usable IMUs, the high-G accelerometer,
    barometers and magnetometers.
  - The ring buffer of `median_filter`.
  - The axis selection of `transform_data`.
  - Calibration on the edge into READY.
  - One pass of the task loop.
- **Action table** (`actions.c`): the order of its 17 entries, the argument
  guards of the output functions, and `set_recorder_state`. That function sends
  recorder commands to a bounded queue.

Reals stand in for `float`. Module `FlightPhases` holds the flight phases the
core distinguishes.

## Model

| member | source | states |
|---|---|---|
| Matrices.TransposeInvolution | boards/cats_rev1/Core/Src/control/math_utils.c:10-16 | transposing twice gives back the matrix |
| Matrices.Det3 | boards/cats_rev1/Core/Src/control/math_utils.c:47-68 | the recursive first-row expansion of a 3-by-3 matrix equals the closed six-term determinant formula |
| Matrices.DampedZero | boards/cats_rev1/Core/Src/control/math_utils.c:103-109 | damping with lambda = 0 leaves the matrix as it is |
| Matrices.Adjugate | boards/cats_rev1/Core/Src/control/math_utils.c:72-96 | for dimensions 1 to 3, A adj(A) = adj(A) A = det(A) I |
| Matrices.InverseCorrect | boards/cats_rev1/Core/Src/control/math_utils.c:101-130 | the undamped inverse reports a singular matrix exactly when det(A) = 0; otherwise A inv = inv A = I |
| MathUtils.Transpose | boards/cats_rev1/Core/Src/control/math_utils.c:10-16 | the array AT holds the transpose of A |
| MathUtils.Cofactor | boards/cats_rev1/Core/Src/control/math_utils.c:21-42 | the leading (n-1)-block of temp is the minor of A without row p and column q; every other entry of temp is unchanged |
| MathUtils.Determinant | boards/cats_rev1/Core/Src/control/math_utils.c:47-68 | the result is the determinant of the leading n-block of A |
| MathUtils.Adjoint | boards/cats_rev1/Core/Src/control/math_utils.c:72-96 | adj holds the transposed signed cofactor matrix of A (the 1-by-1 identity when dim = 1) |
| MathUtils.Inverse | boards/cats_rev1/Core/Src/control/math_utils.c:101-130 | CATS_OK exactly when det(A + lambda^2 I) is nonzero. Then A_inv holds adj/det of the damped matrix; on CATS_FILTER_ERROR A_inv is unchanged |
| KalmanRev1.KalmanFilter.InitializeMatrices | boards/cats_rev1/Core/Src/control/kalman_filter.c:12-64 | the transition of a constant-acceleration model and its transpose; input gains (t^2/2, t, 0); Q = 1 with Q Gd Gd^T; zero states; covariances 1e-5 I; H rows (1,0,0) and their transposes; R = 0.1 I |
| KalmanRev1.KalmanFilter.KalmanStep | boards/cats_rev1/Core/Src/control/kalman_filter.c:66-213 | x_hat, P_hat are the prediction from the mean acceleration. osOK exactly when the innovation covariance is invertible, and then K, x_bar and P_bar are the gain and the corrected estimate. On osError, K, x_bar and P_bar keep their old values |
| KalmanRev1.PredictionIntegratesMotion | boards/cats_rev1/Core/Src/control/kalman_filter.c:13-17 | one prediction moves the height by t v + t^2/2 (a + u) and the velocity by t (a + u); the acceleration is kept |
| KalmanRev1.BarometersReadHeight | boards/cats_rev1/Core/Src/control/kalman_filter.c:21 | each of the three barometer rows of H_full reads the height |
| KalmanRev1.ZeroInnovationKeepsPrediction | boards/cats_rev1/Core/Src/control/kalman_filter.c:166-178 | when the measurements equal H x_hat, the correction returns x_hat for any gain |
| KalmanRev1.GainSolvesInnovation | boards/cats_rev1/Core/Src/control/kalman_filter.c:123-158 | the gain exists exactly when det(S) is nonzero, and then K S = P_hat H^T |
| KalmanRev1.NoiseGainSymmetric | boards/cats_rev1/Core/Src/control/kalman_filter.c:31-40 | Q Gd Gd^T is symmetric |
| KalmanRev1.PredictionKeepsSymmetry | boards/cats_rev1/Core/Src/control/kalman_filter.c:94-109 | Ad P Ad^T + GQG is symmetric when P and GQG are symmetric and Ad_T is the transpose of Ad |
| KalmanRev1Pro.KalmanFilter.InitializeMatrices | boards/cats_rev1Pro/src/control/kalman_filter.c:40-124 | Ad is the constant-acceleration transition, and Ad_T its transpose. Bd = (t^2/2, t, 0). GdQGd_T is Gd diag(0.004, 1e-6) Gd^T. H = H_T = (1,0,0). K, x_bar, x_hat are zero; P_bar = P_hat = 0.1 I; R = 900000. All the invariants of a consistent filter hold |
| KalmanRev1Pro.KalmanFilter.ResetKalman | boards/cats_rev1Pro/src/control/kalman_filter.c:126-135 | x_bar becomes zero and P_bar becomes 0.1 I |
| KalmanRev1Pro.KalmanFilter.ThrustResetKalman | boards/cats_rev1Pro/src/control/kalman_filter.c:137-155 | both states become zero. Both covariances become 0.1 for height and velocity with no correlations, and the old acceleration variance is kept |
| KalmanRev1Pro.KalmanFilter.KalmanPrediction | boards/cats_rev1Pro/src/control/kalman_filter.c:159-191 | x_hat = Ad x_bar + Bd a and P_hat = Ad P_bar Ad_T + GdQGd_T |
| KalmanRev1Pro.KalmanFilter.KalmanUpdate | boards/cats_rev1Pro/src/control/kalman_filter.c:194-240 | K = P_hat H_T / S with S = H P_hat H_T + R; x_bar = x_hat + K (y - H x_hat); P_bar = (I - K H) P_hat |
| KalmanRev1Pro.KalmanFilter.KalmanStep | boards/cats_rev1Pro/src/control/kalman_filter.c:265-304 | R follows the phase schedule, and THRUSTING_1 resets the estimate first. x_hat, P_hat are the prediction, or copies while the accelerometers are out. Without a height error, K, x_bar, P_bar are the measurement update, and with one they are copies of the prior. Symmetric covariances, Ad_T = Ad^T, H_T = H and R > 0 are kept |
| KalmanRev1Pro.RInterpolation | boards/cats_rev1Pro/src/control/kalman_filter.c:242-261 | the factor lies between 0.1^5 and 1 |
| KalmanRev1Pro.RInterpolationContinuous | boards/cats_rev1Pro/src/control/kalman_filter.c:249-259 | the line meets 0.1 at 20 m/s and 1 at 100 m/s, so the schedule has no jump |
| KalmanRev1Pro.RInterpolationMonotone | boards/cats_rev1Pro/src/control/kalman_filter.c:242-261 | a higher velocity never gives a smaller factor |
| KalmanRev1Pro.LinePositive | boards/cats_rev1Pro/src/control/kalman_filter.c:249-255 | on [20, 100) the line lies in [0.1, 1) and its fifth power in [0.1^5, 1] |
| KalmanRev1Pro.Pow5Monotone | boards/cats_rev1Pro/src/control/kalman_filter.c:252-255 | the fifth power is monotone on the non-negative reals |
| KalmanRev1Pro.ScheduledNoisePositive | boards/cats_rev1Pro/src/control/kalman_filter.c:268-284 | every phase keeps the barometer noise R positive |
| KalmanRev1Pro.ModelIsConsistent | boards/cats_rev1Pro/src/control/kalman_filter.c:44-89 | for every sampling time the stored Ad_T is the transpose of Ad, and the stored GdQGd_T is symmetric |
| KalmanRev1Pro.NoiseCovarianceSymmetric | boards/cats_rev1Pro/src/control/kalman_filter.c:76-89 | Gd Q Gd^T is symmetric |
| KalmanRev1Pro.NoiseCovarianceEntry | boards/cats_rev1Pro/src/control/kalman_filter.c:76-89 | entry (i, j) of Gd Q Gd^T is 0.004 Gd[i][0] Gd[j][0] + 1e-6 Gd[i][1] Gd[j][1] |
| KalmanRev1Pro.PredictionKeepsSymmetry | boards/cats_rev1Pro/src/control/kalman_filter.c:186-188 | in row-major storage, the predicted covariance is symmetric when P_bar and GdQGd_T are symmetric and Ad_T is the transpose of Ad |
| KalmanRev1Pro.UpdateKeepsSymmetry | boards/cats_rev1Pro/src/control/kalman_filter.c:227-239 | with H_T = H, (I - K H) P is symmetric when P is |
| KalmanRev1Pro.UpdateKeepsFlatSymmetry | boards/cats_rev1Pro/src/control/kalman_filter.c:194-240 | in row-major storage, the measurement update keeps a symmetric P_hat symmetric in P_bar |
| KalmanRev1Pro.GainSolvesInnovation | boards/cats_rev1Pro/src/control/kalman_filter.c:211-216 | the scalar gain solves K S = P H_T entry by entry |
| KalmanRev1Pro.ZeroInnovationKeepsPrediction | boards/cats_rev1Pro/src/control/kalman_filter.c:220-222 | when the barometer reads H x_hat, the update keeps x_hat for any gain |
| KalmanRev1Pro.SymmetricFlatMeans | boards/cats_rev1Pro/src/control/kalman_filter.c:91-110 | the three row-major equalities hold exactly when the stored 3-by-3 matrix is symmetric |
| KalmanRev1Pro.TransposedFlatMeans | boards/cats_rev1Pro/src/control/kalman_filter.c:44-51 | the nine row-major equalities hold exactly when the second matrix is the transpose of the first |
| Preprocessing.AveragedFrom | boards/cats_rev1Pro/src/tasks/task_preprocessing.c:91-194 | the acceleration error is raised exactly when no IMU and no high-G accelerometer is usable, and then the old acceleration and rate are kept. The height error is raised exactly when no barometer is usable, and then the old pressure is kept. With no usable magnetometer, the old field is kept |
| Preprocessing.AvgAndToSI | boards/cats_rev1Pro/src/tasks/task_preprocessing.c:91-194 | the loops compute the corrected average, with the high-G fallback reading the high-G accelerometer |
| Preprocessing.HighGOnlyWithoutImus | boards/cats_rev1Pro/src/tasks/task_preprocessing.c:119-128 | while any IMU is usable, the high-G readings have no effect on the average |
| Preprocessing.AsWrittenDiffersOnlyWithoutImus | boards/cats_rev1Pro/src/tasks/task_preprocessing.c:119-128 | the average as written differs from the corrected one only when every IMU is eliminated |
| Preprocessing.AgreeingImusGiveTheirReading | boards/cats_rev1Pro/src/tasks/task_preprocessing.c:104-145 | when every usable IMU reads the same acceleration v, the average is v |
| Preprocessing.HighGFallbackGivesAccelerometerReading | boards/cats_rev1Pro/src/tasks/task_preprocessing.c:117-145 | with every IMU out and agreeing high-G accelerometers, the acceleration is their reading, the rate is zero and there is no acceleration error |
| Preprocessing.AgreeingBarometersGiveTheirReading | boards/cats_rev1Pro/src/tasks/task_preprocessing.c:149-165 | when every usable barometer reads p, the pressure is p and the height error is cleared |
| Preprocessing.HighGFallbackReadsEliminatedImu | boards/cats_rev1Pro/src/tasks/task_preprocessing.c:117-128 | on a concrete input, the code as written reports the eliminated IMU's acceleration where the high-G accelerometer reads otherwise |
| Preprocessing.NextSlot | boards/cats_rev1Pro/src/tasks/task_preprocessing.c:203-204 | incrementing the index and reducing it modulo the size follows the sample count modulo the size |
| Preprocessing.WindowAfterWrite | boards/cats_rev1Pro/src/tasks/task_preprocessing.c:199-204 | after writing at the next slot, every buffer slot holds the last sample written to it |
| Preprocessing.MedianFilter.Filter | boards/cats_rev1Pro/src/tasks/task_preprocessing.c:196-210 | both inputs are written at the old index, the index advances modulo the size, and the output is the median of each buffer. The buffers always hold the last samples at their slots |
| Preprocessing.AccelerationZ | boards/cats_rev1Pro/src/tasks/task_preprocessing.c:213-232 | for axis 0, 1 or 2, the result plus gravity is that component divided by the angle; for any other axis the previous value stays |
| Preprocessing.AtRestReadsZero | boards/cats_rev1Pro/src/tasks/task_preprocessing.c:213-232 | a board at rest, reading gravity times the tilt factor, gives acceleration 0 |
| Preprocessing.HoldingReadyCalibratesOnce | boards/cats_rev1Pro/src/tasks/task_preprocessing.c:67-70 | holding READY for any number of ticks calibrates once, on entry, and never if READY was already the previous phase |
| Preprocessing.Preprocessor.Tick | boards/cats_rev1Pro/src/tasks/task_preprocessing.c:50-88 | corrected (see Findings): the high-G fallback of its average reads the high-G accelerometer. The tick averages against the previous sample. On the READY edge it recalibrates and takes the ground pressure, and otherwise keeps both. It transforms, and median-filters when configured; without the median filter the filter and its buffers are left as they were. It remembers the phase and the sample |
| Actions.ActionNumber | boards/cats_rev1Pro/src/util/actions.c:47-55 | the action number of a function indexes that function in the table |
| Actions.ActionTableIsANumbering | boards/cats_rev1Pro/src/util/actions.c:47-55 | the table has 17 entries, lists each function once and ends with set_recorder_state |
| Actions.Accepts | boards/cats_rev1Pro/src/util/actions.c:57-197 | an output function returns true exactly when its argument is in range: never for no_action, positive ticks for os_delay, 0 or 1 for a channel, 0 to 180 for a servo |
| Actions.AcceptedArgumentsAreBounded | boards/cats_rev1Pro/src/util/actions.c:57-197 | an argument a channel or servo accepts lies within 0 to 180, and no_action accepts none |
| Actions.Issued | boards/cats_rev1Pro/src/util/actions.c:206-247 | at most two commands, never INVALID, and none exactly when the request equals the current status |
| Actions.IssuedCommandsReachRequest | boards/cats_rev1Pro/src/util/actions.c:206-247 | each command sent finds the recorder in the mode it expects, and together they take it to the requested status |
| Actions.WriteStopSentTwice | boards/cats_rev1Pro/src/util/actions.c:223-247 | as written, leaving WRITE_TO_FLASH for OFF sends WRITE_STOP twice, and the second one finds the recorder already off; the corrected version sends it once |
| Actions.AsWrittenDiffersOnlyWhenStoppingWrite | boards/cats_rev1Pro/src/util/actions.c:206-247 | as-written and corrected commands differ exactly for the WRITE_TO_FLASH to OFF request |
| Actions.Recorder.Put | boards/cats_rev1Pro/src/util/actions.c:242-247 | the command is appended unless the queue is full |
| Actions.Recorder.SetRecorderState | boards/cats_rev1Pro/src/util/actions.c:200-250 | corrected (see Findings): WRITE_TO_FLASH to OFF queues WRITE_STOP once. True exactly when both the request and the current status are recorder modes; then the status becomes the request and the transition's commands are queued. Otherwise nothing changes |

## Left out

- Floating point: `float` and `float32_t` are reals, so rounding, overflow,
  NaN and the exact equality `det == 0` on rounded values are not modelled.
- `powf(x, 5.0f)` in `R_interpolation` is the exact fifth power.
- `calculate_height` (`task_preprocessing.c:236-238`) is a `powf` of a pressure
  ratio. `Preprocessor.Tick` takes it as a function parameter, as it takes
  `calibrate_imu`, `median` and the sensor elimination of `check_sensors`.
  Their sources are not part of this model.
- The CMSIS `arm_mat_*` calls of the rev1Pro filter are taken as the exact
  matrix operations of module `Matrices`, not as loops.
- Hardware effects are not modelled: GPIO writes, servo outputs, `osDelay`,
  `log_debug` and `log_error`, the global copies of the preprocessing task,
  tick timing and concurrency. What remains of an output function is its guard
  and return value.
- The error registry (`add_error`, `clear_error`, `get_error_by_tag`) becomes
  boolean flags. The preprocessing returns them and the rev1Pro `kalman_step`
  takes them as parameters.
- KalmanRev1Pro.KalmanFilter.KalmanUpdate requires the innovation
  H P_hat H_T + R to be nonzero, because the source divides by it unchecked.
- KalmanRev1Pro.KalmanFilter.KalmanStep requires the same nonzero innovation
  whenever the height is not in error and the update runs, for the same reason.
- The rev1 `kalman_step` compares the `cats_status_e` of `inverse` with `osOK`.
  The model takes `CATS_OK` to mean `osOK` and anything else `osError`.
- `FlightPhase` names only MOVING, READY, THRUSTING_1 and COASTING.
  Every other phase is `OtherPhase`, because `types.h` is not part of this
  model.
- Preprocessing.Preprocessor.Tick requires every calibration to have a nonzero
  angle, because `calibrate_imu` is not part of this model and `transform_data`
  divides by the angle.
- GRAVITY, P_INITIAL, MEDIAN_FILTER_SIZE and USE_MEDIAN_FILTER are constructor
  parameters, because the headers that define them are not part of this model.
  The sensor counts are fixed at 2 IMUs, 1 high-G accelerometer, 3 barometers
  and 1 magnetometer.
- The recorder modes are 0, 1 and 2 for OFF, FILL_QUEUE and WRITE_TO_FLASH.
- Actions.Recorder.Put: a put that times out after 10 ticks is modelled as a
  full queue, with the command dropped.
- `reset_kalman` writes x_bar and P_bar twice each and never writes x_hat or
  P_hat. The model keeps that behaviour.
- The filter structs embed fixed-size arrays. The model keeps them as sequence
  fields that the methods reassign; no two of them alias.
- The rev1 `kalman_step` zeroes x_hat and P_hat before accumulating into them.
  The model states the accumulated result.

## Findings

| source | as written | input that shows it | evidently intended | confidence | as-written member | corrected member |
|---|---|---|---|---|---|---|
| boards/cats_rev1Pro/src/tasks/task_preprocessing.c:123-125 | the high-G fallback sums `global_imu[i].acc_*`, the acceleration of the IMU that elimination has just ruled out | both IMUs eliminated, IMU 0 reads (1,1,1), the high-G accelerometer reads (2,2,2), every factor 1: the average is (1,1,1) | read the high-G accelerometer, giving (2,2,2) | high; not executed | Preprocessing.AveragedAsWritten, Preprocessing.HighGFallbackReadsEliminatedImu | Preprocessing.AvgAndToSI, Preprocessing.HighGFallbackGivesAccelerometerReading |
| boards/cats_rev1Pro/src/util/actions.c:223-247 | from WRITE_TO_FLASH to OFF, WRITE_STOP is put at line 226 and `rec_cmd` still holds it at line 243, so it is put again | `set_recorder_state(REC_OFF)` with the status WRITE_TO_FLASH | send WRITE_STOP once | high; not executed | Actions.IssuedAsWritten, Actions.WriteStopSentTwice | Actions.Recorder.SetRecorderState, Actions.IssuedCommandsReachRequest |
