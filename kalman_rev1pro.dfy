/** The single-barometer Kalman filter of the rev1Pro board
    (cats_rev1Pro kalman_filter.c). The state is height, velocity and
    acceleration; the one height measurement gives a scalar innovation, so
    the gain needs a division and no matrix inverse.

    The filter struct embeds its matrices as flat row-major float arrays
    (entry (i, j) of a 3-by-3 matrix at index 3 i + j). The model keeps
    those flat arrays as sequence-valued fields of a class, reads them as
    matrices through Mat and writes matrices back through Flat. The CMSIS
    matrix routines are taken as the operations of module Matrices. */
module KalmanRev1Pro {
  import Matrices
  import KalmanRev1
  import opened FlightPhases

  type Matrix = Matrices.Matrix
  type Vector = Matrices.Vector

  const STD_NOISE_BARO: real := 900000.0
  const STD_NOISE_BARO_INITIAL: real := 9.0
  const STD_NOISE_IMU: real := 0.004
  const STD_NOISE_OFFSET: real := 0.000001

  // ---------------------------------------------------------------------------
  // Flat row-major storage
  // ---------------------------------------------------------------------------

  /** The 3-by-3 matrix stored row-major in d. */
  function Mat(d: seq<real>): (M: Matrix)
    requires |d| == 9
    ensures Matrices.IsMatrix(M, 3, 3)
    ensures forall i, j :: 0 <= i < 3 && 0 <= j < 3 ==> M[i][j] == d[3 * i + j]
  {
    seq(3, i requires 0 <= i < 3 => seq(3, j requires 0 <= j < 3 => d[3 * i + j]))
  }

  /** The row-major storage of a 3-by-3 matrix. */
  function Flat(M: Matrix): (d: seq<real>)
    requires Matrices.IsMatrix(M, 3, 3)
    ensures |d| == 9
    ensures forall k :: 0 <= k < 9 ==> d[k] == M[k / 3][k % 3]
  {
    seq(9, k requires 0 <= k < 9 => M[k / 3][k % 3])
  }

  lemma MatOfFlat(M: Matrix)
    requires Matrices.IsMatrix(M, 3, 3)
    ensures Mat(Flat(M)) == M
  {
    Matrices.MatrixExt(Mat(Flat(M)), M, 3, 3);
  }

  lemma FlatOfMat(d: seq<real>)
    requires |d| == 9
    ensures Flat(Mat(d)) == d
  {
    var e := Flat(Mat(d));
    forall k | 0 <= k < 9
      ensures e[k] == d[k]
    {
      assert 3 * (k / 3) + k % 3 == k;
    }
  }

  /** The stored matrix d equals its transpose. */
  predicate SymmetricFlat(d: seq<real>)
    requires |d| == 9
  {
    d[1] == d[3] && d[2] == d[6] && d[5] == d[7]
  }

  /** The stored matrix b is the transpose of the stored matrix a. */
  predicate TransposedFlat(a: seq<real>, b: seq<real>)
    requires |a| == 9 && |b| == 9
  {
    && b[0] == a[0] && b[1] == a[3] && b[2] == a[6]
    && b[3] == a[1] && b[4] == a[4] && b[5] == a[7]
    && b[6] == a[2] && b[7] == a[5] && b[8] == a[8]
  }

  lemma SymmetricFlatMeans(d: seq<real>)
    requires |d| == 9
    ensures SymmetricFlat(d) <==> Matrices.IsSymmetric(Mat(d), 3)
  {
    var M := Mat(d);
    if Matrices.IsSymmetric(M, 3) {
      assert M[0][1] == M[1][0] && M[0][2] == M[2][0] && M[1][2] == M[2][1];
    }
  }

  lemma TransposedFlatMeans(a: seq<real>, b: seq<real>)
    requires |a| == 9 && |b| == 9
    ensures TransposedFlat(a, b) <==> Mat(b) == Matrices.Transpose(Mat(a), 3, 3)
  {
    var T := Matrices.Transpose(Mat(a), 3, 3);
    if TransposedFlat(a, b) {
      Matrices.MatrixExt(Mat(b), T, 3, 3);
    }
    if Mat(b) == T {
      assert Mat(b)[0][1] == T[0][1] && Mat(b)[0][2] == T[0][2] && Mat(b)[1][0] == T[1][0];
      assert Mat(b)[1][2] == T[1][2] && Mat(b)[2][0] == T[2][0] && Mat(b)[2][1] == T[2][1];
      assert Mat(b)[0][0] == T[0][0] && Mat(b)[1][1] == T[1][1] && Mat(b)[2][2] == T[2][2];
    }
  }

  // ---------------------------------------------------------------------------
  // The model matrices
  // ---------------------------------------------------------------------------

  /** The 3-by-2 noise input matrix, stored as {t, t^2/2, 1, t, 0, 1}. */
  function NoiseInput(t: real): (G: Matrix)
    ensures Matrices.IsMatrix(G, 3, 2)
  {
    [[t, t * t / 2.0], [1.0, t], [0.0, 1.0]]
  }

  /** The diagonal 2-by-2 process noise of the IMU and of its offset. */
  const ProcessNoise: Matrix := [[STD_NOISE_IMU, 0.0], [0.0, STD_NOISE_OFFSET]]

  /** Gd Q Gd^T: the product Gd Q, then times the transpose of Gd. */
  function NoiseCovariance(t: real): (N: Matrix)
    ensures Matrices.IsMatrix(N, 3, 3)
  {
    var G := NoiseInput(t);
    Matrices.Mul(Matrices.Mul(G, ProcessNoise, 3, 2, 2), Matrices.Transpose(G, 3, 2), 3, 2, 3)
  }

  /** 0.1 I, stored flat. */
  const InitialCovariance: seq<real> := [0.1, 0.0, 0.0, 0.0, 0.1, 0.0, 0.0, 0.0, 0.1]

  /** The barometer measures the height: H and H_T both hold {1, 0, 0}. */
  const HeightRow: Vector := [1.0, 0.0, 0.0]

  const Zero3: Vector := [0.0, 0.0, 0.0]

  /** The covariance after a thrust reset: 0.1 for height and velocity, no
      correlations, and the old acceleration variance p8. */
  function ThrustResetCovariance(p8: real): (P: seq<real>)
    ensures |P| == 9
  {
    [0.1, 0.0, 0.0, 0.0, 0.1, 0.0, 0.0, 0.0, p8]
  }

  // ---------------------------------------------------------------------------
  // The scalar update
  // ---------------------------------------------------------------------------

  /** The 1-by-3 row matrix holding v. */
  function Row(v: Vector): (M: Matrix)
    requires |v| == 3
    ensures Matrices.IsMatrix(M, 1, 3)
  {
    [v]
  }

  /** The 3-by-1 column matrix holding v. */
  function Column(v: Vector): (M: Matrix)
    requires |v| == 3
    ensures Matrices.IsMatrix(M, 3, 1)
  {
    seq(3, i requires 0 <= i < 3 => [v[i]])
  }

  /** The scalar innovation variance S = H P H_T + R. */
  function Innovation(H: Vector, P: Matrix, H_T: Vector, R: real): real
    requires |H| == 3 && Matrices.IsMatrix(P, 3, 3) && |H_T| == 3
  {
    Matrices.Mul(Matrices.Mul(Row(H), P, 1, 3, 3), Column(H_T), 1, 3, 1)[0][0] + R
  }

  /** The gain K = (P H_T) scaled by 1 / S. */
  function Gain(P: Matrix, H_T: Vector, S: real): (K: Vector)
    requires Matrices.IsMatrix(P, 3, 3) && |H_T| == 3 && S != 0.0
    ensures |K| == 3
  {
    var PH := Matrices.Mul(P, Column(H_T), 3, 3, 1);
    seq(3, i requires 0 <= i < 3 => PH[i][0] * (1.0 / S))
  }

  /** x_bar = K (y - H x_hat) + x_hat. */
  function Corrected(K: Vector, H: Vector, x_hat: Vector, y: real): (x: Vector)
    requires |K| == 3 && |H| == 3 && |x_hat| == 3
    ensures |x| == 3
  {
    var Hx := Matrices.Mul(Row(H), Column(x_hat), 1, 3, 1)[0][0];
    seq(3, i requires 0 <= i < 3 => K[i] * (y - Hx) + x_hat[i])
  }

  /** P_bar = (I - K H) P_hat. */
  function CorrectedCovariance(K: Vector, H: Vector, P: Matrix): (Q: Matrix)
    requires |K| == 3 && |H| == 3 && Matrices.IsMatrix(P, 3, 3)
    ensures Matrices.IsMatrix(Q, 3, 3)
  {
    Matrices.Mul(Matrices.Sub(Matrices.Identity(3), Matrices.Mul(Column(K), Row(H), 3, 1, 3), 3, 3), P, 3, 3, 3)
  }

  /** K, x_bar, P_bar are the scalar measurement update of x_hat, P_hat by
      the height y with noise R (P_bar stored row-major). */
  predicate IsUpdate(H: Vector, H_T: Vector, R: real, y: real, x_hat: Vector, P_hat: seq<real>,
                     K: Vector, x_bar: Vector, P_bar: seq<real>)
    requires |H| == 3 && |H_T| == 3 && |x_hat| == 3 && |P_hat| == 9 && |P_bar| == 9
  {
    var S := Innovation(H, Mat(P_hat), H_T, R);
    && S != 0.0
    && K == Gain(Mat(P_hat), H_T, S)
    && x_bar == Corrected(K, H, x_hat, y)
    && Mat(P_bar) == CorrectedCovariance(K, H, Mat(P_hat))
  }

  // ---------------------------------------------------------------------------
  // The barometer noise schedule
  // ---------------------------------------------------------------------------

  function Pow5(x: real): real {
    x * x * x * x * x
  }

  const LowerBound: real := 20.0
  const UpperBound: real := 100.0
  const FLowerBound: real := 0.1
  const FUpperBound: real := 1.0

  /** The slope and offset of the line through (20, 0.1) and (100, 1). */
  const Slope: real := (FLowerBound - FUpperBound) / (LowerBound - UpperBound)
  const Offset: real := FUpperBound - Slope * UpperBound

  /** The factor applied to the barometer noise while coasting: 0.1^5 below
      20 m/s, the fifth power of the line on [20, 100), and 1 above. */
  function RInterpolation(velocity: real): (r: real)
    ensures Pow5(FLowerBound) <= r <= FUpperBound
  {
    LinePositive(velocity);
    if velocity < LowerBound then Pow5(FLowerBound)
    else if velocity < UpperBound then Pow5(Slope * velocity + Offset)
    else FUpperBound
  }

  /** On [20, 100) the line stays within [0.1, 1). */
  lemma LinePositive(v: real)
    ensures LowerBound <= v < UpperBound ==>
              FLowerBound <= Slope * v + Offset < FUpperBound
              && Pow5(FLowerBound) <= Pow5(Slope * v + Offset) <= FUpperBound
  {
    assert Slope == 0.01125 && Offset == -0.125;
    if LowerBound <= v < UpperBound {
      Pow5Monotone(FLowerBound, Slope * v + Offset);
      Pow5Monotone(Slope * v + Offset, FUpperBound);
    }
  }

  lemma MulMonotone(a: real, b: real, c: real, d: real)
    requires 0.0 <= a <= b && 0.0 <= c <= d
    ensures a * c <= b * d
  {
    assert a * c <= b * c;
    assert b * c <= b * d;
  }

  /** The fifth power is monotone on the non-negative reals. */
  lemma Pow5Monotone(a: real, b: real)
    requires 0.0 <= a <= b
    ensures Pow5(a) <= Pow5(b)
  {
    MulMonotone(a, b, a, b);
    MulMonotone(a * a, b * b, a, b);
    MulMonotone(a * a * a, b * b * b, a, b);
    MulMonotone(a * a * a * a, b * b * b * b, a, b);
  }

  /** The three pieces meet: the line gives 0.1 at 20 m/s and 1 at 100 m/s,
      so the schedule has no jump at either bound. */
  lemma RInterpolationContinuous()
    ensures Pow5(Slope * LowerBound + Offset) == RInterpolation(LowerBound - 1.0)
    ensures Pow5(Slope * UpperBound + Offset) == RInterpolation(UpperBound)
  {
    assert Slope == 0.01125 && Offset == -0.125;
    assert Slope * LowerBound + Offset == FLowerBound;
    assert Slope * UpperBound + Offset == FUpperBound;
  }

  /** A faster rocket never gets a smaller barometer noise factor. */
  lemma RInterpolationMonotone(v: real, w: real)
    requires v <= w
    ensures RInterpolation(v) <= RInterpolation(w)
  {
    assert Slope == 0.01125 && Offset == -0.125;
    LinePositive(v);
    LinePositive(w);
    if LowerBound <= v && w < UpperBound {
      Pow5Monotone(Slope * v + Offset, Slope * w + Offset);
    }
  }

  /** The barometer noise R that kalman_step selects for the flight phase;
      phases it does not name keep the current R. */
  function ScheduledNoise(phase: FlightPhase, R: real, velocity: real): real {
    match phase
    case Ready => STD_NOISE_BARO_INITIAL
    case Moving => STD_NOISE_BARO_INITIAL
    case Thrusting1 => STD_NOISE_BARO
    case Coasting => STD_NOISE_BARO * RInterpolation(velocity)
    case OtherPhase => R
  }

  /** The scheduled noise stays positive. */
  lemma ScheduledNoisePositive(phase: FlightPhase, R: real, velocity: real)
    requires R > 0.0
    ensures ScheduledNoise(phase, R, velocity) > 0.0
  {
    if phase.Coasting? {
      var f := RInterpolation(velocity);
      assert Pow5(FLowerBound) > 0.0;
      assert STD_NOISE_BARO * f > 0.0;
    }
  }

  // ---------------------------------------------------------------------------
  // The tick, step by step, as values
  // ---------------------------------------------------------------------------

  /** The state after the phase-dependent reset. */
  function ResetState(phase: FlightPhase, x_bar: Vector): Vector {
    if phase.Thrusting1? then Zero3 else x_bar
  }

  /** The covariance after the phase-dependent reset. */
  function ResetCovariance(phase: FlightPhase, P_bar: seq<real>): (P: seq<real>)
    requires |P_bar| == 9
    ensures |P| == 9
  {
    if phase.Thrusting1? then ThrustResetCovariance(P_bar[8]) else P_bar
  }

  /** x_hat: the prediction, or a copy of x_bar while the accelerometers
      are out. */
  function PriorState(acc_error: bool, Ad: seq<real>, Bd: Vector, x_bar: Vector, u: real): (x: Vector)
    requires |Ad| == 9 && |Bd| == 3 && |x_bar| == 3
    ensures |x| == 3
  {
    if acc_error then x_bar else KalmanRev1.Predicted(Mat(Ad), Bd, x_bar, u)
  }

  /** P_hat: the predicted covariance, or a copy of P_bar while the
      accelerometers are out. */
  function PriorCovariance(acc_error: bool, Ad: seq<real>, Ad_T: seq<real>, GQG: seq<real>, P_bar: seq<real>): (P: seq<real>)
    requires |Ad| == 9 && |Ad_T| == 9 && |GQG| == 9 && |P_bar| == 9
    ensures |P| == 9
  {
    if acc_error then P_bar
    else Flat(KalmanRev1.Propagated(Mat(Ad), Mat(P_bar), Mat(Ad_T), Mat(GQG)))
  }

  // ---------------------------------------------------------------------------
  // The filter struct
  // ---------------------------------------------------------------------------

  class KalmanFilter {
    var t_sampl: real
    var R: real
    var measured_acceleration: real
    var measured_AGL: real
    var Ad_data: seq<real>
    var Ad_T_data: seq<real>
    var Bd_data: seq<real>
    var GdQGd_T_data: seq<real>
    var H_data: seq<real>
    var H_T_data: seq<real>
    var K_data: seq<real>
    var x_hat_data: seq<real>
    var x_bar_data: seq<real>
    var P_hat_data: seq<real>
    var P_bar_data: seq<real>

    /** Every array has the size the struct gives it. */
    predicate Valid()
      reads this
    {
      |Ad_data| == 9 && |Ad_T_data| == 9 && |GdQGd_T_data| == 9 && |P_hat_data| == 9 && |P_bar_data| == 9
      && |Bd_data| == 3 && |H_data| == 3 && |H_T_data| == 3 && |K_data| == 3
      && |x_hat_data| == 3 && |x_bar_data| == 3
    }

    /** What initialize_matrices establishes and every tick keeps: Ad_T is
        the transpose of Ad, H_T holds the same entries as H, the process
        noise and both covariances are symmetric, and the barometer noise
        is positive. */
    predicate Consistent()
      reads this
    {
      Valid()
      && TransposedFlat(Ad_data, Ad_T_data)
      && H_T_data == H_data
      && SymmetricFlat(GdQGd_T_data)
      && SymmetricFlat(P_hat_data)
      && SymmetricFlat(P_bar_data)
      && R > 0.0
    }

    /** A zeroed filter struct with sampling time t. */
    constructor (t: real)
      ensures Valid() && t_sampl == t
    {
      t_sampl, R, measured_acceleration, measured_AGL := t, 0.0, 0.0, 0.0;
      Ad_data, Ad_T_data, GdQGd_T_data := Flat(Matrices.Zero(3, 3)), Flat(Matrices.Zero(3, 3)), Flat(Matrices.Zero(3, 3));
      P_hat_data, P_bar_data := Flat(Matrices.Zero(3, 3)), Flat(Matrices.Zero(3, 3));
      Bd_data, H_data, H_T_data, K_data, x_hat_data, x_bar_data := Zero3, Zero3, Zero3, Zero3, Zero3, Zero3;
    }

    /** Builds the model from the sampling time and starts the estimate at
        zero with covariance 0.1 I. */
    method InitializeMatrices()
      modifies this`Ad_data, this`Ad_T_data, this`Bd_data, this`GdQGd_T_data, this`H_data, this`H_T_data
      modifies this`K_data, this`x_bar_data, this`x_hat_data, this`P_bar_data, this`P_hat_data, this`R
      ensures Consistent()
      ensures Mat(Ad_data) == KalmanRev1.Transition(t_sampl)
      ensures Bd_data == KalmanRev1.InputGain(t_sampl)
      ensures Mat(GdQGd_T_data) == NoiseCovariance(t_sampl)
      ensures H_data == HeightRow && H_T_data == HeightRow
      ensures K_data == Zero3 && x_bar_data == Zero3 && x_hat_data == Zero3
      ensures Mat(P_bar_data) == Matrices.ScaledIdentity(3, 0.1) && P_hat_data == P_bar_data
      ensures R == STD_NOISE_BARO
    {
      InitializeModel();
      InitializeEstimate();
    }

    /** The transition and its transpose, the input gain, the process noise
        Gd Q Gd^T and the measurement row. */
    method InitializeModel()
      modifies this`Ad_data, this`Ad_T_data, this`Bd_data, this`GdQGd_T_data, this`H_data, this`H_T_data
      ensures |Ad_data| == 9 && |Ad_T_data| == 9 && |GdQGd_T_data| == 9 && |Bd_data| == 3
      ensures Mat(Ad_data) == KalmanRev1.Transition(t_sampl) && TransposedFlat(Ad_data, Ad_T_data)
      ensures Bd_data == KalmanRev1.InputGain(t_sampl)
      ensures Mat(GdQGd_T_data) == NoiseCovariance(t_sampl) && SymmetricFlat(GdQGd_T_data)
      ensures H_data == HeightRow && H_T_data == HeightRow
    {
      var t := t_sampl;
      var Ad := KalmanRev1.Transition(t);
      var GdQGd_T := NoiseCovariance(t);
      ModelIsConsistent(t);
      MatOfFlat(Ad);
      MatOfFlat(GdQGd_T);
      Ad_data := Flat(Ad);
      Ad_T_data := Flat(Matrices.Transpose(Ad, 3, 3));
      Bd_data := KalmanRev1.InputGain(t);
      GdQGd_T_data := Flat(GdQGd_T);
      H_data := HeightRow;
      H_T_data := HeightRow;
    }

    /** The zero state, zero gain, covariance 0.1 I and the in-flight
        barometer noise. */
    method InitializeEstimate()
      modifies this`K_data, this`x_bar_data, this`x_hat_data, this`P_bar_data, this`P_hat_data, this`R
      ensures K_data == Zero3 && x_bar_data == Zero3 && x_hat_data == Zero3
      ensures P_bar_data == InitialCovariance && P_hat_data == InitialCovariance
      ensures Mat(P_bar_data) == Matrices.ScaledIdentity(3, 0.1) && SymmetricFlat(P_bar_data)
      ensures R == STD_NOISE_BARO
    {
      K_data := Zero3;
      x_bar_data := Zero3;
      x_hat_data := Zero3;
      P_bar_data := InitialCovariance;
      P_hat_data := InitialCovariance;
      R := STD_NOISE_BARO;
      Matrices.MatrixExt(Mat(InitialCovariance), Matrices.ScaledIdentity(3, 0.1), 3, 3);
    }

    /** reset_kalman: x_bar := 0 and P_bar := 0.1 I, each written twice;
        x_hat, P_hat and the model keep their values. */
    method ResetKalman()
      requires Valid()
      modifies this`x_bar_data, this`P_bar_data
      ensures Valid()
      ensures x_bar_data == Zero3 && Mat(P_bar_data) == Matrices.ScaledIdentity(3, 0.1)
    {
      var x_dash := Zero3;
      var P_dash := InitialCovariance;
      x_bar_data := x_dash;
      x_bar_data := x_dash;
      P_bar_data := P_dash;
      P_bar_data := P_dash;
      Matrices.MatrixExt(Mat(InitialCovariance), Matrices.ScaledIdentity(3, 0.1), 3, 3);
    }

    /** thrust_reset_kalman: both states become zero and both covariances
        become a copy of P_bar whose flat entries 0 to 7 are overwritten,
        so that only the acceleration variance (entry 8) survives. */
    method ThrustResetKalman()
      requires Valid()
      modifies this`x_hat_data, this`x_bar_data, this`P_hat_data, this`P_bar_data
      ensures Valid()
      ensures x_hat_data == Zero3 && x_bar_data == Zero3
      ensures P_hat_data == P_bar_data
      ensures forall k :: 0 <= k < 8 ==> P_bar_data[k] == if k == 0 || k == 4 then 0.1 else 0.0
      ensures P_bar_data[8] == old(P_bar_data[8])
    {
      var x_dash := Zero3;
      var P_dash := P_bar_data;
      P_dash := P_dash[0 := 0.1][1 := 0.0][2 := 0.0][3 := 0.0];
      P_dash := P_dash[4 := 0.1][5 := 0.0][6 := 0.0][7 := 0.0];
      x_hat_data := x_dash;
      x_bar_data := x_dash;
      P_hat_data := P_dash;
      P_bar_data := P_dash;
    }

    /** kalman_prediction: x_hat := Ad x_bar + Bd u and
        P_hat := Ad P_bar Ad_T + GdQGd_T. */
    method KalmanPrediction()
      requires Valid()
      modifies this`x_hat_data, this`P_hat_data
      ensures Valid()
      ensures x_hat_data == KalmanRev1.Predicted(Mat(Ad_data), Bd_data, x_bar_data, measured_acceleration)
      ensures Mat(P_hat_data) == KalmanRev1.Propagated(Mat(Ad_data), Mat(P_bar_data), Mat(Ad_T_data), Mat(GdQGd_T_data))
    {
      var holder_vec := Matrices.MatVec(Mat(Ad_data), x_bar_data, 3, 3);
      var holder2_vec := Matrices.VScale(measured_acceleration, Bd_data);
      x_hat_data := Matrices.VAdd(holder_vec, holder2_vec);
      var holder_mat := Matrices.Mul(Mat(Ad_data), Mat(P_bar_data), 3, 3, 3);
      var holder2_mat := Matrices.Mul(holder_mat, Mat(Ad_T_data), 3, 3, 3);
      var P := Matrices.Add(holder2_mat, Mat(GdQGd_T_data), 3, 3);
      MatOfFlat(P);
      P_hat_data := Flat(P);
    }

    /** kalman_update: the scalar gain, then the corrected state and
        covariance. The source divides by S without a check, so the model
        asks that S be nonzero. */
    method KalmanUpdate()
      requires Valid() && Innovation(H_data, Mat(P_hat_data), H_T_data, R) != 0.0
      modifies this`K_data, this`x_bar_data, this`P_bar_data
      ensures Valid()
      ensures IsUpdate(H_data, H_T_data, R, measured_AGL, x_hat_data, P_hat_data, K_data, x_bar_data, P_bar_data)
    {
      var S := Innovation(H_data, Mat(P_hat_data), H_T_data, R);
      K_data := Gain(Mat(P_hat_data), H_T_data, S);
      x_bar_data := Corrected(K_data, H_data, x_hat_data, measured_AGL);
      var P := CorrectedCovariance(K_data, H_data, Mat(P_hat_data));
      MatOfFlat(P);
      P_bar_data := Flat(P);
    }

    /** kalman_step: selects R for the flight phase (resetting the estimate
        at the start of thrust), then predicts unless the accelerometers are
        out and updates unless the barometers are out; an estimator that is
        out is replaced by a copy of the other half of the estimate. The
        error flags are the two filter errors of the error registry. */
    method KalmanStep(phase: FlightPhase, acc_error: bool, height_error: bool)
      requires Consistent()
      requires !height_error ==>
                 Innovation(H_data,
                            Mat(PriorCovariance(acc_error, Ad_data, Ad_T_data, GdQGd_T_data,
                                                ResetCovariance(phase, P_bar_data))),
                            H_T_data, ScheduledNoise(phase, R, x_bar_data[1])) != 0.0
      modifies this`R, this`K_data, this`x_hat_data, this`x_bar_data, this`P_hat_data, this`P_bar_data
      ensures Consistent()
      ensures R == ScheduledNoise(phase, old(R), old(x_bar_data[1]))
      ensures var x0 := ResetState(phase, old(x_bar_data));
              var P0 := ResetCovariance(phase, old(P_bar_data));
              && x_hat_data == PriorState(acc_error, Ad_data, Bd_data, x0, measured_acceleration)
              && P_hat_data == PriorCovariance(acc_error, Ad_data, Ad_T_data, GdQGd_T_data, P0)
      ensures height_error ==> x_bar_data == x_hat_data && P_bar_data == P_hat_data && K_data == old(K_data)
      ensures !height_error ==>
                IsUpdate(H_data, H_T_data, R, measured_AGL, x_hat_data, P_hat_data, K_data, x_bar_data, P_bar_data)
    {
      PriorTick(phase, acc_error);
      PosteriorStep(height_error);
    }

    /** The noise selection followed by the prediction step. */
    method PriorTick(phase: FlightPhase, acc_error: bool)
      requires Consistent()
      modifies this`R, this`x_hat_data, this`x_bar_data, this`P_hat_data, this`P_bar_data
      ensures Consistent()
      ensures R == ScheduledNoise(phase, old(R), old(x_bar_data[1]))
      ensures x_bar_data == ResetState(phase, old(x_bar_data))
      ensures P_bar_data == ResetCovariance(phase, old(P_bar_data))
      ensures x_hat_data == PriorState(acc_error, Ad_data, Bd_data, x_bar_data, measured_acceleration)
      ensures P_hat_data == PriorCovariance(acc_error, Ad_data, Ad_T_data, GdQGd_T_data, P_bar_data)
    {
      SelectNoise(phase);
      PriorStep(acc_error);
    }

    /** The switch at the head of kalman_step. */
    method SelectNoise(phase: FlightPhase)
      requires Consistent()
      modifies this`R, this`x_hat_data, this`x_bar_data, this`P_hat_data, this`P_bar_data
      ensures Consistent()
      ensures R == ScheduledNoise(phase, old(R), old(x_bar_data[1]))
      ensures x_bar_data == ResetState(phase, old(x_bar_data))
      ensures P_bar_data == ResetCovariance(phase, old(P_bar_data))
    {
      ScheduledNoisePositive(phase, R, x_bar_data[1]);
      match phase
      case Ready =>
        R := STD_NOISE_BARO_INITIAL;
      case Moving =>
        R := STD_NOISE_BARO_INITIAL;
      case Thrusting1 =>
        R := STD_NOISE_BARO;
        ThrustResetKalman();
      case Coasting =>
        R := STD_NOISE_BARO * RInterpolation(x_bar_data[1]);
      case OtherPhase =>
    }

    /** The prediction, or the copy of x_bar, P_bar into x_hat, P_hat while
        the accelerometer error is raised. */
    method PriorStep(acc_error: bool)
      requires Consistent()
      modifies this`x_hat_data, this`P_hat_data
      ensures Consistent()
      ensures x_hat_data == PriorState(acc_error, Ad_data, Bd_data, x_bar_data, measured_acceleration)
      ensures P_hat_data == PriorCovariance(acc_error, Ad_data, Ad_T_data, GdQGd_T_data, P_bar_data)
    {
      if acc_error {
        x_hat_data := x_bar_data;
        P_hat_data := P_bar_data;
      } else {
        PredictionKeepsSymmetry(Ad_data, Ad_T_data, GdQGd_T_data, P_bar_data);
        KalmanPrediction();
        FlatOfMat(P_hat_data);
      }
    }

    /** The update, or the copy of x_hat, P_hat into x_bar, P_bar while the
        height error is raised. */
    method PosteriorStep(height_error: bool)
      requires Consistent()
      requires !height_error ==> Innovation(H_data, Mat(P_hat_data), H_T_data, R) != 0.0
      modifies this`K_data, this`x_bar_data, this`P_bar_data
      ensures Consistent()
      ensures height_error ==> x_bar_data == x_hat_data && P_bar_data == P_hat_data && K_data == old(K_data)
      ensures !height_error ==>
                IsUpdate(H_data, H_T_data, R, measured_AGL, x_hat_data, P_hat_data, K_data, x_bar_data, P_bar_data)
    {
      if !height_error {
        KalmanUpdate();
        UpdateKeepsFlatSymmetry(H_data, R, measured_AGL, x_hat_data, P_hat_data, K_data, x_bar_data, P_bar_data);
      } else {
        x_bar_data := x_hat_data;
        P_bar_data := P_hat_data;
      }
    }
  }

  // ---------------------------------------------------------------------------
  // Properties
  // ---------------------------------------------------------------------------

  /** The predicted covariance, in row-major storage, is symmetric when
      P_bar and the process noise are and Ad_T is the transpose of Ad. */
  lemma PredictionKeepsSymmetry(Ad: seq<real>, Ad_T: seq<real>, GQG: seq<real>, P_bar: seq<real>)
    requires |Ad| == 9 && |Ad_T| == 9 && |GQG| == 9 && |P_bar| == 9
    requires TransposedFlat(Ad, Ad_T) && SymmetricFlat(GQG) && SymmetricFlat(P_bar)
    ensures SymmetricFlat(Flat(KalmanRev1.Propagated(Mat(Ad), Mat(P_bar), Mat(Ad_T), Mat(GQG))))
  {
    SymmetricFlatMeans(P_bar);
    SymmetricFlatMeans(GQG);
    TransposedFlatMeans(Ad, Ad_T);
    var P := KalmanRev1.Propagated(Mat(Ad), Mat(P_bar), Mat(Ad_T), Mat(GQG));
    KalmanRev1.PredictionKeepsSymmetry(Mat(Ad), Mat(P_bar), Mat(Ad_T), Mat(GQG));
    MatOfFlat(P);
    SymmetricFlatMeans(Flat(P));
  }

  /** The measurement update, in row-major storage, keeps the covariance
      symmetric when H_T holds the entries of H. */
  lemma UpdateKeepsFlatSymmetry(H: Vector, R: real, y: real, x_hat: Vector, P_hat: seq<real>,
                                K: Vector, x_bar: Vector, P_bar: seq<real>)
    requires |H| == 3 && |x_hat| == 3 && |P_hat| == 9 && |P_bar| == 9
    requires SymmetricFlat(P_hat) && IsUpdate(H, H, R, y, x_hat, P_hat, K, x_bar, P_bar)
    ensures SymmetricFlat(P_bar)
  {
    SymmetricFlatMeans(P_hat);
    UpdateKeepsSymmetry(H, Mat(P_hat), Innovation(H, Mat(P_hat), H, R));
    SymmetricFlatMeans(P_bar);
  }

  /** The stored transition and its stored transpose agree, and the stored
      process noise is symmetric, for every sampling time. */
  lemma ModelIsConsistent(t: real)
    ensures TransposedFlat(Flat(KalmanRev1.Transition(t)), Flat(Matrices.Transpose(KalmanRev1.Transition(t), 3, 3)))
    ensures SymmetricFlat(Flat(NoiseCovariance(t)))
  {
    NoiseCovarianceSymmetric(t);
    var N := NoiseCovariance(t);
    assert N[0][1] == N[1][0] && N[0][2] == N[2][0] && N[1][2] == N[2][1];
  }

  /** G Q G^T is symmetric for a diagonal Q. */
  lemma NoiseCovarianceSymmetric(t: real)
    ensures Matrices.IsSymmetric(NoiseCovariance(t), 3)
  {
    var N := NoiseCovariance(t);
    forall i, j | 0 <= i < 3 && 0 <= j < 3
      ensures N[i][j] == N[j][i]
    {
      NoiseCovarianceEntry(t, i, j);
      NoiseCovarianceEntry(t, j, i);
    }
  }

  /** Entry (i, j) of Gd Q Gd^T for the diagonal Q, written out. */
  lemma NoiseCovarianceEntry(t: real, i: nat, j: nat)
    requires i < 3 && j < 3
    ensures var G := NoiseInput(t);
            NoiseCovariance(t)[i][j] == G[i][0] * STD_NOISE_IMU * G[j][0] + G[i][1] * STD_NOISE_OFFSET * G[j][1]
  {
    var G := NoiseInput(t);
    var GQ := Matrices.Mul(G, ProcessNoise, 3, 2, 2);
    var GT := Matrices.Transpose(G, 3, 2);
    assert GQ[i][0] == G[i][0] * STD_NOISE_IMU + G[i][1] * 0.0 by {
      assert Matrices.Dot(G, ProcessNoise, i, 0, 1) == G[i][0] * STD_NOISE_IMU;
    }
    assert GQ[i][1] == G[i][0] * 0.0 + G[i][1] * STD_NOISE_OFFSET by {
      assert Matrices.Dot(G, ProcessNoise, i, 1, 1) == G[i][0] * 0.0;
    }
    assert NoiseCovariance(t)[i][j] == GQ[i][0] * GT[0][j] + GQ[i][1] * GT[1][j] by {
      assert Matrices.Dot(GQ, GT, i, j, 1) == GQ[i][0] * GT[0][j];
    }
    assert GT[0][j] == G[j][0] && GT[1][j] == G[j][1];
  }


  /** The gain solves K S = P H_T, entry by entry. */
  lemma GainSolvesInnovation(P: Matrix, H_T: Vector, S: real)
    requires Matrices.IsMatrix(P, 3, 3) && |H_T| == 3 && S != 0.0
    ensures forall i :: 0 <= i < 3 ==>
              Gain(P, H_T, S)[i] * S == Matrices.Mul(P, Column(H_T), 3, 3, 1)[i][0]
  {
    var PH := Matrices.Mul(P, Column(H_T), 3, 3, 1);
    forall i | 0 <= i < 3
      ensures Gain(P, H_T, S)[i] * S == PH[i][0]
    {
      assert PH[i][0] * (1.0 / S) * S == PH[i][0] * ((1.0 / S) * S);
    }
  }

  /** When the barometer agrees with the predicted height, the update keeps
      the predicted state, whatever the gain. */
  lemma ZeroInnovationKeepsPrediction(K: Vector, H: Vector, x_hat: Vector, y: real)
    requires |K| == 3 && |H| == 3 && |x_hat| == 3
    requires y == Matrices.Mul(Row(H), Column(x_hat), 1, 3, 1)[0][0]
    ensures Corrected(K, H, x_hat, y) == x_hat
  {
    assert forall i :: 0 <= i < 3 ==> Corrected(K, H, x_hat, y)[i] == x_hat[i];
  }

  /** The row vector H P, entry j, written out. */
  lemma RowTimesEntry(H: Vector, P: Matrix, j: nat)
    requires |H| == 3 && Matrices.IsMatrix(P, 3, 3) && j < 3
    ensures Matrices.Mul(Row(H), P, 1, 3, 3)[0][j] == H[0] * P[0][j] + H[1] * P[1][j] + H[2] * P[2][j]
  {
    assert Matrices.Dot(Row(H), P, 0, j, 1) == H[0] * P[0][j];
    assert Matrices.Dot(Row(H), P, 0, j, 2) == H[0] * P[0][j] + H[1] * P[1][j];
  }

  /** The column vector P H, entry i, written out. */
  lemma TimesColumnEntry(P: Matrix, H: Vector, i: nat)
    requires |H| == 3 && Matrices.IsMatrix(P, 3, 3) && i < 3
    ensures Matrices.Mul(P, Column(H), 3, 3, 1)[i][0] == P[i][0] * H[0] + P[i][1] * H[1] + P[i][2] * H[2]
  {
    assert Matrices.Dot(P, Column(H), i, 0, 1) == P[i][0] * H[0];
    assert Matrices.Dot(P, Column(H), i, 0, 2) == P[i][0] * H[0] + P[i][1] * H[1];
  }

  /** Entry (i, j) of (I - K H) P: P[i][j] minus K[i] times (H P)[j]. */
  lemma CorrectedEntry(K: Vector, H: Vector, P: Matrix, i: nat, j: nat)
    requires |K| == 3 && |H| == 3 && Matrices.IsMatrix(P, 3, 3) && i < 3 && j < 3
    ensures CorrectedCovariance(K, H, P)[i][j]
            == P[i][j] - K[i] * (H[0] * P[0][j] + H[1] * P[1][j] + H[2] * P[2][j])
  {
    var KH := Matrices.Mul(Column(K), Row(H), 3, 1, 3);
    var D := Matrices.Sub(Matrices.Identity(3), KH, 3, 3);
    forall k | 0 <= k < 3
      ensures D[i][k] == (if i == k then 1.0 else 0.0) - K[i] * H[k]
    {
      assert Matrices.Dot(Column(K), Row(H), i, k, 1) == K[i] * H[k];
    }
    Matrices.Mul3Entry(D, P, i, j);
  }

  /** With P symmetric, (H P)[j] is (P H)[j]. */
  lemma RowEqualsColumn(H: Vector, P: Matrix, j: nat)
    requires |H| == 3 && Matrices.IsMatrix(P, 3, 3) && Matrices.IsSymmetric(P, 3) && j < 3
    ensures H[0] * P[0][j] + H[1] * P[1][j] + H[2] * P[2][j] == P[j][0] * H[0] + P[j][1] * H[1] + P[j][2] * H[2]
  {
    assert P[0][j] == P[j][0] && P[1][j] == P[j][1] && P[2][j] == P[j][2];
  }

  /** One mirrored pair of entries of P - a a^T / S. */
  lemma RankOneDowndate(p: real, a_i: real, a_j: real, s: real)
    ensures p - a_i * s * a_j == p - a_j * s * a_i
  {
  }

  /** Entry (i, j) of the updated covariance equals entry (j, i). */
  lemma UpdateSymmetricEntry(H: Vector, P: Matrix, S: real, i: nat, j: nat)
    requires |H| == 3 && Matrices.IsMatrix(P, 3, 3) && Matrices.IsSymmetric(P, 3) && S != 0.0
    requires i < 3 && j < 3
    ensures CorrectedCovariance(Gain(P, H, S), H, P)[i][j] == CorrectedCovariance(Gain(P, H, S), H, P)[j][i]
  {
    var K := Gain(P, H, S);
    CorrectedEntry(K, H, P, i, j);
    CorrectedEntry(K, H, P, j, i);
    TimesColumnEntry(P, H, i);
    TimesColumnEntry(P, H, j);
    RowEqualsColumn(H, P, i);
    RowEqualsColumn(H, P, j);
    var a_i := P[i][0] * H[0] + P[i][1] * H[1] + P[i][2] * H[2];
    var a_j := P[j][0] * H[0] + P[j][1] * H[1] + P[j][2] * H[2];
    assert K[i] == a_i * (1.0 / S) && K[j] == a_j * (1.0 / S);
    assert P[i][j] == P[j][i];
    RankOneDowndate(P[i][j], a_i, a_j, 1.0 / S);
  }

  /** The scalar update keeps a symmetric covariance symmetric: with
      H_T = H, entry (i, j) of (I - K H) P is P[i][j] - a[i] a[j] / S, where
      a = P H. */
  lemma UpdateKeepsSymmetry(H: Vector, P: Matrix, S: real)
    requires |H| == 3 && Matrices.IsMatrix(P, 3, 3) && Matrices.IsSymmetric(P, 3) && S != 0.0
    ensures Matrices.IsSymmetric(CorrectedCovariance(Gain(P, H, S), H, P), 3)
  {
    forall i, j | 0 <= i < 3 && 0 <= j < 3
      ensures CorrectedCovariance(Gain(P, H, S), H, P)[i][j] == CorrectedCovariance(Gain(P, H, S), H, P)[j][i]
    {
      UpdateSymmetricEntry(H, P, S, i, j);
    }
  }
}
