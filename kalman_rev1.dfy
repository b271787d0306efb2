/** The three-state, three-barometer Kalman filter of the rev1 board
    (cats_rev1 kalman_filter.c). The state is height, velocity and
    acceleration; the three barometer heights are the measurements and the
    mean of three accelerometer readings is the control input.

    The filter struct embeds its matrices by value, so the model is a class
    whose matrix fields are values: two of them never share storage, exactly
    as two arrays embedded in one C struct cannot. Every loop nest of
    kalman_step is a method with the same loops, proved against the
    value-level algebra of module Matrices. */
module KalmanRev1 {
  import Matrices
  import MathUtils

  type Matrix = Matrices.Matrix
  type Vector = Matrices.Vector

  datatype OsStatus = OsOk | OsError

  // ---------------------------------------------------------------------------
  // The filter's model matrices and update equations, as values
  // ---------------------------------------------------------------------------

  /** The discrete transition of a constant-acceleration model with sampling
      time t. */
  function Transition(t: real): (A: Matrix)
    ensures Matrices.IsMatrix(A, 3, 3)
  {
    [[1.0, t, t * t / 2.0], [0.0, 1.0, t], [0.0, 0.0, 1.0]]
  }

  /** The input gain, used both for the process noise (Gd) and for the
      acceleration input (Bd). */
  function InputGain(t: real): (g: Vector)
    ensures |g| == 3
  {
    [t * t / 2.0, t, 0.0]
  }

  /** Q G G^T, entry by entry. */
  function NoiseGain(Q: real, G: Vector): (N: Matrix)
    requires |G| == 3
    ensures Matrices.IsMatrix(N, 3, 3)
  {
    seq(3, i requires 0 <= i < 3 => seq(3, j requires 0 <= j < 3 => Q * G[i] * G[j]))
  }

  /** Every barometer measures the height, the first state. */
  const HeightRow: Vector := [1.0, 0.0, 0.0]

  const InitialCovariance: Matrix := Matrices.ScaledIdentity(3, 0.00001)

  const BaroNoise: real := 0.1

  function Sum(a: Vector, k: nat): real
    requires k <= |a|
  {
    if k == 0 then 0.0 else Sum(a, k - 1) + a[k - 1]
  }

  /** The control input: the mean of the three acceleration readings. */
  function Mean(acc: Vector): real
    requires |acc| == 3
  {
    (acc[0] + acc[1] + acc[2]) / 3.0
  }

  /** x_hat = Ad x_bar + Bd u. */
  function Predicted(Ad: Matrix, Bd: Vector, x_bar: Vector, u: real): (x: Vector)
    requires Matrices.IsMatrix(Ad, 3, 3) && |Bd| == 3 && |x_bar| == 3
    ensures |x| == 3
  {
    Matrices.VAdd(Matrices.MatVec(Ad, x_bar, 3, 3), Matrices.VScale(u, Bd))
  }

  /** M X M_T + N: a covariance X carried through the linear map M, plus noise N.
      The predicted covariance P_hat = Ad P_bar Ad_T + GdQGd_T and the innovation
      covariance S = H P_hat H_T + R both have this form. */
  function Propagated(M: Matrix, X: Matrix, M_T: Matrix, N: Matrix): (P: Matrix)
    requires Matrices.IsMatrix(M, 3, 3) && Matrices.IsMatrix(X, 3, 3)
    requires Matrices.IsMatrix(M_T, 3, 3) && Matrices.IsMatrix(N, 3, 3)
    ensures Matrices.IsMatrix(P, 3, 3)
  {
    Matrices.Add(Matrices.Mul(Matrices.Mul(M, X, 3, 3, 3), M_T, 3, 3, 3), N, 3, 3)
  }

  /** The gain K = P_hat H_T S^-1. */
  function Gain(P_hat: Matrix, H_T: Matrix, S_inv: Matrix): (K: Matrix)
    requires Matrices.IsMatrix(P_hat, 3, 3) && Matrices.IsMatrix(H_T, 3, 3) && Matrices.IsMatrix(S_inv, 3, 3)
    ensures Matrices.IsMatrix(K, 3, 3)
  {
    Matrices.Mul(Matrices.Mul(P_hat, H_T, 3, 3, 3), S_inv, 3, 3, 3)
  }

  /** x_bar = x_hat + K (y - H x_hat). */
  function Corrected(K: Matrix, H: Matrix, x_hat: Vector, y: Vector): (x: Vector)
    requires Matrices.IsMatrix(K, 3, 3) && Matrices.IsMatrix(H, 3, 3) && |x_hat| == 3 && |y| == 3
    ensures |x| == 3
  {
    Matrices.VAdd(Matrices.MatVec(K, Matrices.VSub(y, Matrices.MatVec(H, x_hat, 3, 3)), 3, 3), x_hat)
  }

  /** P_bar = (I - K H) P_hat. */
  function CorrectedCovariance(K: Matrix, H: Matrix, P_hat: Matrix): (P: Matrix)
    requires Matrices.IsMatrix(K, 3, 3) && Matrices.IsMatrix(H, 3, 3) && Matrices.IsMatrix(P_hat, 3, 3)
    ensures Matrices.IsMatrix(P, 3, 3)
  {
    Matrices.Mul(Matrices.Sub(Matrices.Identity(3), Matrices.Mul(K, H, 3, 3, 3), 3, 3), P_hat, 3, 3, 3)
  }

  /** The gain when the innovation covariance can be inverted. */
  function GainOf(H: Matrix, P: Matrix, H_T: Matrix, R: Matrix): (r: Matrices.InverseResult)
    requires Is3(H) && Is3(P) && Is3(H_T) && Is3(R)
    ensures r.Inverted? ==> Is3(r.inv)
  {
    match Matrices.Inverse(Propagated(H, P, H_T, R), 3, 0.0)
    case Singular => Matrices.Singular
    case Inverted(S_inv) => Matrices.Inverted(Gain(P, H_T, S_inv))
  }

  predicate Is3(M: Matrix) {
    Matrices.IsMatrix(M, 3, 3)
  }

  // ---------------------------------------------------------------------------
  // The filter struct
  // ---------------------------------------------------------------------------

  class KalmanFilter {
    var t_sampl: real
    var Q: real
    var Ad: Matrix
    var Ad_T: Matrix
    var Gd: Vector
    var Bd: Vector
    var P_hat: Matrix
    var P_bar: Matrix
    var x_hat: Vector
    var x_bar: Vector
    var H_full: Matrix
    var H_full_T: Matrix
    var H_eliminated: Matrix
    var H_eliminated_T: Matrix
    var R_full: Matrix
    var R_eliminated: Matrix
    var GdQGd_T: Matrix
    var K_full: Matrix

    /** Every field has the dimensions the struct gives it. */
    predicate Valid()
      reads this
    {
      Is3(Ad) && Is3(Ad_T) && Is3(P_hat) && Is3(P_bar) && Is3(H_full) && Is3(H_full_T)
      && Is3(R_full) && Is3(GdQGd_T) && Is3(K_full)
      && Matrices.IsMatrix(H_eliminated, 2, 3) && Matrices.IsMatrix(H_eliminated_T, 3, 2)
      && Matrices.IsMatrix(R_eliminated, 2, 2)
      && |Gd| == 3 && |Bd| == 3 && |x_hat| == 3 && |x_bar| == 3
    }

    /** A zeroed filter with sampling time t. */
    constructor (t: real)
      ensures Valid() && t_sampl == t
    {
      t_sampl := t;
      Q := 0.0;
      Ad, Ad_T, P_hat, P_bar := Matrices.Zero(3, 3), Matrices.Zero(3, 3), Matrices.Zero(3, 3), Matrices.Zero(3, 3);
      H_full, H_full_T, R_full := Matrices.Zero(3, 3), Matrices.Zero(3, 3), Matrices.Zero(3, 3);
      GdQGd_T, K_full := Matrices.Zero(3, 3), Matrices.Zero(3, 3);
      H_eliminated, H_eliminated_T, R_eliminated := Matrices.Zero(2, 3), Matrices.Zero(3, 2), Matrices.Zero(2, 2);
      Gd, Bd, x_hat, x_bar := [0.0, 0.0, 0.0], [0.0, 0.0, 0.0], [0.0, 0.0, 0.0], [0.0, 0.0, 0.0];
    }

    /** Builds the constant model from the sampling time; the gain K_full
        and the sampling time keep their values. */
    method InitializeMatrices()
      requires Valid()
      modifies this`Ad, this`Ad_T, this`Gd, this`Bd, this`Q, this`GdQGd_T
      modifies this`P_hat, this`P_bar, this`x_hat, this`x_bar
      modifies this`H_full, this`H_full_T, this`H_eliminated, this`H_eliminated_T, this`R_full, this`R_eliminated
      ensures Valid()
      ensures Ad == Transition(t_sampl) && Ad_T == Matrices.Transpose(Ad, 3, 3)
      ensures Gd == InputGain(t_sampl) && Bd == InputGain(t_sampl)
      ensures Q == 1.0 && GdQGd_T == NoiseGain(Q, Gd)
      ensures P_hat == InitialCovariance && P_bar == InitialCovariance
      ensures x_hat == [0.0, 0.0, 0.0] && x_bar == [0.0, 0.0, 0.0]
      ensures H_full == [HeightRow, HeightRow, HeightRow] && H_full_T == Matrices.Transpose(H_full, 3, 3)
      ensures H_eliminated == [HeightRow, HeightRow] && H_eliminated_T == Matrices.Transpose(H_eliminated, 2, 3)
      ensures R_full == Matrices.ScaledIdentity(3, BaroNoise) && R_eliminated == Matrices.ScaledIdentity(2, BaroNoise)
    {
      InitializeDynamics();
      InitializeEstimate();
      InitializeMeasurements();
    }

    /** The transition, its transpose, the input gains and the process
        noise Q Gd Gd^T. */
    method InitializeDynamics()
      modifies this`Ad, this`Ad_T, this`Gd, this`Bd, this`Q, this`GdQGd_T
      ensures Ad == Transition(t_sampl) && Ad_T == Matrices.Transpose(Ad, 3, 3)
      ensures Gd == InputGain(t_sampl) && Bd == InputGain(t_sampl)
      ensures Q == 1.0 && GdQGd_T == NoiseGain(Q, Gd)
    {
      var t := t_sampl;
      var A_dash := Transition(t);
      var G_dash := InputGain(t);
      Ad := A_dash;
      Ad_T := Matrices.Transpose(A_dash, 3, 3);
      Gd := G_dash;
      Bd := InputGain(t);
      Q := 1.0;
      GdQGd_T := NoiseGain(1.0, G_dash);
    }

    /** The initial estimate: zero state, covariance 1e-5 I. */
    method InitializeEstimate()
      modifies this`P_hat, this`P_bar, this`x_hat, this`x_bar
      ensures P_hat == InitialCovariance && P_bar == InitialCovariance
      ensures x_hat == [0.0, 0.0, 0.0] && x_bar == [0.0, 0.0, 0.0]
    {
      P_hat := InitialCovariance;
      P_bar := InitialCovariance;
      x_hat := [0.0, 0.0, 0.0];
      x_bar := [0.0, 0.0, 0.0];
    }

    /** The measurement matrices for three and for two barometers, their
        transposes, and the measurement noise 0.1 I. */
    method InitializeMeasurements()
      modifies this`H_full, this`H_full_T, this`H_eliminated, this`H_eliminated_T, this`R_full, this`R_eliminated
      ensures H_full == [HeightRow, HeightRow, HeightRow] && H_full_T == Matrices.Transpose(H_full, 3, 3)
      ensures H_eliminated == [HeightRow, HeightRow] && H_eliminated_T == Matrices.Transpose(H_eliminated, 2, 3)
      ensures R_full == Matrices.ScaledIdentity(3, BaroNoise) && R_eliminated == Matrices.ScaledIdentity(2, BaroNoise)
    {
      var H_full_dash := [HeightRow, HeightRow, HeightRow];
      var H_eliminated_dash := [HeightRow, HeightRow];
      H_full := H_full_dash;
      H_full_T := Matrices.Transpose(H_full_dash, 3, 3);
      H_eliminated := H_eliminated_dash;
      H_eliminated_T := Matrices.Transpose(H_eliminated_dash, 2, 3);
      R_full := Matrices.ScaledIdentity(3, BaroNoise);
      R_eliminated := Matrices.ScaledIdentity(2, BaroNoise);
    }

    /** One filter tick: prediction from the mean acceleration, then the
        correction with the three barometer heights. A singular innovation
        covariance aborts the correction: the gain is rolled back and x_bar,
        P_bar keep their values, while the prediction stands. The reduced
        two-barometer matrices are not read. */
    method KalmanStep(acceleration: Vector, calculated_AGL: Vector) returns (status: OsStatus)
      requires Valid() && |acceleration| == 3 && |calculated_AGL| == 3
      modifies this`x_hat, this`P_hat, this`K_full, this`x_bar, this`P_bar
      ensures Valid()
      ensures x_hat == Predicted(Ad, Bd, old(x_bar), Mean(acceleration))
      ensures P_hat == Propagated(Ad, old(P_bar), Ad_T, GdQGd_T)
      ensures status == OsOk <==> GainOf(H_full, P_hat, H_full_T, R_full).Inverted?
      ensures status == OsOk ==>
                K_full == GainOf(H_full, P_hat, H_full_T, R_full).inv
                && x_bar == Corrected(K_full, H_full, x_hat, calculated_AGL)
                && P_bar == CorrectedCovariance(K_full, H_full, P_hat)
      ensures status == OsError ==> K_full == old(K_full) && x_bar == old(x_bar) && P_bar == old(P_bar)
    {
      Predict(acceleration);
      status := ComputeGain();
      if status == OsOk {
        Correct(calculated_AGL);
      }
    }

    /** The prediction half of kalman_step: both buffers are cleared, the
        control input is accumulated as u += (1/3) acc[i], and x_hat, P_hat
        are rebuilt from x_bar, P_bar. */
    method Predict(acceleration: Vector)
      requires Valid() && |acceleration| == 3
      modifies this`x_hat, this`P_hat
      ensures Valid()
      ensures x_hat == Predicted(Ad, Bd, old(x_bar), Mean(acceleration))
      ensures P_hat == Propagated(Ad, old(P_bar), Ad_T, GdQGd_T)
    {
      x_hat := [0.0, 0.0, 0.0];
      P_hat := Matrices.Zero(3, 3);
      var u := 0.0;
      for i := 0 to 3
        invariant u == Sum(acceleration, i) / 3.0
      {
        u := u + (1.0 / 3.0) * acceleration[i];
      }
      assert Sum(acceleration, 1) == acceleration[0];
      x_hat := PredictState(Ad, Bd, x_bar, u);
      var placeholder_mat := MulLoop(Ad, P_bar);
      P_hat := MulAddLoop(placeholder_mat, Ad_T, GdQGd_T);
    }

    /** The gain of kalman_step. K_full is saved and cleared first; when
        the innovation covariance cannot be inverted the saved gain is put
        back and the step fails. */
    method ComputeGain() returns (status: OsStatus)
      requires Valid()
      modifies this`K_full
      ensures Valid()
      ensures status == OsOk <==> GainOf(H_full, P_hat, H_full_T, R_full).Inverted?
      ensures status == OsOk ==> K_full == GainOf(H_full, P_hat, H_full_T, R_full).inv
      ensures status == OsError ==> K_full == old(K_full)
    {
      var old_K := K_full;
      K_full := Matrices.Zero(3, 3);
      var inverted, K := GainStep(H_full, P_hat, H_full_T, R_full);
      if inverted != MathUtils.CatsOk {
        K_full := old_K;
        return OsError;
      }
      K_full := K;
      status := OsOk;
    }

    /** The correction of the state and of its covariance with the gain. */
    method Correct(calculated_AGL: Vector)
      requires Valid() && |calculated_AGL| == 3
      modifies this`x_bar, this`P_bar
      ensures Valid()
      ensures x_bar == Corrected(K_full, H_full, x_hat, calculated_AGL)
      ensures P_bar == CorrectedCovariance(K_full, H_full, P_hat)
    {
      x_bar := CorrectStep(K_full, H_full, x_hat, calculated_AGL);
      P_bar := CovarianceStep(K_full, H_full, P_hat);
    }
  }

  // ---------------------------------------------------------------------------
  // The three stages of the correction, on the local buffers of kalman_step
  // ---------------------------------------------------------------------------

  /** The gain: H P and P H_T side by side, then S = (H P) H_T + R, its
      inverse, and K = (P H_T) S^-1. */
  method GainStep(H: Matrix, P: Matrix, H_T: Matrix, R: Matrix) returns (status: MathUtils.CatsStatus, K: Matrix)
    requires Is3(H) && Is3(P) && Is3(H_T) && Is3(R)
    ensures status == MathUtils.CatsOk <==> GainOf(H, P, H_T, R).Inverted?
    ensures status == MathUtils.CatsOk ==> K == GainOf(H, P, H_T, R).inv
  {
    var placeholder_mat, placeholder_mat3 := TwoProductsLoop(H, P, H_T);
    var placeholder_mat2 := MulAddLoop(placeholder_mat, H_T, R);
    var S_inv;
    status, S_inv := InvertInnovation(placeholder_mat2);
    K := Matrices.Zero(3, 3);
    if status == MathUtils.CatsOk {
      K := MulLoop(placeholder_mat3, S_inv);
    }
  }

  /** x_bar = K (y - H x_hat) + x_hat. */
  method CorrectStep(K: Matrix, H: Matrix, x_hat: Vector, y: Vector) returns (x_bar: Vector)
    requires Is3(K) && Is3(H) && |x_hat| == 3 && |y| == 3
    ensures x_bar == Corrected(K, H, x_hat, y)
  {
    var placeholder_vec := ResidualLoop(H, x_hat, y);
    x_bar := CorrectLoop(K, placeholder_vec, x_hat);
  }

  /** P_bar = (I - K H) P_hat. */
  method CovarianceStep(K: Matrix, H: Matrix, P_hat: Matrix) returns (P_bar: Matrix)
    requires Is3(K) && Is3(H) && Is3(P_hat)
    ensures P_bar == CorrectedCovariance(K, H, P_hat)
  {
    var KH, I_KH := IdentityMinusProductLoop(K, H);
    P_bar := MulLoop(I_KH, P_hat);
  }

  // ---------------------------------------------------------------------------
  // The call to inverse() on the local buffers of kalman_step
  // ---------------------------------------------------------------------------

  /** Copies S into a local 3-by-3 buffer, inverts it with the damped
      inverse of math_utils (damping 0), and reads the result back. */
  method InvertInnovation(S: Matrix) returns (status: MathUtils.CatsStatus, S_inv: Matrix)
    requires Is3(S)
    ensures status == MathUtils.CatsOk <==> Matrices.Inverse(S, 3, 0.0).Inverted?
    ensures status == MathUtils.CatsOk ==> S_inv == Matrices.Inverse(S, 3, 0.0).inv
  {
    var S_buffer := new real[3, 3]((r, c) requires 0 <= r < 3 && 0 <= c < 3 => S[r][c]);
    var inverse_buffer := new real[3, 3]((_, _) => 0.0);
    assert MathUtils.Contents(S_buffer) == S by {
      Matrices.MatrixExt(MathUtils.Contents(S_buffer), S, 3, 3);
    }
    status := MathUtils.Inverse(3, S_buffer, inverse_buffer, 0.0);
    S_inv := seq(3, r requires 0 <= r < 3 reads inverse_buffer =>
                   seq(3, c requires 0 <= c < 3 reads inverse_buffer => inverse_buffer[r, c]));
    assert S_inv == MathUtils.Contents(inverse_buffer) by {
      Matrices.MatrixExt(S_inv, MathUtils.Contents(inverse_buffer), 3, 3);
    }
  }

  // ---------------------------------------------------------------------------
  // The loop nests of kalman_step, accumulating into zeroed buffers
  // ---------------------------------------------------------------------------

  /** x_hat[i] := u Bd[i], then x_hat[i] += Ad[i][j] x_bar[j] for each j. */
  method PredictState(Ad: Matrix, Bd: Vector, x_bar: Vector, u: real) returns (x_hat: Vector)
    requires Is3(Ad) && |Bd| == 3 && |x_bar| == 3
    ensures x_hat == Predicted(Ad, Bd, x_bar, u)
  {
    x_hat := [0.0, 0.0, 0.0];
    for i := 0 to 3
      invariant |x_hat| == 3
      invariant forall r :: 0 <= r < i ==> x_hat[r] == u * Bd[r] + Matrices.Inner(Ad[r], x_bar, 3)
    {
      x_hat := x_hat[i := u * Bd[i]];
      for j := 0 to 3
        invariant |x_hat| == 3
        invariant forall r :: 0 <= r < i ==> x_hat[r] == u * Bd[r] + Matrices.Inner(Ad[r], x_bar, 3)
        invariant x_hat[i] == u * Bd[i] + Matrices.Inner(Ad[i], x_bar, j)
      {
        x_hat := x_hat[i := x_hat[i] + Ad[i][j] * x_bar[j]];
      }
    }
    assert forall r :: 0 <= r < 3 ==> x_hat[r] == Predicted(Ad, Bd, x_bar, u)[r];
  }

  /** The innermost loop of a product: C[i][j] += A[i][k] B[k][j] for
      k = 0, 1, 2; no other entry of C changes. */
  method AccumulateEntry(A: Matrix, B: Matrix, C: Matrix, i: nat, j: nat) returns (D: Matrix)
    requires Is3(A) && Is3(B) && Is3(C) && i < 3 && j < 3
    ensures Is3(D)
    ensures D[i][j] == C[i][j] + Matrices.Dot(A, B, i, j, 3)
    ensures forall r, c :: 0 <= r < 3 && 0 <= c < 3 && (r != i || c != j) ==> D[r][c] == C[r][c]
  {
    D := C;
    for k := 0 to 3
      invariant Is3(D)
      invariant D[i][j] == C[i][j] + Matrices.Dot(A, B, i, j, k)
      invariant forall r, c :: 0 <= r < 3 && 0 <= c < 3 && (r != i || c != j) ==> D[r][c] == C[r][c]
    {
      D := D[i := D[i][j := D[i][j] + A[i][k] * B[k][j]]];
    }
  }

  /** C := A B, accumulated into a zeroed buffer. */
  method MulLoop(A: Matrix, B: Matrix) returns (C: Matrix)
    requires Is3(A) && Is3(B)
    ensures C == Matrices.Mul(A, B, 3, 3, 3)
  {
    C := Matrices.Zero(3, 3);
    for i := 0 to 3
      invariant Is3(C)
      invariant forall r, c :: 0 <= r < 3 && 0 <= c < 3 ==>
                  C[r][c] == if r < i then Matrices.Dot(A, B, r, c, 3) else 0.0
    {
      for j := 0 to 3
        invariant Is3(C)
        invariant forall r, c :: 0 <= r < 3 && 0 <= c < 3 ==>
                    C[r][c] == if r < i || (r == i && c < j) then Matrices.Dot(A, B, r, c, 3) else 0.0
      {
        C := AccumulateEntry(A, B, C, i, j);
      }
    }
    Matrices.MatrixExt(C, Matrices.Mul(A, B, 3, 3, 3), 3, 3);
  }

  /** C := A B + E, accumulated into a zeroed buffer (the covariance
      prediction and the innovation covariance). */
  method MulAddLoop(A: Matrix, B: Matrix, E: Matrix) returns (C: Matrix)
    requires Is3(A) && Is3(B) && Is3(E)
    ensures C == Matrices.Add(Matrices.Mul(A, B, 3, 3, 3), E, 3, 3)
  {
    C := Matrices.Zero(3, 3);
    for i := 0 to 3
      invariant Is3(C)
      invariant forall r, c :: 0 <= r < 3 && 0 <= c < 3 ==>
                  C[r][c] == if r < i then Matrices.Dot(A, B, r, c, 3) + E[r][c] else 0.0
    {
      for j := 0 to 3
        invariant Is3(C)
        invariant forall r, c :: 0 <= r < 3 && 0 <= c < 3 ==>
                    C[r][c] == if r < i || (r == i && c < j) then Matrices.Dot(A, B, r, c, 3) + E[r][c] else 0.0
      {
        C := AccumulateEntry(A, B, C, i, j);
        C := C[i := C[i][j := C[i][j] + E[i][j]]];
      }
    }
    Matrices.MatrixExt(C, Matrices.Add(Matrices.Mul(A, B, 3, 3, 3), E, 3, 3), 3, 3);
  }

  /** HP := H P and PHT := P H_T, accumulated side by side in one loop
      nest. */
  method TwoProductsLoop(H: Matrix, P: Matrix, H_T: Matrix) returns (HP: Matrix, PHT: Matrix)
    requires Is3(H) && Is3(P) && Is3(H_T)
    ensures HP == Matrices.Mul(H, P, 3, 3, 3) && PHT == Matrices.Mul(P, H_T, 3, 3, 3)
  {
    HP, PHT := Matrices.Zero(3, 3), Matrices.Zero(3, 3);
    for i := 0 to 3
      invariant Is3(HP) && Is3(PHT)
      invariant forall r, c :: 0 <= r < 3 && 0 <= c < 3 ==>
                  HP[r][c] == (if r < i then Matrices.Dot(H, P, r, c, 3) else 0.0)
                  && PHT[r][c] == (if r < i then Matrices.Dot(P, H_T, r, c, 3) else 0.0)
    {
      for j := 0 to 3
        invariant Is3(HP) && Is3(PHT)
        invariant forall r, c :: 0 <= r < 3 && 0 <= c < 3 ==>
                    HP[r][c] == (if r < i || (r == i && c < j) then Matrices.Dot(H, P, r, c, 3) else 0.0)
                    && PHT[r][c] == (if r < i || (r == i && c < j) then Matrices.Dot(P, H_T, r, c, 3) else 0.0)
      {
        HP, PHT := AccumulateEntryPair(H, P, H_T, HP, PHT, i, j);
      }
    }
    Matrices.MatrixExt(HP, Matrices.Mul(H, P, 3, 3, 3), 3, 3);
    Matrices.MatrixExt(PHT, Matrices.Mul(P, H_T, 3, 3, 3), 3, 3);
  }

  /** The innermost loop of TwoProductsLoop. */
  method AccumulateEntryPair(H: Matrix, P: Matrix, H_T: Matrix, HP: Matrix, PHT: Matrix, i: nat, j: nat)
    returns (HP': Matrix, PHT': Matrix)
    requires Is3(H) && Is3(P) && Is3(H_T) && Is3(HP) && Is3(PHT) && i < 3 && j < 3
    ensures Is3(HP') && Is3(PHT')
    ensures HP'[i][j] == HP[i][j] + Matrices.Dot(H, P, i, j, 3)
    ensures PHT'[i][j] == PHT[i][j] + Matrices.Dot(P, H_T, i, j, 3)
    ensures forall r, c :: 0 <= r < 3 && 0 <= c < 3 && (r != i || c != j) ==>
              HP'[r][c] == HP[r][c] && PHT'[r][c] == PHT[r][c]
  {
    HP', PHT' := HP, PHT;
    for k := 0 to 3
      invariant Is3(HP') && Is3(PHT')
      invariant HP'[i][j] == HP[i][j] + Matrices.Dot(H, P, i, j, k)
      invariant PHT'[i][j] == PHT[i][j] + Matrices.Dot(P, H_T, i, j, k)
      invariant forall r, c :: 0 <= r < 3 && 0 <= c < 3 && (r != i || c != j) ==>
                  HP'[r][c] == HP[r][c] && PHT'[r][c] == PHT[r][c]
    {
      HP' := HP'[i := HP'[i][j := HP'[i][j] + H[i][k] * P[k][j]]];
      PHT' := PHT'[i := PHT'[i][j := PHT'[i][j] + P[i][k] * H_T[k][j]]];
    }
  }

  /** v := y - H x, accumulating H x in v first. */
  method ResidualLoop(H: Matrix, x: Vector, y: Vector) returns (v: Vector)
    requires Is3(H) && |x| == 3 && |y| == 3
    ensures v == Matrices.VSub(y, Matrices.MatVec(H, x, 3, 3))
  {
    v := [0.0, 0.0, 0.0];
    for i := 0 to 3
      invariant |v| == 3
      invariant forall r :: 0 <= r < 3 ==> v[r] == if r < i then y[r] - Matrices.Inner(H[r], x, 3) else 0.0
    {
      for j := 0 to 3
        invariant |v| == 3
        invariant forall r :: 0 <= r < 3 && r != i ==>
                    v[r] == if r < i then y[r] - Matrices.Inner(H[r], x, 3) else 0.0
        invariant v[i] == Matrices.Inner(H[i], x, j)
      {
        v := v[i := v[i] + H[i][j] * x[j]];
      }
      v := v[i := y[i] - v[i]];
    }
  }

  /** x_bar := K v + x_hat, accumulating K v first. */
  method CorrectLoop(K: Matrix, v: Vector, x_hat: Vector) returns (x_bar: Vector)
    requires Is3(K) && |v| == 3 && |x_hat| == 3
    ensures x_bar == Matrices.VAdd(Matrices.MatVec(K, v, 3, 3), x_hat)
  {
    x_bar := [0.0, 0.0, 0.0];
    for i := 0 to 3
      invariant |x_bar| == 3
      invariant forall r :: 0 <= r < 3 ==>
                  x_bar[r] == if r < i then Matrices.Inner(K[r], v, 3) + x_hat[r] else 0.0
    {
      for j := 0 to 3
        invariant |x_bar| == 3
        invariant forall r :: 0 <= r < 3 && r != i ==>
                    x_bar[r] == if r < i then Matrices.Inner(K[r], v, 3) + x_hat[r] else 0.0
        invariant x_bar[i] == Matrices.Inner(K[i], v, j)
      {
        x_bar := x_bar[i := x_bar[i] + K[i][j] * v[j]];
      }
      x_bar := x_bar[i := x_bar[i] + x_hat[i]];
    }
  }

  /** KH := K H and D := I - K H, in one loop nest. */
  method IdentityMinusProductLoop(K: Matrix, H: Matrix) returns (KH: Matrix, D: Matrix)
    requires Is3(K) && Is3(H)
    ensures KH == Matrices.Mul(K, H, 3, 3, 3)
    ensures D == Matrices.Sub(Matrices.Identity(3), KH, 3, 3)
  {
    KH, D := Matrices.Zero(3, 3), Matrices.Zero(3, 3);
    for i := 0 to 3
      invariant Is3(KH) && Is3(D)
      invariant forall r, c :: 0 <= r < 3 && 0 <= c < 3 ==>
                  KH[r][c] == if r < i then Matrices.Dot(K, H, r, c, 3) else 0.0
      invariant forall r, c :: 0 <= r < i && 0 <= c < 3 ==>
                  D[r][c] == (if r == c then 1.0 else 0.0) - KH[r][c]
    {
      for j := 0 to 3
        invariant Is3(KH) && Is3(D)
        invariant forall r, c :: 0 <= r < 3 && 0 <= c < 3 ==>
                    KH[r][c] == if r < i || (r == i && c < j) then Matrices.Dot(K, H, r, c, 3) else 0.0
        invariant forall r, c :: 0 <= r < 3 && 0 <= c < 3 && (r < i || (r == i && c < j)) ==>
                    D[r][c] == (if r == c then 1.0 else 0.0) - KH[r][c]
      {
        KH := AccumulateEntry(K, H, KH, i, j);
        if i == j {
          D := D[i := D[i][j := 1.0 - KH[i][j]]];
        } else {
          D := D[i := D[i][j := -KH[i][j]]];
        }
      }
    }
    Matrices.MatrixExt(KH, Matrices.Mul(K, H, 3, 3, 3), 3, 3);
    Matrices.MatrixExt(D, Matrices.Sub(Matrices.Identity(3), KH, 3, 3), 3, 3);
  }

  // ---------------------------------------------------------------------------
  // What the equations mean
  // ---------------------------------------------------------------------------

  /** The prediction integrates the motion over one sample: the height
      moves by t v + t^2/2 a, the velocity by t a, and the mean measured
      acceleration u enters both as it would through a constant push. */
  lemma PredictionIntegratesMotion(t: real, x: Vector, u: real)
    requires |x| == 3
    ensures Predicted(Transition(t), InputGain(t), x, u)
            == [x[0] + t * x[1] + t * t / 2.0 * x[2] + u * (t * t / 2.0), x[1] + t * x[2] + u * t, x[2]]
  {
    var A := Transition(t);
    assert Matrices.Inner(A[0], x, 3) == x[0] + t * x[1] + t * t / 2.0 * x[2] by {
      assert Matrices.Inner(A[0], x, 1) == 1.0 * x[0];
    }
    assert Matrices.Inner(A[1], x, 3) == x[1] + t * x[2] by {
      assert Matrices.Inner(A[1], x, 1) == 0.0 * x[0];
    }
    assert Matrices.Inner(A[2], x, 3) == x[2] by {
      assert Matrices.Inner(A[2], x, 1) == 0.0 * x[0];
    }
    var p := Predicted(A, InputGain(t), x, u);
    assert p[0] == Matrices.Inner(A[0], x, 3) + u * (t * t / 2.0);
    assert p[1] == Matrices.Inner(A[1], x, 3) + u * t;
    assert p[2] == Matrices.Inner(A[2], x, 3) + u * 0.0;
  }

  /** Every barometer row of H_full reads the height. */
  lemma BarometersReadHeight(x: Vector)
    requires |x| == 3
    ensures Matrices.MatVec([HeightRow, HeightRow, HeightRow], x, 3, 3) == [x[0], x[0], x[0]]
  {
    assert Matrices.Inner(HeightRow, x, 3) == x[0] by {
      assert Matrices.Inner(HeightRow, x, 1) == 1.0 * x[0];
    }
  }

  /** When the barometers agree with the predicted height, the correction
      leaves the prediction as it is, whatever the gain. */
  lemma ZeroInnovationKeepsPrediction(K: Matrix, H: Matrix, x_hat: Vector, y: Vector)
    requires Is3(K) && Is3(H) && |x_hat| == 3 && |y| == 3
    requires y == Matrices.MatVec(H, x_hat, 3, 3)
    ensures Corrected(K, H, x_hat, y) == x_hat
  {
    var v := Matrices.VSub(y, Matrices.MatVec(H, x_hat, 3, 3));
    assert v == [0.0, 0.0, 0.0];
    forall i | 0 <= i < 3
      ensures Matrices.Inner(K[i], v, 3) == 0.0
    {
      assert Matrices.Inner(K[i], v, 1) == K[i][0] * 0.0;
    }
    assert Corrected(K, H, x_hat, y) == Matrices.VAdd(Matrices.MatVec(K, v, 3, 3), x_hat);
  }

  /** The defining equation of the Kalman gain: whenever the innovation
      covariance S can be inverted, the gain K solves K S = P_hat H_T. */
  lemma GainSolvesInnovation(H: Matrix, P: Matrix, H_T: Matrix, R: Matrix)
    requires Is3(H) && Is3(P) && Is3(H_T) && Is3(R)
    ensures GainOf(H, P, H_T, R).Inverted? <==> Matrices.Det(Propagated(H, P, H_T, R), 3) != 0.0
    ensures GainOf(H, P, H_T, R).Inverted? ==>
              Matrices.Mul(GainOf(H, P, H_T, R).inv, Propagated(H, P, H_T, R), 3, 3, 3)
              == Matrices.Mul(P, H_T, 3, 3, 3)
  {
    var S := Propagated(H, P, H_T, R);
    Matrices.InverseCorrect(S, 3);
    var r := Matrices.Inverse(S, 3, 0.0);
    if r.Inverted? {
      var PHT := Matrices.Mul(P, H_T, 3, 3, 3);
      calc {
        Matrices.Mul(GainOf(H, P, H_T, R).inv, S, 3, 3, 3);
      ==
        Matrices.Mul(Matrices.Mul(PHT, r.inv, 3, 3, 3), S, 3, 3, 3);
      == { Matrices.Mul3Assoc(PHT, r.inv, S); }
        Matrices.Mul(PHT, Matrices.Mul(r.inv, S, 3, 3, 3), 3, 3, 3);
      == { Matrices.Mul3IdentityRight(PHT); }
        PHT;
      }
    }
  }

  /** Q Gd Gd^T is symmetric. */
  lemma NoiseGainSymmetric(Q: real, G: Vector)
    requires |G| == 3
    ensures Matrices.IsSymmetric(NoiseGain(Q, G), 3)
  {
    var N := NoiseGain(Q, G);
    forall i, j | 0 <= i < 3 && 0 <= j < 3
      ensures N[i][j] == N[j][i]
    {
      assert N[i][j] == Q * G[i] * G[j];
    }
  }

  /** One entry of A P A^T, against its mirror entry, for a symmetric P. */
  lemma CongruenceEntry(a0: real, a1: real, a2: real, b0: real, b1: real, b2: real,
                        p00: real, p01: real, p02: real, p11: real, p12: real, p22: real)
    ensures (a0 * p00 + a1 * p01 + a2 * p02) * b0 + (a0 * p01 + a1 * p11 + a2 * p12) * b1
            + (a0 * p02 + a1 * p12 + a2 * p22) * b2
            == (b0 * p00 + b1 * p01 + b2 * p02) * a0 + (b0 * p01 + b1 * p11 + b2 * p12) * a1
               + (b0 * p02 + b1 * p12 + b2 * p22) * a2
  {
  }

  /** The predicted covariance Ad P_bar Ad^T + GdQGd_T stays symmetric when
      P_bar and the process noise are symmetric and Ad_T is the transpose
      of Ad. */
  lemma PredictionKeepsSymmetry(Ad: Matrix, P_bar: Matrix, Ad_T: Matrix, GQG: Matrix)
    requires Is3(Ad) && Is3(P_bar) && Is3(GQG)
    requires Ad_T == Matrices.Transpose(Ad, 3, 3)
    requires Matrices.IsSymmetric(P_bar, 3) && Matrices.IsSymmetric(GQG, 3)
    ensures Matrices.IsSymmetric(Propagated(Ad, P_bar, Ad_T, GQG), 3)
  {
    var AP := Matrices.Mul(Ad, P_bar, 3, 3, 3);
    var APA := Matrices.Mul(AP, Ad_T, 3, 3, 3);
    forall i, j | 0 <= i < 3 && 0 <= j < 3
      ensures APA[i][j] == APA[j][i]
    {
      Matrices.Mul3Entry(AP, Ad_T, i, j);
      Matrices.Mul3Entry(AP, Ad_T, j, i);
      forall k | 0 <= k < 3
        ensures AP[i][k] == Ad[i][0] * P_bar[0][k] + Ad[i][1] * P_bar[1][k] + Ad[i][2] * P_bar[2][k]
        ensures AP[j][k] == Ad[j][0] * P_bar[0][k] + Ad[j][1] * P_bar[1][k] + Ad[j][2] * P_bar[2][k]
      {
        Matrices.Mul3Entry(Ad, P_bar, i, k);
        Matrices.Mul3Entry(Ad, P_bar, j, k);
      }
      CongruenceEntry(Ad[i][0], Ad[i][1], Ad[i][2], Ad[j][0], Ad[j][1], Ad[j][2],
                      P_bar[0][0], P_bar[0][1], P_bar[0][2], P_bar[1][1], P_bar[1][2], P_bar[2][2]);
    }
  }
}

