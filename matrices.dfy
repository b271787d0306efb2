/** Value-level linear algebra for the small (dimension at most 3) matrices of
    the flight computer's state estimator. Matrices are sequences of rows of
    reals; every operation names its dimensions explicitly, as the C kernel
    does. The array-based kernel (module MathUtils) and both Kalman filters are
    proved against these definitions. */
module Matrices {

  type Matrix = seq<seq<real>>
  type Vector = seq<real>

  /** A has m rows of n entries each. */
  predicate IsMatrix(A: Matrix, m: nat, n: nat) {
    |A| == m && forall i :: 0 <= i < m ==> |A[i]| == n
  }

  predicate IsSymmetric(A: Matrix, n: nat)
    requires IsMatrix(A, n, n)
  {
    forall i, j :: 0 <= i < n && 0 <= j < n ==> A[i][j] == A[j][i]
  }

  /** s times the n-by-n identity. */
  function ScaledIdentity(n: nat, s: real): (D: Matrix)
    ensures IsMatrix(D, n, n)
  {
    seq(n, i requires 0 <= i < n => seq(n, j requires 0 <= j < n => if i == j then s else 0.0))
  }

  function Identity(n: nat): (I: Matrix)
    ensures IsMatrix(I, n, n)
  {
    ScaledIdentity(n, 1.0)
  }

  /** The m-by-n zero matrix: what a memset leaves in a buffer. */
  function Zero(m: nat, n: nat): (Z: Matrix)
    ensures IsMatrix(Z, m, n)
  {
    seq(m, i requires 0 <= i < m => seq(n, j requires 0 <= j < n => 0.0))
  }

  function Transpose(A: Matrix, m: nat, n: nat): (T: Matrix)
    requires IsMatrix(A, m, n)
    ensures IsMatrix(T, n, m)
  {
    seq(n, j requires 0 <= j < n => seq(m, i requires 0 <= i < m => A[i][j]))
  }

  /** A[i][0]*B[0][j] + ... + A[i][k-1]*B[k-1][j], summed from the left as the
      C loops accumulate it. */
  function Dot(A: Matrix, B: Matrix, i: nat, j: nat, k: nat): real
    requires i < |A| && k <= |A[i]| && k <= |B|
    requires forall t :: 0 <= t < k ==> j < |B[t]|
  {
    if k == 0 then 0.0 else Dot(A, B, i, j, k - 1) + A[i][k - 1] * B[k - 1][j]
  }

  function Mul(A: Matrix, B: Matrix, m: nat, p: nat, n: nat): (C: Matrix)
    requires IsMatrix(A, m, p) && IsMatrix(B, p, n)
    ensures IsMatrix(C, m, n)
  {
    seq(m, i requires 0 <= i < m => seq(n, j requires 0 <= j < n => Dot(A, B, i, j, p)))
  }

  function Add(A: Matrix, B: Matrix, m: nat, n: nat): (C: Matrix)
    requires IsMatrix(A, m, n) && IsMatrix(B, m, n)
    ensures IsMatrix(C, m, n)
  {
    seq(m, i requires 0 <= i < m => seq(n, j requires 0 <= j < n => A[i][j] + B[i][j]))
  }

  function Sub(A: Matrix, B: Matrix, m: nat, n: nat): (C: Matrix)
    requires IsMatrix(A, m, n) && IsMatrix(B, m, n)
    ensures IsMatrix(C, m, n)
  {
    seq(m, i requires 0 <= i < m => seq(n, j requires 0 <= j < n => A[i][j] - B[i][j]))
  }

  /** a[0]*b[0] + ... + a[k-1]*b[k-1], summed from the left. */
  function Inner(a: Vector, b: Vector, k: nat): real
    requires k <= |a| && k <= |b|
  {
    if k == 0 then 0.0 else Inner(a, b, k - 1) + a[k - 1] * b[k - 1]
  }

  function MatVec(A: Matrix, x: Vector, m: nat, n: nat): (y: Vector)
    requires IsMatrix(A, m, n) && |x| == n
    ensures |y| == m
  {
    seq(m, i requires 0 <= i < m => Inner(A[i], x, n))
  }

  function VAdd(a: Vector, b: Vector): (c: Vector)
    requires |a| == |b|
    ensures |c| == |a|
  {
    seq(|a|, i requires 0 <= i < |a| => a[i] + b[i])
  }

  function VSub(a: Vector, b: Vector): (c: Vector)
    requires |a| == |b|
    ensures |c| == |a|
  {
    seq(|a|, i requires 0 <= i < |a| => a[i] - b[i])
  }

  function VScale(s: real, a: Vector): (c: Vector)
    ensures |c| == |a|
  {
    seq(|a|, i requires 0 <= i < |a| => s * a[i])
  }

  /** The outer product a b^T of two vectors. */
  function Outer(a: Vector, b: Vector): (C: Matrix)
    ensures IsMatrix(C, |a|, |b|)
  {
    seq(|a|, i requires 0 <= i < |a| => seq(|b|, j requires 0 <= j < |b| => a[i] * b[j]))
  }

  // ---------------------------------------------------------------------------
  // Determinant, cofactors, adjoint and the damped inverse
  // ---------------------------------------------------------------------------

  /** The index of the original row (column) that lands at position i once row
      (column) p is deleted. */
  function Skip(i: nat, p: nat): nat {
    if i < p then i else i + 1
  }

  /** The (n-1)-by-(n-1) matrix left when row p and column q are deleted. */
  function Minor(A: Matrix, n: nat, p: nat, q: nat): (M: Matrix)
    requires 1 <= n && IsMatrix(A, n, n) && p < n && q < n
    ensures IsMatrix(M, n - 1, n - 1)
  {
    seq(n - 1, i requires 0 <= i < n - 1 => seq(n - 1, j requires 0 <= j < n - 1 => A[Skip(i, p)][Skip(j, q)]))
  }

  /** +1 for even k, -1 for odd k: the alternating sign of the expansions. */
  function Sign(k: nat): real {
    if k % 2 == 0 then 1.0 else -1.0
  }

  /** Sign(k) * x, written without a multiplication. */
  function Signed(k: nat, x: real): (r: real)
    ensures r == Sign(k) * x
  {
    if k % 2 == 0 then x else -x
  }

  /** Laplace expansion of the determinant along the first row. */
  function Det(A: Matrix, n: nat): real
    requires 1 <= n && IsMatrix(A, n, n)
    decreases n, n + 1
  {
    if n == 1 then A[0][0] else Expansion(A, n, n)
  }

  /** The first k terms of the first-row expansion, accumulated left to right
      with alternating signs +, -, +, ... */
  function Expansion(A: Matrix, n: nat, k: nat): real
    requires 2 <= n && IsMatrix(A, n, n) && k <= n
    decreases n, k
  {
    if k == 0 then 0.0
    else Expansion(A, n, k - 1) + Signed(k - 1, A[0][k - 1] * Det(Minor(A, n, 0, k - 1), n - 1))
  }

  /** The signed cofactor of entry (i, j). */
  function Cof(A: Matrix, n: nat, i: nat, j: nat): real
    requires 2 <= n && IsMatrix(A, n, n) && i < n && j < n
  {
    Signed(i + j, Det(Minor(A, n, i, j), n - 1))
  }

  /** The adjoint (adjugate): the transposed cofactor matrix; by convention the
      1-by-1 identity when n = 1. */
  function Adjoint(A: Matrix, n: nat): (Adj: Matrix)
    requires 1 <= n && IsMatrix(A, n, n)
    ensures IsMatrix(Adj, n, n)
  {
    if n == 1 then [[1.0]] else seq(n, r requires 0 <= r < n => seq(n, c requires 0 <= c < n => Cof(A, n, c, r)))
  }

  /** A + damping^2 I (the factor lambda of the C kernel): Tikhonov damping;
      damping = 0 leaves A as it is. */
  function Damped(A: Matrix, n: nat, damping: real): (D: Matrix)
    requires IsMatrix(A, n, n)
    ensures IsMatrix(D, n, n)
  {
    seq(n, i requires 0 <= i < n => seq(n, j requires 0 <= j < n => if i == j then A[i][j] + damping * damping else A[i][j]))
  }

  /** Every entry of the m-by-n matrix A divided by d. */
  function DivideEntries(A: Matrix, m: nat, n: nat, d: real): (Q: Matrix)
    requires IsMatrix(A, m, n) && d != 0.0
    ensures IsMatrix(Q, m, n)
  {
    seq(m, i requires 0 <= i < m => seq(n, j requires 0 <= j < n => A[i][j] / d))
  }

  datatype InverseResult = Singular | Inverted(inv: Matrix)

  /** The damped inverse adj(A')/det(A') of A' = A + damping^2 I; Singular
      exactly when det(A') is zero. */
  function Inverse(A: Matrix, n: nat, damping: real): (r: InverseResult)
    requires 1 <= n && IsMatrix(A, n, n)
    ensures r.Inverted? ==> IsMatrix(r.inv, n, n)
  {
    var D := Damped(A, n, damping);
    var d := Det(D, n);
    if d == 0.0 then Singular
    else
      Inverted(DivideEntries(Adjoint(D, n), n, n, d))
  }

  // ---------------------------------------------------------------------------
  // Properties
  // ---------------------------------------------------------------------------

  lemma TransposeInvolution(A: Matrix, m: nat, n: nat)
    requires IsMatrix(A, m, n)
    ensures Transpose(Transpose(A, m, n), n, m) == A
  {
    var T := Transpose(A, m, n);
    var TT := Transpose(T, n, m);
    forall i | 0 <= i < m
      ensures TT[i] == A[i]
    {
      assert forall j :: 0 <= j < n ==> TT[i][j] == T[j][i] == A[i][j];
    }
  }

  /** Every entry of a minor is the entry of A it was copied from, and every
      entry of A outside row p and column q appears in the minor. */
  lemma MinorEntries(A: Matrix, n: nat, p: nat, q: nat, r: nat, c: nat)
    requires 1 <= n && IsMatrix(A, n, n) && p < n && q < n
    requires r < n && c < n && r != p && c != q
    ensures var i := if r < p then r else r - 1;
            var j := if c < q then c else c - 1;
            i < n - 1 && j < n - 1 && Minor(A, n, p, q)[i][j] == A[r][c]
  {
    var i := if r < p then r else r - 1;
    var j := if c < q then c else c - 1;
    assert Skip(i, p) == r && Skip(j, q) == c;
  }

  lemma Det1(A: Matrix)
    requires IsMatrix(A, 1, 1)
    ensures Det(A, 1) == A[0][0]
  {
  }

  lemma {:induction false} Det2(A: Matrix)
    requires IsMatrix(A, 2, 2)
    ensures Det(A, 2) == A[0][0] * A[1][1] - A[0][1] * A[1][0]
  {
    var M0 := Minor(A, 2, 0, 0);
    var M1 := Minor(A, 2, 0, 1);
    assert Skip(0, 0) == 1 && Skip(0, 1) == 0;
    assert M0[0][0] == A[1][1];
    assert M1[0][0] == A[1][0];
    calc {
      Det(A, 2);
      Expansion(A, 2, 2);
      Expansion(A, 2, 1) + Sign(1) * A[0][1] * Det(M1, 1);
      Expansion(A, 2, 0) + Sign(0) * A[0][0] * Det(M0, 1) + Sign(1) * A[0][1] * Det(M1, 1);
      A[0][0] * A[1][1] - A[0][1] * A[1][0];
    }
  }

  /** The cofactor expansion of a 3-by-3 determinant, written out. */
  function Det3Formula(A: Matrix): real
    requires IsMatrix(A, 3, 3)
  {
    A[0][0] * (A[1][1] * A[2][2] - A[1][2] * A[2][1])
    - A[0][1] * (A[1][0] * A[2][2] - A[1][2] * A[2][0])
    + A[0][2] * (A[1][0] * A[2][1] - A[1][1] * A[2][0])
  }

  /** Det of the 2-by-2 minor of a 3-by-3 matrix, in closed form. */
  lemma MinorDet3(A: Matrix, p: nat, q: nat)
    requires IsMatrix(A, 3, 3) && p < 3 && q < 3
    ensures var r0, r1 := Skip(0, p), Skip(1, p);
            var c0, c1 := Skip(0, q), Skip(1, q);
            Det(Minor(A, 3, p, q), 2) == A[r0][c0] * A[r1][c1] - A[r0][c1] * A[r1][c0]
  {
    Det2(Minor(A, 3, p, q));
  }

  lemma Det3(A: Matrix)
    requires IsMatrix(A, 3, 3)
    ensures Det(A, 3) == Det3Formula(A)
  {
    MinorDet3(A, 0, 0);
    MinorDet3(A, 0, 1);
    MinorDet3(A, 0, 2);
    assert Expansion(A, 3, 1) == A[0][0] * Det(Minor(A, 3, 0, 0), 2);
    assert Expansion(A, 3, 2) == Expansion(A, 3, 1) - A[0][1] * Det(Minor(A, 3, 0, 1), 2);
  }

  lemma DampedZero(A: Matrix, n: nat)
    requires IsMatrix(A, n, n)
    ensures Damped(A, n, 0.0) == A
  {
    var D := Damped(A, n, 0.0);
    forall i | 0 <= i < n
      ensures D[i] == A[i]
    {
    }
  }

  /** Entry (i, j) of a product of 3-by-3 matrices, written out. */
  lemma Mul3Entry(A: Matrix, B: Matrix, i: nat, j: nat)
    requires IsMatrix(A, 3, 3) && IsMatrix(B, 3, 3) && i < 3 && j < 3
    ensures Mul(A, B, 3, 3, 3)[i][j] == A[i][0] * B[0][j] + A[i][1] * B[1][j] + A[i][2] * B[2][j]
  {
    assert Dot(A, B, i, j, 1) == A[i][0] * B[0][j];
    assert Dot(A, B, i, j, 2) == Dot(A, B, i, j, 1) + A[i][1] * B[1][j];
  }

  /** Entry (i, j) of a product of 2-by-2 matrices, written out. */
  lemma Mul2Entry(A: Matrix, B: Matrix, i: nat, j: nat)
    requires IsMatrix(A, 2, 2) && IsMatrix(B, 2, 2) && i < 2 && j < 2
    ensures Mul(A, B, 2, 2, 2)[i][j] == A[i][0] * B[0][j] + A[i][1] * B[1][j]
  {
    assert Dot(A, B, i, j, 1) == A[i][0] * B[0][j];
  }

  /** Two m-by-n matrices that agree entry by entry are equal. */
  lemma MatrixExt(A: Matrix, B: Matrix, m: nat, n: nat)
    requires IsMatrix(A, m, n) && IsMatrix(B, m, n)
    requires forall i, j :: 0 <= i < m && 0 <= j < n ==> A[i][j] == B[i][j]
    ensures A == B
  {
    forall i | 0 <= i < m
      ensures A[i] == B[i]
    {
    }
  }

  /** Two 3-by-3 matrices that agree in each of the nine entries are equal. */
  lemma Ext3(A: Matrix, B: Matrix)
    requires IsMatrix(A, 3, 3) && IsMatrix(B, 3, 3)
    requires A[0][0] == B[0][0] && A[0][1] == B[0][1] && A[0][2] == B[0][2]
    requires A[1][0] == B[1][0] && A[1][1] == B[1][1] && A[1][2] == B[1][2]
    requires A[2][0] == B[2][0] && A[2][1] == B[2][1] && A[2][2] == B[2][2]
    ensures A == B
  {
    assert A[0] == B[0] && A[1] == B[1] && A[2] == B[2];
  }

  /** Two 2-by-2 matrices that agree in each of the four entries are equal. */
  lemma Ext2(A: Matrix, B: Matrix)
    requires IsMatrix(A, 2, 2) && IsMatrix(B, 2, 2)
    requires A[0][0] == B[0][0] && A[0][1] == B[0][1]
    requires A[1][0] == B[1][0] && A[1][1] == B[1][1]
    ensures A == B
  {
    assert A[0] == B[0] && A[1] == B[1];
  }

  lemma Adjoint2(A: Matrix)
    requires IsMatrix(A, 2, 2)
    ensures IsAdjoint2(A, Adjoint(A, 2))
  {
    var Adj := Adjoint(A, 2);
    assert Skip(0, 0) == 1 && Skip(0, 1) == 0;
    assert Adj[0][0] == Cof(A, 2, 0, 0) == Det(Minor(A, 2, 0, 0), 1) == A[1][1];
    assert Adj[0][1] == Cof(A, 2, 1, 0) == -Det(Minor(A, 2, 1, 0), 1) == -A[0][1];
    assert Adj[1][0] == Cof(A, 2, 0, 1) == -Det(Minor(A, 2, 0, 1), 1) == -A[1][0];
    assert Adj[1][1] == Cof(A, 2, 1, 1) == Det(Minor(A, 2, 1, 1), 1) == A[0][0];
  }

  /** The adjoint of a 3-by-3 matrix, written out. */
  function Adjoint3Formula(A: Matrix): (Adj: Matrix)
    requires IsMatrix(A, 3, 3)
    ensures IsMatrix(Adj, 3, 3)
  {
    var a, b, c := A[0][0], A[0][1], A[0][2];
    var d, e, f := A[1][0], A[1][1], A[1][2];
    var g, h, k := A[2][0], A[2][1], A[2][2];
    [[e * k - f * h, h * c - k * b, b * f - c * e],
     [f * g - d * k, k * a - g * c, c * d - a * f],
     [d * h - e * g, g * b - h * a, a * e - b * d]]
  }

  /** One entry of the adjoint of a 3-by-3 matrix: the signed determinant of
      the transposed position's 2-by-2 minor. */
  lemma Adjoint3Entry(A: Matrix, r: nat, c: nat)
    requires IsMatrix(A, 3, 3) && r < 3 && c < 3
    ensures var r0, r1 := Skip(0, c), Skip(1, c);
            var c0, c1 := Skip(0, r), Skip(1, r);
            Adjoint(A, 3)[r][c] == Signed(c + r, A[r0][c0] * A[r1][c1] - A[r0][c1] * A[r1][c0])
  {
    MinorDet3(A, c, r);
  }

  /** Each entry of the 3-by-3 adjoint agrees with the written-out formula;
      one lemma per entry keeps each proof to a single polynomial identity. */
  lemma Adjoint3At00(A: Matrix)
    requires IsMatrix(A, 3, 3)
    ensures Adjoint(A, 3)[0][0] == Adjoint3Formula(A)[0][0]
  {
    Adjoint3Entry(A, 0, 0);
  }

  lemma Adjoint3At01(A: Matrix)
    requires IsMatrix(A, 3, 3)
    ensures Adjoint(A, 3)[0][1] == Adjoint3Formula(A)[0][1]
  {
    Adjoint3Entry(A, 0, 1);
  }

  lemma Adjoint3At02(A: Matrix)
    requires IsMatrix(A, 3, 3)
    ensures Adjoint(A, 3)[0][2] == Adjoint3Formula(A)[0][2]
  {
    Adjoint3Entry(A, 0, 2);
  }

  lemma Adjoint3At10(A: Matrix)
    requires IsMatrix(A, 3, 3)
    ensures Adjoint(A, 3)[1][0] == Adjoint3Formula(A)[1][0]
  {
    Adjoint3Entry(A, 1, 0);
  }

  lemma Adjoint3At11(A: Matrix)
    requires IsMatrix(A, 3, 3)
    ensures Adjoint(A, 3)[1][1] == Adjoint3Formula(A)[1][1]
  {
    Adjoint3Entry(A, 1, 1);
  }

  lemma Adjoint3At12(A: Matrix)
    requires IsMatrix(A, 3, 3)
    ensures Adjoint(A, 3)[1][2] == Adjoint3Formula(A)[1][2]
  {
    Adjoint3Entry(A, 1, 2);
  }

  lemma Adjoint3At20(A: Matrix)
    requires IsMatrix(A, 3, 3)
    ensures Adjoint(A, 3)[2][0] == Adjoint3Formula(A)[2][0]
  {
    Adjoint3Entry(A, 2, 0);
  }

  lemma Adjoint3At21(A: Matrix)
    requires IsMatrix(A, 3, 3)
    ensures Adjoint(A, 3)[2][1] == Adjoint3Formula(A)[2][1]
  {
    Adjoint3Entry(A, 2, 1);
  }

  lemma Adjoint3At22(A: Matrix)
    requires IsMatrix(A, 3, 3)
    ensures Adjoint(A, 3)[2][2] == Adjoint3Formula(A)[2][2]
  {
    Adjoint3Entry(A, 2, 2);
  }

  lemma Adjoint3At(A: Matrix, r: nat, c: nat)
    requires IsMatrix(A, 3, 3) && r < 3 && c < 3
    ensures Adjoint(A, 3)[r][c] == Adjoint3Formula(A)[r][c]
  {
    if r == 0 && c == 0 {
      Adjoint3At00(A);
    } else if r == 0 && c == 1 {
      Adjoint3At01(A);
    } else if r == 0 && c == 2 {
      Adjoint3At02(A);
    } else if r == 1 && c == 0 {
      Adjoint3At10(A);
    } else if r == 1 && c == 1 {
      Adjoint3At11(A);
    } else if r == 1 && c == 2 {
      Adjoint3At12(A);
    } else if r == 2 && c == 0 {
      Adjoint3At20(A);
    } else if r == 2 && c == 1 {
      Adjoint3At21(A);
    } else {
      Adjoint3At22(A);
    }
  }

  lemma Adjoint3(A: Matrix)
    requires IsMatrix(A, 3, 3)
    ensures Adjoint(A, 3) == Adjoint3Formula(A)
  {
    forall r, c | 0 <= r < 3 && 0 <= c < 3
      ensures Adjoint(A, 3)[r][c] == Adjoint3Formula(A)[r][c]
    {
      Adjoint3At(A, r, c);
    }
    MatrixExt(Adjoint(A, 3), Adjoint3Formula(A), 3, 3);
  }

  lemma Adjugate1(A: Matrix)
    requires IsMatrix(A, 1, 1)
    ensures Mul(A, Adjoint(A, 1), 1, 1, 1) == ScaledIdentity(1, Det(A, 1))
    ensures Mul(Adjoint(A, 1), A, 1, 1, 1) == ScaledIdentity(1, Det(A, 1))
  {
    var Adj, D := Adjoint(A, 1), ScaledIdentity(1, Det(A, 1));
    assert Mul(A, Adj, 1, 1, 1)[0][0] == Dot(A, Adj, 0, 0, 1) == A[0][0];
    assert Mul(Adj, A, 1, 1, 1)[0][0] == Dot(Adj, A, 0, 0, 1) == A[0][0];
    MatrixExt(Mul(A, Adj, 1, 1, 1), D, 1, 1);
    MatrixExt(Mul(Adj, A, 1, 1, 1), D, 1, 1);
  }

  /** F holds, entry by entry, the adjoint of the 2-by-2 matrix A. */
  predicate IsAdjoint2(A: Matrix, F: Matrix)
    requires IsMatrix(A, 2, 2) && IsMatrix(F, 2, 2)
  {
    F[0][0] == A[1][1] && F[0][1] == -A[0][1] && F[1][0] == -A[1][0] && F[1][1] == A[0][0]
  }

  lemma Adjugate2Right00(A: Matrix, F: Matrix)
    requires IsMatrix(A, 2, 2) && IsMatrix(F, 2, 2) && IsAdjoint2(A, F)
    ensures Mul(A, F, 2, 2, 2)[0][0] == (A[0][0] * A[1][1] - A[0][1] * A[1][0])
  {
    Mul2Entry(A, F, 0, 0);
  }

  lemma Adjugate2Right01(A: Matrix, F: Matrix)
    requires IsMatrix(A, 2, 2) && IsMatrix(F, 2, 2) && IsAdjoint2(A, F)
    ensures Mul(A, F, 2, 2, 2)[0][1] == 0.0
  {
    Mul2Entry(A, F, 0, 1);
  }

  lemma Adjugate2Right10(A: Matrix, F: Matrix)
    requires IsMatrix(A, 2, 2) && IsMatrix(F, 2, 2) && IsAdjoint2(A, F)
    ensures Mul(A, F, 2, 2, 2)[1][0] == 0.0
  {
    Mul2Entry(A, F, 1, 0);
  }

  lemma Adjugate2Right11(A: Matrix, F: Matrix)
    requires IsMatrix(A, 2, 2) && IsMatrix(F, 2, 2) && IsAdjoint2(A, F)
    ensures Mul(A, F, 2, 2, 2)[1][1] == (A[0][0] * A[1][1] - A[0][1] * A[1][0])
  {
    Mul2Entry(A, F, 1, 1);
  }

  lemma Adjugate2Right(A: Matrix, F: Matrix)
    requires IsMatrix(A, 2, 2) && IsMatrix(F, 2, 2) && IsAdjoint2(A, F)
    ensures Mul(A, F, 2, 2, 2) == ScaledIdentity(2, (A[0][0] * A[1][1] - A[0][1] * A[1][0]))
  {
    forall i, j | 0 <= i < 2 && 0 <= j < 2
      ensures Mul(A, F, 2, 2, 2)[i][j] == ScaledIdentity(2, (A[0][0] * A[1][1] - A[0][1] * A[1][0]))[i][j]
    {
      if i == 0 && j == 0 {
        Adjugate2Right00(A, F);
      } else if i == 0 && j == 1 {
        Adjugate2Right01(A, F);
      } else if i == 1 && j == 0 {
        Adjugate2Right10(A, F);
      } else {
        Adjugate2Right11(A, F);
      }
    }
    MatrixExt(Mul(A, F, 2, 2, 2), ScaledIdentity(2, (A[0][0] * A[1][1] - A[0][1] * A[1][0])), 2, 2);
  }

  lemma Adjugate2Left00(A: Matrix, F: Matrix)
    requires IsMatrix(A, 2, 2) && IsMatrix(F, 2, 2) && IsAdjoint2(A, F)
    ensures Mul(F, A, 2, 2, 2)[0][0] == (A[0][0] * A[1][1] - A[0][1] * A[1][0])
  {
    Mul2Entry(F, A, 0, 0);
  }

  lemma Adjugate2Left01(A: Matrix, F: Matrix)
    requires IsMatrix(A, 2, 2) && IsMatrix(F, 2, 2) && IsAdjoint2(A, F)
    ensures Mul(F, A, 2, 2, 2)[0][1] == 0.0
  {
    Mul2Entry(F, A, 0, 1);
  }

  lemma Adjugate2Left10(A: Matrix, F: Matrix)
    requires IsMatrix(A, 2, 2) && IsMatrix(F, 2, 2) && IsAdjoint2(A, F)
    ensures Mul(F, A, 2, 2, 2)[1][0] == 0.0
  {
    Mul2Entry(F, A, 1, 0);
  }

  lemma Adjugate2Left11(A: Matrix, F: Matrix)
    requires IsMatrix(A, 2, 2) && IsMatrix(F, 2, 2) && IsAdjoint2(A, F)
    ensures Mul(F, A, 2, 2, 2)[1][1] == (A[0][0] * A[1][1] - A[0][1] * A[1][0])
  {
    Mul2Entry(F, A, 1, 1);
  }

  lemma Adjugate2Left(A: Matrix, F: Matrix)
    requires IsMatrix(A, 2, 2) && IsMatrix(F, 2, 2) && IsAdjoint2(A, F)
    ensures Mul(F, A, 2, 2, 2) == ScaledIdentity(2, (A[0][0] * A[1][1] - A[0][1] * A[1][0]))
  {
    forall i, j | 0 <= i < 2 && 0 <= j < 2
      ensures Mul(F, A, 2, 2, 2)[i][j] == ScaledIdentity(2, (A[0][0] * A[1][1] - A[0][1] * A[1][0]))[i][j]
    {
      if i == 0 && j == 0 {
        Adjugate2Left00(A, F);
      } else if i == 0 && j == 1 {
        Adjugate2Left01(A, F);
      } else if i == 1 && j == 0 {
        Adjugate2Left10(A, F);
      } else {
        Adjugate2Left11(A, F);
      }
    }
    MatrixExt(Mul(F, A, 2, 2, 2), ScaledIdentity(2, (A[0][0] * A[1][1] - A[0][1] * A[1][0])), 2, 2);
  }

  /** The scalar triple product u . (v x w), reached through named cross
      product entries x and a named dot product p so that callers only match
      terms: it vanishes when u repeats v or w. */
  lemma RowTriple(u0: real, u1: real, u2: real, v0: real, v1: real, v2: real, w0: real, w1: real, w2: real,
                  x0: real, x1: real, x2: real, p: real)
    requires x0 == v1 * w2 - v2 * w1 && x1 == v2 * w0 - v0 * w2 && x2 == v0 * w1 - v1 * w0
    requires p == u0 * x0 + u1 * x1 + u2 * x2
    ensures u0 == v0 && u1 == v1 && u2 == v2 ==> p == 0.0
    ensures u0 == w0 && u1 == w1 && u2 == w2 ==> p == 0.0
    ensures p == u0 * (v1 * w2 - v2 * w1) + u1 * (v2 * w0 - v0 * w2) + u2 * (v0 * w1 - v1 * w0)
  {
  }

  /** The same triple product with the cross product taken of two columns
      q and r and dotted, from the right, with a column y. */
  lemma ColumnTriple(q0: real, q1: real, q2: real, r0: real, r1: real, r2: real, y0: real, y1: real, y2: real,
                     x0: real, x1: real, x2: real, p: real)
    requires x0 == q1 * r2 - r1 * q2 && x1 == q2 * r0 - r2 * q0 && x2 == q0 * r1 - r0 * q1
    requires p == x0 * y0 + x1 * y1 + x2 * y2
    ensures y0 == q0 && y1 == q1 && y2 == q2 ==> p == 0.0
    ensures y0 == r0 && y1 == r1 && y2 == r2 ==> p == 0.0
    ensures p == (q1 * r2 - r1 * q2) * y0 + (q2 * r0 - r2 * q0) * y1 + (q0 * r1 - r0 * q1) * y2
  {
  }

  /** The triple product of the rows, or of the columns, taken in any cyclic
      order, is the determinant. */
  lemma TripleRotations(a: real, b: real, c: real, d: real, e: real, f: real, g: real, h: real, k: real)
    ensures var det := a * (e * k - f * h) - b * (d * k - f * g) + c * (d * h - e * g);
      a * (e * k - f * h) + b * (f * g - d * k) + c * (d * h - e * g) == det
      && d * (h * c - k * b) + e * (k * a - g * c) + f * (g * b - h * a) == det
      && g * (b * f - c * e) + h * (c * d - a * f) + k * (a * e - b * d) == det
      && (e * k - f * h) * a + (h * c - k * b) * d + (b * f - c * e) * g == det
      && (f * g - d * k) * b + (k * a - g * c) * e + (c * d - a * f) * h == det
      && (d * h - e * g) * c + (g * b - h * a) * f + (a * e - b * d) * k == det
  {
  }

  /** F holds, entry by entry, the written-out adjoint of the 3-by-3 matrix A.
      The adjugate identities below are proved for any such F, so that their
      proofs never see the nine products inside one sequence display. */
  predicate IsAdjoint3(A: Matrix, F: Matrix)
    requires IsMatrix(A, 3, 3) && IsMatrix(F, 3, 3)
  {
    F[0][0] == A[1][1] * A[2][2] - A[1][2] * A[2][1] && F[0][1] == A[2][1] * A[0][2] - A[2][2] * A[0][1] && F[0][2] == A[0][1] * A[1][2] - A[0][2] * A[1][1]
    && F[1][0] == A[1][2] * A[2][0] - A[1][0] * A[2][2] && F[1][1] == A[2][2] * A[0][0] - A[2][0] * A[0][2] && F[1][2] == A[0][2] * A[1][0] - A[0][0] * A[1][2]
    && F[2][0] == A[1][0] * A[2][1] - A[1][1] * A[2][0] && F[2][1] == A[2][0] * A[0][1] - A[2][1] * A[0][0] && F[2][2] == A[0][0] * A[1][1] - A[0][1] * A[1][0]
  }

  lemma Adjoint3FormulaIsAdjoint3(A: Matrix)
    requires IsMatrix(A, 3, 3)
    ensures IsAdjoint3(A, Adjoint3Formula(A))
  {
  }

  lemma Adjugate3Right00(A: Matrix, F: Matrix)
    requires IsMatrix(A, 3, 3) && IsMatrix(F, 3, 3)
    requires F[0][0] == A[1][1] * A[2][2] - A[1][2] * A[2][1] && F[1][0] == A[1][2] * A[2][0] - A[1][0] * A[2][2] && F[2][0] == A[1][0] * A[2][1] - A[1][1] * A[2][0]
    ensures Mul(A, F, 3, 3, 3)[0][0] == Det3Formula(A)
  {
    Mul3Entry(A, F, 0, 0);
    RowTriple(A[0][0], A[0][1], A[0][2],
              A[1][0], A[1][1], A[1][2],
              A[2][0], A[2][1], A[2][2],
              F[0][0], F[1][0], F[2][0], Mul(A, F, 3, 3, 3)[0][0]);
    TripleRotations(A[0][0], A[0][1], A[0][2], A[1][0], A[1][1], A[1][2], A[2][0], A[2][1], A[2][2]);
  }

  lemma Adjugate3Right01(A: Matrix, F: Matrix)
    requires IsMatrix(A, 3, 3) && IsMatrix(F, 3, 3)
    requires F[0][1] == A[2][1] * A[0][2] - A[2][2] * A[0][1] && F[1][1] == A[2][2] * A[0][0] - A[2][0] * A[0][2] && F[2][1] == A[2][0] * A[0][1] - A[2][1] * A[0][0]
    ensures Mul(A, F, 3, 3, 3)[0][1] == 0.0
  {
    Mul3Entry(A, F, 0, 1);
    RowTriple(A[0][0], A[0][1], A[0][2],
              A[2][0], A[2][1], A[2][2],
              A[0][0], A[0][1], A[0][2],
              F[0][1], F[1][1], F[2][1], Mul(A, F, 3, 3, 3)[0][1]);
  }

  lemma Adjugate3Right02(A: Matrix, F: Matrix)
    requires IsMatrix(A, 3, 3) && IsMatrix(F, 3, 3)
    requires F[0][2] == A[0][1] * A[1][2] - A[0][2] * A[1][1] && F[1][2] == A[0][2] * A[1][0] - A[0][0] * A[1][2] && F[2][2] == A[0][0] * A[1][1] - A[0][1] * A[1][0]
    ensures Mul(A, F, 3, 3, 3)[0][2] == 0.0
  {
    Mul3Entry(A, F, 0, 2);
    RowTriple(A[0][0], A[0][1], A[0][2],
              A[0][0], A[0][1], A[0][2],
              A[1][0], A[1][1], A[1][2],
              F[0][2], F[1][2], F[2][2], Mul(A, F, 3, 3, 3)[0][2]);
  }

  lemma Adjugate3Right10(A: Matrix, F: Matrix)
    requires IsMatrix(A, 3, 3) && IsMatrix(F, 3, 3)
    requires F[0][0] == A[1][1] * A[2][2] - A[1][2] * A[2][1] && F[1][0] == A[1][2] * A[2][0] - A[1][0] * A[2][2] && F[2][0] == A[1][0] * A[2][1] - A[1][1] * A[2][0]
    ensures Mul(A, F, 3, 3, 3)[1][0] == 0.0
  {
    Mul3Entry(A, F, 1, 0);
    RowTriple(A[1][0], A[1][1], A[1][2],
              A[1][0], A[1][1], A[1][2],
              A[2][0], A[2][1], A[2][2],
              F[0][0], F[1][0], F[2][0], Mul(A, F, 3, 3, 3)[1][0]);
  }

  lemma Adjugate3Right11(A: Matrix, F: Matrix)
    requires IsMatrix(A, 3, 3) && IsMatrix(F, 3, 3)
    requires F[0][1] == A[2][1] * A[0][2] - A[2][2] * A[0][1] && F[1][1] == A[2][2] * A[0][0] - A[2][0] * A[0][2] && F[2][1] == A[2][0] * A[0][1] - A[2][1] * A[0][0]
    ensures Mul(A, F, 3, 3, 3)[1][1] == Det3Formula(A)
  {
    Mul3Entry(A, F, 1, 1);
    RowTriple(A[1][0], A[1][1], A[1][2],
              A[2][0], A[2][1], A[2][2],
              A[0][0], A[0][1], A[0][2],
              F[0][1], F[1][1], F[2][1], Mul(A, F, 3, 3, 3)[1][1]);
    TripleRotations(A[0][0], A[0][1], A[0][2], A[1][0], A[1][1], A[1][2], A[2][0], A[2][1], A[2][2]);
  }

  lemma Adjugate3Right12(A: Matrix, F: Matrix)
    requires IsMatrix(A, 3, 3) && IsMatrix(F, 3, 3)
    requires F[0][2] == A[0][1] * A[1][2] - A[0][2] * A[1][1] && F[1][2] == A[0][2] * A[1][0] - A[0][0] * A[1][2] && F[2][2] == A[0][0] * A[1][1] - A[0][1] * A[1][0]
    ensures Mul(A, F, 3, 3, 3)[1][2] == 0.0
  {
    Mul3Entry(A, F, 1, 2);
    RowTriple(A[1][0], A[1][1], A[1][2],
              A[0][0], A[0][1], A[0][2],
              A[1][0], A[1][1], A[1][2],
              F[0][2], F[1][2], F[2][2], Mul(A, F, 3, 3, 3)[1][2]);
  }

  lemma Adjugate3Right20(A: Matrix, F: Matrix)
    requires IsMatrix(A, 3, 3) && IsMatrix(F, 3, 3)
    requires F[0][0] == A[1][1] * A[2][2] - A[1][2] * A[2][1] && F[1][0] == A[1][2] * A[2][0] - A[1][0] * A[2][2] && F[2][0] == A[1][0] * A[2][1] - A[1][1] * A[2][0]
    ensures Mul(A, F, 3, 3, 3)[2][0] == 0.0
  {
    Mul3Entry(A, F, 2, 0);
    RowTriple(A[2][0], A[2][1], A[2][2],
              A[1][0], A[1][1], A[1][2],
              A[2][0], A[2][1], A[2][2],
              F[0][0], F[1][0], F[2][0], Mul(A, F, 3, 3, 3)[2][0]);
  }

  lemma Adjugate3Right21(A: Matrix, F: Matrix)
    requires IsMatrix(A, 3, 3) && IsMatrix(F, 3, 3)
    requires F[0][1] == A[2][1] * A[0][2] - A[2][2] * A[0][1] && F[1][1] == A[2][2] * A[0][0] - A[2][0] * A[0][2] && F[2][1] == A[2][0] * A[0][1] - A[2][1] * A[0][0]
    ensures Mul(A, F, 3, 3, 3)[2][1] == 0.0
  {
    Mul3Entry(A, F, 2, 1);
    RowTriple(A[2][0], A[2][1], A[2][2],
              A[2][0], A[2][1], A[2][2],
              A[0][0], A[0][1], A[0][2],
              F[0][1], F[1][1], F[2][1], Mul(A, F, 3, 3, 3)[2][1]);
  }

  lemma Adjugate3Right22(A: Matrix, F: Matrix)
    requires IsMatrix(A, 3, 3) && IsMatrix(F, 3, 3)
    requires F[0][2] == A[0][1] * A[1][2] - A[0][2] * A[1][1] && F[1][2] == A[0][2] * A[1][0] - A[0][0] * A[1][2] && F[2][2] == A[0][0] * A[1][1] - A[0][1] * A[1][0]
    ensures Mul(A, F, 3, 3, 3)[2][2] == Det3Formula(A)
  {
    Mul3Entry(A, F, 2, 2);
    RowTriple(A[2][0], A[2][1], A[2][2],
              A[0][0], A[0][1], A[0][2],
              A[1][0], A[1][1], A[1][2],
              F[0][2], F[1][2], F[2][2], Mul(A, F, 3, 3, 3)[2][2]);
    TripleRotations(A[0][0], A[0][1], A[0][2], A[1][0], A[1][1], A[1][2], A[2][0], A[2][1], A[2][2]);
  }

  lemma Adjugate3Right(A: Matrix, F: Matrix)
    requires IsMatrix(A, 3, 3) && IsMatrix(F, 3, 3) && IsAdjoint3(A, F)
    ensures Mul(A, F, 3, 3, 3) == ScaledIdentity(3, Det3Formula(A))
  {
    forall i, j | 0 <= i < 3 && 0 <= j < 3
      ensures Mul(A, F, 3, 3, 3)[i][j] == ScaledIdentity(3, Det3Formula(A))[i][j]
    {
      if i == 0 && j == 0 {
        Adjugate3Right00(A, F);
      } else if i == 0 && j == 1 {
        Adjugate3Right01(A, F);
      } else if i == 0 && j == 2 {
        Adjugate3Right02(A, F);
      } else if i == 1 && j == 0 {
        Adjugate3Right10(A, F);
      } else if i == 1 && j == 1 {
        Adjugate3Right11(A, F);
      } else if i == 1 && j == 2 {
        Adjugate3Right12(A, F);
      } else if i == 2 && j == 0 {
        Adjugate3Right20(A, F);
      } else if i == 2 && j == 1 {
        Adjugate3Right21(A, F);
      } else {
        Adjugate3Right22(A, F);
      }
    }
    MatrixExt(Mul(A, F, 3, 3, 3), ScaledIdentity(3, Det3Formula(A)), 3, 3);
  }

  lemma Adjugate3Left00(A: Matrix, F: Matrix)
    requires IsMatrix(A, 3, 3) && IsMatrix(F, 3, 3)
    requires F[0][0] == A[1][1] * A[2][2] - A[1][2] * A[2][1] && F[0][1] == A[2][1] * A[0][2] - A[2][2] * A[0][1] && F[0][2] == A[0][1] * A[1][2] - A[0][2] * A[1][1]
    ensures Mul(F, A, 3, 3, 3)[0][0] == Det3Formula(A)
  {
    Mul3Entry(F, A, 0, 0);
    ColumnTriple(A[0][1], A[1][1], A[2][1],
                 A[0][2], A[1][2], A[2][2],
                 A[0][0], A[1][0], A[2][0],
                 F[0][0], F[0][1], F[0][2], Mul(F, A, 3, 3, 3)[0][0]);
    TripleRotations(A[0][0], A[0][1], A[0][2], A[1][0], A[1][1], A[1][2], A[2][0], A[2][1], A[2][2]);
  }

  lemma Adjugate3Left01(A: Matrix, F: Matrix)
    requires IsMatrix(A, 3, 3) && IsMatrix(F, 3, 3)
    requires F[0][0] == A[1][1] * A[2][2] - A[1][2] * A[2][1] && F[0][1] == A[2][1] * A[0][2] - A[2][2] * A[0][1] && F[0][2] == A[0][1] * A[1][2] - A[0][2] * A[1][1]
    ensures Mul(F, A, 3, 3, 3)[0][1] == 0.0
  {
    Mul3Entry(F, A, 0, 1);
    ColumnTriple(A[0][1], A[1][1], A[2][1],
                 A[0][2], A[1][2], A[2][2],
                 A[0][1], A[1][1], A[2][1],
                 F[0][0], F[0][1], F[0][2], Mul(F, A, 3, 3, 3)[0][1]);
  }

  lemma Adjugate3Left02(A: Matrix, F: Matrix)
    requires IsMatrix(A, 3, 3) && IsMatrix(F, 3, 3)
    requires F[0][0] == A[1][1] * A[2][2] - A[1][2] * A[2][1] && F[0][1] == A[2][1] * A[0][2] - A[2][2] * A[0][1] && F[0][2] == A[0][1] * A[1][2] - A[0][2] * A[1][1]
    ensures Mul(F, A, 3, 3, 3)[0][2] == 0.0
  {
    Mul3Entry(F, A, 0, 2);
    ColumnTriple(A[0][1], A[1][1], A[2][1],
                 A[0][2], A[1][2], A[2][2],
                 A[0][2], A[1][2], A[2][2],
                 F[0][0], F[0][1], F[0][2], Mul(F, A, 3, 3, 3)[0][2]);
  }

  lemma Adjugate3Left10(A: Matrix, F: Matrix)
    requires IsMatrix(A, 3, 3) && IsMatrix(F, 3, 3)
    requires F[1][0] == A[1][2] * A[2][0] - A[1][0] * A[2][2] && F[1][1] == A[2][2] * A[0][0] - A[2][0] * A[0][2] && F[1][2] == A[0][2] * A[1][0] - A[0][0] * A[1][2]
    ensures Mul(F, A, 3, 3, 3)[1][0] == 0.0
  {
    Mul3Entry(F, A, 1, 0);
    ColumnTriple(A[0][2], A[1][2], A[2][2],
                 A[0][0], A[1][0], A[2][0],
                 A[0][0], A[1][0], A[2][0],
                 F[1][0], F[1][1], F[1][2], Mul(F, A, 3, 3, 3)[1][0]);
  }

  lemma Adjugate3Left11(A: Matrix, F: Matrix)
    requires IsMatrix(A, 3, 3) && IsMatrix(F, 3, 3)
    requires F[1][0] == A[1][2] * A[2][0] - A[1][0] * A[2][2] && F[1][1] == A[2][2] * A[0][0] - A[2][0] * A[0][2] && F[1][2] == A[0][2] * A[1][0] - A[0][0] * A[1][2]
    ensures Mul(F, A, 3, 3, 3)[1][1] == Det3Formula(A)
  {
    Mul3Entry(F, A, 1, 1);
    ColumnTriple(A[0][2], A[1][2], A[2][2],
                 A[0][0], A[1][0], A[2][0],
                 A[0][1], A[1][1], A[2][1],
                 F[1][0], F[1][1], F[1][2], Mul(F, A, 3, 3, 3)[1][1]);
    TripleRotations(A[0][0], A[0][1], A[0][2], A[1][0], A[1][1], A[1][2], A[2][0], A[2][1], A[2][2]);
  }

  lemma Adjugate3Left12(A: Matrix, F: Matrix)
    requires IsMatrix(A, 3, 3) && IsMatrix(F, 3, 3)
    requires F[1][0] == A[1][2] * A[2][0] - A[1][0] * A[2][2] && F[1][1] == A[2][2] * A[0][0] - A[2][0] * A[0][2] && F[1][2] == A[0][2] * A[1][0] - A[0][0] * A[1][2]
    ensures Mul(F, A, 3, 3, 3)[1][2] == 0.0
  {
    Mul3Entry(F, A, 1, 2);
    ColumnTriple(A[0][2], A[1][2], A[2][2],
                 A[0][0], A[1][0], A[2][0],
                 A[0][2], A[1][2], A[2][2],
                 F[1][0], F[1][1], F[1][2], Mul(F, A, 3, 3, 3)[1][2]);
  }

  lemma Adjugate3Left20(A: Matrix, F: Matrix)
    requires IsMatrix(A, 3, 3) && IsMatrix(F, 3, 3)
    requires F[2][0] == A[1][0] * A[2][1] - A[1][1] * A[2][0] && F[2][1] == A[2][0] * A[0][1] - A[2][1] * A[0][0] && F[2][2] == A[0][0] * A[1][1] - A[0][1] * A[1][0]
    ensures Mul(F, A, 3, 3, 3)[2][0] == 0.0
  {
    Mul3Entry(F, A, 2, 0);
    ColumnTriple(A[0][0], A[1][0], A[2][0],
                 A[0][1], A[1][1], A[2][1],
                 A[0][0], A[1][0], A[2][0],
                 F[2][0], F[2][1], F[2][2], Mul(F, A, 3, 3, 3)[2][0]);
  }

  lemma Adjugate3Left21(A: Matrix, F: Matrix)
    requires IsMatrix(A, 3, 3) && IsMatrix(F, 3, 3)
    requires F[2][0] == A[1][0] * A[2][1] - A[1][1] * A[2][0] && F[2][1] == A[2][0] * A[0][1] - A[2][1] * A[0][0] && F[2][2] == A[0][0] * A[1][1] - A[0][1] * A[1][0]
    ensures Mul(F, A, 3, 3, 3)[2][1] == 0.0
  {
    Mul3Entry(F, A, 2, 1);
    ColumnTriple(A[0][0], A[1][0], A[2][0],
                 A[0][1], A[1][1], A[2][1],
                 A[0][1], A[1][1], A[2][1],
                 F[2][0], F[2][1], F[2][2], Mul(F, A, 3, 3, 3)[2][1]);
  }

  lemma Adjugate3Left22(A: Matrix, F: Matrix)
    requires IsMatrix(A, 3, 3) && IsMatrix(F, 3, 3)
    requires F[2][0] == A[1][0] * A[2][1] - A[1][1] * A[2][0] && F[2][1] == A[2][0] * A[0][1] - A[2][1] * A[0][0] && F[2][2] == A[0][0] * A[1][1] - A[0][1] * A[1][0]
    ensures Mul(F, A, 3, 3, 3)[2][2] == Det3Formula(A)
  {
    Mul3Entry(F, A, 2, 2);
    ColumnTriple(A[0][0], A[1][0], A[2][0],
                 A[0][1], A[1][1], A[2][1],
                 A[0][2], A[1][2], A[2][2],
                 F[2][0], F[2][1], F[2][2], Mul(F, A, 3, 3, 3)[2][2]);
    TripleRotations(A[0][0], A[0][1], A[0][2], A[1][0], A[1][1], A[1][2], A[2][0], A[2][1], A[2][2]);
  }

  lemma Adjugate3Left(A: Matrix, F: Matrix)
    requires IsMatrix(A, 3, 3) && IsMatrix(F, 3, 3) && IsAdjoint3(A, F)
    ensures Mul(F, A, 3, 3, 3) == ScaledIdentity(3, Det3Formula(A))
  {
    forall i, j | 0 <= i < 3 && 0 <= j < 3
      ensures Mul(F, A, 3, 3, 3)[i][j] == ScaledIdentity(3, Det3Formula(A))[i][j]
    {
      if i == 0 && j == 0 {
        Adjugate3Left00(A, F);
      } else if i == 0 && j == 1 {
        Adjugate3Left01(A, F);
      } else if i == 0 && j == 2 {
        Adjugate3Left02(A, F);
      } else if i == 1 && j == 0 {
        Adjugate3Left10(A, F);
      } else if i == 1 && j == 1 {
        Adjugate3Left11(A, F);
      } else if i == 1 && j == 2 {
        Adjugate3Left12(A, F);
      } else if i == 2 && j == 0 {
        Adjugate3Left20(A, F);
      } else if i == 2 && j == 1 {
        Adjugate3Left21(A, F);
      } else {
        Adjugate3Left22(A, F);
      }
    }
    MatrixExt(Mul(F, A, 3, 3, 3), ScaledIdentity(3, Det3Formula(A)), 3, 3);
  }

  lemma Adjugate2Of(A: Matrix, F: Matrix, d: real)
    requires IsMatrix(A, 2, 2) && IsMatrix(F, 2, 2) && IsAdjoint2(A, F)
    requires d == A[0][0] * A[1][1] - A[0][1] * A[1][0]
    ensures Mul(A, F, 2, 2, 2) == ScaledIdentity(2, d)
    ensures Mul(F, A, 2, 2, 2) == ScaledIdentity(2, d)
  {
    Adjugate2Right(A, F);
    Adjugate2Left(A, F);
  }

  lemma Adjugate2(A: Matrix)
    requires IsMatrix(A, 2, 2)
    ensures Mul(A, Adjoint(A, 2), 2, 2, 2) == ScaledIdentity(2, Det(A, 2))
    ensures Mul(Adjoint(A, 2), A, 2, 2, 2) == ScaledIdentity(2, Det(A, 2))
  {
    Adjoint2(A);
    Det2(A);
    Adjugate2Of(A, Adjoint(A, 2), Det(A, 2));
  }

  lemma Adjugate3(A: Matrix)
    requires IsMatrix(A, 3, 3)
    ensures Mul(A, Adjoint(A, 3), 3, 3, 3) == ScaledIdentity(3, Det(A, 3))
    ensures Mul(Adjoint(A, 3), A, 3, 3, 3) == ScaledIdentity(3, Det(A, 3))
  {
    Adjoint3(A);
    Det3(A);
    Adjoint3FormulaIsAdjoint3(A);
    Adjugate3Right(A, Adjoint3Formula(A));
    Adjugate3Left(A, Adjoint3Formula(A));
  }

  /** A adj(A) = adj(A) A = det(A) I, for the dimensions the kernel serves. */
  lemma Adjugate(A: Matrix, n: nat)
    requires 1 <= n <= 3 && IsMatrix(A, n, n)
    ensures Mul(A, Adjoint(A, n), n, n, n) == ScaledIdentity(n, Det(A, n))
    ensures Mul(Adjoint(A, n), A, n, n, n) == ScaledIdentity(n, Det(A, n))
  {
    if n == 1 {
      Adjugate1(A);
    } else if n == 2 {
      Adjugate2(A);
    } else {
      Adjugate3(A);
    }
  }

  /** Dividing every entry of the right factor's column j by d divides the
      dot product by d. */
  lemma {:induction false} DotDivRight(A: Matrix, B: Matrix, C: Matrix, d: real, i: nat, j: nat, k: nat)
    requires d != 0.0 && i < |A| && k <= |A[i]| && k <= |B| && k <= |C|
    requires forall t :: 0 <= t < k ==> j < |B[t]| && j < |C[t]| && C[t][j] == B[t][j] / d
    ensures Dot(A, C, i, j, k) == Dot(A, B, i, j, k) / d
  {
    if k > 0 {
      DotDivRight(A, B, C, d, i, j, k - 1);
      assert A[i][k - 1] * C[k - 1][j] == A[i][k - 1] * B[k - 1][j] / d;
    }
  }

  /** Dividing every entry of the left factor's row i by d divides the dot
      product by d. */
  lemma {:induction false} DotDivLeft(A: Matrix, B: Matrix, C: Matrix, d: real, i: nat, j: nat, k: nat)
    requires d != 0.0 && i < |A| && i < |C| && k <= |A[i]| && k <= |C[i]| && k <= |B|
    requires forall t :: 0 <= t < k ==> j < |B[t]| && C[i][t] == A[i][t] / d
    ensures Dot(C, B, i, j, k) == Dot(A, B, i, j, k) / d
  {
    if k > 0 {
      DotDivLeft(A, B, C, d, i, j, k - 1);
      assert C[i][k - 1] * B[k - 1][j] == A[i][k - 1] * B[k - 1][j] / d;
    }
  }

  lemma UnitQuotients(d: real)
    requires d != 0.0
    ensures d / d == 1.0 && 0.0 / d == 0.0
  {
  }

  /** Entry (i, j) of the two products with adj / d, one entry at a time. */
  lemma DividedAdjugateEntry(A: Matrix, Adj: Matrix, M: Matrix, d: real, n: nat, i: nat, j: nat)
    requires IsMatrix(A, n, n) && IsMatrix(Adj, n, n) && IsMatrix(M, n, n) && d != 0.0
    requires Mul(A, Adj, n, n, n) == ScaledIdentity(n, d)
    requires Mul(Adj, A, n, n, n) == ScaledIdentity(n, d)
    requires forall i, j :: 0 <= i < n && 0 <= j < n ==> M[i][j] == Adj[i][j] / d
    requires i < n && j < n
    ensures Mul(A, M, n, n, n)[i][j] == Identity(n)[i][j]
    ensures Mul(M, A, n, n, n)[i][j] == Identity(n)[i][j]
  {
    DotDivRight(A, Adj, M, d, i, j, n);
    DotDivLeft(Adj, A, M, d, i, j, n);
    var s := ScaledIdentity(n, d)[i][j];
    assert Mul(A, M, n, n, n)[i][j] == Mul(A, Adj, n, n, n)[i][j] / d == s / d;
    assert Mul(M, A, n, n, n)[i][j] == Mul(Adj, A, n, n, n)[i][j] / d == s / d;
    UnitQuotients(d);
  }

  /** If adj A = A adj = d I with d nonzero, then adj / d is a two-sided
      inverse of A. */
  lemma DividedAdjugate(A: Matrix, Adj: Matrix, M: Matrix, d: real, n: nat)
    requires IsMatrix(A, n, n) && IsMatrix(Adj, n, n) && IsMatrix(M, n, n) && d != 0.0
    requires Mul(A, Adj, n, n, n) == ScaledIdentity(n, d)
    requires Mul(Adj, A, n, n, n) == ScaledIdentity(n, d)
    requires forall i, j :: 0 <= i < n && 0 <= j < n ==> M[i][j] == Adj[i][j] / d
    ensures Mul(A, M, n, n, n) == Identity(n)
    ensures Mul(M, A, n, n, n) == Identity(n)
  {
    forall i, j | 0 <= i < n && 0 <= j < n
      ensures Mul(A, M, n, n, n)[i][j] == Identity(n)[i][j]
      ensures Mul(M, A, n, n, n)[i][j] == Identity(n)[i][j]
    {
      DividedAdjugateEntry(A, Adj, M, d, n, i, j);
    }
    MatrixExt(Mul(A, M, n, n, n), Identity(n), n, n);
    MatrixExt(Mul(M, A, n, n, n), Identity(n), n, n);
  }

  /** The undamped inverse of a matrix of dimension 1 to 3 is reported
      Singular exactly when its determinant is zero, and otherwise is a
      two-sided inverse. */
  lemma InverseCorrect(A: Matrix, n: nat)
    requires 1 <= n <= 3 && IsMatrix(A, n, n)
    ensures Inverse(A, n, 0.0).Singular? <==> Det(A, n) == 0.0
    ensures Inverse(A, n, 0.0).Inverted? ==>
              Mul(A, Inverse(A, n, 0.0).inv, n, n, n) == Identity(n)
              && Mul(Inverse(A, n, 0.0).inv, A, n, n, n) == Identity(n)
  {
    DampedZero(A, n);
    var r := Inverse(A, n, 0.0);
    if r.Inverted? {
      Adjugate(A, n);
      DividedAdjugate(A, Adjoint(A, n), r.inv, Det(A, n), n);
    }
  }

  // ---------------------------------------------------------------------------
  // Products of 3-by-3 matrices
  // ---------------------------------------------------------------------------

  /** One entry of (A B) C against A (B C), written out over reals. */
  lemma Assoc3Entry(a0: real, a1: real, a2: real,
                    b00: real, b01: real, b02: real, b10: real, b11: real, b12: real,
                    b20: real, b21: real, b22: real, c0: real, c1: real, c2: real)
    ensures (a0 * b00 + a1 * b10 + a2 * b20) * c0 + (a0 * b01 + a1 * b11 + a2 * b21) * c1
            + (a0 * b02 + a1 * b12 + a2 * b22) * c2
            == a0 * (b00 * c0 + b01 * c1 + b02 * c2) + a1 * (b10 * c0 + b11 * c1 + b12 * c2)
               + a2 * (b20 * c0 + b21 * c1 + b22 * c2)
  {
  }

  /** The product of 3-by-3 matrices is associative. */
  lemma Mul3Assoc(A: Matrix, B: Matrix, C: Matrix)
    requires IsMatrix(A, 3, 3) && IsMatrix(B, 3, 3) && IsMatrix(C, 3, 3)
    ensures Mul(Mul(A, B, 3, 3, 3), C, 3, 3, 3) == Mul(A, Mul(B, C, 3, 3, 3), 3, 3, 3)
  {
    var AB := Mul(A, B, 3, 3, 3);
    var BC := Mul(B, C, 3, 3, 3);
    var L := Mul(AB, C, 3, 3, 3);
    var R := Mul(A, BC, 3, 3, 3);
    forall i, j | 0 <= i < 3 && 0 <= j < 3
      ensures L[i][j] == R[i][j]
    {
      Mul3Entry(AB, C, i, j);
      Mul3Entry(A, BC, i, j);
      Mul3Entry(A, B, i, 0);
      Mul3Entry(A, B, i, 1);
      Mul3Entry(A, B, i, 2);
      Mul3Entry(B, C, 0, j);
      Mul3Entry(B, C, 1, j);
      Mul3Entry(B, C, 2, j);
      Assoc3Entry(A[i][0], A[i][1], A[i][2], B[0][0], B[0][1], B[0][2], B[1][0], B[1][1], B[1][2],
                  B[2][0], B[2][1], B[2][2], C[0][j], C[1][j], C[2][j]);
    }
    MatrixExt(L, R, 3, 3);
  }

  /** The identity is a right unit of the 3-by-3 product. */
  lemma Mul3IdentityRight(A: Matrix)
    requires IsMatrix(A, 3, 3)
    ensures Mul(A, Identity(3), 3, 3, 3) == A
  {
    var P := Mul(A, Identity(3), 3, 3, 3);
    forall i, j | 0 <= i < 3 && 0 <= j < 3
      ensures P[i][j] == A[i][j]
    {
      Mul3Entry(A, Identity(3), i, j);
    }
    MatrixExt(P, A, 3, 3);
  }
}
