/** The matrix kernel of the rev1 board (math_utils.c): transpose, minor
    extraction, recursive determinant, adjoint and damped inverse over
    square arrays. Each method is proved against the value-level definitions
    of module Matrices. */
module MathUtils {
  import Matrices

  datatype CatsStatus = CatsOk | CatsFilterError

  /** The whole of a two-dimensional array, as a matrix value. */
  ghost function Contents(a: array2<real>): (M: Matrices.Matrix)
    reads a
    ensures Matrices.IsMatrix(M, a.Length0, a.Length1)
  {
    seq(a.Length0, i requires 0 <= i < a.Length0 reads a =>
      seq(a.Length1, j requires 0 <= j < a.Length1 reads a => a[i, j]))
  }

  /** The top-left n-by-n block of a square array: the part the recursive
      kernel works on. */
  ghost function Block(a: array2<real>, n: nat): (M: Matrices.Matrix)
    reads a
    requires n <= a.Length0 && n <= a.Length1
    ensures Matrices.IsMatrix(M, n, n)
  {
    seq(n, i requires 0 <= i < n reads a => seq(n, j requires 0 <= j < n reads a => a[i, j]))
  }

  /** A_T := A^T for an m-by-n matrix A. */
  method Transpose(m: nat, n: nat, A: array2<real>, AT: array2<real>)
    requires A.Length0 == m && A.Length1 == n && AT.Length0 == n && AT.Length1 == m
    requires A != AT
    modifies AT
    ensures Contents(AT) == Matrices.Transpose(Contents(A), m, n)
  {
    for i := 0 to m
      invariant forall r, c :: 0 <= r < i && 0 <= c < n ==> AT[c, r] == A[r, c]
    {
      for j := 0 to n
        invariant forall r, c :: 0 <= r < i && 0 <= c < n ==> AT[c, r] == A[r, c]
        invariant forall c :: 0 <= c < j ==> AT[c, i] == A[i, c]
      {
        AT[j, i] := A[i, j];
      }
    }
    Matrices.MatrixExt(Contents(AT), Matrices.Transpose(Contents(A), m, n), n, m);
  }

  /** temp's top-left (n-1)-by-(n-1) block := the minor of A's top-left
      n-by-n block with row p and column q deleted; the rest of temp is left
      as it was. The minor is filled row by row with running indices i, j. */
  method Cofactor(dim: nat, A: array2<real>, temp: array2<real>, p: nat, q: nat, n: nat)
    requires A.Length0 == dim && A.Length1 == dim && temp.Length0 == dim && temp.Length1 == dim
    requires A != temp
    requires 1 <= n <= dim && p < n && q < n
    modifies temp
    ensures Block(temp, n - 1) == Matrices.Minor(Block(A, n), n, p, q)
    ensures forall r, c :: 0 <= r < dim && 0 <= c < dim && !(r < n - 1 && c < n - 1) ==>
              temp[r, c] == old(temp[r, c])
  {
    var i, j := 0, 0;
    for row := 0 to n
      invariant i == row - (if row > p then 1 else 0) && j == 0
      invariant forall r, c :: 0 <= r < i && 0 <= c < n - 1 ==>
                  temp[r, c] == A[Matrices.Skip(r, p), Matrices.Skip(c, q)]
      invariant forall r, c :: 0 <= r < dim && 0 <= c < dim && !(r < i && c < n - 1) ==>
                  temp[r, c] == old(temp[r, c])
    {
      ghost var i0 := i;
      for col := 0 to n
        invariant row == p ==> i == i0 && j == 0
        invariant row != p ==>
                    var kept := col - (if col > q then 1 else 0);
                    if kept == n - 1 then i == i0 + 1 && j == 0 else i == i0 && j == kept
        invariant forall r, c :: 0 <= r < i0 && 0 <= c < n - 1 ==>
                    temp[r, c] == A[Matrices.Skip(r, p), Matrices.Skip(c, q)]
        invariant row != p ==> forall c :: 0 <= c < n - 1 && (i > i0 || c < j) ==>
                    temp[i0, c] == A[row, Matrices.Skip(c, q)]
        invariant forall r, c ::
                    0 <= r < dim && 0 <= c < dim && !(r < i0 && c < n - 1)
                    && !(r == i0 && c < n - 1 && (i > i0 || c < j))
                    ==> temp[r, c] == old(temp[r, c])
      {
        if row != p && col != q {
          temp[i, j] := A[row, col];
          j := j + 1;
          if j == n - 1 {
            j := 0;
            i := i + 1;
          }
        }
      }
    }
    assert i == n - 1;
    Matrices.MatrixExt(Block(temp, n - 1), Matrices.Minor(Block(A, n), n, p, q), n - 1, n - 1);
  }

  /** On a square array the top-left block of full size is the whole. */
  lemma BlockIsContents(a: array2<real>)
    requires a.Length0 == a.Length1
    ensures Block(a, a.Length0) == Contents(a)
  {
    Matrices.MatrixExt(Block(a, a.Length0), Contents(a), a.Length0, a.Length0);
  }

  /** The determinant of A's top-left n-by-n block, by recursive first-row
      expansion with an alternating integer sign. */
  method Determinant(dim: nat, A: array2<real>, n: nat) returns (D: real)
    requires A.Length0 == dim && A.Length1 == dim && 1 <= n <= dim
    ensures D == Matrices.Det(Block(A, n), n)
    decreases n, 1
  {
    if n == 1 {
      return A[0, 0];
    }
    ghost var M := Block(A, n);
    var temp := new real[dim, dim]((_, _) => 0.0);
    var sign: int := 1;
    D := 0.0;
    for f := 0 to n
      invariant D == Matrices.Expansion(M, n, f)
      invariant sign == 1 || sign == -1
      invariant sign == 1 <==> f % 2 == 0
    {
      var a, d := MinorTerm(dim, A, temp, n, f, M);
      ExpansionStep(M, n, f, a, d, sign, D);
      D := D + (sign as real) * a * d;
      Parity(f);
      sign := -sign;
    }
  }

  /** The two factors of one term of the first-row expansion of M, the
      leading n-by-n block of A: the entry A[0][f], and the determinant of
      the minor, built in temp and taken recursively. */
  method MinorTerm(dim: nat, A: array2<real>, temp: array2<real>, n: nat, f: nat, ghost M: Matrices.Matrix)
    returns (a: real, d: real)
    requires A.Length0 == dim && A.Length1 == dim && temp.Length0 == dim && temp.Length1 == dim
    requires A != temp && 2 <= n <= dim && f < n && M == Block(A, n)
    modifies temp
    ensures a == M[0][f] && d == Matrices.Det(Matrices.Minor(M, n, 0, f), n - 1)
    decreases n, 0
  {
    Cofactor(dim, A, temp, 0, f, n);
    d := Determinant(dim, temp, n - 1);
    a := A[0, f];
  }

  /** Adding sign * a * d, with the sign kept as the integer +1 or -1 the C
      loop keeps, extends the first-row expansion by one term. */
  lemma {:induction false} ExpansionStep(M: Matrices.Matrix, n: nat, f: nat, a: real, d: real, sign: int, D: real)
    requires 2 <= n && Matrices.IsMatrix(M, n, n) && f < n
    requires a == M[0][f] && d == Matrices.Det(Matrices.Minor(M, n, 0, f), n - 1)
    requires sign == 1 || sign == -1
    requires sign == 1 <==> f % 2 == 0
    requires D == Matrices.Expansion(M, n, f)
    ensures Matrices.Expansion(M, n, f + 1) == D + (sign as real) * a * d
  {
    SignedAsProduct(f, sign, a * d);
    assert (sign as real) * a * d == (sign as real) * (a * d);
  }

  lemma Parity(f: nat)
    ensures (f + 1) % 2 == if f % 2 == 0 then 1 else 0
  {
  }

  /** The C code's (float)sign * x is Signed(k, x). */
  lemma SignedAsProduct(k: nat, sign: int, x: real)
    requires sign == 1 || sign == -1
    requires sign == 1 <==> k % 2 == 0
    ensures (sign as real) * x == Matrices.Signed(k, x)
  {
    if k % 2 == 0 {
      assert (sign as real) * x == 1.0 * x;
    } else {
      assert (sign as real) * x == -1.0 * x;
    }
  }

  /** adj := the adjoint (transposed cofactor matrix) of A; by convention
      [[1]] when dim = 1. */
  method Adjoint(dim: nat, A: array2<real>, adj: array2<real>)
    requires A.Length0 == dim && A.Length1 == dim && adj.Length0 == dim && adj.Length1 == dim
    requires 1 <= dim && A != adj
    modifies adj
    ensures Contents(adj) == Matrices.Adjoint(Contents(A), dim)
  {
    if dim == 1 {
      adj[0, 0] := 1.0;
      Matrices.MatrixExt(Contents(adj), [[1.0]], 1, 1);
      return;
    }
    BlockIsContents(A);
    ghost var M := Contents(A);
    ghost var Adj := Matrices.Adjoint(M, dim);
    var temp := new real[dim, dim]((_, _) => 0.0);
    for i := 0 to dim
      invariant forall r, c :: 0 <= r < i && 0 <= c < dim ==> adj[c, r] == Adj[c][r]
    {
      for j := 0 to dim
        invariant forall r, c :: 0 <= r < dim && 0 <= c < dim && (r < i || (r == i && c < j)) ==>
                    adj[c, r] == Adj[c][r]
      {
        var cof := SignedMinorDeterminant(dim, A, temp, i, j);
        adj[j, i] := cof;
      }
    }
    Matrices.MatrixExt(Contents(adj), Adj, dim, dim);
  }

  /** One step of the adjoint loop: the minor of entry (i, j) goes to temp and
      its determinant, signed by the parity of i + j, is returned. */
  method SignedMinorDeterminant(dim: nat, A: array2<real>, temp: array2<real>, i: nat, j: nat) returns (cof: real)
    requires A.Length0 == dim && A.Length1 == dim && temp.Length0 == dim && temp.Length1 == dim
    requires 2 <= dim && i < dim && j < dim && A != temp
    modifies temp
    ensures cof == Matrices.Adjoint(Contents(A), dim)[j][i]
  {
    BlockIsContents(A);
    Cofactor(dim, A, temp, i, j, dim);
    var sign: int := if (i + j) % 2 == 0 then 1 else -1;
    var d := Determinant(dim, temp, dim - 1);
    cof := (sign as real) * d;
    CofactorStep(Contents(A), dim, i, j, d, sign, cof);
  }

  /** The C code's sign * determinant(minor) is the signed cofactor. */
  lemma CofactorStep(M: Matrices.Matrix, n: nat, i: nat, j: nat, d: real, sign: int, cof: real)
    requires 2 <= n && Matrices.IsMatrix(M, n, n) && i < n && j < n
    requires d == Matrices.Det(Matrices.Minor(M, n, i, j), n - 1)
    requires sign == if (i + j) % 2 == 0 then 1 else -1
    requires cof == (sign as real) * d
    ensures cof == Matrices.Adjoint(M, n)[j][i]
  {
    SignedAsProduct(i + j, sign, d);
  }

  /** dst := src, entry by entry (the memcpy of the C code). */
  method Copy(dim: nat, src: array2<real>, dst: array2<real>)
    requires src.Length0 == dim && src.Length1 == dim && dst.Length0 == dim && dst.Length1 == dim
    requires src != dst
    modifies dst
    ensures Contents(dst) == Contents(src)
  {
    for i := 0 to dim
      invariant forall r, c :: 0 <= r < i && 0 <= c < dim ==> dst[r, c] == src[r, c]
    {
      for j := 0 to dim
        invariant forall r, c :: 0 <= r < i && 0 <= c < dim ==> dst[r, c] == src[r, c]
        invariant forall c :: 0 <= c < j ==> dst[i, c] == src[i, c]
      {
        dst[i, j] := src[i, j];
      }
    }
    Matrices.MatrixExt(Contents(dst), Contents(src), dim, dim);
  }

  /** A := A + damping^2 I, in place. */
  method AddDamping(dim: nat, A: array2<real>, damping: real)
    requires A.Length0 == dim && A.Length1 == dim
    modifies A
    ensures Contents(A) == Matrices.Damped(old(Contents(A)), dim, damping)
  {
    ghost var A0 := Contents(A);
    for i := 0 to dim
      invariant forall r, c :: 0 <= r < dim && 0 <= c < dim ==>
                  A[r, c] == if r == c && r < i then A0[r][c] + damping * damping else A0[r][c]
    {
      A[i, i] := A[i, i] + damping * damping;
    }
    Matrices.MatrixExt(Contents(A), Matrices.Damped(A0, dim, damping), dim, dim);
  }

  /** A_inv := adj / det, entry by entry. */
  method DivideInto(dim: nat, adj: array2<real>, det: real, A_inv: array2<real>)
    requires adj.Length0 == dim && adj.Length1 == dim && A_inv.Length0 == dim && A_inv.Length1 == dim
    requires adj != A_inv && det != 0.0
    modifies A_inv
    ensures Contents(A_inv) == Matrices.DivideEntries(Contents(adj), dim, dim, det)
  {
    for i := 0 to dim
      invariant forall r, c :: 0 <= r < i && 0 <= c < dim ==> A_inv[r, c] == adj[r, c] / det
    {
      for j := 0 to dim
        invariant forall r, c :: 0 <= r < i && 0 <= c < dim ==> A_inv[r, c] == adj[r, c] / det
        invariant forall c :: 0 <= c < j ==> A_inv[i, c] == adj[i, c] / det
      {
        A_inv[i, j] := adj[i, j] / det;
      }
    }
    Matrices.MatrixExt(Contents(A_inv), Matrices.DivideEntries(Contents(adj), dim, dim, det), dim, dim);
  }

  /** A_inv := adj(A')/det(A') for the damped A' = A + damping^2 I. Reports
      CatsFilterError, leaving A_inv as it was, exactly when det(A') is zero. */
  method Inverse(dim: nat, A: array2<real>, A_inv: array2<real>, damping: real) returns (status: CatsStatus)
    requires A.Length0 == dim && A.Length1 == dim && A_inv.Length0 == dim && A_inv.Length1 == dim
    requires 1 <= dim && A != A_inv
    modifies A_inv
    ensures status == CatsOk <==> Matrices.Inverse(Contents(A), dim, damping).Inverted?
    ensures status == CatsOk ==> Contents(A_inv) == Matrices.Inverse(Contents(A), dim, damping).inv
    ensures status == CatsFilterError ==> Contents(A_inv) == old(Contents(A_inv))
  {
    var A_dash := new real[dim, dim]((_, _) => 0.0);
    Copy(dim, A, A_dash);
    AddDamping(dim, A_dash, damping);
    BlockIsContents(A_dash);

    var det := Determinant(dim, A_dash, dim);
    if det == 0.0 {
      return CatsFilterError;
    }

    var adj := new real[dim, dim]((_, _) => 0.0);
    Adjoint(dim, A_dash, adj);
    DivideInto(dim, adj, det, A_inv);
    return CatsOk;
  }
}
