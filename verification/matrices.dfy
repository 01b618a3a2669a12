/** Dense real matrices stored as a sequence of rows, with the products the
    Conjugate Gradient iteration takes: `A . v` (row times vector), `p^T . A`
    (vector times matrix, as `xp.dot(p.T, A)` computes it), and `A * a`
    (every entry scaled). */
module Matrices {
  import opened Vectors

  type Matrix = seq<seq<real>>

  /** `A` has `m` rows of `n` entries each. */
  predicate IsMatrix(A: Matrix, m: nat, n: nat)
  {
    |A| == m && forall i :: 0 <= i < m ==> |A[i]| == n
  }

  /** `A` is N x N with N = |A|. */
  predicate IsSquare(A: Matrix)
  {
    IsMatrix(A, |A|, |A|)
  }

  /** Entry-wise symmetry `A[i][j] == A[j][i]`. */
  predicate IsSymmetric(A: Matrix)
    requires IsSquare(A)
  {
    forall i, j :: 0 <= i < |A| && 0 <= j < |A| ==> A[i][j] == A[j][i]
  }

  /** Column `j` of `A`. */
  function Column(A: Matrix, j: nat): (c: Vector)
    requires forall i :: 0 <= i < |A| ==> j < |A[i]|
    ensures |c| == |A|
  {
    seq(|A|, i requires 0 <= i < |A| => A[i][j])
  }

  /** The matrix-vector product `A . v`: entry `i` is row `i` dotted with `v`. */
  function MatVec(A: Matrix, v: Vector): (w: Vector)
    requires IsMatrix(A, |A|, |v|)
    ensures |w| == |A|
  {
    seq(|A|, i requires 0 <= i < |A| => Dot(A[i], v))
  }

  /** The vector-matrix product `p^T . A` of an `|p| x n` matrix: entry `j` is
      `p` dotted with column `j`. */
  function VecMat(p: Vector, A: Matrix, n: nat): (w: Vector)
    requires IsMatrix(A, |p|, n)
    ensures |w| == n
  {
    seq(n, j requires 0 <= j < n => Dot(p, Column(A, j)))
  }

  /** `A * c`: every entry of `A` multiplied by the scalar `c`. */
  function MatScale(A: Matrix, c: real): (B: Matrix)
    ensures |B| == |A|
    ensures forall i :: 0 <= i < |A| ==> |B[i]| == |A[i]|
  {
    seq(|A|, i requires 0 <= i < |A| => Scale(c, A[i]))
  }

  /** Entry-wise sum of two matrices of the same shape. */
  function MatAdd(A: Matrix, B: Matrix): (C: Matrix)
    requires |A| == |B|
    requires forall i :: 0 <= i < |A| ==> |A[i]| == |B[i]|
    ensures |C| == |A|
  {
    seq(|A|, i requires 0 <= i < |A| => Add(A[i], B[i]))
  }

  /** The transpose `A^T` of a square matrix. */
  function Transpose(A: Matrix): (T: Matrix)
    requires IsSquare(A)
    ensures IsSquare(T)
  {
    seq(|A|, i requires 0 <= i < |A| => Column(A, i))
  }

  /** Transposition swaps indices: `A^T[i][j] == A[j][i]`, and symmetry means
      exactly that `A` is its own transpose. */
  lemma TransposeEntries(A: Matrix)
    requires IsSquare(A)
    ensures forall i, j :: 0 <= i < |A| && 0 <= j < |A| ==> Transpose(A)[i][j] == A[j][i]
    ensures IsSymmetric(A) <==> Transpose(A) == A
  {
    if IsSymmetric(A) {
      forall i | 0 <= i < |A| ensures Transpose(A)[i] == A[i] {
        assert forall j :: 0 <= j < |A| ==> Transpose(A)[i][j] == A[i][j];
      }
    }
  }

  /** `A . (x + y) == A . x + A . y`. */
  lemma MatVecAdd(A: Matrix, x: Vector, y: Vector)
    requires |x| == |y|
    requires IsMatrix(A, |A|, |x|)
    ensures MatVec(A, Add(x, y)) == Add(MatVec(A, x), MatVec(A, y))
  {
    forall i | 0 <= i < |A|
      ensures MatVec(A, Add(x, y))[i] == Add(MatVec(A, x), MatVec(A, y))[i]
    {
      DotAddRight(A[i], x, y);
    }
  }

  /** `A . (c * x) == c * (A . x)`. */
  lemma MatVecScale(A: Matrix, c: real, x: Vector)
    requires IsMatrix(A, |A|, |x|)
    ensures MatVec(A, Scale(c, x)) == Scale(c, MatVec(A, x))
  {
    forall i | 0 <= i < |A|
      ensures MatVec(A, Scale(c, x))[i] == Scale(c, MatVec(A, x))[i]
    {
      DotScaleRight(A[i], c, x);
    }
  }

  /** `(A * c) . p == c * (A . p)`: scaling the matrix before the product is
      scaling the product. */
  lemma MatScaleMatVec(A: Matrix, c: real, p: Vector)
    requires IsMatrix(A, |A|, |p|)
    ensures IsMatrix(MatScale(A, c), |A|, |p|)
    ensures MatVec(MatScale(A, c), p) == Scale(c, MatVec(A, p))
  {
    forall i | 0 <= i < |A|
      ensures MatVec(MatScale(A, c), p)[i] == Scale(c, MatVec(A, p))[i]
    {
      DotScaleLeft(c, A[i], p);
    }
  }

  /** Peeling the first row off a vector-matrix product:
      `p^T . A == p[0] * A[0] + p[1..]^T . A[1..]`. */
  lemma VecMatFirstRow(p: Vector, A: Matrix, n: nat)
    requires |p| > 0
    requires IsMatrix(A, |p|, n)
    ensures VecMat(p, A, n) == Add(Scale(p[0], A[0]), VecMat(p[1..], A[1..], n))
  {
    forall j | 0 <= j < n
      ensures VecMat(p, A, n)[j] == Add(Scale(p[0], A[0]), VecMat(p[1..], A[1..], n))[j]
    {
      assert Column(A, j)[1..] == Column(A[1..], j);
    }
  }

  /** The bilinear identity `(p^T . A) . q == p . (A . q)`: the two ways of
      forming `p^T A q` agree, for every matrix `A`, symmetric or not. */
  lemma {:induction false} VecMatDot(p: Vector, A: Matrix, n: nat, q: Vector)
    requires IsMatrix(A, |p|, n)
    requires |q| == n
    ensures Dot(VecMat(p, A, n), q) == Dot(p, MatVec(A, q))
  {
    if |p| == 0 {
      assert VecMat(p, A, n) == Zeros(n);
      DotZerosLeft(q);
    } else {
      VecMatFirstRow(p, A, n);
      VecMatDot(p[1..], A[1..], n, q);
      DotAddLeft(Scale(p[0], A[0]), VecMat(p[1..], A[1..], n), q);
      DotScaleLeft(p[0], A[0], q);
      assert MatVec(A, q)[1..] == MatVec(A[1..], q);
    }
  }

  /** For a symmetric matrix, `p^T . A` is `A . p`. */
  lemma VecMatSymmetric(p: Vector, A: Matrix)
    requires IsSquare(A)
    requires |p| == |A|
    requires IsSymmetric(A)
    ensures VecMat(p, A, |A|) == MatVec(A, p)
  {
    forall j | 0 <= j < |A|
      ensures VecMat(p, A, |A|)[j] == MatVec(A, p)[j]
    {
      assert Column(A, j) == A[j];
      DotComm(p, A[j]);
    }
  }
}
