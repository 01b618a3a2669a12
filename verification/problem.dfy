/** The one step of test-problem generation that the solver's guarantees
    depend on: the random matrix `M` is replaced by `M + M^T`, which is
    symmetric whatever `M` was. */
module ProblemGen {
  import opened Vectors
  import opened Matrices

  /** `M + M^T` for a square `M`. */
  function Symmetrize(M: Matrix): (S: Matrix)
    requires IsSquare(M)
    ensures IsSquare(S) && |S| == |M|
  {
    MatAdd(M, Transpose(M))
  }

  /** `M + M^T` is symmetric entry by entry and equals its own transpose. */
  lemma SymmetrizeIsSymmetric(M: Matrix)
    requires IsSquare(M)
    ensures IsSymmetric(Symmetrize(M))
    ensures Transpose(Symmetrize(M)) == Symmetrize(M)
  {
    var S := Symmetrize(M);
    TransposeEntries(M);
    forall i, j | 0 <= i < |M| && 0 <= j < |M|
      ensures S[i][j] == S[j][i]
    {
      assert S[i][j] == M[i][j] + M[j][i];
      assert S[j][i] == M[j][i] + M[i][j];
    }
    TransposeEntries(S);
  }
}
