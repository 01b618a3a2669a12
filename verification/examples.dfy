/** Small worked solves, evaluated exactly. */
module CgExamples {
  import opened Vectors
  import opened Matrices
  import opened ConjugateGradient

  /** Entries of a 2-vector. */
  lemma Dot2(u: Vector, v: Vector)
    requires |u| == 2 && |v| == 2
    ensures Dot(u, v) == u[0] * v[0] + u[1] * v[1]
  {
    var u', v' := u[1..], v[1..];
    assert Dot(u', v') == u'[0] * v'[0] + Dot(u'[1..], v'[1..]);
    assert u'[1..] == [] && v'[1..] == [];
  }

  /** The system `diag(2, 4) x = (2, 4)`, whose solution is `(1, 1)`. */
  const Diag: Matrix := [[2.0, 0.0], [0.0, 4.0]]
  const Rhs: Vector := [2.0, 4.0]
  const Tol: real := 0.001

  /** `Diag . u == (2 u0, 4 u1)`. */
  lemma DiagProduct(u: Vector)
    requires |u| == 2
    ensures IsSquare(Diag)
    ensures MatVec(Diag, u) == [2.0 * u[0], 4.0 * u[1]]
  {
    Dot2(Diag[0], u);
    Dot2(Diag[1], u);
  }

  /** The states the two iterations pass through. */
  const State0: CgState := CgState([0.0, 0.0], [2.0, 4.0], [2.0, 4.0])
  const State1: CgState :=
    CgState([5.0 / 9.0, 10.0 / 9.0], [8.0 / 9.0, -4.0 / 9.0], [80.0 / 81.0, -20.0 / 81.0])

  /** First iteration: `p^T A p = 72`, `r . r = 20`, `a = 5/18`,
      `|r1|^2 = 80/81`, `beta = 4/81`. */
  lemma DiagFirstStep()
    ensures IsSquare(Diag) && Fits(Diag, State0)
    ensures Step(Diag, State0, Tol) == Next(State1)
  {
    var p0 := State0.p;
    var a := 5.0 / 18.0;
    DiagProduct(p0);
    assert MatVec(Diag, p0) == [4.0, 16.0];
    StepProduct(Diag, p0, a);
    Dot2(p0, [4.0, 16.0]);
    Dot2(p0, p0);
    assert Curvature(Diag, p0) == 72.0;
    assert Dot(State0.r, State0.r) / 72.0 == a;
    var r1: Vector := [8.0 / 9.0, -4.0 / 9.0];
    assert Add(State0.x, Scale(a, p0)) == State1.x;
    assert Sub(State0.r, Scale(a, [4.0, 16.0])) == r1;
    Dot2(r1, r1);
    assert NormSq(r1) == 80.0 / 81.0;
    assert !BelowTol(r1, Tol);
    assert NormSq(r1) / Dot(State0.r, State0.r) == 4.0 / 81.0;
    assert Add(r1, Scale(4.0 / 81.0, p0)) == State1.p;
  }

  /** Second iteration: `p^T A p = 14400/6561`, `a = 9/20`, the new residual
      is `0` and the early return hands back `(1, 1)`. */
  lemma DiagSecondStep()
    ensures IsSquare(Diag) && Fits(Diag, State1)
    ensures Step(Diag, State1, Tol) == Exit([1.0, 1.0])
  {
    var p1 := State1.p;
    var a := 9.0 / 20.0;
    var ap: Vector := [160.0 / 81.0, -80.0 / 81.0];
    DiagProduct(p1);
    assert MatVec(Diag, p1) == ap;
    StepProduct(Diag, p1, a);
    Dot2(p1, ap);
    Dot2(State1.r, State1.r);
    assert Curvature(Diag, p1) == 14400.0 / 6561.0;
    assert Dot(State1.r, State1.r) / (14400.0 / 6561.0) == a;
    assert Add(State1.x, Scale(a, p1)) == [1.0, 1.0];
    assert Sub(State1.r, Scale(a, ap)) == [0.0, 0.0];
    Dot2([0.0, 0.0], [0.0, 0.0]);
    assert BelowTol([0.0, 0.0], Tol);
  }

  /** From zero, the solve reaches the exact solution `(1, 1)` on its second
      iteration, as CG does in exact arithmetic on an N x N positive-definite
      system within N iterations. */
  lemma DiagonalTwoIterations()
    ensures Solve(Diag, Rhs, [0.0, 0.0], Tol, 10) == Outcome([1.0, 1.0], Converged, 2)
  {
    DiagProduct([0.0, 0.0]);
    assert Init(Diag, Rhs, [0.0, 0.0]) == State0;
    DiagFirstStep();
    DiagSecondStep();
  }

  /** With `max_iter = 1` the loop runs out without converging and the
      one-step estimate comes back. */
  lemma DiagonalOneIteration()
    ensures Solve(Diag, Rhs, [0.0, 0.0], Tol, 1) == Outcome(State1.x, NotConverged, 1)
  {
    DiagProduct([0.0, 0.0]);
    assert Init(Diag, Rhs, [0.0, 0.0]) == State0;
    DiagFirstStep();
  }

  /** With `A = 0` the very first curvature is zero: the source would divide
      by zero, the model reports `Breakdown` and hands back `x0`. */
  lemma ZeroMatrixBreaksDown()
    ensures Solve([[0.0]], [1.0], [0.0], 0.5, 5) == Outcome([0.0], Breakdown, 1)
  {
    var A: Matrix := [[0.0]];
    assert IsSquare(A);
    assert MatVec(A, [0.0]) == [0.0];
    assert Init(A, [1.0], [0.0]) == CgState([0.0], [1.0], [1.0]);
    assert Column(A, 0) == [0.0];
    assert VecMat([1.0], A, 1) == [0.0];
    assert Curvature(A, [1.0]) == 0.0;
  }

  /** The empty system: the curvature of the empty direction is zero, so
      the model reports `Breakdown`. The source instead computes `0 / 0` on
      line 29 but only ever applies it to empty arrays, and for `tol > 0`
      returns `[]` from its early exit. */
  lemma EmptySystemBreaksDown(tol: real, maxIter: int)
    requires maxIter > 0
    ensures Solve([], [], [], tol, maxIter) == Outcome([], Breakdown, 1)
  {
  }
}
