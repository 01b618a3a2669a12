/** The unpreconditioned Conjugate Gradient iteration `fit(A, b, x0, tol,
    max_iter)` of examples/cg/cg.py, over exact real arithmetic.

    The model has two layers. `Init`, `Step` and `Run` describe one solve
    functionally, and `Solve` composes them. The method `Fit` is the loop as
    the source writes it, and its contract ties its result to `Solve`.

    The source divides by `p^T A p` and by `r0 . r0` without checking either.
    NumPy would then produce inf or nan. The model adds a third outcome,
    `Breakdown`, which is taken instead of dividing by zero. */
module ConjugateGradient {
  import opened Vectors
  import opened Matrices

  /** How a solve ended. */
  datatype Status =
    | Converged     // the early return: the fresh residual's norm fell below tol
    | NotConverged  // the loop ran out ("Failed to converge.")
    | Breakdown     // a denominator of alpha or beta was zero (not in the source)

  /** What `fit` hands back: the estimate `x`, plus how the loop ended and how
      many loop bodies it entered (the source returns only `x`). */
  datatype Outcome = Outcome(x: Vector, status: Status, iterations: nat)

  /** The loop-carried state: the estimate `x`, the residual `r0` and the
      search direction `p`. */
  datatype CgState = CgState(x: Vector, r: Vector, p: Vector)

  /** The result of one loop body: `Exit` is the early return with the updated
      `x`, `Stalled` is a zero denominator, `Next` carries on. */
  datatype StepResult =
    | Exit(x: Vector)
    | Stalled(x: Vector)
    | Next(s: CgState)

  /** Every vector of the state has the length N of the square matrix `A`. */
  predicate Fits(A: Matrix, s: CgState)
  {
    IsSquare(A) && |s.x| == |A| && |s.r| == |A| && |s.p| == |A|
  }

  /** The true residual `b - A . x`. */
  function Residual(A: Matrix, b: Vector, x: Vector): (r: Vector)
    requires IsSquare(A) && |b| == |A| && |x| == |A|
    ensures |r| == |A|
  {
    Sub(b, MatVec(A, x))
  }

  /** The recurrently updated residual agrees with the true one. */
  predicate ResidualInv(A: Matrix, b: Vector, s: CgState)
    requires Fits(A, s) && |b| == |A|
  {
    s.r == Residual(A, b, s.x)
  }

  /** `p . r == r . r`: an exact-arithmetic invariant of the iteration. */
  predicate DirectionInv(s: CgState)
    requires |s.p| == |s.r|
  {
    Dot(s.p, s.r) == Dot(s.r, s.r)
  }

  /** The convergence test `norm(r) < tol`, stated without a square root. No
      norm is below a tolerance that is not positive. */
  predicate BelowTol(r: Vector, tol: real)
  {
    0.0 < tol && NormSq(r) < tol * tol
  }

  /** The number of loop bodies `range(max_iter)` allows: none when
      `max_iter` is negative. */
  function Cap(maxIter: int): (n: nat)
  {
    if maxIter < 0 then 0 else maxIter
  }

  /** The denominator `p^T A p` of the step size, formed as the source forms
      it: first the row vector `p^T . A`, then its product with `p`. */
  function Curvature(A: Matrix, p: Vector): (c: real)
    requires IsSquare(A) && |p| == |A|
  {
    Dot(VecMat(p, A, |A|), p)
  }

  /** Lines 25-27: `x = x0`, `r0 = b - A . x`, `p = r0`. */
  function Init(A: Matrix, b: Vector, x0: Vector): (s: CgState)
    requires IsSquare(A) && |b| == |A| && |x0| == |A|
    ensures Fits(A, s)
    ensures s.x == x0 && s.p == s.r
    ensures ResidualInv(A, b, s)
    ensures DirectionInv(s)
  {
    var r0 := Sub(b, MatVec(A, x0));
    CgState(x0, r0, r0)
  }

  /** One loop body, lines 29-36. */
  function Step(A: Matrix, s: CgState, tol: real): (res: StepResult)
    requires Fits(A, s)
    ensures res.Exit? ==> |res.x| == |A|
    ensures res.Stalled? ==> res.x == s.x
    ensures res.Next? ==> Fits(A, res.s) && !BelowTol(res.s.r, tol)
  {
    var denom := Curvature(A, s.p);
    if denom == 0.0 then Stalled(s.x)
    else
      var a := Dot(s.r, s.r) / denom;
      var x := Add(s.x, Scale(a, s.p));
      var r1 := Sub(s.r, MatVec(MatScale(A, a), s.p));
      if BelowTol(r1, tol) then Exit(x)
      else if Dot(s.r, s.r) == 0.0 then
        assert a == 0.0;
        assert forall i :: 0 <= i < |x| ==> x[i] == s.x[i];
        Stalled(x)
      else
        var beta := Dot(r1, r1) / Dot(s.r, s.r);
        Next(CgState(x, r1, Add(r1, Scale(beta, s.p))))
  }

  /** At most `k` further loop bodies from state `s`. */
  function Run(A: Matrix, s: CgState, tol: real, k: nat): (o: Outcome)
    requires Fits(A, s)
    ensures |o.x| == |A|
    ensures o.iterations <= k
    ensures o.status == NotConverged ==> o.iterations == k
    ensures o.status != NotConverged ==> o.iterations >= 1
    ensures k == 0 ==> o.x == s.x && o.status == NotConverged
    decreases k
  {
    if k == 0 then Outcome(s.x, NotConverged, 0)
    else
      match Step(A, s, tol)
      case Exit(x) => Outcome(x, Converged, 1)
      case Stalled(x) => Outcome(x, Breakdown, 1)
      case Next(s') =>
        var o := Run(A, s', tol, k - 1);
        Outcome(o.x, o.status, o.iterations + 1)
  }

  /** A whole solve, `fit(A, b, x0, tol, max_iter)`. */
  function Solve(A: Matrix, b: Vector, x0: Vector, tol: real, maxIter: int): (o: Outcome)
    requires IsSquare(A) && |b| == |A| && |x0| == |A|
    ensures |o.x| == |b|
    ensures o.iterations <= Cap(maxIter)
    ensures o.status == NotConverged ==> o.iterations == Cap(maxIter)
    ensures Cap(maxIter) == 0 ==> o.x == x0 && o.status == NotConverged
  {
    Run(A, Init(A, b, x0), tol, Cap(maxIter))
  }

  /** The product `(A * a) . p` of line 31 is `a` times the same `A . p` whose
      dot with `p` is the denominator of `a` on line 29, so the new residual
      is `r0 - a * (A . p)`. */
  lemma {:induction false} StepProduct(A: Matrix, p: Vector, a: real)
    requires IsSquare(A) && |p| == |A|
    ensures IsMatrix(MatScale(A, a), |A|, |p|)
    ensures MatVec(MatScale(A, a), p) == Scale(a, MatVec(A, p))
    ensures Curvature(A, p) == Dot(p, MatVec(A, p))
    ensures Dot(p, MatVec(MatScale(A, a), p)) == a * Curvature(A, p)
  {
    MatScaleMatVec(A, a, p);
    VecMatDot(p, A, |A|, p);
    var ap := MatVec(A, p);
    DotScaleRight(p, a, ap);
    assert Dot(p, Scale(a, ap)) == a * Dot(p, ap);
  }

  /** The step size `a = (r0 . r0) / p^T A p` of line 29. */
  function StepSize(A: Matrix, s: CgState): (a: real)
    requires Fits(A, s)
    requires Curvature(A, s.p) != 0.0
  {
    NormSq(s.r) / Curvature(A, s.p)
  }

  /** When a loop body stops on a zero denominator: always when the
      curvature `p^T A p` is zero, and otherwise only when `r0 . r0` is. */
  lemma StepStalls(A: Matrix, s: CgState, tol: real)
    requires Fits(A, s)
    ensures Curvature(A, s.p) == 0.0 ==> Step(A, s, tol) == Stalled(s.x)
    ensures Step(A, s, tol).Stalled? ==> Curvature(A, s.p) == 0.0 || NormSq(s.r) == 0.0
  {
  }

  /** A loop body that carries on moves the estimate to `x + a * p` and the
      residual to `r0 - a * (A . p)`, with the single product `A . p`, and
      takes the direction `r1 + beta * p` with `beta = |r1|^2 / |r0|^2`. */
  lemma StepMoves(A: Matrix, s: CgState, tol: real)
    requires Fits(A, s)
    requires Step(A, s, tol).Next?
    ensures Curvature(A, s.p) != 0.0
    ensures Step(A, s, tol).s.x == Add(s.x, Scale(StepSize(A, s), s.p))
    ensures Step(A, s, tol).s.r == Sub(s.r, Scale(StepSize(A, s), MatVec(A, s.p)))
    ensures Step(A, s, tol).s.p
         == Add(Step(A, s, tol).s.r, Scale(NormSq(Step(A, s, tol).s.r) / NormSq(s.r), s.p))
  {
    StepProduct(A, s.p, StepSize(A, s));
  }

  /** A loop body with nonzero curvature whose new residual
      `r0 - a * (A . p)` passes the test returns `x + a * p` early. */
  lemma StepExits(A: Matrix, s: CgState, tol: real)
    requires Fits(A, s)
    requires Curvature(A, s.p) != 0.0
    requires BelowTol(Sub(s.r, Scale(StepSize(A, s), MatVec(A, s.p))), tol)
    ensures Step(A, s, tol) == Exit(Add(s.x, Scale(StepSize(A, s), s.p)))
  {
    StepProduct(A, s.p, StepSize(A, s));
  }

  /** Conversely, an early return happens only after a nonzero curvature,
      with a new residual `r0 - a * (A . p)` that passed the test, and it
      returns the `x + a * p` of that same loop body. */
  lemma ExitMeansPassed(A: Matrix, s: CgState, tol: real)
    requires Fits(A, s)
    requires Step(A, s, tol).Exit?
    ensures Curvature(A, s.p) != 0.0
    ensures Step(A, s, tol).x == Add(s.x, Scale(StepSize(A, s), s.p))
    ensures BelowTol(Sub(s.r, Scale(StepSize(A, s), MatVec(A, s.p))), tol)
  {
    StepProduct(A, s.p, StepSize(A, s));
  }

  /** The residual recurrence keeps `r == b - A . x`: moving `x` by `a * p`
      moves `b - A . x` by `-a * (A . p)`. */
  lemma ResidualUpdate(A: Matrix, b: Vector, x: Vector, r: Vector, p: Vector, a: real)
    requires IsSquare(A) && |b| == |A| && |x| == |A| && |r| == |A| && |p| == |A|
    requires r == Residual(A, b, x)
    ensures Sub(r, Scale(a, MatVec(A, p))) == Residual(A, b, Add(x, Scale(a, p)))
  {
    MatVecAdd(A, x, Scale(a, p));
    MatVecScale(A, a, p);
  }

  /** One loop body preserves the residual invariant, and the `x` returned
      by the early exit has a true residual below `tol`. */
  lemma StepResidual(A: Matrix, b: Vector, s: CgState, tol: real)
    requires Fits(A, s) && |b| == |A|
    requires ResidualInv(A, b, s)
    ensures Step(A, s, tol).Exit? ==> BelowTol(Residual(A, b, Step(A, s, tol).x), tol)
    ensures Step(A, s, tol).Next? ==> ResidualInv(A, b, Step(A, s, tol).s)
  {
    var denom := Curvature(A, s.p);
    if denom != 0.0 {
      var a := Dot(s.r, s.r) / denom;
      StepProduct(A, s.p, a);
      ResidualUpdate(A, b, s.x, s.r, s.p, a);
    }
  }

  /** A loop body that stops because of a zero denominator does so at the
      curvature `p^T A p` whenever `tol` is positive: with `r0 . r0 == 0` the
      step is zero and the unchanged residual `0` already passes the test. */
  lemma StallOnlyAtCurvature(A: Matrix, s: CgState, tol: real)
    requires Fits(A, s)
    requires 0.0 < tol
    ensures Step(A, s, tol).Stalled? ==> Curvature(A, s.p) == 0.0
  {
    var denom := Curvature(A, s.p);
    if denom != 0.0 && Dot(s.r, s.r) == 0.0 {
      var a := Dot(s.r, s.r) / denom;
      assert a == 0.0;
      StepProduct(A, s.p, a);
      var r1 := Sub(s.r, MatVec(MatScale(A, a), s.p));
      assert r1 == s.r;
      calc {
        NormSq(r1);
        ==
        0.0;
        <
        tol * tol;
      }
    }
  }

  /** The direction update of lines 34-36. In exact arithmetic the new
      residual is orthogonal to the old direction, `p . r == r . r` carries
      over to the next state, and the new direction differs from the new
      residual by `beta * p` with `beta = |r1|^2 / |r0|^2`. */
  lemma StepDirection(A: Matrix, s: CgState, tol: real)
    requires Fits(A, s)
    requires DirectionInv(s)
    requires Step(A, s, tol).Next?
    ensures NormSq(s.r) > 0.0
    ensures Dot(s.p, Step(A, s, tol).s.r) == 0.0
    ensures DirectionInv(Step(A, s, tol).s)
    ensures Sub(Step(A, s, tol).s.p, Step(A, s, tol).s.r)
         == Scale(NormSq(Step(A, s, tol).s.r) / NormSq(s.r), s.p)
  {
    var denom := Curvature(A, s.p);
    var rr := Dot(s.r, s.r);
    NormSqNonneg(s.r);
    var a := rr / denom;
    StepProduct(A, s.p, a);
    var ap := MatVec(A, s.p);
    var r1 := Sub(s.r, Scale(a, ap));
    DotSubRight(s.p, s.r, Scale(a, ap));
    DotScaleRight(s.p, a, ap);
    assert a * denom == rr;
    assert Dot(s.p, r1) == 0.0;
    var beta := Dot(r1, r1) / rr;
    DotAddLeft(r1, Scale(beta, s.p), r1);
    DotScaleLeft(beta, s.p, r1);
    assert Step(A, s, tol).s == CgState(Add(s.x, Scale(a, s.p)), r1, Add(r1, Scale(beta, s.p)));
  }

  /** Over a whole run from a state with `r == b - A . x`: a converged run
      returns an `x` whose true residual is below `tol`, and a run that used
      up at least one iteration without converging returns one whose true
      residual is not. */
  lemma {:induction false} RunResidual(k: nat, A: Matrix, b: Vector, s: CgState, tol: real)
    requires Fits(A, s) && |b| == |A|
    requires ResidualInv(A, b, s)
    ensures Run(A, s, tol, k).status == Converged
        ==> BelowTol(Residual(A, b, Run(A, s, tol, k).x), tol)
    ensures Run(A, s, tol, k).status == NotConverged && k > 0
        ==> !BelowTol(Residual(A, b, Run(A, s, tol, k).x), tol)
  {
    if k > 0 {
      StepResidual(A, b, s, tol);
      match Step(A, s, tol)
      case Next(s') => RunResidual(k - 1, A, b, s', tol);
      case Exit(_) =>
      case Stalled(_) =>
    }
  }

  /** An initial guess that already solves `A x = b` gives `r0 = p = 0`, so
      the first curvature is zero: the model stops at once with `Breakdown`
      and `x0`, where the source computes `0 / 0` on line 29. */
  lemma ExactGuessBreaksDown(A: Matrix, b: Vector, x0: Vector, tol: real, maxIter: int)
    requires IsSquare(A) && |b| == |A| && |x0| == |A|
    requires b == MatVec(A, x0)
    requires maxIter > 0
    ensures Solve(A, b, x0, tol, maxIter) == Outcome(x0, Breakdown, 1)
  {
    var s := Init(A, b, x0);
    assert s.r == Zeros(|A|);
    VecMatDot(s.p, A, |A|, s.p);
    DotZerosLeft(MatVec(A, s.p));
  }

  /** The end-to-end guarantee of `fit`, in exact arithmetic. */
  lemma SolveResidual(A: Matrix, b: Vector, x0: Vector, tol: real, maxIter: int)
    requires IsSquare(A) && |b| == |A| && |x0| == |A|
    ensures Solve(A, b, x0, tol, maxIter).status == Converged
        ==> BelowTol(Residual(A, b, Solve(A, b, x0, tol, maxIter).x), tol)
    ensures Solve(A, b, x0, tol, maxIter).status == NotConverged && Cap(maxIter) > 0
        ==> !BelowTol(Residual(A, b, Solve(A, b, x0, tol, maxIter).x), tol)
  {
    RunResidual(Cap(maxIter), A, b, Init(A, b, x0), tol);
  }

  /** `BelowTol` is the source's test `norm(r) < tol`: for the nonnegative
      square root `n` of `|r|^2`, `n < tol` exactly when `BelowTol(r, tol)`. */
  lemma NormBelowTol(r: Vector, tol: real, n: real)
    requires 0.0 <= n && n * n == NormSq(r)
    ensures n < tol <==> BelowTol(r, tol)
  {
    if n < tol {
      assert n * n <= n * tol;
      assert n * tol < tol * tol;
    } else if 0.0 < tol {
      assert tol * tol <= tol * n;
      assert tol * n <= n * n;
    }
  }

  /** `fit` as written: one loop body per iteration, the early return, and
      the fall-through after `max_iter` iterations. */
  method Fit(A: Matrix, b: Vector, x0: Vector, tol: real, maxIter: int)
    returns (x: Vector, status: Status, iterations: nat)
    requires IsSquare(A) && |b| == |A| && |x0| == |A|
    ensures Outcome(x, status, iterations) == Solve(A, b, x0, tol, maxIter)
    ensures |x| == |b|
    ensures iterations <= Cap(maxIter)
    ensures status == NotConverged ==> iterations == Cap(maxIter)
    ensures status == Converged ==> BelowTol(Residual(A, b, x), tol)
    ensures status == NotConverged && Cap(maxIter) > 0 ==> !BelowTol(Residual(A, b, x), tol)
    ensures Cap(maxIter) == 0 ==> x == x0 && status == NotConverged
  {
    SolveResidual(A, b, x0, tol, maxIter);
    var n := Cap(maxIter);
    x := x0;
    var r0 := Sub(b, MatVec(A, x));
    var p := r0;
    var i := 0;
    while i < n
      invariant 0 <= i <= n
      invariant Fits(A, CgState(x, r0, p))
      invariant var o := Run(A, CgState(x, r0, p), tol, n - i);
        Solve(A, b, x0, tol, maxIter) == Outcome(o.x, o.status, o.iterations + i)
    {
      ghost var s := CgState(x, r0, p);
      var denom := Dot(VecMat(p, A, |A|), p);
      if denom == 0.0 {
        assert Step(A, s, tol) == Stalled(x);
        return x, Breakdown, i + 1;
      }
      var a := Dot(r0, r0) / denom;
      x := Add(x, Scale(a, p));
      var r1 := Sub(r0, MatVec(MatScale(A, a), p));
      if BelowTol(r1, tol) {
        assert Step(A, s, tol) == Exit(x);
        return x, Converged, i + 1;
      }
      var rr := Dot(r0, r0);
      if rr == 0.0 {
        assert Step(A, s, tol) == Stalled(x);
        return x, Breakdown, i + 1;
      }
      var beta := Dot(r1, r1) / rr;
      p := Add(r1, Scale(beta, p));
      r0 := r1;
      assert Step(A, s, tol) == Next(CgState(x, r0, p));
      i := i + 1;
    }
    return x, NotConverged, n;
  }
}
