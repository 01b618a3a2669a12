# Conjugate Gradient solver, modelled in Dafny

This project models `fit(A, b, x0, tol, max_iter)` from the CuPy example
`examples/cg/cg.py`. `fit` is the unpreconditioned Conjugate Gradient (CG)
iteration for `A x = b`. The same Python code runs on NumPy (CPU) or CuPy
(GPU) arrays. The model has a single backend. Its vectors are `seq<real>`,
its matrices are sequences of rows, and all arithmetic is exact.

The files:

- `vectors.dfy` (module `Vectors`): dot product, squared 2-norm, sum,
  difference and scaling of vectors, with their algebraic laws.
- `matrices.dfy` (module `Matrices`): `A . v`, the row vector `p^T . A`,
  `A * a` (every entry scaled), transpose and symmetry. It also proves the
  bilinear identity `(p^T A) . q == p . (A q)`.
- `cg.dfy` (module `ConjugateGradient`): the solver. `Init`, `Step` and
  `Run` describe one solve as pure functions, and `Solve` composes them. The
  method `Fit` is the loop as the source writes it, and its contract says
  it returns exactly what `Solve` returns.
- `problem.dfy` (module `ProblemGen`): the `A + A.T` symmetrisation that the
  test driver applies to its random matrix.
- `examples.dfy` (module `CgExamples`): three small solves, evaluated
  exactly.

Points where the model departs from the code, or where the code departs
from textbook CG:

- **Zero denominators (a modelling addition).** The source divides by
  `p^T A p` (line 29) and by `r0 . r0` (line 34) without checking either.
  NumPy would then produce `inf` or `nan`. The model never divides by zero.
  A zero curvature `p^T A p` ends the solve with status `Breakdown` and the
  current `x`. A zero `r0 . r0` at line 34 also ends it with `Breakdown`.
  The `x` just updated is returned then, and since the step size was zero it
  is again the current `x` (`Step`). `StallOnlyAtCurvature` shows that the
  second case needs `tol <= 0`.
- **The convergence test.** `norm(r1) < tol` is written
  `0 < tol && |r1|^2 < tol^2` (`BelowTol`), and `NormBelowTol` shows the
  two agree. A non-positive `tol` never passes the test.
- **Negative `max_iter`.** The model accepts any integer. As with Python's
  `range`, a negative value runs no iterations (`Cap`).
- **What `fit` returns.** The source returns only `x` and prints
  "Failed to converge. Increase max-iter or tol." on the fall-through. The
  model returns an `Outcome` that carries `x`, a `Status` in place of the
  message, and the number of loop bodies entered.
- **Matrix products.** Textbook CG forms `A . p` once per iteration and
  reuses it. This code forms two: `p.T . A` on line 29 and
  `(A * a) . p` on line 31, the second after scaling the whole matrix. The
  model follows the code. `StepProduct` shows that both products equal the
  single product `A . p` in exact arithmetic, and `StepMoves` and `StepExits`
  restate one loop body with that single product.
- **When the test first runs.** The code only tests the residual `r1`
  after an update, never the initial `r0`. So for `N >= 1` an `x0` that
  already solves the system is not recognised. Then `r0 = p = 0`, and line 29 computes
  `0 / 0 = nan`. Line 30 turns every entry of `x` into `nan`, and
  `nan < tol` on line 32 is false. All `max_iter` loop bodies run, and the
  code prints "Failed to converge" and returns an all-`nan` `x`. The model
  instead sees a zero curvature and returns `x0` with `Breakdown` after one
  loop body (`ExactGuessBreaksDown`).
- **The empty system.** For `N = 0` the code's division by zero is
  harmless. Line 29 computes `0 / 0 = nan`, but only empty arrays are
  ever scaled by it, and the norm of the empty `r1` is `0`. So for any
  positive `tol` the code returns `[]` from line 33 on the first
  iteration. The model reports `Breakdown` instead, with the same `[]`
  after one loop body (`EmptySystemBreaksDown`). This is the one input on
  which the model's `Breakdown` replaces a successful exit.
- **No symmetry requirement.** CG's theory assumes a symmetric `A`, but
  the code never checks it. The model does not need symmetry for anything it
  proves. That includes the orthogonality of the new residual to the old
  direction (`StepDirection`), which holds for any square `A` because of
  `VecMatDot`. Symmetry only makes the code's row vector `p.T . A` the
  same as the textbook `A . p` (`VecMatSymmetric`).

## Model

| member | source | states |
|---|---|---|
| ConjugateGradient.Cap | examples/cg/cg.py:28 | the number of loop bodies `range(max_iter)` allows: `max_iter` itself, and none for a negative `max_iter` |
| ConjugateGradient.BelowTol | examples/cg/cg.py:32 | the test `norm(r1) < tol` without a square root: `0 < tol` and `|r1|^2 < tol^2` (`NormBelowTol` proves the two agree) |
| ConjugateGradient.Curvature | examples/cg/cg.py:29 | the denominator `(p.T . A) . p`, formed in the code's order (`StepProduct` proves it equals `p . (A . p)`) |
| ConjugateGradient.StepSize | examples/cg/cg.py:29 | the step size `a = (r0 . r0) / p^T A p` when the curvature is nonzero |
| ConjugateGradient.Init | examples/cg/cg.py:25-27 | the first state has `x == x0` and `p == r`, its residual `r` is the true residual `b - A . x0`, and it satisfies `p . r == r . r` |
| ConjugateGradient.Step | examples/cg/cg.py:29-36 | every vector keeps length N; a step that stops on a zero denominator returns the current `x` unchanged; a step that carries on has a new residual that failed the tolerance test |
| ConjugateGradient.StepStalls | examples/cg/cg.py:29-36 | a zero curvature `p^T A p` always stops the loop body with the current `x`, and a body stops only on a zero curvature or a zero `r0 . r0` |
| ConjugateGradient.StepMoves | examples/cg/cg.py:29-36 | a loop body that carries on had nonzero curvature and, with `a = (r0 . r0) / p^T A p`, moves to `x1 = x + a * p`, `r1 = r0 - a * (A . p)` and `p1 = r1 + beta * p` with `beta = |r1|^2 / |r0|^2` |
| ConjugateGradient.StepExits | examples/cg/cg.py:29-33 | with nonzero curvature, when `r1 = r0 - a * (A . p)` passes `norm(r1) < tol` the body returns `x + a * p` early |
| ConjugateGradient.Run | examples/cg/cg.py:28-39 | at most `k` loop bodies run; the not-converged outcome comes only after exactly `k`; with `k == 0` the estimate is returned unchanged and the outcome is not-converged |
| ConjugateGradient.Solve | examples/cg/cg.py:23-39 | the returned `x` has the length of `b`; at most `max(max_iter, 0)` iterations run, and exactly that many on the not-converged path; `max_iter <= 0` returns `x0` with the not-converged status |
| ConjugateGradient.StepProduct | examples/cg/cg.py:29-31 | `(A * a) . p == a * (A . p)`; the denominator `(p^T . A) . p` equals `p . (A . p)`; hence `p . ((A * a) . p) == a * p^T A p` |
| ConjugateGradient.ExitMeansPassed | examples/cg/cg.py:29-33 | an early return had nonzero curvature, its new residual `r0 - a * (A . p)` passed `norm(r1) < tol`, and it returns the `x + a * p` of that same loop body |
| ConjugateGradient.ResidualUpdate | examples/cg/cg.py:30-31 | if `r == b - A . x`, then `r - a * (A . p) == b - A . (x + a * p)` |
| ConjugateGradient.StepResidual | examples/cg/cg.py:29-36 | one loop body keeps `r == b - A . x`; the `x` returned by the early exit has a true residual `b - A . x` below `tol` |
| ConjugateGradient.RunResidual | examples/cg/cg.py:28-39 | from a state with `r == b - A . x`, a converged run returns an `x` whose true residual is below `tol`; a run that used at least one iteration and did not converge returns one whose true residual is not |
| ConjugateGradient.SolveResidual | examples/cg/cg.py:23-39 | for a whole solve: `Converged` means `norm(b - A . x) < tol`; when at least one iteration was allowed, not converging means `norm(b - A . x) >= tol` |
| ConjugateGradient.StepDirection | examples/cg/cg.py:29-36 | when a step carries on, the old `r0 . r0` was positive; the new residual is orthogonal to the old direction; `p . r == r . r` carries over; and `p_new - r1 == beta * p` with `beta == |r1|^2 / |r0|^2` |
| ConjugateGradient.StallOnlyAtCurvature | examples/cg/cg.py:29-34 | with `tol > 0`, a zero denominator can only be the curvature `p^T A p`: if `r0 . r0 == 0`, the step is zero and the residual passes the test |
| ConjugateGradient.ExactGuessBreaksDown | examples/cg/cg.py:25-29 | when `x0` already solves `A x = b` and `max_iter > 0`, the solve returns `x0` with `Breakdown` after one loop body, where the source would divide `0 / 0` |
| ConjugateGradient.NormBelowTol | examples/cg/cg.py:32 | for the nonnegative root `n` of `|r|^2`, `n < tol` holds exactly when `BelowTol(r, tol)` |
| ConjugateGradient.Fit | examples/cg/cg.py:23-39 | the loop returns the same outcome as `Solve`: the same `x`, status and iteration count; the same bounds, residual guarantees and zero-iteration behaviour as `Solve` and `SolveResidual` |
| Matrices.VecMatDot | examples/cg/cg.py:29 | `(p^T . A) . q == p . (A . q)` for every `|p| x n` matrix `A` |
| Matrices.MatScaleMatVec | examples/cg/cg.py:31 | `(A * c) . p == c * (A . p)` |
| Matrices.VecMatSymmetric | examples/cg/cg.py:29 | for a symmetric `A`, the row vector `p^T . A` is `A . p` |
| Matrices.TransposeEntries | examples/cg/cg.py:53 | `A^T[i][j] == A[j][i]`, and `A` is symmetric exactly when `A^T == A` |
| ProblemGen.Symmetrize | examples/cg/cg.py:53 | `A + A.T` for a square `A`, again a square matrix of the same size |
| ProblemGen.SymmetrizeIsSymmetric | examples/cg/cg.py:53 | for any square `M`, `M + M^T` is symmetric and is its own transpose |
| Vectors.NormSqNonneg | examples/cg/cg.py:32 | the squared norm tested on line 32 is never negative |
| CgExamples.DiagonalTwoIterations | examples/cg/cg.py:23-39 | `diag(2, 4) x = (2, 4)` from `x0 = 0` with `tol = 0.001` converges on the second iteration to exactly `(1, 1)` |
| CgExamples.DiagonalOneIteration | examples/cg/cg.py:37-39 | the same system with `max_iter = 1` does not converge and returns the one-step estimate `(5/9, 10/9)` |
| CgExamples.EmptySystemBreaksDown | examples/cg/cg.py:29-33 | for `N = 0` and `max_iter > 0` the model reports `Breakdown` with `[]` after one loop body, where the source returns `[]` from its early exit whenever `tol > 0` |
| CgExamples.ZeroMatrixBreaksDown | examples/cg/cg.py:29 | with `A = 0` the first curvature is zero; the model reports `Breakdown` with `x0` where the source would divide by zero |

## Left out

- The `timer` context manager, stream synchronisation and wall-clock
  timing (lines 13-20): device and clock I/O.
- Random problem generation with `scipy.sparse.rand` and
  `np.random.randint`, the `int32` casts and the `rint` rounding of results
  (lines 50-58, 67, 76, 81): randomness and foreign calls. Only the
  `A + A.T` step is modelled (`ProblemGen`).
- The SciPy `cg` reference solver (lines 6, 79): third-party code that is
  not visible here.
- Backend selection with `get_array_module`, `cupy.asarray` transfers and
  `cupy.cuda.Device` (lines 24, 69-72): accelerator plumbing. The model has
  one real-valued backend.
- Floating-point rounding, NaN and infinity propagation, and agreement
  between CPU and GPU results: none of these can be expressed over `real`.
- Integer arithmetic inside `fit`: the driver passes `int32` arrays `A`,
  `b` and `x0` (lines 53, 57, 58), so `b - A . x` (line 26) and the first
  iteration's dot products (lines 29 and 34) are `int32` and can wrap around, and
  under Python 2 (which the code supports through `six.moves.range`, line
  28) the `/` on lines 29 and 34 is floor division of integers. The model
  computes in exact `real` arithmetic from the start, as the algorithm
  intends.
- Shapes: the model requires `A` to be square and `b`, `x0` to have its
  size (`Init`, `Solve`, `Fit`), and does not model NumPy's `ValueError`
  for mismatched shapes. In two degenerate cases the source does not
  raise, so the requirement is stronger than the source. A non-square `A`
  only fails at line 29, so with `max_iter <= 0` the source returns `x0`
  for any `m x n` matrix. A `b` of length 1 is broadcast against `A . x`.
- Convergence within N iterations and a non-increasing residual norm: this
  code does not promise them, and proving them needs the full
  A-orthogonality theory of CG. The worked example
  `DiagonalTwoIterations` shows one instance only.
- The command-line parsing, printing and the trial loop of `run` and
  `__main__` (lines 42-95): I/O.
