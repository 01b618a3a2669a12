/** Dense real vectors and the vector operations the Conjugate Gradient
    iteration is built from: the dot product, the squared 2-norm, and the
    elementwise sum, difference and scaling.

    The solver's arrays are NumPy or CuPy arrays of floating-point numbers;
    here every entry is an exact `real`, so the algebraic laws below hold
    without rounding. */
module Vectors {

  type Vector = seq<real>

  /** The dot product `u . v`, summed from the first entry. */
  function Dot(u: Vector, v: Vector): (d: real)
    requires |u| == |v|
  {
    if |u| == 0 then 0.0 else u[0] * v[0] + Dot(u[1..], v[1..])
  }

  /** The squared Euclidean norm `|u|^2`. */
  function NormSq(u: Vector): (n: real)
  {
    Dot(u, u)
  }

  /** The vector of `n` zeros. */
  function Zeros(n: nat): (z: Vector)
    ensures |z| == n
  {
    seq(n, i => 0.0)
  }

  /** Elementwise sum `u + v`. */
  function Add(u: Vector, v: Vector): (w: Vector)
    requires |u| == |v|
    ensures |w| == |u|
  {
    seq(|u|, i requires 0 <= i < |u| => u[i] + v[i])
  }

  /** Elementwise difference `u - v`. */
  function Sub(u: Vector, v: Vector): (w: Vector)
    requires |u| == |v|
    ensures |w| == |u|
  {
    seq(|u|, i requires 0 <= i < |u| => u[i] - v[i])
  }

  /** Scalar multiple `c * u` (the source writes it `p * a` or `b * p`). */
  function Scale(c: real, u: Vector): (w: Vector)
    ensures |w| == |u|
  {
    seq(|u|, i requires 0 <= i < |u| => c * u[i])
  }

  /** The dot product is symmetric. */
  lemma {:induction false} DotComm(u: Vector, v: Vector)
    requires |u| == |v|
    ensures Dot(u, v) == Dot(v, u)
  {
    if |u| > 0 {
      DotComm(u[1..], v[1..]);
    }
  }

  /** The dot product is additive in its left argument. */
  lemma {:induction false} DotAddLeft(u: Vector, v: Vector, w: Vector)
    requires |u| == |v| == |w|
    ensures Dot(Add(u, v), w) == Dot(u, w) + Dot(v, w)
  {
    if |u| > 0 {
      assert Add(u, v)[1..] == Add(u[1..], v[1..]);
      DotAddLeft(u[1..], v[1..], w[1..]);
      assert (u[0] + v[0]) * w[0] == u[0] * w[0] + v[0] * w[0];
    }
  }

  /** The dot product distributes over a difference in its left argument. */
  lemma {:induction false} DotSubLeft(u: Vector, v: Vector, w: Vector)
    requires |u| == |v| == |w|
    ensures Dot(Sub(u, v), w) == Dot(u, w) - Dot(v, w)
  {
    if |u| > 0 {
      assert Sub(u, v)[1..] == Sub(u[1..], v[1..]);
      DotSubLeft(u[1..], v[1..], w[1..]);
      assert (u[0] - v[0]) * w[0] == u[0] * w[0] - v[0] * w[0];
    }
  }

  /** A scalar factor in the left argument moves out of the dot product. */
  lemma {:induction false} DotScaleLeft(c: real, u: Vector, w: Vector)
    requires |u| == |w|
    ensures Dot(Scale(c, u), w) == c * Dot(u, w)
  {
    if |u| > 0 {
      assert Scale(c, u)[1..] == Scale(c, u[1..]) by {
        forall i | 0 <= i < |u| - 1
          ensures Scale(c, u)[1..][i] == Scale(c, u[1..])[i]
        {
        }
      }
      DotScaleLeft(c, u[1..], w[1..]);
      assert (c * u[0]) * w[0] + c * Dot(u[1..], w[1..])
          == c * (u[0] * w[0] + Dot(u[1..], w[1..]));
    }
  }

  /** The zero vector is orthogonal to everything. */
  lemma {:induction false} DotZerosLeft(w: Vector)
    ensures Dot(Zeros(|w|), w) == 0.0
  {
    if |w| > 0 {
      assert Zeros(|w|)[1..] == Zeros(|w[1..]|);
      DotZerosLeft(w[1..]);
    }
  }

  /** The right-argument forms of the three laws above, by symmetry. */
  lemma {:induction false} DotAddRight(w: Vector, u: Vector, v: Vector)
    requires |u| == |v| == |w|
    ensures Dot(w, Add(u, v)) == Dot(w, u) + Dot(w, v)
  {
    DotComm(w, Add(u, v));
    DotComm(w, u);
    DotComm(w, v);
    DotAddLeft(u, v, w);
  }

  lemma {:induction false} DotSubRight(w: Vector, u: Vector, v: Vector)
    requires |u| == |v| == |w|
    ensures Dot(w, Sub(u, v)) == Dot(w, u) - Dot(w, v)
  {
    DotComm(w, Sub(u, v));
    DotComm(w, u);
    DotComm(w, v);
    DotSubLeft(u, v, w);
  }

  lemma {:induction false} DotScaleRight(w: Vector, c: real, u: Vector)
    requires |u| == |w|
    ensures Dot(w, Scale(c, u)) == c * Dot(w, u)
  {
    DotComm(w, Scale(c, u));
    DotComm(w, u);
    DotScaleLeft(c, u, w);
  }

  /** `u . u` is a sum of squares, so it is never negative. */
  lemma {:induction false} NormSqNonneg(u: Vector)
    ensures Dot(u, u) >= 0.0
  {
    if |u| > 0 {
      NormSqNonneg(u[1..]);
      assert u[0] * u[0] >= 0.0;
    }
  }
}
