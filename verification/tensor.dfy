/** Dense row-major tensors over exact arithmetic, and the reductions the
    kernels compute: plain sums, dot products and the four partial sums of a
    4-wide vector accumulator. */
module Tensor {

  type Vector = seq<real>
  type Matrix = seq<seq<real>>

  /** The range of a square root: the model takes sqrt as a given positive function. */
  type Positive = r: real | r > 0.0 witness 1.0

  /** m has exactly `rows` rows of `cols` entries each. */
  predicate IsMatrix(m: Matrix, rows: nat, cols: nat)
  {
    |m| == rows && forall i :: 0 <= i < rows ==> |m[i]| == cols
  }

  /** Left-to-right sum of a vector. */
  function Sum(v: Vector): real
    decreases |v|
  {
    if |v| == 0 then 0.0 else Sum(v[..|v| - 1]) + v[|v| - 1]
  }

  /** The dot product, accumulated in index order. */
  function Dot(a: Vector, b: Vector): real
    requires |a| == |b|
    decreases |a|
  {
    if |a| == 0 then 0.0 else Dot(a[..|a| - 1], b[..|b| - 1]) + a[|a| - 1] * b[|a| - 1]
  }

  /** The partial sum held by lane `k` of a 4-wide accumulator after `c`
      chunks of four: the products at indices 4q + k for q < c. */
  function Lane(a: Vector, b: Vector, k: nat, c: nat): real
    requires |a| == |b| && k < 4 && 4 * c <= |a|
  {
    if c == 0 then 0.0 else Lane(a, b, k, c - 1) + a[4 * (c - 1) + k] * b[4 * (c - 1) + k]
  }

  /** Extending a prefix by one index adds one product to the dot product. */
  lemma DotStep(a: Vector, b: Vector, n: nat)
    requires |a| == |b| && 0 < n <= |a|
    ensures Dot(a[..n], b[..n]) == Dot(a[..n - 1], b[..n - 1]) + a[n - 1] * b[n - 1]
  {
    assert a[..n][..n - 1] == a[..n - 1];
    assert b[..n][..n - 1] == b[..n - 1];
  }

  /** Summing the four lanes of the accumulator gives the dot product of the
      first 4c entries: reassociating the sum over lanes is exact. */
  lemma {:induction false} LanesAddUp(a: Vector, b: Vector, c: nat)
    requires |a| == |b| && 4 * c <= |a|
    ensures Lane(a, b, 0, c) + Lane(a, b, 1, c) + Lane(a, b, 2, c) + Lane(a, b, 3, c)
            == Dot(a[..4 * c], b[..4 * c])
  {
    if c > 0 {
      LanesAddUp(a, b, c - 1);
      var n := 4 * c;
      DotStep(a, b, n);
      DotStep(a, b, n - 1);
      DotStep(a, b, n - 2);
      DotStep(a, b, n - 3);
    } else {
      assert a[..0] == [];
    }
  }

  /** A zero vector has a zero dot product with anything. */
  lemma {:induction false} DotZero(a: Vector, b: Vector)
    requires |a| == |b|
    requires forall k :: 0 <= k < |a| ==> a[k] == 0.0
    ensures Dot(a, b) == 0.0
  {
    if |a| > 0 {
      DotZero(a[..|a| - 1], b[..|b| - 1]);
    }
  }

  /** The dot product is linear in its second argument: for u = a + c * b,
      dot(w, u) = dot(w, a) + c * dot(w, b). */
  lemma {:induction false} DotIsLinear(w: Vector, u: Vector, a: Vector, b: Vector, c: real)
    requires |w| == |u| == |a| == |b|
    requires forall k :: 0 <= k < |u| ==> u[k] == a[k] + c * b[k]
    ensures Dot(w, u) == Dot(w, a) + c * Dot(w, b)
    decreases |w|
  {
    if |w| > 0 {
      var n := |w| - 1;
      DotIsLinear(w[..n], u[..n], a[..n], b[..n], c);
      assert w[n] * u[n] == w[n] * a[n] + c * (w[n] * b[n]);
    }
  }

  /** Two matrices of the same shape that agree cell by cell are equal. */
  lemma MatrixEq(m: Matrix, n: Matrix, rows: nat, cols: nat)
    requires IsMatrix(m, rows, cols) && IsMatrix(n, rows, cols)
    requires forall i, j :: 0 <= i < rows && 0 <= j < cols ==> m[i][j] == n[i][j]
    ensures m == n
  {
    forall i | 0 <= i < rows
      ensures m[i] == n[i]
    {
    }
  }
}
