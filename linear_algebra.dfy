/** The dense one- and two-dimensional arrays the network is written with
    (ndarray's Array1 and Array2), over exact reals: dot products of a
    vector with a matrix, outer products, transposition and elementwise
    arithmetic. A matrix is a sequence of rows; its column count is passed
    explicitly where a matrix may have no rows. */
module LinearAlgebra {

  type Vector = seq<real>
  type Matrix = seq<Vector>

  /** `m` has `rows` rows of `cols` entries each. */
  predicate IsMatrix(m: Matrix, rows: nat, cols: nat) {
    |m| == rows && forall i :: 0 <= i < rows ==> |m[i]| == cols
  }

  function Sum(v: Vector): real {
    if |v| == 0 then 0.0 else v[0] + Sum(v[1..])
  }

  function Dot(u: Vector, v: Vector): real
    requires |u| == |v|
  {
    if |u| == 0 then 0.0 else u[0] * v[0] + Dot(u[1..], v[1..])
  }

  function Zeros(n: nat): (r: Vector)
    ensures |r| == n && forall i :: 0 <= i < n ==> r[i] == 0.0
  {
    seq(n, _ => 0.0)
  }

  /** The vector of length `n` holding 1 at index `k` and 0 elsewhere. */
  function OneHot(n: nat, k: nat): (r: Vector)
    requires k < n
    ensures |r| == n && r[k] == 1.0
    ensures forall i :: 0 <= i < n && i != k ==> r[i] == 0.0
  {
    seq(n, i => if i == k then 1.0 else 0.0)
  }

  function Add(u: Vector, v: Vector): (r: Vector)
    requires |u| == |v|
    ensures |r| == |u|
  {
    seq(|u|, i requires 0 <= i < |u| => u[i] + v[i])
  }

  function Sub(u: Vector, v: Vector): (r: Vector)
    requires |u| == |v|
    ensures |r| == |u|
  {
    seq(|u|, i requires 0 <= i < |u| => u[i] - v[i])
  }

  /** Elementwise product (ndarray's `*` on two arrays). */
  function Hadamard(u: Vector, v: Vector): (r: Vector)
    requires |u| == |v|
    ensures |r| == |u| && forall i :: 0 <= i < |u| ==> r[i] == u[i] * v[i]
  {
    seq(|u|, i requires 0 <= i < |u| => u[i] * v[i])
  }

  function Scale(c: real, v: Vector): (r: Vector)
    ensures |r| == |v| && forall i :: 0 <= i < |v| ==> r[i] == c * v[i]
  {
    seq(|v|, i requires 0 <= i < |v| => c * v[i])
  }

  /** Column `j` of `m`. */
  function Column(m: Matrix, j: nat): (r: Vector)
    requires forall i :: 0 <= i < |m| ==> j < |m[i]|
    ensures |r| == |m|
  {
    seq(|m|, i requires 0 <= i < |m| => m[i][j])
  }

  /** `x.dot(m)` for a vector `x` and a |x| x cols matrix `m`. */
  function VecMat(x: Vector, m: Matrix, cols: nat): (r: Vector)
    requires IsMatrix(m, |x|, cols)
    ensures |r| == cols
  {
    seq(cols, j requires 0 <= j < cols => Dot(x, Column(m, j)))
  }

  /** `m.t()` for a matrix with `cols` columns. */
  function Transpose(m: Matrix, cols: nat): (r: Matrix)
    requires IsMatrix(m, |m|, cols)
    ensures IsMatrix(r, cols, |m|)
    ensures forall i, j :: 0 <= i < |m| && 0 <= j < cols ==> r[j][i] == m[i][j]
  {
    seq(cols, j requires 0 <= j < cols => Column(m, j))
  }

  /** The column vector `u` times the row vector `v`: a |u| x |v| matrix. */
  function Outer(u: Vector, v: Vector): (r: Matrix)
    ensures IsMatrix(r, |u|, |v|)
  {
    seq(|u|, i requires 0 <= i < |u| => seq(|v|, j requires 0 <= j < |v| => u[i] * v[j]))
  }

  function MatSub(a: Matrix, b: Matrix, cols: nat): (r: Matrix)
    requires IsMatrix(a, |a|, cols) && IsMatrix(b, |a|, cols)
    ensures IsMatrix(r, |a|, cols)
  {
    seq(|a|, i requires 0 <= i < |a| => Sub(a[i], b[i]))
  }

  function MatScale(c: real, m: Matrix): (r: Matrix)
    ensures |r| == |m| && forall i :: 0 <= i < |m| ==> |r[i]| == |m[i]|
  {
    seq(|m|, i requires 0 <= i < |m| => Scale(c, m[i]))
  }

  // Facts about sums used by the training invariants.

  lemma {:induction false} SumSub(u: Vector, v: Vector)
    requires |u| == |v|
    ensures Sum(Sub(u, v)) == Sum(u) - Sum(v)
  {
    if |u| > 0 {
      assert Sub(u, v)[1..] == Sub(u[1..], v[1..]);
      SumSub(u[1..], v[1..]);
    }
  }

  lemma {:induction false} SumScale(c: real, v: Vector)
    ensures Sum(Scale(c, v)) == c * Sum(v)
  {
    if |v| > 0 {
      forall i | 0 <= i < |v| - 1 ensures Scale(c, v)[1..][i] == Scale(c, v[1..])[i] {
        assert v[1..][i] == v[i + 1];
      }
      assert Scale(c, v)[1..] == Scale(c, v[1..]);
      SumScale(c, v[1..]);
    }
  }

  lemma {:induction false} SumZeros(n: nat)
    ensures Sum(Zeros(n)) == 0.0
  {
    if n > 0 {
      assert Zeros(n)[1..] == Zeros(n - 1);
      SumZeros(n - 1);
    }
  }

  lemma {:induction false} SumOneHot(n: nat, k: nat)
    requires k < n
    ensures Sum(OneHot(n, k)) == 1.0
  {
    if k == 0 {
      assert OneHot(n, k)[1..] == Zeros(n - 1);
      SumZeros(n - 1);
    } else {
      assert OneHot(n, k)[1..] == OneHot(n - 1, k - 1);
      SumOneHot(n - 1, k - 1);
    }
  }

  /** Multiplying by a transposed matrix takes dot products with its rows:
      `v.dot(m.t())[j]` is row `j` of `m` dotted with `v`. */
  lemma VecMatTranspose(v: Vector, m: Matrix, j: nat)
    requires IsMatrix(m, |m|, |v|) && j < |m|
    ensures VecMat(v, Transpose(m, |v|), |m|)[j] == Dot(v, m[j])
  {
    assert Column(Transpose(m, |v|), j) == m[j];
  }

  /** Row `i` of an outer product is `v` scaled by `u[i]`. */
  lemma OuterRow(u: Vector, v: Vector, i: nat)
    requires i < |u|
    ensures Outer(u, v)[i] == Scale(u[i], v)
  {
  }

  /** When `v` sums to zero so does every row of `outer(u, v)`. */
  lemma OuterRowSumZero(u: Vector, v: Vector, i: nat)
    requires i < |u| && Sum(v) == 0.0
    ensures Sum(Outer(u, v)[i]) == 0.0
  {
    OuterRow(u, v, i);
    SumScale(u[i], v);
  }
}
