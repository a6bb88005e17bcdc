/** Dense real matrices, row-major, as sequences of rows.
    These are the algebraic primitives the network is written against
    (product, transpose, elementwise maps); floating point is replaced by `real`. */
module Matrices {

  type Matrix = seq<seq<real>>

  /** `m` has exactly `rows` rows of `cols` entries each. */
  predicate IsMatrix(m: Matrix, rows: nat, cols: nat) {
    |m| == rows && forall i :: 0 <= i < |m| ==> |m[i]| == cols
  }

  /** Same number of rows, and row by row the same number of columns. */
  predicate SameShape(a: Matrix, b: Matrix) {
    |a| == |b| && forall i :: 0 <= i < |a| ==> |a[i]| == |b[i]|
  }

  /** Sum of the entries of a vector. */
  function Sum(v: seq<real>): real {
    SumUpTo(v, |v|)
  }

  /** Sum of the first `n` entries of a vector. */
  function SumUpTo(v: seq<real>, n: nat): real
    requires n <= |v|
  {
    if n == 0 then 0.0 else SumUpTo(v, n - 1) + v[n - 1]
  }

  /** Inner product of two vectors of equal length. */
  function Dot(a: seq<real>, b: seq<real>): real
    requires |a| == |b|
  {
    DotUpTo(a, b, |a|)
  }

  /** Inner product of the first `n` entries of two vectors of equal length. */
  function DotUpTo(a: seq<real>, b: seq<real>, n: nat): real
    requires |a| == |b| && n <= |a|
  {
    if n == 0 then 0.0 else DotUpTo(a, b, n - 1) + a[n - 1] * b[n - 1]
  }

  /** Column `j` of `m`. */
  function Column(m: Matrix, j: nat): (c: seq<real>)
    requires forall i :: 0 <= i < |m| ==> j < |m[i]|
    ensures |c| == |m|
  {
    seq(|m|, i requires 0 <= i < |m| => m[i][j])
  }

  /** Transpose of a matrix with `cols` columns (given explicitly, since `m` may have no rows). */
  function Transpose(m: Matrix, cols: nat): (t: Matrix)
    requires IsMatrix(m, |m|, cols)
    ensures IsMatrix(t, cols, |m|)
  {
    seq(cols, j requires 0 <= j < cols => Column(m, j))
  }

  /** Matrix product `a · b`, where `b` has `|b|` rows of `p` entries and every row of `a` has `|b|` entries. */
  function MatMul(a: Matrix, b: Matrix, p: nat): (c: Matrix)
    requires IsMatrix(a, |a|, |b|)
    requires IsMatrix(b, |b|, p)
    ensures IsMatrix(c, |a|, p)
  {
    seq(|a|, i requires 0 <= i < |a| => seq(p, j requires 0 <= j < p => Dot(a[i], Column(b, j))))
  }

  /** `f` applied to every entry. */
  function Map(f: real -> real, m: Matrix): (r: Matrix)
    ensures SameShape(r, m)
  {
    seq(|m|, i requires 0 <= i < |m| => seq(|m[i]|, j requires 0 <= j < |m[i]| => f(m[i][j])))
  }

  /** Elementwise product of two matrices of the same shape. */
  function Hadamard(a: Matrix, b: Matrix): (r: Matrix)
    requires SameShape(a, b)
    ensures SameShape(r, a)
  {
    seq(|a|, i requires 0 <= i < |a| => seq(|a[i]|, j requires 0 <= j < |a[i]| => a[i][j] * b[i][j]))
  }

  /** Elementwise difference `a - s·b` of two matrices of the same shape. */
  function SubScaled(a: Matrix, s: real, b: Matrix): (r: Matrix)
    requires SameShape(a, b)
    ensures SameShape(r, a)
  {
    seq(|a|, i requires 0 <= i < |a| => seq(|a[i]|, j requires 0 <= j < |a[i]| => a[i][j] - s * b[i][j]))
  }

  /** Appending one entry to each vector adds the product of the two entries. */
  lemma DotAppend(a: seq<real>, b: seq<real>, x: real, y: real)
    requires |a| == |b|
    ensures Dot(a + [x], b + [y]) == Dot(a, b) + x * y
  {
    var a', b' := a + [x], b + [y];
    DotUpToAppend(a, b, x, y, |a|);
    assert a'[|a|] == x && b'[|b|] == y;
  }

  /** Appending leaves the inner product of a prefix of the original length unchanged. */
  lemma {:induction false} DotUpToAppend(a: seq<real>, b: seq<real>, x: real, y: real, n: nat)
    requires |a| == |b| && n <= |a|
    ensures DotUpTo(a + [x], b + [y], n) == DotUpTo(a, b, n)
    decreases n
  {
    if n > 0 {
      DotUpToAppend(a, b, x, y, n - 1);
      assert (a + [x])[n - 1] == a[n - 1] && (b + [y])[n - 1] == b[n - 1];
    }
  }

  /** Against a vector of ones the inner product is the plain sum. */
  lemma DotOnes(ones: seq<real>, v: seq<real>)
    requires |ones| == |v|
    requires forall k :: 0 <= k < |ones| ==> ones[k] == 1.0
    ensures Dot(ones, v) == Sum(v)
  {
    DotUpToOnes(ones, v, |v|);
  }

  /** The same, for the first `n` entries. */
  lemma {:induction false} DotUpToOnes(ones: seq<real>, v: seq<real>, n: nat)
    requires |ones| == |v| && n <= |v|
    requires forall k :: 0 <= k < |ones| ==> ones[k] == 1.0
    ensures DotUpTo(ones, v, n) == SumUpTo(v, n)
    decreases n
  {
    if n > 0 {
      DotUpToOnes(ones, v, n - 1);
      assert ones[n - 1] == 1.0;
    }
  }

  /** Column `k` of the transpose is row `k` of the original. */
  lemma ColumnOfTranspose(m: Matrix, cols: nat, k: nat)
    requires IsMatrix(m, |m|, cols)
    requires k < |m|
    ensures Column(Transpose(m, cols), k) == m[k]
  {
    var t := Transpose(m, cols);
    assert forall j :: 0 <= j < cols ==> Column(t, k)[j] == m[k][j];
  }
}
