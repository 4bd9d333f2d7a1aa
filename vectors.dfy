/**
  Real-valued vector arithmetic standing for the numpy element-wise operations
  and reductions used by the solver (`np.sum`, `np.dot` on flattened buffers,
  `np.max`, `np.mean`). Every reduction runs front to back, so a loop that
  accumulates entry `k` on top of the prefix `[..k]` meets it directly.
*/
module Vectors {

  /**
    A dense 2-D array as numpy holds it: a shape and its rows. `check_array`
    guarantees `Shaped()` for every array the estimator accepts.
  */
  datatype Matrix<T> = Matrix(nRows: nat, nCols: nat, rows: seq<seq<T>>)
  {
    predicate Shaped()
    {
      |rows| == nRows && forall i :: 0 <= i < |rows| ==> |rows[i]| == nCols
    }
  }

  function Sum(v: seq<real>): real
  {
    if |v| == 0 then 0.0 else Sum(v[..|v| - 1]) + v[|v| - 1]
  }

  function Dot(a: seq<real>, b: seq<real>): real
    requires |a| == |b|
  {
    if |a| == 0 then 0.0 else Dot(a[..|a| - 1], b[..|b| - 1]) + a[|a| - 1] * b[|b| - 1]
  }

  /** Sum of squared entries, `np.sum(a ** 2)`. */
  function SqNorm(a: seq<real>): real
  {
    Dot(a, a)
  }

  /** Entry-wise difference `a - b`. */
  function Diff(a: seq<real>, b: seq<real>): (r: seq<real>)
    requires |a| == |b|
    ensures |r| == |a| && forall i :: 0 <= i < |a| ==> r[i] == a[i] - b[i]
  {
    seq(|a|, i requires 0 <= i < |a| => a[i] - b[i])
  }

  /** Entry-wise product by a scalar, `c * a`. */
  function Scale(c: real, a: seq<real>): (r: seq<real>)
    ensures |r| == |a| && forall i :: 0 <= i < |a| ==> r[i] == c * a[i]
  {
    seq(|a|, i requires 0 <= i < |a| => c * a[i])
  }

  /** Entry-wise sum `a + b`. */
  function Plus(a: seq<real>, b: seq<real>): (r: seq<real>)
    requires |a| == |b|
    ensures |r| == |a| && forall i :: 0 <= i < |a| ==> r[i] == a[i] + b[i]
  {
    seq(|a|, i requires 0 <= i < |a| => a[i] + b[i])
  }

  function Max2(x: real, y: real): real
  {
    if x >= y then x else y
  }

  /** `np.max` of a non-empty vector: an upper bound that is attained. */
  function Max(v: seq<real>): (m: real)
    requires |v| > 0
    ensures forall i :: 0 <= i < |v| ==> v[i] <= m
    ensures exists i :: 0 <= i < |v| && v[i] == m
  {
    if |v| == 1 then v[0]
    else
      var m' := Max(v[..|v| - 1]);
      assert forall i :: 0 <= i < |v| - 1 ==> v[..|v| - 1][i] == v[i];
      Max2(m', v[|v| - 1])
  }

  /** `np.mean` of a non-empty vector. */
  function Mean(v: seq<real>): real
    requires |v| > 0
  {
    Sum(v) / (|v| as real)
  }

  lemma DotStep(a: seq<real>, b: seq<real>, k: nat)
    requires |a| == |b| && k < |a|
    ensures Dot(a[..k + 1], b[..k + 1]) == Dot(a[..k], b[..k]) + a[k] * b[k]
  {
    assert a[..k + 1][..k] == a[..k];
    assert b[..k + 1][..k] == b[..k];
  }

  lemma SumStep(v: seq<real>, k: nat)
    requires k < |v|
    ensures Sum(v[..k + 1]) == Sum(v[..k]) + v[k]
  {
    assert v[..k + 1][..k] == v[..k];
  }

  lemma ScalePrefix(c: real, a: seq<real>, n: nat)
    requires n <= |a|
    ensures Scale(c, a)[..n] == Scale(c, a[..n])
  {
    var l, r := Scale(c, a)[..n], Scale(c, a[..n]);
    assert |l| == |r|;
    forall i | 0 <= i < n ensures l[i] == r[i] {
      assert a[..n][i] == a[i];
    }
  }

  lemma {:induction false} SqNormNonnegative(a: seq<real>)
    ensures SqNorm(a) >= 0.0
  {
    if |a| > 0 {
      SqNormNonnegative(a[..|a| - 1]);
      var x := a[|a| - 1];
      assert x * x >= 0.0;
    }
  }

  lemma {:induction false} SumNonnegative(v: seq<real>)
    requires forall i :: 0 <= i < |v| ==> v[i] >= 0.0
    ensures Sum(v) >= 0.0
  {
    if |v| > 0 {
      SumNonnegative(v[..|v| - 1]);
    }
  }

  lemma {:induction false} SumScale(c: real, v: seq<real>)
    ensures Sum(Scale(c, v)) == c * Sum(v)
  {
    if |v| > 0 {
      var n := |v| - 1;
      ScalePrefix(c, v, n);
      SumScale(c, v[..n]);
    }
  }

  lemma {:induction false} DotScaleLeft(c: real, a: seq<real>, b: seq<real>)
    requires |a| == |b|
    ensures Dot(Scale(c, a), b) == c * Dot(a, b)
  {
    if |a| > 0 {
      var n := |a| - 1;
      ScalePrefix(c, a, n);
      DotScaleLeft(c, a[..n], b[..n]);
    }
  }

  lemma {:induction false} SqNormScale(c: real, a: seq<real>)
    ensures SqNorm(Scale(c, a)) == c * c * SqNorm(a)
  {
    if |a| > 0 {
      var n := |a| - 1;
      ScalePrefix(c, a, n);
      SqNormScale(c, a[..n]);
      var x := a[n];
      assert (c * x) * (c * x) == c * c * (x * x);
    }
  }

  /** A sum of entries none above m is at most |v| * m. */
  lemma {:induction false} SumAtMost(v: seq<real>, m: real)
    requires forall i :: 0 <= i < |v| ==> v[i] <= m
    ensures Sum(v) <= (|v| as real) * m
  {
    if |v| > 0 {
      var n := |v| - 1;
      assert forall i :: 0 <= i < n ==> v[..n][i] == v[i];
      SumAtMost(v[..n], m);
    }
  }

  /** The mean never exceeds the maximum. */
  lemma {:induction false} MeanAtMostMax(v: seq<real>)
    requires |v| > 0
    ensures Mean(v) <= Max(v)
  {
    var m, n := Max(v), |v| as real;
    SumAtMost(v, m);
    QuotientAtMost(Sum(v), n, m);
  }

  lemma QuotientAtMost(s: real, n: real, m: real)
    requires n > 0.0 && s <= n * m
    ensures s / n <= m
  {
    var q := s / n;
    assert q * n == s;
    if q > m {
      assert (q - m) * n > 0.0;
      assert q * n - m * n == (q - m) * n;
    }
  }

  /** The squared norm of a sum: ||a + b||^2 = ||a||^2 + 2 <a, b> + ||b||^2. */
  lemma {:induction false} SqNormOfSum(a: seq<real>, b: seq<real>)
    requires |a| == |b|
    ensures SqNorm(Plus(a, b)) == SqNorm(a) + 2.0 * Dot(a, b) + SqNorm(b)
  {
    if |a| > 0 {
      var n := |a| - 1;
      assert Plus(a, b)[..n] == Plus(a[..n], b[..n]);
      SqNormOfSum(a[..n], b[..n]);
      var x, y := a[n], b[n];
      assert (x + y) * (x + y) == x * x + 2.0 * (x * y) + y * y;
    }
  }
}
