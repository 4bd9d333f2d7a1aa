/**
  The layout bookkeeping of `TraceNormEstimator.fit` in
  `cogspaces/model/trace.py`: per-dataset class counts become cumulative
  limits and contiguous class slices, label matrices are padded to the full
  class range in split-loss mode, and dataset weights are normalised to mean 1.
*/
module TraceLayout {
  import opened Wrappers
  import opened Vectors

  /** `np.array([lo, hi])`: the half-open column range of one dataset's classes. */
  datatype Slice = Slice(lo: nat, hi: nat)

  function NatSum(sizes: seq<nat>): nat
  {
    if |sizes| == 0 then 0 else NatSum(sizes[..|sizes| - 1]) + sizes[|sizes| - 1]
  }

  /** `[0] + np.cumsum(sizes).tolist()`: limit k + 1 is limit k plus the k-th size. */
  function Limits(sizes: seq<nat>): (r: seq<nat>)
    ensures |r| == |sizes| + 1 && r[0] == 0
    ensures forall k :: 0 <= k < |sizes| ==> r[k + 1] == r[k] + sizes[k]
    ensures r[|sizes|] == NatSum(sizes)
  {
    if |sizes| == 0 then [0]
    else
      var n := |sizes| - 1;
      var p := Limits(sizes[..n]);
      p + [p[n] + sizes[n]]
  }

  lemma {:induction false} LimitsMonotone(sizes: seq<nat>, i: nat, j: nat)
    requires i <= j <= |sizes|
    ensures Limits(sizes)[i] <= Limits(sizes)[j]
  {
    if i < j {
      LimitsMonotone(sizes, i, j - 1);
    }
  }

  /** `slices_[k] = [limits[k], limits[k + 1]]` for every dataset k. */
  function ClassSlices(sizes: seq<nat>): (s: seq<Slice>)
    ensures |s| == |sizes|
    ensures forall k :: 0 <= k < |sizes| ==> s[k].lo <= s[k].hi && s[k].hi - s[k].lo == sizes[k]
    ensures forall k :: 0 <= k < |sizes| - 1 ==> s[k].hi == s[k + 1].lo
    ensures |sizes| > 0 ==> s[0].lo == 0 && s[|sizes| - 1].hi == NatSum(sizes)
  {
    var limits := Limits(sizes);
    seq(|sizes|, k requires 0 <= k < |sizes| => Slice(limits[k], limits[k + 1]))
  }

  predicate InSlice(c: nat, s: Slice)
  {
    s.lo <= c < s.hi
  }

  /** The class slices partition `[0, total_size)`: every class lies in exactly one of them. */
  lemma ClassInExactlyOneSlice(sizes: seq<nat>, c: nat)
    requires c < NatSum(sizes)
    ensures exists k :: 0 <= k < |sizes| && InSlice(c, ClassSlices(sizes)[k])
    ensures forall k, k' ::
      0 <= k < |sizes| && 0 <= k' < |sizes| && InSlice(c, ClassSlices(sizes)[k]) && InSlice(c, ClassSlices(sizes)[k'])
      ==> k == k'
  {
    var s := ClassSlices(sizes);
    var limits := Limits(sizes);
    var k := FindSlice(sizes, c, |sizes|);
    assert InSlice(c, s[k]);
    forall k1, k2 | 0 <= k1 < k2 < |sizes| ensures s[k1].hi <= s[k2].lo {
      LimitsMonotone(sizes, k1 + 1, k2);
    }
  }

  /** The slice among the first `n` whose range holds class c (the linear search of the proof). */
  lemma {:induction false} FindSlice(sizes: seq<nat>, c: nat, n: nat) returns (k: nat)
    requires n <= |sizes| && c < Limits(sizes)[n]
    ensures k < n && Limits(sizes)[k] <= c < Limits(sizes)[k + 1]
  {
    if c >= Limits(sizes)[n - 1] {
      k := n - 1;
    } else {
      k := FindSlice(sizes, c, n - 1);
    }
  }

  // ---------------------------------------------------------------------------
  // split-loss padding of the label matrices

  /** One padded row: the dataset's labels inside its slice, zeros elsewhere. */
  function PadRow(row: seq<int>, s: Slice, total: nat): (r: seq<int>)
    requires s.lo + |row| <= total
  {
    seq(total, j requires 0 <= j < total => if s.lo <= j < s.lo + |row| then row[j - s.lo] else 0)
  }

  predicate FitsSlice(y: Matrix<int>, s: Slice, total: nat)
  {
    y.Shaped() && s.lo <= s.hi <= total && y.nCols == s.hi - s.lo
  }

  /** `y_ = np.zeros((n, total_size)); y_[:, lo:hi] = y`. */
  function Padded(y: Matrix<int>, s: Slice, total: nat): (p: Matrix<int>)
    requires FitsSlice(y, s, total)
  {
    Matrix(y.nRows, total, seq(y.nRows, i requires 0 <= i < y.nRows => PadRow(y.rows[i], s, total)))
  }

  /** `m[:, lo:hi]`: the columns of one slice. */
  function Columns(m: Matrix<int>, s: Slice): Matrix<int>
    requires m.Shaped() && s.lo <= s.hi <= m.nCols
  {
    Matrix(m.nRows, s.hi - s.lo, seq(m.nRows, i requires 0 <= i < m.nRows => m.rows[i][s.lo..s.hi]))
  }

  /**
    The padded target has `total_size` columns, gives back `y` inside its own
    slice and is zero everywhere else.
  */
  lemma PaddingIsExact(y: Matrix<int>, s: Slice, total: nat)
    requires FitsSlice(y, s, total)
    ensures Padded(y, s, total).Shaped() && Padded(y, s, total).nCols == total
    ensures Columns(Padded(y, s, total), s) == y
    ensures forall i, j :: 0 <= i < y.nRows && 0 <= j < total && !(s.lo <= j < s.hi) ==>
      Padded(y, s, total).rows[i][j] == 0
  {
    var p := Padded(y, s, total);
    var c := Columns(p, s);
    forall i | 0 <= i < y.nRows ensures c.rows[i] == y.rows[i] {
      assert |c.rows[i]| == |y.rows[i]|;
      forall j | 0 <= j < |y.rows[i]| ensures c.rows[i][j] == y.rows[i][j] {
        assert c.rows[i][j] == p.rows[i][s.lo + j];
      }
    }
  }

  /** The fill of one padded label matrix, row by row and column by column. */
  method PadTarget(y: Matrix<int>, s: Slice, total: nat) returns (p: Matrix<int>)
    requires FitsSlice(y, s, total)
    ensures p == Padded(y, s, total)
  {
    var rows: seq<seq<int>> := [];
    for i := 0 to y.nRows
      invariant |rows| == i
      invariant forall i' :: 0 <= i' < i ==> rows[i'] == PadRow(y.rows[i'], s, total)
    {
      var row := seq(total, _ => 0);
      for j := s.lo to s.hi
        invariant |row| == total
        invariant forall j' :: 0 <= j' < total ==>
          row[j'] == if s.lo <= j' < j then y.rows[i][j' - s.lo] else 0
      {
        row := row[j := y.rows[i][j - s.lo]];
      }
      rows := rows + [row];
    }
    p := Matrix(y.nRows, total, rows);
  }

  // ---------------------------------------------------------------------------
  // dataset weights

  datatype WeightError =
    | ZeroMeanWeight  // dividing by a zero mean gives inf/nan

  /**
    No weights: one per dataset, all 1. Given weights: divided by their mean,
    which keeps their ratios and makes them average to 1. An empty list stays
    empty (its mean is nan, and dividing nothing by it changes nothing); the
    Lipschitz bound then rejects it because it does not broadcast.
  */
  function NormalisedWeights(given: Option<seq<real>>, nDatasets: nat): (r: Result<seq<real>, WeightError>)
    ensures given.None? ==> r.Success? && |r.value| == nDatasets && forall k :: 0 <= k < nDatasets ==> r.value[k] == 1.0
    ensures given.Some? ==> (r.Success? <==> |given.value| == 0 || Sum(given.value) != 0.0)
    ensures given.Some? && |given.value| == 0 ==> r == Success([])
    ensures given.Some? && r.Success? && |given.value| > 0 ==>
      |r.value| == |given.value| && Mean(r.value) == 1.0 &&
      forall k :: 0 <= k < |given.value| ==> r.value[k] * Mean(given.value) == given.value[k]
  {
    match given
    case None => Success(seq(nDatasets, _ => 1.0))
    case Some(w) =>
      if |w| == 0 then Success([])
      else
        var m := Mean(w);
        if m == 0.0 then Failure(ZeroMeanWeight)
        else
          var r := seq(|w|, k requires 0 <= k < |w| => w[k] / m);
          NormalisedMeanIsOne(w, m, r);
          Success(r)
  }

  lemma NormalisedMeanIsOne(w: seq<real>, m: real, r: seq<real>)
    requires |w| > 0 && m == Mean(w) && m != 0.0
    requires |r| == |w| && forall k :: 0 <= k < |w| ==> r[k] == w[k] / m
    ensures Mean(r) == 1.0
    ensures forall k :: 0 <= k < |w| ==> r[k] * m == w[k]
  {
    var inv := 1.0 / m;
    forall k | 0 <= k < |w| ensures r[k] == Scale(inv, w)[k] && r[k] * m == w[k] {
      QuotientIsProduct(w[k], m);
    }
    assert r == Scale(inv, w);
    SumScale(inv, w);
    var n := |w| as real;
    MeanTimesCount(Sum(w), n, m);
    InverseCancels(m, n);
    assert Sum(r) == n;
  }

  lemma QuotientIsProduct(x: real, m: real)
    requires m != 0.0
    ensures x / m == (1.0 / m) * x && (x / m) * m == x
  {
  }

  lemma MeanTimesCount(s: real, n: real, m: real)
    requires n > 0.0 && m == s / n
    ensures s == m * n
  {
  }

  lemma InverseCancels(m: real, n: real)
    requires m != 0.0 && n > 0.0
    ensures (1.0 / m) * (m * n) == n && n / n == 1.0
  {
  }
}
