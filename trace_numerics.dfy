/**
  The small numeric kernels of `cogspaces/model/trace.py`: the Lipschitz
  estimate, the soft-thresholding of singular values inside the proximal
  operator, the cross-entropy accumulation and the quadratic majorizer used by
  the line search. Real numbers stand for float32/float64.
*/
module TraceNumerics {
  import opened Wrappers
  import opened Vectors

  // ---------------------------------------------------------------------------
  // lipschitz_constant

  datatype LipschitzError =
    | EmptyDataset(index: nat)   // `.max()` over the rows of an X with no rows
    | WeightShape                // `max_squared_sums *= dataset_weights` cannot broadcast
    | NoDatasets                 // mean/max over zero datasets (nan or ValueError)

  /** `(X ** 2).sum(axis=1)`: squared norm of every sample. */
  function RowSqNorms(x: seq<seq<real>>): (r: seq<real>)
    ensures |r| == |x| && forall i :: 0 <= i < |x| ==> r[i] == SqNorm(x[i])
  {
    seq(|x|, i requires 0 <= i < |x| => SqNorm(x[i]))
  }

  /** Per-dataset bound before weighting: max squared row norm, plus 1 for the intercept column. */
  function DatasetTerm(x: seq<seq<real>>, fitIntercept: bool): real
    requires |x| > 0
  {
    Max(RowSqNorms(x)) + (if fitIntercept then 1.0 else 0.0)
  }

  /** numpy broadcasting of the weights onto the datasets: one weight for all, or one each. */
  predicate Broadcastable(weights: seq<real>, n: nat)
  {
    |weights| == 1 || |weights| == n
  }

  function WeightOf(weights: seq<real>, k: nat): real
    requires |weights| > 0
  {
    if |weights| == 1 then weights[0] else if k < |weights| then weights[k] else 0.0
  }

  predicate AllNonEmpty(xs: seq<Matrix<real>>)
  {
    forall k :: 0 <= k < |xs| ==> |xs[k].rows| > 0
  }

  function WeightedTerms(xs: seq<Matrix<real>>, weights: seq<real>, fitIntercept: bool): (r: seq<real>)
    requires AllNonEmpty(xs) && Broadcastable(weights, |xs|)
    ensures |r| == |xs|
    ensures forall k :: 0 <= k < |xs| ==> r[k] == WeightedTerm(xs[k].rows, weights, k, fitIntercept)
  {
    seq(|xs|, k requires 0 <= k < |xs| => WeightedTerm(xs[k].rows, weights, k, fitIntercept))
  }

  function WeightedTerm(x: seq<seq<real>>, weights: seq<real>, k: nat, fitIntercept: bool): real
    requires |x| > 0 && |weights| > 0
  {
    DatasetTerm(x, fitIntercept) * WeightOf(weights, k)
  }

  function FirstEmpty(xs: seq<Matrix<real>>): (k: nat)
    requires !AllNonEmpty(xs)
    ensures k < |xs| && |xs[k].rows| == 0 && AllNonEmpty(xs[..k])
  {
    if |xs[0].rows| == 0 then 0
    else
      var k := 1 + FirstEmpty(xs[1..]);
      assert forall j :: 1 <= j < k ==> xs[1..][j - 1] == xs[j];
      k
  }

  /**
    The global Lipschitz bound: half the weighted per-dataset bounds combined by
    their MEAN in split-loss mode and by their MAXIMUM otherwise.
  */
  function LipschitzConstant(xs: seq<Matrix<real>>, weights: seq<real>, fitIntercept: bool, splitLoss: bool)
    : (r: Result<real, LipschitzError>)
    ensures r.Success? <==> |xs| > 0 && AllNonEmpty(xs) && Broadcastable(weights, |xs|)
    ensures !AllNonEmpty(xs) ==> r.Failure? && r.error.EmptyDataset? && r.error.index < |xs| && |xs[r.error.index].rows| == 0
  {
    if !AllNonEmpty(xs) then Failure(EmptyDataset(FirstEmpty(xs)))
    else if !Broadcastable(weights, |xs|) then Failure(WeightShape)
    else if |xs| == 0 then Failure(NoDatasets)
    else
      var terms := WeightedTerms(xs, weights, fitIntercept);
      Success(0.5 * (if splitLoss then Mean(terms) else Max(terms)))
  }

  /**
    In split-loss mode the bound is half the average weighted dataset bound,
    so it never exceeds the bound of the other mode: averaging only lowers
    the step-size ceiling Lmax.
  */
  lemma LipschitzSplitLoss(xs: seq<Matrix<real>>, weights: seq<real>, fitIntercept: bool)
    requires LipschitzConstant(xs, weights, fitIntercept, true).Success?
    ensures LipschitzConstant(xs, weights, fitIntercept, true).value
            == 0.5 * (Sum(WeightedTerms(xs, weights, fitIntercept)) / (|xs| as real))
    ensures LipschitzConstant(xs, weights, fitIntercept, false).Success?
    ensures LipschitzConstant(xs, weights, fitIntercept, true).value
            <= LipschitzConstant(xs, weights, fitIntercept, false).value
  {
    MeanAtMostMax(WeightedTerms(xs, weights, fitIntercept));
  }

  /** Otherwise it is half the largest weighted dataset bound: above every one, equal to one. */
  lemma LipschitzMaxMode(xs: seq<Matrix<real>>, weights: seq<real>, fitIntercept: bool)
    requires LipschitzConstant(xs, weights, fitIntercept, false).Success?
    ensures var r := LipschitzConstant(xs, weights, fitIntercept, false).value;
      (forall k :: 0 <= k < |xs| ==> r >= 0.5 * WeightedTerm(xs[k].rows, weights, k, fitIntercept)) &&
      (exists k :: 0 <= k < |xs| && r == 0.5 * WeightedTerm(xs[k].rows, weights, k, fitIntercept))
  {
    var terms := WeightedTerms(xs, weights, fitIntercept);
    var m := Max(terms);
    assert LipschitzConstant(xs, weights, fitIntercept, false).value == 0.5 * m;
    forall k | 0 <= k < |xs| ensures 0.5 * m >= 0.5 * WeightedTerm(xs[k].rows, weights, k, fitIntercept) {
      assert terms[k] <= m;
    }
    var k :| 0 <= k < |xs| && terms[k] == m;
    assert 0.5 * m == 0.5 * WeightedTerm(xs[k].rows, weights, k, fitIntercept);
  }

  /** With non-negative weights the bound is non-negative in both modes. */
  lemma LipschitzNonnegative(xs: seq<Matrix<real>>, weights: seq<real>, fitIntercept: bool, splitLoss: bool)
    requires LipschitzConstant(xs, weights, fitIntercept, splitLoss).Success?
    requires forall k :: 0 <= k < |weights| ==> weights[k] >= 0.0
    ensures LipschitzConstant(xs, weights, fitIntercept, splitLoss).value >= 0.0
  {
    var terms := WeightedTerms(xs, weights, fitIntercept);
    WeightedTermsNonnegative(xs, weights, fitIntercept);
    if splitLoss {
      SumNonnegative(terms);
      HalfQuotientNonnegative(Sum(terms), |xs|);
    } else {
      assert terms[0] <= Max(terms);
    }
  }

  lemma HalfQuotientNonnegative(s: real, n: nat)
    requires n > 0
    requires s >= 0.0
    ensures 0.5 * (s / (n as real)) >= 0.0
  {
  }

  lemma DatasetTermNonnegative(x: seq<seq<real>>, fitIntercept: bool)
    requires |x| > 0
    ensures DatasetTerm(x, fitIntercept) >= 0.0
  {
    SqNormNonnegative(x[0]);
    assert RowSqNorms(x)[0] >= 0.0;
  }

  lemma WeightedTermsNonnegative(xs: seq<Matrix<real>>, weights: seq<real>, fitIntercept: bool)
    requires AllNonEmpty(xs) && Broadcastable(weights, |xs|)
    ensures (forall k :: 0 <= k < |weights| ==> weights[k] >= 0.0) ==>
      forall k :: 0 <= k < |xs| ==> WeightedTerms(xs, weights, fitIntercept)[k] >= 0.0
  {
    if forall k :: 0 <= k < |weights| ==> weights[k] >= 0.0 {
      forall k | 0 <= k < |xs| ensures WeightedTerms(xs, weights, fitIntercept)[k] >= 0.0 {
        WeightedTermNonnegative(xs[k].rows, weights, k, fitIntercept);
      }
    }
  }

  lemma WeightedTermNonnegative(x: seq<seq<real>>, weights: seq<real>, k: nat, fitIntercept: bool)
    requires |x| > 0 && |weights| > 0
    requires forall j :: 0 <= j < |weights| ==> weights[j] >= 0.0
    ensures WeightedTerm(x, weights, k, fitIntercept) >= 0.0
  {
    DatasetTermNonnegative(x, fitIntercept);
    ProductNonnegative(DatasetTerm(x, fitIntercept), WeightOf(weights, k));
  }

  lemma ProductNonnegative(a: real, b: real)
    requires a >= 0.0 && b >= 0.0
    ensures a * b >= 0.0
  {
  }

  // ---------------------------------------------------------------------------
  // proximal_operator: soft-thresholding of the singular values

  /** `np.maximum(s - threshold, 0)`. */
  function SoftThreshold(s: seq<real>, threshold: real): (r: seq<real>)
    ensures |r| == |s| && forall i :: 0 <= i < |s| ==> r[i] == Max2(s[i] - threshold, 0.0)
  {
    seq(|s|, i requires 0 <= i < |s| => Max2(s[i] - threshold, 0.0))
  }

  /** `np.sum(s != 0)`. */
  function CountNonzero(v: seq<real>): (n: nat)
    ensures n <= |v|
  {
    if |v| == 0 then 0 else CountNonzero(v[..|v| - 1]) + (if v[|v| - 1] != 0.0 then 1 else 0)
  }

  /** Reference count: how many singular values exceed the threshold. */
  function CountAbove(s: seq<real>, threshold: real): nat
  {
    if |s| == 0 then 0 else CountAbove(s[..|s| - 1], threshold) + (if s[|s| - 1] > threshold then 1 else 0)
  }

  /**
    The part of `proximal_operator` that acts on the singular values: the
    thresholded values and the rank of the reconstructed matrix.
  */
  function ProximalOperator(s: seq<real>, threshold: real): (r: (seq<real>, nat))
    ensures |r.0| == |s| && r.1 <= |s|
    ensures r.1 == CountAbove(s, threshold)
    ensures forall i :: 0 <= i < |s| ==> r.0[i] >= 0.0 && (r.0[i] == 0.0 <==> s[i] <= threshold)
    ensures threshold >= 0.0 ==> forall i :: 0 <= i < |s| && s[i] >= 0.0 ==> r.0[i] <= s[i]
  {
    var t := SoftThreshold(s, threshold);
    RankCountsValuesAboveThreshold(s, threshold);
    (t, CountNonzero(t))
  }

  lemma {:induction false} RankCountsValuesAboveThreshold(s: seq<real>, threshold: real)
    ensures CountNonzero(SoftThreshold(s, threshold)) == CountAbove(s, threshold)
  {
    if |s| > 0 {
      var n := |s| - 1;
      assert SoftThreshold(s, threshold)[..n] == SoftThreshold(s[..n], threshold);
      RankCountsValuesAboveThreshold(s[..n], threshold);
    }
  }

  /** A threshold at or above every singular value shrinks the matrix to rank 0. */
  lemma {:induction false} FullShrinkage(s: seq<real>, threshold: real)
    requires forall i :: 0 <= i < |s| ==> s[i] <= threshold
    ensures ProximalOperator(s, threshold).1 == 0
    ensures forall i :: 0 <= i < |s| ==> ProximalOperator(s, threshold).0[i] == 0.0
  {
    CountAboveNone(s, threshold);
  }

  lemma {:induction false} CountAboveNone(s: seq<real>, threshold: real)
    requires forall i :: 0 <= i < |s| ==> s[i] <= threshold
    ensures CountAbove(s, threshold) == 0
  {
    if |s| > 0 {
      CountAboveNone(s[..|s| - 1], threshold);
    }
  }

  /** With a zero threshold, non-negative singular values are left as they are. */
  lemma ZeroThresholdIsIdentity(s: seq<real>)
    requires forall i :: 0 <= i < |s| ==> s[i] >= 0.0
    ensures ProximalOperator(s, 0.0).0 == s
  {
  }

  // ---------------------------------------------------------------------------
  // cross_entropy

  datatype CrossEntropyError = NoSamples   // `loss / n_samples` with n_samples == 0

  predicate SameShape(y: Matrix<int>, pred: Matrix<real>)
  {
    y.Shaped() && pred.Shaped() && y.nRows == pred.nRows && y.nCols == pred.nCols
  }

  /** Sum of the predictions at the labelled (non-zero) entries of one row. */
  function RowLabelledSum(y: seq<int>, pred: seq<real>): real
    requires |y| == |pred|
  {
    if |y| == 0 then 0.0
    else RowLabelledSum(y[..|y| - 1], pred[..|y| - 1]) + (if y[|y| - 1] != 0 then pred[|y| - 1] else 0.0)
  }

  function LabelledSum(y: seq<seq<int>>, pred: seq<seq<real>>): real
    requires |y| == |pred| && forall i :: 0 <= i < |y| ==> |y[i]| == |pred[i]|
  {
    if |y| == 0 then 0.0
    else LabelledSum(y[..|y| - 1], pred[..|y| - 1]) + RowLabelledSum(y[|y| - 1], pred[|y| - 1])
  }

  /** What `cross_entropy(y_true, y_pred)` returns. */
  function CrossEntropyOf(y: Matrix<int>, pred: Matrix<real>): Result<real, CrossEntropyError>
    requires SameShape(y, pred)
  {
    if y.nRows == 0 then Failure(NoSamples)
    else Success(-LabelledSum(y.rows, pred.rows) / (y.nRows as real))
  }

  /** The nested accumulation loops of `cross_entropy`. */
  method CrossEntropy(y: Matrix<int>, pred: Matrix<real>) returns (r: Result<real, CrossEntropyError>)
    requires SameShape(y, pred)
    ensures r == CrossEntropyOf(y, pred)
  {
    var loss := 0.0;
    for i := 0 to y.nRows
      invariant loss == -LabelledSum(y.rows[..i], pred.rows[..i])
    {
      for j := 0 to y.nCols
        invariant loss == -LabelledSum(y.rows[..i], pred.rows[..i]) - RowLabelledSum(y.rows[i][..j], pred.rows[i][..j])
      {
        assert y.rows[i][..j + 1][..j] == y.rows[i][..j];
        assert pred.rows[i][..j + 1][..j] == pred.rows[i][..j];
        if y.rows[i][j] != 0 {
          loss := loss - pred.rows[i][j];
        }
      }
      assert y.rows[..i + 1][..i] == y.rows[..i];
      assert pred.rows[..i + 1][..i] == pred.rows[..i];
      assert y.rows[i][..y.nCols] == y.rows[i];
      assert pred.rows[i][..y.nCols] == pred.rows[i];
    }
    assert y.rows[..y.nRows] == y.rows;
    assert pred.rows[..y.nRows] == pred.rows;
    if y.nRows == 0 {
      return Failure(NoSamples);
    }
    r := Success(loss / (y.nRows as real));
  }

  /** Predictions at unlabelled entries never affect the sum. */
  lemma {:induction false} RowIgnoresUnlabelled(y: seq<int>, p: seq<real>, q: seq<real>)
    requires |y| == |p| == |q|
    requires forall j :: 0 <= j < |y| && y[j] != 0 ==> p[j] == q[j]
    ensures RowLabelledSum(y, p) == RowLabelledSum(y, q)
  {
    if |y| > 0 {
      RowIgnoresUnlabelled(y[..|y| - 1], p[..|y| - 1], q[..|y| - 1]);
    }
  }

  lemma {:induction false} CrossEntropyIgnoresUnlabelled(y: Matrix<int>, p: Matrix<real>, q: Matrix<real>)
    requires SameShape(y, p) && SameShape(y, q)
    requires forall i, j :: 0 <= i < y.nRows && 0 <= j < y.nCols && y.rows[i][j] != 0 ==> p.rows[i][j] == q.rows[i][j]
    ensures CrossEntropyOf(y, p) == CrossEntropyOf(y, q)
  {
    LabelledIgnoresUnlabelled(y.rows, p.rows, q.rows);
  }

  lemma {:induction false} LabelledIgnoresUnlabelled(y: seq<seq<int>>, p: seq<seq<real>>, q: seq<seq<real>>)
    requires |y| == |p| == |q| && forall i :: 0 <= i < |y| ==> |y[i]| == |p[i]| == |q[i]|
    requires forall i, j :: 0 <= i < |y| && 0 <= j < |y[i]| && y[i][j] != 0 ==> p[i][j] == q[i][j]
    ensures LabelledSum(y, p) == LabelledSum(y, q)
  {
    if |y| > 0 {
      var n := |y| - 1;
      LabelledIgnoresUnlabelled(y[..n], p[..n], q[..n]);
      RowIgnoresUnlabelled(y[n], p[n], q[n]);
    }
  }

  /** Log-probabilities are at most 0, so the cross-entropy is non-negative. */
  lemma CrossEntropyNonnegative(y: Matrix<int>, pred: Matrix<real>)
    requires SameShape(y, pred) && y.nRows > 0
    requires forall i, j :: 0 <= i < y.nRows && 0 <= j < y.nCols ==> pred.rows[i][j] <= 0.0
    ensures CrossEntropyOf(y, pred).Success? && CrossEntropyOf(y, pred).value >= 0.0
  {
    LabelledNonpositive(y.rows, pred.rows);
  }

  lemma {:induction false} LabelledNonpositive(y: seq<seq<int>>, p: seq<seq<real>>)
    requires |y| == |p| && forall i :: 0 <= i < |y| ==> |y[i]| == |p[i]|
    requires forall i, j :: 0 <= i < |y| && 0 <= j < |y[i]| ==> p[i][j] <= 0.0
    ensures LabelledSum(y, p) <= 0.0
  {
    if |y| > 0 {
      var n := |y| - 1;
      LabelledNonpositive(y[..n], p[..n]);
      RowNonpositive(y[n], p[n]);
    }
  }

  lemma {:induction false} RowNonpositive(y: seq<int>, p: seq<real>)
    requires |y| == |p| && forall j :: 0 <= j < |y| ==> p[j] <= 0.0
    ensures RowLabelledSum(y, p) <= 0.0
  {
    if |y| > 0 {
      RowNonpositive(y[..|y| - 1], p[..|y| - 1]);
    }
  }

  /** On a one-hot row the labelled sum is the prediction of the true class. */
  lemma {:induction false} OneHotRow(y: seq<int>, p: seq<real>, c: nat)
    requires |y| == |p| && c < |y|
    requires forall j :: 0 <= j < |y| ==> (y[j] != 0 <==> j == c)
    ensures RowLabelledSum(y, p) == p[c]
  {
    OneHotRowPrefix(y, p, c, |y|);
    assert y[..|y|] == y && p[..|y|] == p;
  }

  lemma {:induction false} OneHotRowPrefix(y: seq<int>, p: seq<real>, c: nat, n: nat)
    requires |y| == |p| && c < |y| && n <= |y|
    requires forall j :: 0 <= j < |y| ==> (y[j] != 0 <==> j == c)
    ensures RowLabelledSum(y[..n], p[..n]) == if c < n then p[c] else 0.0
  {
    if n > 0 {
      assert y[..n][..n - 1] == y[..n - 1] && p[..n][..n - 1] == p[..n - 1];
      OneHotRowPrefix(y, p, c, n - 1);
    }
  }

  // ---------------------------------------------------------------------------
  // _quad_approx: the quadratic majorizer of the line search

  /** `x - g / L`: the plain gradient step. */
  function GradStep(x: seq<real>, g: seq<real>, L: real): (r: seq<real>)
    requires |x| == |g| && L != 0.0
    ensures |r| == |x| && forall k :: 0 <= k < |x| ==> r[k] == x[k] - g[k] / L
  {
    seq(|x|, k requires 0 <= k < |x| => x[k] - g[k] / L)
  }

  predicate Conformable(coef: seq<real>, intercept: seq<real>, proxCoef: seq<real>, proxIntercept: seq<real>,
                        coefGrad: seq<real>, interceptGrad: seq<real>)
  {
    |coef| == |proxCoef| == |coefGrad| && |intercept| == |proxIntercept| == |interceptGrad|
  }

  /**
    loss + <diff, grad> + L/2 * ||diff||^2 where diff = prox - current, over
    the coefficients and the intercepts together.
  */
  function Majorizer(loss: real, L: real, coef: seq<real>, intercept: seq<real>,
                     proxCoef: seq<real>, proxIntercept: seq<real>,
                     coefGrad: seq<real>, interceptGrad: seq<real>): real
    requires Conformable(coef, intercept, proxCoef, proxIntercept, coefGrad, interceptGrad)
  {
    var dc := Diff(proxCoef, coef);
    var di := Diff(proxIntercept, intercept);
    Quadratic(loss, L, Dot(dc, coefGrad) + Dot(di, interceptGrad), SqNorm(dc) + SqNorm(di))
  }

  /** The quadratic model `loss + lin + L/2 * sq` of a step with linear term lin and squared length sq. */
  function Quadratic(loss: real, L: real, lin: real, sq: real): real
  {
    loss + lin + 0.5 * L * sq
  }

  /**
    For the unthresholded gradient step the majorizer lies below the current
    loss by ||grad||^2 / (2L): an accepted plain step never increases the loss.
  */
  lemma MajorizerOfGradientStep(loss: real, L: real, coef: seq<real>, intercept: seq<real>,
                                coefGrad: seq<real>, interceptGrad: seq<real>)
    requires |coef| == |coefGrad| && |intercept| == |interceptGrad| && L > 0.0
    ensures Majorizer(loss, L, coef, intercept, GradStep(coef, coefGrad, L), GradStep(intercept, interceptGrad, L),
                      coefGrad, interceptGrad)
            == loss - (SqNorm(coefGrad) + SqNorm(interceptGrad)) / (2.0 * L)
    ensures Majorizer(loss, L, coef, intercept, GradStep(coef, coefGrad, L), GradStep(intercept, interceptGrad, L),
                      coefGrad, interceptGrad) <= loss
  {
    var c := -1.0 / L;
    StepDisplacement(coef, coefGrad, L);
    StepDisplacement(intercept, interceptGrad, L);
    SqNormNonnegative(coefGrad);
    SqNormNonnegative(interceptGrad);
    MajorizerOfDisplacement(loss, L, c, coef, intercept, GradStep(coef, coefGrad, L),
                            GradStep(intercept, interceptGrad, L), coefGrad, interceptGrad);
    QuadraticStepArithmetic(loss, L, c, SqNorm(coefGrad), SqNorm(interceptGrad));
  }

  lemma MajorizerOfDisplacement(loss: real, L: real, c: real, coef: seq<real>, intercept: seq<real>,
                                proxCoef: seq<real>, proxIntercept: seq<real>,
                                coefGrad: seq<real>, interceptGrad: seq<real>)
    requires Conformable(coef, intercept, proxCoef, proxIntercept, coefGrad, interceptGrad)
    requires Diff(proxCoef, coef) == Scale(c, coefGrad) && Diff(proxIntercept, intercept) == Scale(c, interceptGrad)
    ensures Majorizer(loss, L, coef, intercept, proxCoef, proxIntercept, coefGrad, interceptGrad)
            == Quadratic(loss, L, c * SqNorm(coefGrad) + c * SqNorm(interceptGrad),
                         c * c * SqNorm(coefGrad) + c * c * SqNorm(interceptGrad))
  {
    var dc, di := Diff(proxCoef, coef), Diff(proxIntercept, intercept);
    ScaledGradient(c, coefGrad);
    ScaledGradient(c, interceptGrad);
    assert Dot(dc, coefGrad) + Dot(di, interceptGrad) == c * SqNorm(coefGrad) + c * SqNorm(interceptGrad);
    assert SqNorm(dc) + SqNorm(di) == c * c * SqNorm(coefGrad) + c * c * SqNorm(interceptGrad);
  }

  /** A displacement of c times the gradient has inner product c * ||g||^2 and norm c^2 * ||g||^2. */
  lemma ScaledGradient(c: real, g: seq<real>)
    ensures Dot(Scale(c, g), g) == c * SqNorm(g) && SqNorm(Scale(c, g)) == c * c * SqNorm(g)
  {
    DotScaleLeft(c, g, g);
    SqNormScale(c, g);
  }

  lemma QuadraticStepArithmetic(loss: real, L: real, c: real, a1: real, a2: real)
    requires L > 0.0 && c == -1.0 / L && a1 >= 0.0 && a2 >= 0.0
    ensures Quadratic(loss, L, c * a1 + c * a2, c * c * a1 + c * c * a2) == loss - (a1 + a2) / (2.0 * L)
    ensures loss - (a1 + a2) / (2.0 * L) <= loss
  {
    var a := a1 + a2;
    assert L * c == -1.0;
    assert c * a1 + c * a2 == c * a;
    assert c * c * a1 + c * c * a2 == c * c * a;
    calc {
      0.5 * L * (c * c * a);
      0.5 * (L * c) * (c * a);
      -0.5 * (c * a);
    }
    assert c * a == -(a / L);
    assert a / L == 2.0 * (a / (2.0 * L));
  }

  lemma StepDisplacement(x: seq<real>, g: seq<real>, L: real)
    requires |x| == |g| && L != 0.0
    ensures Diff(GradStep(x, g, L), x) == Scale(-1.0 / L, g)
  {
    var d, s := Diff(GradStep(x, g, L), x), Scale(-1.0 / L, g);
    forall k | 0 <= k < |x| ensures d[k] == s[k] {
      assert g[k] / L == g[k] * (1.0 / L);
    }
  }

  /** Standing still costs nothing: the majorizer at the current point is the loss. */
  lemma MajorizerAtCurrentPoint(loss: real, L: real, coef: seq<real>, intercept: seq<real>,
                                coefGrad: seq<real>, interceptGrad: seq<real>)
    requires |coef| == |coefGrad| && |intercept| == |interceptGrad|
    ensures Majorizer(loss, L, coef, intercept, coef, intercept, coefGrad, interceptGrad) == loss
  {
    assert Diff(coef, coef) == Scale(0.0, coefGrad);
    assert Diff(intercept, intercept) == Scale(0.0, interceptGrad);
    DotScaleLeft(0.0, coefGrad, coefGrad);
    DotScaleLeft(0.0, interceptGrad, interceptGrad);
    SqNormScale(0.0, coefGrad);
    SqNormScale(0.0, interceptGrad);
  }
}
