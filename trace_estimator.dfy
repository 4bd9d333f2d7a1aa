/**
  `TraceNormEstimator` of `cogspaces/model/trace.py`: its configuration and
  `fit`, which validates the datasets, lays out the class slices, normalises
  the dataset weights, pads the labels in split-loss mode, derives the step
  size from the Lipschitz constant and runs the solver over fresh buffers.
*/
module TraceEstimator {
  import opened Wrappers
  import opened Vectors
  import opened TraceNumerics
  import opened TraceLayout
  import opened TraceSolver

  datatype FitError =
    | NoData                      // `Xs[0]` on an empty tuple
    | InvalidArray                    // `check_array`: a ragged, sample-less or feature-less array
    | Weights(w: WeightError)         // a non-finite normalisation of the given weights
    | MissingTargets                  // `limits[iter + 1]` past the end: fewer label matrices than datasets
    | Lipschitz(l: LipschitzError)
    | ZeroMultiplier                  // `Lmax / step_size_multiplier` with a zero multiplier
    | ShapeMismatch(index: nat)       // `_predict`: X has other features than `Xs[0]`, or other samples than y
    | Solver(s: StepError)

  /** What `check_array` accepts: a rectangular array with at least one sample and one feature. */
  predicate Accepted<T>(m: Matrix<T>)
  {
    m.Shaped() && m.nRows > 0 && m.nCols > 0
  }

  predicate AllAccepted(xs: seq<Matrix<real>>, ys: seq<Matrix<int>>)
  {
    (forall k :: 0 <= k < |xs| ==> Accepted(xs[k])) && (forall k :: 0 <= k < |ys| ==> Accepted(ys[k]))
  }

  /** The class count of every label matrix. */
  function Sizes(ys: seq<Matrix<int>>): (s: seq<nat>)
    ensures |s| == |ys| && forall k :: 0 <= k < |ys| ==> s[k] == ys[k].nCols
  {
    seq(|ys|, k requires 0 <= k < |ys| => ys[k].nCols)
  }

  /** What `_predict` needs of dataset k: the features of `Xs[0]` and the samples of its labels. */
  predicate Conforms(xs: seq<Matrix<real>>, ys: seq<Matrix<int>>, k: nat)
    requires 0 < |xs| && k < |xs| && k < |ys|
  {
    xs[k].nCols == xs[0].nCols && xs[k].nRows == ys[k].nRows
  }

  function FirstNonConforming(xs: seq<Matrix<real>>, ys: seq<Matrix<int>>, k: nat): (r: Option<nat>)
    requires 0 < |xs| <= |ys| && k <= |xs|
    ensures r.None? <==> forall j :: k <= j < |xs| ==> Conforms(xs, ys, j)
    ensures r.Some? ==> k <= r.value < |xs| && !Conforms(xs, ys, r.value)
    ensures r.Some? ==> forall j :: k <= j < r.value ==> Conforms(xs, ys, j)
    decreases |xs| - k
  {
    if k == |xs| then None
    else if !Conforms(xs, ys, k) then Some(k)
    else FirstNonConforming(xs, ys, k + 1)
  }

  /** A label matrix of `rows` samples and `total` classes, all zero. */
  function Zeros(rows: nat, total: nat): (z: Matrix<int>)
    ensures z.Shaped() && z.nRows == rows && z.nCols == total
  {
    Matrix(rows, total, seq(rows, _ => seq(total, _ => 0)))
  }

  /**
    The hyper-parameters of `TraceNormEstimator.__init__`; `multiplier` is
    `step_size_multiplier` and `divider` is `backtracking_divider`.
  */
  datatype Config = Config(alpha: real, beta: real, maxIter: nat, momentum: bool, fitIntercept: bool,
                           maxBacktrackingIter: nat, multiplier: real, divider: real, splitLoss: bool)

  /**
    The problem `fit` hands the solver: in split-loss mode every dataset's
    labels padded to all classes inside its own slice (label matrices past the
    last slice all zero) and every dataset reading all `total` classes;
    otherwise the labels and class slices as they are.
  */
  predicate TrainsOn(p: Problem, xs: seq<Matrix<real>>, ys: seq<Matrix<int>>, w: seq<real>, slices: seq<Slice>,
                     total: nat, splitLoss: bool)
  {
    && p.xs == xs && p.weights == w
    && (splitLoss ==>
          && p.slices == seq(|xs|, _ => Slice(0, total))
          && |p.ys| == |ys|
          && (forall k :: 0 <= k < |ys| ==>
                if k < |slices| then FitsSlice(ys[k], slices[k], total) && p.ys[k] == Padded(ys[k], slices[k], total)
                else p.ys[k] == Zeros(ys[k].nRows, total)))
    && (!splitLoss ==> p.ys == ys && p.slices == slices)
  }

  /** The `_ista_loop` run `fit` ends with: from coef all ones and intercept all zeros, at step size L0. */
  function SolverRun(num: Numerics, config: Config, p: Problem, nFeatures: nat, total: nat, L0: real, lmax: real)
    : Result<Iterate, StepError>
    requires IsSqrt(num.sqrt)
  {
    IstaRun(num, p, Settings(config.alpha, config.beta, lmax, config.divider), config.momentum,
            Start(nFeatures, total, L0, config.maxBacktrackingIter), config.maxIter)
  }

  class TraceNormEstimator {
    const config: Config

    var slices: seq<Slice>
    var coef: seq<real>       // `coef_`, n_features x total_size, row-major
    var intercept: seq<real>  // `intercept_`, total_size

    constructor (config: Config)
      ensures this.config == config && slices == [] && coef == [] && intercept == []
    {
      this.config := config;
      slices, coef, intercept := [], [], [];
    }

    /**
      `fit`. Errors come in the order the source meets them. `slices_` is
      written before the later checks, so it survives a later failure, and a
      failure inside the slice loop leaves the slices it managed to build.
    */
    method Fit(num: Numerics, xs: seq<Matrix<real>>, ys: seq<Matrix<int>>, weights: Option<seq<real>>)
      returns (err: Option<FitError>, ghost lmax: real, ghost L0: real, ghost problem: Problem)
      requires IsSqrt(num.sqrt)
      modifies this
      ensures err == Some(NoData) <==> |xs| == 0
      ensures err.Some? ==> coef == old(coef) && intercept == old(intercept)
      ensures err == Some(NoData) || err == Some(InvalidArray) || (err.Some? && err.value.Weights?) ==>
        slices == old(slices)
      ensures err == Some(MissingTargets) ==> |ys| < |xs| && slices == ClassSlices(Sizes(ys))
      ensures err.None? ==>
        && 0 < |xs| <= |ys| && AllAccepted(xs, ys)
        && NormalisedWeights(weights, |xs|).Success?
        && LipschitzConstant(xs, NormalisedWeights(weights, |xs|).value, config.fitIntercept, config.splitLoss) == Success(lmax)
        && config.multiplier != 0.0
        && forall k :: 0 <= k < |xs| ==> Conforms(xs, ys, k)
      ensures err.None? || (err.Some? && (err.value.Lipschitz? || err.value.ZeroMultiplier? ||
                                          err.value.ShapeMismatch? || err.value.Solver?)) ==>
        |xs| <= |ys| && slices == ClassSlices(Sizes(ys))[..|xs|]
      ensures err.None? ==>
        |coef| == xs[0].nCols * NatSum(Sizes(ys)) && |intercept| == NatSum(Sizes(ys))
      ensures err.None? && config.maxIter == 0 ==>
        (forall k :: 0 <= k < |coef| ==> coef[k] == 1.0) && (forall k :: 0 <= k < |intercept| ==> intercept[k] == 0.0)
      ensures err == Some(Solver(RankUnbound)) <==> err.Some? && err.value.Solver? && config.maxIter > 0 && config.maxBacktrackingIter == 0
      ensures err == Some(Solver(NonFinite)) ==> lmax == 0.0 || config.divider == 0.0
      ensures err.None? || (err.Some? && err.value.Solver?) ==>
        && 0 < |xs| && NormalisedWeights(weights, |xs|).Success?
        && config.multiplier != 0.0 && L0 == lmax / config.multiplier
        && TrainsOn(problem, xs, ys, NormalisedWeights(weights, |xs|).value, slices, NatSum(Sizes(ys)), config.splitLoss)
        && (err.None? ==> var run := SolverRun(num, config, problem, xs[0].nCols, NatSum(Sizes(ys)), L0, lmax);
                          run.Success? && coef == run.value.coef && intercept == run.value.intercept)
        && (err.Some? ==> SolverRun(num, config, problem, xs[0].nCols, NatSum(Sizes(ys)), L0, lmax) == Failure(err.value.s))
    {
      lmax, L0, problem := 0.0, 0.0, Problem(xs, ys, [], []);
      if |xs| == 0 {
        return Some(NoData), lmax, L0, problem;
      }
      var nFeatures := xs[0].nCols;
      if !AllAccepted(xs, ys) {
        return Some(InvalidArray), lmax, L0, problem;
      }
      var sizes := Sizes(ys);
      var total := NatSum(sizes);
      var w := NormalisedWeights(weights, |xs|);
      if w.Failure? {
        return Some(Weights(w.error)), lmax, L0, problem;
      }
      var complete;
      slices, complete := BuildSlices(sizes, |xs|);
      if !complete {
        return Some(MissingTargets), lmax, L0, problem;
      }
      ClassSlicesFit(ys);
      var e, c, b, l, l0, pr := Train(num, config, xs, ys, w.value, slices, total);
      lmax, L0, problem := l, l0, pr;
      if e.Some? {
        return e, lmax, L0, problem;
      }
      err, coef, intercept := None, c, b;
    }
  }

  /**
    `fit` from the label padding on: the Lipschitz constant and the initial
    step size, then the solver over fresh buffers.
  */
  method Train(num: Numerics, config: Config, xs: seq<Matrix<real>>, ys: seq<Matrix<int>>, w: seq<real>,
               slices: seq<Slice>, total: nat)
    returns (err: Option<FitError>, coef: seq<real>, intercept: seq<real>, ghost lmax: real, ghost L0: real,
             ghost problem: Problem)
    requires IsSqrt(num.sqrt) && 0 < |xs| <= |ys| && |slices| == |xs|
    requires forall k :: 0 <= k < |slices| ==> FitsSlice(ys[k], slices[k], total)
    ensures err.Some? ==> err.value.Lipschitz? || err.value.ZeroMultiplier? || err.value.ShapeMismatch? || err.value.Solver?
    ensures err.None? ==>
      && LipschitzConstant(xs, w, config.fitIntercept, config.splitLoss) == Success(lmax)
      && config.multiplier != 0.0
      && forall k :: 0 <= k < |xs| ==> Conforms(xs, ys, k)
    ensures err.None? ==> |coef| == xs[0].nCols * total && |intercept| == total
    ensures err.None? && config.maxIter == 0 ==>
      (forall k :: 0 <= k < |coef| ==> coef[k] == 1.0) && (forall k :: 0 <= k < |intercept| ==> intercept[k] == 0.0)
    ensures err == Some(Solver(RankUnbound)) <==>
      err.Some? && err.value.Solver? && config.maxIter > 0 && config.maxBacktrackingIter == 0
    ensures err == Some(Solver(NonFinite)) ==> lmax == 0.0 || config.divider == 0.0
    ensures err.None? || (err.Some? && err.value.Solver?) ==>
      && config.multiplier != 0.0 && L0 == lmax / config.multiplier
      && TrainsOn(problem, xs, ys, w, slices, total, config.splitLoss)
      && (err.None? ==> var run := SolverRun(num, config, problem, xs[0].nCols, total, L0, lmax);
                        run.Success? && coef == run.value.coef && intercept == run.value.intercept)
      && (err.Some? ==> SolverRun(num, config, problem, xs[0].nCols, total, L0, lmax) == Failure(err.value.s))
  {
    lmax, L0 := 0.0, 0.0;
    coef, intercept := [], [];
    var targets, training := ys, slices;
    if config.splitLoss {
      targets := PadTargets(ys, slices, total);
      training := seq(|xs|, _ => Slice(0, total));
    }
    problem := Problem(xs, targets, training, w);
    var l := LipschitzConstant(xs, w, config.fitIntercept, config.splitLoss);
    if l.Failure? {
      return Some(Lipschitz(l.error)), coef, intercept, lmax, L0, problem;
    }
    var Lmax := l.value;
    lmax := Lmax;
    if config.multiplier == 0.0 {
      return Some(ZeroMultiplier), coef, intercept, lmax, L0, problem;
    }
    var bad := FirstNonConforming(xs, ys, 0);
    if bad.Some? {
      return Some(ShapeMismatch(bad.value)), coef, intercept, lmax, L0, problem;
    }
    var L := Lmax / config.multiplier;
    L0 := L;
    QuotientZero(Lmax, config.multiplier);
    var e, c, b := Solve(num, Problem(xs, targets, training, w), xs[0].nCols, total, L, Lmax,
                         config.maxIter, config.maxBacktrackingIter, config.alpha, config.beta,
                         config.divider, config.momentum);
    if e.Some? {
      return Some(Solver(e.value)), coef, intercept, lmax, L0, problem;
    }
    err, coef, intercept := None, c, b;
  }

  lemma QuotientZero(x: real, m: real)
    requires m != 0.0
    ensures x / m == 0.0 ==> x == 0.0
  {
    assert x == (x / m) * m;
  }

  /**
    The tail of `fit`: the buffers are allocated (coef all ones, intercept
    all zeros) and `_ista_loop` runs on them.
  */
  method Solve(num: Numerics, p: Problem, nFeatures: nat, total: nat, L0: real, Lmax: real,
               maxIter: nat, budget: nat, alpha: real, beta: real, divider: real, momentum: bool)
    returns (err: Option<StepError>, coef: seq<real>, intercept: seq<real>)
    requires IsSqrt(num.sqrt)
    ensures err == Some(RankUnbound) <==> maxIter > 0 && budget == 0
    ensures err == Some(NonFinite) ==> L0 == 0.0 || divider == 0.0 || Lmax == 0.0
    ensures |coef| == nFeatures * total && |intercept| == total
    ensures maxIter == 0 ==> err.None?
    ensures maxIter == 0 ==> forall k :: 0 <= k < |coef| ==> coef[k] == 1.0
    ensures maxIter == 0 ==> forall k :: 0 <= k < |intercept| ==> intercept[k] == 0.0
    ensures var run := IstaRun(num, p, Settings(alpha, beta, Lmax, divider), momentum, Start(nFeatures, total, L0, budget),
                               maxIter);
      && (run.Failure? ==> err == Some(run.error))
      && (run.Success? ==> err.None? && coef == run.value.coef && intercept == run.value.intercept)
  {
    var ws := new Workspace(p, nFeatures, total);
    ghost var c0, b0 := ws.coef[..], ws.intercept[..];
    assert c0 == Start(nFeatures, total, L0, budget).coef;
    assert b0 == Start(nFeatures, total, L0, budget).intercept;
    var e, _, _, _ := ws.IstaLoop(num, L0, Lmax, maxIter, budget, alpha, beta, divider, momentum);
    err, coef, intercept := e, ws.coef[..], ws.intercept[..];
    assert maxIter == 0 ==> coef == c0 && intercept == b0;
  }

  /**
    The loop that fills `slices_` from the cumulative limits; it stops with an
    index error once it needs a limit past the last label matrix.
  */
  method BuildSlices(sizes: seq<nat>, n: nat) returns (slices: seq<Slice>, complete: bool)
    ensures complete <==> n <= |sizes|
    ensures complete ==> slices == ClassSlices(sizes)[..n]
    ensures !complete ==> slices == ClassSlices(sizes)
  {
    var limits := Limits(sizes);
    slices := [];
    for k := 0 to n
      invariant |slices| == k && k <= |sizes|
      invariant forall j :: 0 <= j < k ==> slices[j] == Slice(limits[j], limits[j + 1])
    {
      if k + 1 >= |limits| {
        assert slices == ClassSlices(sizes);
        return slices, false;
      }
      slices := slices + [Slice(limits[k], limits[k + 1])];
    }
    assert slices == ClassSlices(sizes)[..n];
    complete := true;
  }

  /** Every label matrix fits its own class slice inside `[0, total_size)`. */
  lemma ClassSlicesFit(ys: seq<Matrix<int>>)
    requires forall k :: 0 <= k < |ys| ==> ys[k].Shaped()
    ensures forall k :: 0 <= k < |ys| ==> FitsSlice(ys[k], ClassSlices(Sizes(ys))[k], NatSum(Sizes(ys)))
  {
    var sizes := Sizes(ys);
    forall k | 0 <= k < |ys|
      ensures FitsSlice(ys[k], ClassSlices(sizes)[k], NatSum(sizes))
    {
      LimitsMonotone(sizes, k + 1, |sizes|);
    }
  }

  /**
    The split-loss labels: each dataset's labels padded to all classes inside
    its own slice; label matrices past the last dataset stay all zero.
  */
  method PadTargets(ys: seq<Matrix<int>>, slices: seq<Slice>, total: nat) returns (targets: seq<Matrix<int>>)
    requires |slices| <= |ys|
    requires forall k :: 0 <= k < |slices| ==> FitsSlice(ys[k], slices[k], total)
    ensures |targets| == |ys|
    ensures forall k :: 0 <= k < |slices| ==> targets[k] == Padded(ys[k], slices[k], total)
    ensures forall k :: |slices| <= k < |ys| ==> targets[k] == Zeros(ys[k].nRows, total)
  {
    targets := [];
    for k := 0 to |ys|
      invariant |targets| == k
      invariant forall j :: 0 <= j < k && j < |slices| ==> targets[j] == Padded(ys[j], slices[j], total)
      invariant forall j :: |slices| <= j < k ==> targets[j] == Zeros(ys[j].nRows, total)
    {
      if k < |slices| {
        var p := PadTarget(ys[k], slices[k], total);
        targets := targets + [p];
      } else {
        targets := targets + [Zeros(ys[k].nRows, total)];
      }
    }
  }
}
