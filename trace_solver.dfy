/**
  The accelerated proximal-gradient solver of `cogspaces/model/trace.py`
  (`_prox_grad`, `_quad_approx`, `_loss` and `_ista_loop`) over the
  preallocated buffers that `fit` hands it and that it updates in place.

  What needs `exp`, `log` or an SVD is a parameter (`Numerics`): the per-dataset
  cross-entropy of the log-softmax predictions, the entries of the data
  gradient, the singular values of a candidate, the entries of its
  soft-thresholded reconstruction, and `sqrt`.
*/
module TraceSolver {
  import opened Wrappers
  import opened Vectors
  import opened TraceNumerics
  import opened TraceLayout

  /** The training data the solver is run on, as `fit` lays it out. */
  datatype Problem = Problem(xs: seq<Matrix<real>>, ys: seq<Matrix<int>>, slices: seq<Slice>, weights: seq<real>)

  /** The floating-point linear algebra the model does not interpret. */
  datatype Numerics = Numerics(
    // `cross_entropy(y_k, pred_k)` for dataset k, the predictions being `_predict` at (coef, intercept)
    crossEntropy: (Problem, seq<real>, seq<real>, nat) -> real,
    // entry j of the summed per-dataset gradient of the data term w.r.t. coef / intercept
    coefGradient: (Problem, seq<real>, seq<real>, nat) -> real,
    interceptGradient: (Problem, seq<real>, seq<real>, nat) -> real,
    // the singular values of a coefficient matrix (`svd(...)[1]`)
    singularValues: seq<real> -> seq<real>,
    // entry j of `U * max(s - threshold, 0) @ V`
    shrunkEntry: (seq<real>, real, nat) -> real,
    sqrt: real -> real)

  /** The defining property of the square root, the only thing the solver relies on. */
  ghost predicate IsSqrt(f: real -> real)
  {
    forall x :: 0.0 <= x ==> 0.0 <= f(x) && f(x) * f(x) == x
  }

  // ---------------------------------------------------------------------------
  // specification functions

  /** Sum over the first m datasets of `cross_entropy / n_datasets * dataset_weight`. */
  function WeightedLosses(num: Numerics, p: Problem, coef: seq<real>, intercept: seq<real>, m: nat): real
    requires m <= |p.slices| && m <= |p.weights|
  {
    if m == 0 then 0.0
    else WeightedLosses(num, p, coef, intercept, m - 1)
         + num.crossEntropy(p, coef, intercept, m - 1) / (|p.slices| as real) * p.weights[m - 1]
  }

  function Zipped(p: Problem): nat
  {
    if |p.slices| <= |p.weights| then |p.slices| else |p.weights|
  }

  /** `_loss`: the L2 penalty plus the weighted data term, without the trace norm. */
  function SmoothLossOf(num: Numerics, p: Problem, beta: real, coef: seq<real>, intercept: seq<real>): real
  {
    0.5 * beta * SqNorm(coef) + WeightedLosses(num, p, coef, intercept, Zipped(p))
  }

  /** The full gradient w.r.t. coef: the data part plus `beta * coef` when beta > 0. */
  function CoefGradient(num: Numerics, p: Problem, beta: real, coef: seq<real>, intercept: seq<real>): (g: seq<real>)
    ensures |g| == |coef|
  {
    seq(|coef|, k requires 0 <= k < |coef| =>
      num.coefGradient(p, coef, intercept, k) + (if beta > 0.0 then beta * coef[k] else 0.0))
  }

  /**
    The penalty part of the coefficient gradient: with beta > 0 the gradient
    is the data gradient (the one at beta = 0) plus beta * coef; with
    beta <= 0 the data gradient is used alone.
  */
  lemma PenaltyGradient(num: Numerics, p: Problem, beta: real, coef: seq<real>, intercept: seq<real>)
    ensures beta > 0.0 ==>
      CoefGradient(num, p, beta, coef, intercept) == Plus(CoefGradient(num, p, 0.0, coef, intercept), Scale(beta, coef))
    ensures beta <= 0.0 ==> CoefGradient(num, p, beta, coef, intercept) == CoefGradient(num, p, 0.0, coef, intercept)
  {
    var g, g0 := CoefGradient(num, p, beta, coef, intercept), CoefGradient(num, p, 0.0, coef, intercept);
    if beta > 0.0 {
      var r := Plus(g0, Scale(beta, coef));
      assert forall k :: 0 <= k < |coef| ==> g[k] == r[k];
    } else {
      assert forall k :: 0 <= k < |coef| ==> g[k] == g0[k];
    }
  }

  /**
    beta * coef is the exact gradient of the penalty 0.5 * beta * ||coef||^2
    of `_loss`: moving coef by d changes the penalty by <beta * coef, d> plus
    the second-order term 0.5 * beta * ||d||^2.
  */
  lemma {:induction false} PenaltyExpansion(beta: real, coef: seq<real>, d: seq<real>)
    requires |d| == |coef|
    ensures 0.5 * beta * SqNorm(Plus(coef, d))
            == 0.5 * beta * SqNorm(coef) + Dot(Scale(beta, coef), d) + 0.5 * beta * SqNorm(d)
  {
    calc {
      0.5 * beta * SqNorm(Plus(coef, d));
    == { SqNormOfSum(coef, d); }
      0.5 * beta * (SqNorm(coef) + 2.0 * Dot(coef, d) + SqNorm(d));
    == { PenaltyArithmetic(beta, SqNorm(coef), Dot(coef, d), SqNorm(d)); }
      0.5 * beta * SqNorm(coef) + beta * Dot(coef, d) + 0.5 * beta * SqNorm(d);
    == { DotScaleLeft(beta, coef, d); }
      0.5 * beta * SqNorm(coef) + Dot(Scale(beta, coef), d) + 0.5 * beta * SqNorm(d);
    }
  }

  lemma PenaltyArithmetic(beta: real, a: real, ab: real, b: real)
    ensures 0.5 * beta * (a + 2.0 * ab + b) == 0.5 * beta * a + beta * ab + 0.5 * beta * b
  {
  }

  function InterceptGradient(num: Numerics, p: Problem, coef: seq<real>, intercept: seq<real>): (g: seq<real>)
    ensures |g| == |intercept|
  {
    seq(|intercept|, k requires 0 <= k < |intercept| => num.interceptGradient(p, coef, intercept, k))
  }

  /** The reconstruction after soft-thresholding, entry by entry. */
  function Shrunk(num: Numerics, m: seq<real>, threshold: real): (r: seq<real>)
    ensures |r| == |m|
  {
    seq(|m|, k requires 0 <= k < |m| => num.shrunkEntry(m, threshold, k))
  }

  /** `prox_coef * (1 + w) - w * old_prox_coef`, the momentum extrapolation. */
  function Extrapolated(prox: seq<real>, oldProx: seq<real>, w: real): (r: seq<real>)
    requires |prox| == |oldProx|
    ensures |r| == |prox|
    ensures forall k :: 0 <= k < |prox| ==> r[k] == prox[k] * (1.0 + w) - w * oldProx[k]
  {
    seq(|prox|, k requires 0 <= k < |prox| => prox[k] * (1.0 + w) - w * oldProx[k])
  }

  /** The extrapolation is the over-relaxation `prox + w * (prox - old_prox)`. */
  lemma ExtrapolationIsOverRelaxation(prox: seq<real>, oldProx: seq<real>, w: real)
    requires |prox| == |oldProx|
    ensures forall k :: 0 <= k < |prox| ==> Extrapolated(prox, oldProx, w)[k] == prox[k] + w * (prox[k] - oldProx[k])
  {
  }

  /** A zero extrapolation weight, as on the first iteration, leaves the candidate as it is. */
  lemma ExtrapolationByZero(prox: seq<real>, oldProx: seq<real>)
    requires |prox| == |oldProx|
    ensures Extrapolated(prox, oldProx, 0.0) == prox
  {
  }

  /**
    The momentum sequence: with s the square root of 1 + 4 t^2, the next
    t' = (1 + s) / 2 grows by at least 1/2 and the extrapolation weight
    (t - 1) / t' lies in [0, 1).
  */
  lemma MomentumGrowth(t: real, s: real)
    requires t >= 1.0 && s >= 0.0 && s * s == 1.0 + 4.0 * t * t
    ensures 0.5 * (1.0 + s) >= t + 0.5
    ensures 0.0 <= (t - 1.0) / (0.5 * (1.0 + s)) < 1.0
  {
    var t' := 0.5 * (1.0 + s);
    assert t' > t - 1.0 && t' > 0.0;
    assert (t - 1.0) / t' * t' == t - 1.0;
  }

  datatype StepError =
    | RankUnbound   // max_backtracking_iter == 0: `rank` is returned without ever being assigned
    | NonFinite     // L == 0: the gradient step divides by zero

  /** What `_prox_grad` returns: loss, rank, L and the (possibly collapsed) backtracking budget. */
  datatype Step = Step(loss: real, rank: nat, L: real, budget: nat)

  // ---------------------------------------------------------------------------
  // the line search and the iteration as functions of their inputs

  /** The arguments of `_ista_loop` that no step changes. */
  datatype Settings = Settings(alpha: real, beta: real, Lmax: real, divider: real)

  /** Where a line search starts: the iterate, the gradients there and the loss there. */
  datatype Point = Point(coef: seq<real>, intercept: seq<real>, coefGrad: seq<real>, interceptGrad: seq<real>,
                         loss: real)

  predicate Shaped(pt: Point)
  {
    |pt.coef| == |pt.coefGrad| && |pt.intercept| == |pt.interceptGrad|
  }

  /** The start of `_prox_grad` at (coef, intercept): the loss and the full gradients. */
  function PointAt(num: Numerics, p: Problem, beta: real, coef: seq<real>, intercept: seq<real>): (pt: Point)
    ensures Shaped(pt) && pt.coef == coef && pt.intercept == intercept
  {
    Point(coef, intercept, CoefGradient(num, p, beta, coef, intercept), InterceptGradient(num, p, coef, intercept),
          SmoothLossOf(num, p, beta, coef, intercept))
  }

  /** The candidate coefficients of step size L: the gradient step, soft-thresholded by alpha / L when alpha > 0. */
  function CandidateCoef(num: Numerics, alpha: real, coef: seq<real>, coefGrad: seq<real>, L: real): (c: seq<real>)
    requires |coef| == |coefGrad| && L != 0.0
    ensures |c| == |coef|
  {
    var step := GradStep(coef, coefGrad, L);
    if alpha > 0.0 then Shrunk(num, step, alpha / L) else step
  }

  /** The smooth loss of the candidate of step size L. */
  function CandidateLoss(num: Numerics, p: Problem, s: Settings, pt: Point, L: real): real
    requires Shaped(pt) && L != 0.0
  {
    SmoothLossOf(num, p, s.beta, CandidateCoef(num, s.alpha, pt.coef, pt.coefGrad, L),
                 GradStep(pt.intercept, pt.interceptGrad, L))
  }

  /** The sufficient-decrease test: the candidate's loss is at most the majorizer at L. */
  predicate Passes(num: Numerics, p: Problem, s: Settings, pt: Point, L: real)
    requires Shaped(pt) && L != 0.0
  {
    CandidateLoss(num, p, s, pt, L)
      <= Majorizer(pt.loss, L, pt.coef, pt.intercept, CandidateCoef(num, s.alpha, pt.coef, pt.coefGrad, L),
                   GradStep(pt.intercept, pt.interceptGrad, L), pt.coefGrad, pt.interceptGrad)
  }

  /** How a line search ends: the step size and budget of its last trial, whether a test passed, and the loss. */
  datatype Outcome = Outcome(L: real, budget: nat, accepted: bool, loss: real)

  /**
    The trial loop of `_prox_grad` from trial j on, at step size L with
    budget b: `budget0` trials at most, the number fixed when the loop starts;
    a trial is tested only while j < b - 1; a passing test ends the search
    with the candidate's loss, a failing one backtracks.
  */
  function Search(num: Numerics, p: Problem, s: Settings, pt: Point, budget0: nat, j: nat, L: real, b: nat)
    : (r: Result<Outcome, StepError>)
    requires Shaped(pt) && b <= budget0
    ensures r.Failure? ==> r.error == NonFinite
    ensures j < budget0 && r.Success? ==> r.value.L != 0.0
    decreases budget0 - j
  {
    if budget0 <= j then Success(Outcome(L, b, false, pt.loss))
    else if L == 0.0 then Failure(NonFinite)
    else if j < b - 1 then
      if Passes(num, p, s, pt, L) then Success(Outcome(L, b, true, CandidateLoss(num, p, s, pt, L)))
      else
        var next := Backtrack(L, s.divider, s.Lmax, b);
        Search(num, p, s, pt, budget0, j + 1, next.0, next.1)
    else Search(num, p, s, pt, budget0, j + 1, L, b)
  }

  /** `_prox_grad` as a function of the iterate, the step size and the budget. */
  function LineSearch(num: Numerics, p: Problem, s: Settings, coef: seq<real>, intercept: seq<real>,
                      L: real, budget: nat): (r: Result<Outcome, StepError>)
    ensures r.Success? ==> r.value.L != 0.0
  {
    if budget == 0 then Failure(RankUnbound)
    else Search(num, p, s, PointAt(num, p, s.beta, coef, intercept), budget, 0, L, budget)
  }

  /** Step size and budget after k rejected trials, starting from (L, b). */
  function Backtracks(L: real, divider: real, Lmax: real, b: nat, k: nat): (real, nat)
    decreases k
  {
    if k == 0 then (L, b)
    else
      var next := Backtrack(L, divider, Lmax, b);
      Backtracks(next.0, divider, Lmax, next.1, k - 1)
  }

  /** Trial j at step size L and budget b is tested, and its candidate fails the test. */
  predicate Rejects(num: Numerics, p: Problem, s: Settings, pt: Point, j: nat, Lb: (real, nat))
    requires Shaped(pt)
  {
    Lb.0 != 0.0 && j < Lb.1 - 1 && !Passes(num, p, s, pt, Lb.0)
  }

  /**
    What every line search guarantees: it fails only on a zero step size; it
    keeps the budget unless L was clamped to Lmax; with 0 < L <= Lmax and a
    divider of at least 1, L only grows and stays within Lmax.
  */
  lemma {:induction false} SearchOutcome(num: Numerics, p: Problem, s: Settings, pt: Point, budget0: nat, j: nat,
                                         L: real, b: nat)
    requires Shaped(pt) && b <= budget0
    requires b == budget0 || (b == 1 && L == s.Lmax)
    ensures var r := Search(num, p, s, pt, budget0, j, L, b);
      && (r.Failure? ==> L == 0.0 || s.divider == 0.0 || s.Lmax == 0.0)
      && (L != 0.0 && s.divider != 0.0 && s.Lmax != 0.0 ==> r.Success?)
      && (r.Success? ==> r.value.budget == budget0 || (r.value.budget == 1 && r.value.L == s.Lmax))
      && (r.Success? && 0.0 < L <= s.Lmax && s.divider >= 1.0 ==> L <= r.value.L <= s.Lmax)
    decreases budget0 - j
  {
    if budget0 <= j || L == 0.0 {
    } else if j < b - 1 {
      if !Passes(num, p, s, pt, L) {
        var next := Backtrack(L, s.divider, s.Lmax, b);
        assert 0.0 < L <= s.Lmax && s.divider >= 1.0 ==> 0.0 < L <= next.0 <= s.Lmax;
        SearchOutcome(num, p, s, pt, budget0, j + 1, next.0, next.1);
      }
    } else {
      SearchOutcome(num, p, s, pt, budget0, j + 1, L, b);
    }
  }

  /**
    What a line search returns: with a budget below two nothing is tested;
    an accepted candidate passed the test at the returned L, with the budget
    kept, and its loss is returned; otherwise the loss at the start is.
  */
  lemma {:induction false} SearchResult(num: Numerics, p: Problem, s: Settings, pt: Point, budget0: nat, j: nat,
                                        L: real, b: nat)
    requires Shaped(pt) && b <= budget0
    requires b == budget0 || (b == 1 && L == s.Lmax)
    ensures var r := Search(num, p, s, pt, budget0, j, L, b);
      && (r.Success? && budget0 <= 1 ==> !r.value.accepted && r.value.L == L && r.value.budget == b)
      && (r.Success? && r.value.accepted ==>
            && r.value.budget == budget0 && r.value.L != 0.0
            && Passes(num, p, s, pt, r.value.L) && r.value.loss == CandidateLoss(num, p, s, pt, r.value.L))
      && (r.Success? && !r.value.accepted ==> r.value.loss == pt.loss)
    decreases budget0 - j
  {
    if budget0 <= j || L == 0.0 {
    } else if j < b - 1 {
      if !Passes(num, p, s, pt, L) {
        var next := Backtrack(L, s.divider, s.Lmax, b);
        SearchResult(num, p, s, pt, budget0, j + 1, next.0, next.1);
      }
    } else {
      SearchResult(num, p, s, pt, budget0, j + 1, L, b);
    }
  }

  /** One trial of the search, unfolded. */
  lemma SearchStep(num: Numerics, p: Problem, s: Settings, pt: Point, budget0: nat, j: nat, L: real, b: nat)
    requires Shaped(pt) && b <= budget0 && j < budget0 && L != 0.0
    ensures Search(num, p, s, pt, budget0, j, L, b)
            == if j < b - 1 then
                 if Passes(num, p, s, pt, L) then Success(Outcome(L, b, true, CandidateLoss(num, p, s, pt, L)))
                 else Search(num, p, s, pt, budget0, j + 1, Backtrack(L, s.divider, s.Lmax, b).0,
                             Backtrack(L, s.divider, s.Lmax, b).1)
               else Search(num, p, s, pt, budget0, j + 1, L, b)
  {
  }

  /**
    A budget of at least two and a first candidate that passes the test: the
    step is accepted at the given L, with the budget kept and the candidate's
    loss returned.
  */
  lemma FirstTrialAccepted(num: Numerics, p: Problem, s: Settings, coef: seq<real>, intercept: seq<real>,
                           L: real, budget: nat)
    requires budget >= 2 && L != 0.0
    requires Passes(num, p, s, PointAt(num, p, s.beta, coef, intercept), L)
    ensures LineSearch(num, p, s, coef, intercept, L, budget)
            == Success(Outcome(L, budget, true, CandidateLoss(num, p, s, PointAt(num, p, s.beta, coef, intercept), L)))
  {
    SearchStep(num, p, s, PointAt(num, p, s.beta, coef, intercept), budget, 0, L, budget);
  }

  /**
    k rejected trials in a row from trial j: the search goes on from trial
    j + k at the k-fold backtracked step size and budget.
  */
  lemma {:induction false} Rejected(num: Numerics, p: Problem, s: Settings, pt: Point, budget0: nat, j: nat,
                                    L: real, b: nat, k: nat)
    requires Shaped(pt) && b <= budget0
    requires forall i :: 0 <= i < k ==> Rejects(num, p, s, pt, j + i, Backtracks(L, s.divider, s.Lmax, b, i))
    ensures Backtracks(L, s.divider, s.Lmax, b, k).1 <= budget0
    ensures Search(num, p, s, pt, budget0, j, L, b)
            == Search(num, p, s, pt, budget0, j + k, Backtracks(L, s.divider, s.Lmax, b, k).0,
                      Backtracks(L, s.divider, s.Lmax, b, k).1)
    decreases k
  {
    if k > 0 {
      assert Rejects(num, p, s, pt, j + 0, Backtracks(L, s.divider, s.Lmax, b, 0));
      var next := Backtrack(L, s.divider, s.Lmax, b);
      forall i | 0 <= i < k - 1
        ensures Rejects(num, p, s, pt, (j + 1) + i, Backtracks(next.0, s.divider, s.Lmax, next.1, i))
      {
        assert Rejects(num, p, s, pt, j + (i + 1), Backtracks(L, s.divider, s.Lmax, b, i + 1));
      }
      SearchStep(num, p, s, pt, budget0, j, L, b);
      Rejected(num, p, s, pt, budget0, j + 1, next.0, next.1, k - 1);
    }
  }

  /** The iterate of `_ista_loop` between two steps, with the step size and budget it carries. */
  datatype Iterate = Iterate(coef: seq<real>, intercept: seq<real>, oldProx: seq<real>, t: real, L: real, budget: nat)

  predicate Proper(it: Iterate)
  {
    it.t >= 1.0 && |it.oldProx| == |it.coef|
  }

  /** The momentum update t' = (1 + sqrt(1 + 4 t^2)) / 2. */
  function NextT(num: Numerics, t: real): (t': real)
    requires IsSqrt(num.sqrt) && t >= 1.0
    ensures t' == 0.5 * (1.0 + num.sqrt(1.0 + 4.0 * t * t))
    ensures t' >= t + 0.5 && 0.0 <= (t - 1.0) / t' < 1.0
  {
    var x := 1.0 + 4.0 * t * t;
    assert x >= 0.0 by { assert t * t >= 0.0; }
    MomentumGrowth(t, num.sqrt(x));
    0.5 * (1.0 + num.sqrt(x))
  }

  /** One iteration of `_ista_loop`: `_prox_grad`, then the update of coef, intercept and the momentum. */
  function IstaStep(num: Numerics, p: Problem, s: Settings, momentum: bool, it: Iterate): (r: Result<Iterate, StepError>)
    requires IsSqrt(num.sqrt) && Proper(it)
    ensures r.Success? ==> Proper(r.value) && |r.value.coef| == |it.coef| && |r.value.intercept| == |it.intercept|
  {
    match LineSearch(num, p, s, it.coef, it.intercept, it.L, it.budget)
    case Failure(e) => Failure(e)
    case Success(o) =>
      var pt := PointAt(num, p, s.beta, it.coef, it.intercept);
      var prox := CandidateCoef(num, s.alpha, it.coef, pt.coefGrad, o.L);
      var intercept := GradStep(it.intercept, pt.interceptGrad, o.L);
      if momentum then
        var t' := NextT(num, it.t);
        Success(Iterate(Extrapolated(prox, it.oldProx, (it.t - 1.0) / t'), intercept, prox, t', o.L, o.budget))
      else Success(Iterate(prox, intercept, it.oldProx, it.t, o.L, o.budget))
  }

  /** One iteration whose line search ended with `o`, assembled from its parts. */
  lemma IstaStepOf(num: Numerics, p: Problem, s: Settings, momentum: bool, it: Iterate, o: Outcome,
                   prox: seq<real>, coef: seq<real>, intercept: seq<real>, oldProx: seq<real>, t: real)
    requires IsSqrt(num.sqrt) && Proper(it)
    requires LineSearch(num, p, s, it.coef, it.intercept, it.L, it.budget) == Success(o)
    requires prox == CandidateCoef(num, s.alpha, it.coef, PointAt(num, p, s.beta, it.coef, it.intercept).coefGrad, o.L)
    requires intercept == GradStep(it.intercept, PointAt(num, p, s.beta, it.coef, it.intercept).interceptGrad, o.L)
    requires momentum ==> t == NextT(num, it.t) && coef == Extrapolated(prox, it.oldProx, (it.t - 1.0) / t) && oldProx == prox
    requires !momentum ==> t == it.t && coef == prox && oldProx == it.oldProx
    ensures IstaStep(num, p, s, momentum, it) == Success(Iterate(coef, intercept, oldProx, t, o.L, o.budget))
  {
  }

  /** n iterations of `_ista_loop` from `it`; the first failing iteration ends the run with its error. */
  function IstaRun(num: Numerics, p: Problem, s: Settings, momentum: bool, it: Iterate, n: nat)
    : (r: Result<Iterate, StepError>)
    requires IsSqrt(num.sqrt) && Proper(it)
    ensures r.Success? ==> Proper(r.value)
    decreases n
  {
    if n == 0 then Success(it)
    else
      match IstaRun(num, p, s, momentum, it, n - 1)
      case Failure(e) => Failure(e)
      case Success(prev) => IstaStep(num, p, s, momentum, prev)
  }

  /** Once a run has failed, running longer keeps the same error. */
  lemma {:induction false} RunStaysFailed(num: Numerics, p: Problem, s: Settings, momentum: bool, it: Iterate,
                                          k: nat, n: nat, e: StepError)
    requires IsSqrt(num.sqrt) && Proper(it) && k <= n
    requires IstaRun(num, p, s, momentum, it, k) == Failure(e)
    ensures IstaRun(num, p, s, momentum, it, n) == Failure(e)
    decreases n - k
  {
    if k < n {
      RunStaysFailed(num, p, s, momentum, it, k + 1, n, e);
    }
  }

  /** What one iteration can end with: the errors are those of its line search. */
  lemma StepOutcome(num: Numerics, p: Problem, s: Settings, momentum: bool, it: Iterate)
    requires IsSqrt(num.sqrt) && Proper(it)
    ensures var r := IstaStep(num, p, s, momentum, it);
      && (r == Failure(RankUnbound) <==> it.budget == 0)
      && (r == Failure(NonFinite) ==> it.L == 0.0 || s.divider == 0.0 || s.Lmax == 0.0)
      && (r.Success? ==> r.value.L != 0.0)
      && (r.Success? ==> r.value.budget == it.budget || (r.value.budget == 1 && r.value.L == s.Lmax))
  {
    if it.budget > 0 {
      SearchOutcome(num, p, s, PointAt(num, p, s.beta, it.coef, it.intercept), it.budget, 0, it.L, it.budget);
    }
  }

  /**
   * How a run of n iterations can fail: RankUnbound exactly when there is an iteration and the
   * budget is 0, NonFinite only from a zero L, divider or Lmax; the budget is kept or collapsed to 1.
   */
  lemma {:induction false} RunOutcome(num: Numerics, p: Problem, s: Settings, momentum: bool, it: Iterate, n: nat)
    requires IsSqrt(num.sqrt) && Proper(it)
    ensures var r := IstaRun(num, p, s, momentum, it, n);
      && (r == Failure(RankUnbound) <==> n > 0 && it.budget == 0)
      && (r == Failure(NonFinite) ==> it.L == 0.0 || s.divider == 0.0 || s.Lmax == 0.0)
      && (r.Success? && it.L != 0.0 ==> r.value.L != 0.0)
      && (r.Success? ==> r.value.budget == it.budget || (r.value.budget == 1 && r.value.L == s.Lmax))
    decreases n
  {
    if n > 0 {
      RunOutcome(num, p, s, momentum, it, n - 1);
      match IstaRun(num, p, s, momentum, it, n - 1)
      case Failure(e) =>
      case Success(prev) => StepOutcome(num, p, s, momentum, prev);
    }
  }

  /** What `fit` hands `_ista_loop`: coef all ones, intercept all zeros; the loop zeroes `old_prox_coef` and sets t = 1. */
  function Start(nFeatures: nat, total: nat, L0: real, budget: nat): (it: Iterate)
    ensures Proper(it)
  {
    Iterate(seq(nFeatures * total, _ => 1.0), seq(total, _ => 0.0), seq(nFeatures * total, _ => 0.0), 1.0, L0, budget)
  }

  /** The preallocated buffers of one `fit` call, exclusively owned by the solver. */
  class Workspace {
    const problem: Problem
    const nCols: nat
    const coef: array<real>
    const intercept: array<real>
    const proxCoef: array<real>
    const proxIntercept: array<real>
    const coefGrad: array<real>
    const interceptGrad: array<real>
    const coefDiff: array<real>
    const interceptDiff: array<real>
    const oldProxCoef: array<real>

    ghost predicate Distinct()
    {
      && coef !in {intercept, proxCoef, proxIntercept, coefGrad, interceptGrad, coefDiff, interceptDiff, oldProxCoef}
      && intercept !in {proxCoef, proxIntercept, coefGrad, interceptGrad, coefDiff, interceptDiff, oldProxCoef}
      && proxCoef !in {proxIntercept, coefGrad, interceptGrad, coefDiff, interceptDiff, oldProxCoef}
      && proxIntercept !in {coefGrad, interceptGrad, coefDiff, interceptDiff, oldProxCoef}
      && coefGrad !in {interceptGrad, coefDiff, interceptDiff, oldProxCoef}
      && interceptGrad !in {coefDiff, interceptDiff, oldProxCoef}
      && coefDiff !in {interceptDiff, oldProxCoef}
      && interceptDiff != oldProxCoef
    }

    /** Coefficient-shaped buffers share one length, intercept-shaped ones have `nCols` entries. */
    ghost predicate Valid()
    {
      && proxCoef.Length == coef.Length && coefGrad.Length == coef.Length
      && coefDiff.Length == coef.Length && oldProxCoef.Length == coef.Length
      && intercept.Length == nCols && proxIntercept.Length == nCols
      && interceptGrad.Length == nCols && interceptDiff.Length == nCols
      && Distinct()
    }

    /**
      The allocation in `fit`: coef all ones, intercept all zeros; the other
      buffers (`np.empty_like`) hold zeros here.
    */
    constructor (problem: Problem, nFeatures: nat, nCols: nat)
      ensures Valid() && this.problem == problem && this.nCols == nCols
      ensures coef.Length == nFeatures * nCols
      ensures forall k :: 0 <= k < coef.Length ==> coef[k] == 1.0
      ensures forall k :: 0 <= k < nCols ==> intercept[k] == 0.0
      ensures fresh(coef) && fresh(intercept) && fresh(proxCoef) && fresh(proxIntercept) && fresh(coefGrad)
      ensures fresh(interceptGrad) && fresh(coefDiff) && fresh(interceptDiff) && fresh(oldProxCoef)
    {
      this.problem := problem;
      this.nCols := nCols;
      var n := nFeatures * nCols;
      coef := new real[n](_ => 1.0);
      intercept := new real[nCols](_ => 0.0);
      proxCoef := new real[n];
      proxIntercept := new real[nCols];
      coefGrad := new real[n];
      interceptGrad := new real[nCols];
      coefDiff := new real[n];
      interceptDiff := new real[nCols];
      oldProxCoef := new real[n];
    }

    /** The candidate of step size L sits in the prox buffers, and `rank` is its rank. */
    ghost predicate CandidateAt(num: Numerics, alpha: real, L: real, rank: nat)
      requires Valid()
      reads coef, intercept, coefGrad, interceptGrad, proxCoef, proxIntercept
    {
      && L != 0.0
      && proxIntercept[..] == GradStep(intercept[..], interceptGrad[..], L)
      && proxCoef[..] == CandidateCoef(num, alpha, coef[..], coefGrad[..], L)
      && rank == (if alpha > 0.0 then ProximalOperator(num.singularValues(GradStep(coef[..], coefGrad[..], L)), alpha / L).1
                  else nCols)
    }

    /** `_loss` (and the loss at the start of `_prox_grad`): accumulated dataset by dataset. */
    method SmoothLoss(num: Numerics, beta: real, c: seq<real>, i: seq<real>) returns (loss: real)
      ensures loss == SmoothLossOf(num, problem, beta, c, i)
    {
      var penalty := 0.5 * beta * SqNorm(c);
      var data := 0.0;
      var n := |problem.slices|;
      for k := 0 to Zipped(problem)
        invariant data == WeightedLosses(num, problem, c, i, k)
      {
        data := data + num.crossEntropy(problem, c, i, k) / (n as real) * problem.weights[k];
      }
      loss := penalty + data;
    }

    /** Lines 49-58 of `_prox_grad`: the gradients written into their buffers. */
    method ComputeGradient(num: Numerics, beta: real)
      requires Valid()
      modifies coefGrad, interceptGrad
      ensures coefGrad[..] == CoefGradient(num, problem, beta, coef[..], intercept[..])
      ensures interceptGrad[..] == InterceptGradient(num, problem, coef[..], intercept[..])
    {
      var c, b := coef[..], intercept[..];
      for k := 0 to coefGrad.Length
        modifies coefGrad
        invariant forall j :: 0 <= j < k ==> coefGrad[j] == num.coefGradient(problem, c, b, j)
      {
        coefGrad[k] := num.coefGradient(problem, c, b, k);
      }
      for k := 0 to interceptGrad.Length
        modifies interceptGrad
        invariant forall j :: 0 <= j < k ==> interceptGrad[j] == num.interceptGradient(problem, c, b, j)
      {
        interceptGrad[k] := num.interceptGradient(problem, c, b, k);
      }
      if beta > 0.0 {
        for k := 0 to coefGrad.Length
          modifies coefGrad
          invariant forall j :: 0 <= j < k ==> coefGrad[j] == num.coefGradient(problem, c, b, j) + beta * c[j]
          invariant forall j :: k <= j < coefGrad.Length ==> coefGrad[j] == num.coefGradient(problem, c, b, j)
        {
          coefGrad[k] := coefGrad[k] + beta * coef[k];
        }
      }
      assert forall j :: 0 <= j < coefGrad.Length ==>
        coefGrad[j] == CoefGradient(num, problem, beta, c, b)[j];
    }

    /** `prox_coef[:] = coef - coef_grad / L; prox_intercept[:] = intercept - intercept_grad / L`. */
    method GradientStep(L: real)
      requires Valid() && L != 0.0
      modifies proxCoef, proxIntercept
      ensures proxCoef[..] == GradStep(coef[..], coefGrad[..], L)
      ensures proxIntercept[..] == GradStep(intercept[..], interceptGrad[..], L)
    {
      for k := 0 to proxCoef.Length
        modifies proxCoef
        invariant forall j :: 0 <= j < k ==> proxCoef[j] == coef[j] - coefGrad[j] / L
      {
        proxCoef[k] := coef[k] - coefGrad[k] / L;
      }
      for k := 0 to proxIntercept.Length
        modifies proxIntercept
        invariant forall j :: 0 <= j < k ==> proxIntercept[j] == intercept[j] - interceptGrad[j] / L
      {
        proxIntercept[k] := intercept[k] - interceptGrad[k] / L;
      }
    }

    /** `prox_coef[:], rank = proximal_operator(prox_coef, threshold)`. */
    method Shrink(num: Numerics, threshold: real) returns (rank: nat)
      requires Valid()
      modifies proxCoef
      ensures proxCoef[..] == Shrunk(num, old(proxCoef[..]), threshold)
      ensures rank == ProximalOperator(num.singularValues(old(proxCoef[..])), threshold).1
    {
      var m := proxCoef[..];
      var (_, r) := ProximalOperator(num.singularValues(m), threshold);
      rank := r;
      for k := 0 to proxCoef.Length
        invariant forall j :: 0 <= j < k ==> proxCoef[j] == num.shrunkEntry(m, threshold, j)
      {
        proxCoef[k] := num.shrunkEntry(m, threshold, k);
      }
    }

    /** One backtracking trial: the candidate of step size L and its rank. */
    method Trial(num: Numerics, alpha: real, L: real) returns (rank: nat)
      requires Valid() && L != 0.0
      modifies proxCoef, proxIntercept
      ensures CandidateAt(num, alpha, L, rank)
    {
      GradientStep(L);
      if alpha > 0.0 {
        rank := Shrink(num, alpha / L);
      } else {
        rank := nCols;
      }
    }

    /** The accepted-candidate condition of the backtracking loop. */
    ghost predicate AcceptedAt(num: Numerics, beta: real, loss0: real, loss: real, L: real)
      requires Valid()
      reads coef, intercept, coefGrad, interceptGrad, proxCoef, proxIntercept
    {
      && loss == SmoothLossOf(num, problem, beta, proxCoef[..], proxIntercept[..])
      && loss <= Majorizer(loss0, L, coef[..], intercept[..], proxCoef[..], proxIntercept[..],
                           coefGrad[..], interceptGrad[..])
    }

    /** The sufficient-decrease test: the new loss against the majorizer at L. */
    method Test(num: Numerics, beta: real, loss: real, L: real) returns (ok: bool, newLoss: real)
      requires Valid()
      modifies coefDiff, interceptDiff
      ensures newLoss == SmoothLossOf(num, problem, beta, proxCoef[..], proxIntercept[..])
      ensures ok <==> newLoss <= Majorizer(loss, L, coef[..], intercept[..], proxCoef[..], proxIntercept[..],
                                           coefGrad[..], interceptGrad[..])
      ensures ok ==> AcceptedAt(num, beta, loss, newLoss, L)
    {
      newLoss := SmoothLoss(num, beta, proxCoef[..], proxIntercept[..]);
      var quad := QuadApprox(loss, L);
      ok := newLoss <= quad;
    }

    /**
      `_prox_grad`: computes the loss and gradient at (coef, intercept), then
      backtracks on L. Each trial writes the (soft-thresholded) gradient step
      of size 1/L into the prox buffers; all but the last trial compare the
      new loss with the majorizer and either accept or multiply L by the
      divider, clamping it to Lmax, which collapses the budget to one trial.
      The trial count stays bounded by the budget the call started with.
    */
    method ProxGrad(num: Numerics, L: real, Lmax: real, alpha: real, beta: real, budget: nat, divider: real)
      returns (r: Result<Step, StepError>, ghost accepted: bool)
      requires Valid()
      modifies proxCoef, proxIntercept, coefGrad, interceptGrad, coefDiff, interceptDiff
      ensures coefGrad[..] == CoefGradient(num, problem, beta, coef[..], intercept[..])
      ensures interceptGrad[..] == InterceptGradient(num, problem, coef[..], intercept[..])
      ensures r == Failure(RankUnbound) <==> budget == 0
      ensures r == Failure(NonFinite) ==> L == 0.0 || divider == 0.0 || Lmax == 0.0
      ensures budget > 0 && L != 0.0 && divider != 0.0 && Lmax != 0.0 ==> r.Success?
      ensures r.Success? ==> CandidateAt(num, alpha, r.value.L, r.value.rank)
      ensures r.Success? ==> r.value.budget == budget || (r.value.budget == 1 && r.value.L == Lmax)
      ensures r.Success? && L != 0.0 && divider != 0.0 && Lmax != 0.0 ==> r.value.L != 0.0
      ensures r.Success? && 0.0 < L <= Lmax && divider >= 1.0 ==> L <= r.value.L <= Lmax
      ensures r.Success? && budget <= 1 ==> !accepted && r.value.L == L && r.value.budget == budget
      ensures r.Success? && accepted ==>
        && r.value.budget == budget
        && AcceptedAt(num, beta, SmoothLossOf(num, problem, beta, coef[..], intercept[..]), r.value.loss, r.value.L)
      ensures r.Success? && !accepted ==> r.value.loss == SmoothLossOf(num, problem, beta, coef[..], intercept[..])
      ensures LineSearch(num, problem, Settings(alpha, beta, Lmax, divider), coef[..], intercept[..], L, budget)
              == if r.Success? then Success(Outcome(r.value.L, r.value.budget, accepted, r.value.loss))
                 else Failure(r.error)
    {
      var loss := SmoothLoss(num, beta, coef[..], intercept[..]);
      ComputeGradient(num, beta);
      var s := Settings(alpha, beta, Lmax, divider);
      ghost var pt := PointAt(num, problem, beta, coef[..], intercept[..]);
      SearchOutcome(num, problem, s, pt, budget, 0, L, budget);
      SearchResult(num, problem, s, pt, budget, 0, L, budget);
      r, accepted := Backtracking(num, s, pt, loss, L, budget);
    }

    /**
      The trial loop of `_prox_grad`, once the loss and gradient at the
      current iterate are in place: it walks the line search step by step.
    */
    method Backtracking(num: Numerics, s: Settings, ghost pt: Point, loss0: real, L: real, budget: nat)
      returns (r: Result<Step, StepError>, ghost accepted: bool)
      requires Valid()
      requires pt == PointAt(num, problem, s.beta, coef[..], intercept[..]) && loss0 == pt.loss
      requires coefGrad[..] == pt.coefGrad && interceptGrad[..] == pt.interceptGrad
      modifies proxCoef, proxIntercept, coefDiff, interceptDiff
      ensures r.Success? ==> CandidateAt(num, s.alpha, r.value.L, r.value.rank)
      ensures LineSearch(num, problem, s, coef[..], intercept[..], L, budget)
              == if r.Success? then Success(Outcome(r.value.L, r.value.budget, accepted, r.value.loss))
                 else Failure(r.error)
    {
      var loss := loss0;
      var curL: real, curBudget: nat, rank: nat := L, budget, 0;
      var j := 0;
      var done := false;
      while j < budget && !done
        invariant j <= budget && curBudget <= budget
        invariant !done ==> Search(num, problem, s, pt, budget, 0, L, budget) == Search(num, problem, s, pt, budget, j, curL, curBudget)
        invariant done ==> Search(num, problem, s, pt, budget, 0, L, budget) == Success(Outcome(curL, curBudget, true, loss))
        invariant 0 < j ==> CandidateAt(num, s.alpha, curL, rank) || (j < budget && !done)
        invariant !done ==> loss == loss0
        invariant j == 0 ==> !done
      {
        if curL == 0.0 {
          return Failure(NonFinite), false;
        }
        rank := Trial(num, s.alpha, curL);
        SearchStep(num, problem, s, pt, budget, j, curL, curBudget);
        if j < curBudget - 1 {
          ghost var candidate := proxCoef[..];
          assert candidate == CandidateCoef(num, s.alpha, pt.coef, pt.coefGrad, curL);
          assert proxIntercept[..] == GradStep(pt.intercept, pt.interceptGrad, curL);
          var ok, newLoss := Test(num, s.beta, loss, curL);
          assert proxCoef[..] == candidate;
          assert newLoss == CandidateLoss(num, problem, s, pt, curL);
          assert ok <==> Passes(num, problem, s, pt, curL);
          if ok {
            loss := newLoss;
            done := true;
          } else {
            var next := Backtrack(curL, s.divider, s.Lmax, curBudget);
            curL, curBudget := next.0, next.1;
          }
        }
        j := j + 1;
      }
      if j == 0 {
        return Failure(RankUnbound), false;
      }
      accepted := done;
      r := Success(Step(loss, rank, curL, curBudget));
    }

    /**
      The update at the end of each `_ista_loop` iteration. With momentum, t
      follows t' = (1 + sqrt(1 + 4 t^2)) / 2 and coef is extrapolated from the
      new and previous candidates with weight (t - 1) / t'; without, coef is
      the candidate. The intercept is never extrapolated.
    */
    method UpdateIterate(num: Numerics, momentum: bool, t: real) returns (t': real)
      requires Valid() && IsSqrt(num.sqrt) && t >= 1.0
      modifies coef, intercept, oldProxCoef
      ensures intercept[..] == proxIntercept[..]
      ensures !momentum ==> t' == t && coef[..] == proxCoef[..] && oldProxCoef[..] == old(oldProxCoef[..])
      ensures momentum ==>
        && t' == NextT(num, t)
        && t' >= t + 0.5
        && 0.0 <= (t - 1.0) / t' < 1.0
        && coef[..] == Extrapolated(proxCoef[..], old(oldProxCoef[..]), (t - 1.0) / t')
        && oldProxCoef[..] == proxCoef[..]
      ensures momentum && t == 1.0 ==> coef[..] == proxCoef[..]
    {
      if momentum {
        t' := NextT(num, t);
        ExtrapolateInto(proxCoef, oldProxCoef, (t - 1.0) / t', coef);
        if t == 1.0 {
          ExtrapolationByZero(proxCoef[..], old(oldProxCoef[..]));
        }
        CopyInto(proxCoef, oldProxCoef);
      } else {
        t' := t;
        CopyInto(proxCoef, coef);
      }
      CopyInto(proxIntercept, intercept);
    }

    /**
      One iteration of `_ista_loop`: `_prox_grad` at the current step size
      and budget, then the update of the iterate.
    */
    method Advance(num: Numerics, s: Settings, momentum: bool, L: real, budget: nat, t: real)
      returns (r: Result<Step, StepError>, t': real)
      requires Valid() && IsSqrt(num.sqrt) && t >= 1.0
      modifies coef, intercept, proxCoef, proxIntercept, coefGrad, interceptGrad, coefDiff, interceptDiff, oldProxCoef
      ensures IstaStep(num, problem, s, momentum, Iterate(old(coef[..]), old(intercept[..]), old(oldProxCoef[..]), t, L, budget))
              == if r.Success? then Success(Iterate(coef[..], intercept[..], oldProxCoef[..], t', r.value.L, r.value.budget))
                 else Failure(r.error)
      ensures r == Failure(RankUnbound) <==> budget == 0
      ensures r == Failure(NonFinite) ==> L == 0.0 || s.divider == 0.0 || s.Lmax == 0.0
      ensures r.Success? ==> r.value.budget == budget || (r.value.budget == 1 && r.value.L == s.Lmax)
      ensures r.Success? && L != 0.0 && s.divider != 0.0 && s.Lmax != 0.0 ==> r.value.L != 0.0
      ensures r.Success? && 0.0 < L <= s.Lmax && s.divider >= 1.0 ==> L <= r.value.L <= s.Lmax
      ensures r.Success? ==> intercept[..] == proxIntercept[..]
      ensures r.Success? && !momentum ==> t' == t && coef[..] == proxCoef[..]
      ensures r.Success? && momentum ==> t' >= t + 0.5 && oldProxCoef[..] == proxCoef[..]
    {
      ghost var cur := Iterate(coef[..], intercept[..], oldProxCoef[..], t, L, budget);
      ghost var pt := PointAt(num, problem, s.beta, cur.coef, cur.intercept);
      ghost var accepted;
      r, accepted := ProxGrad(num, L, s.Lmax, s.alpha, s.beta, budget, s.divider);
      if r.Failure? {
        return r, t;
      }
      ghost var prox, proxI := proxCoef[..], proxIntercept[..];
      assert prox == CandidateCoef(num, s.alpha, cur.coef, pt.coefGrad, r.value.L);
      assert proxI == GradStep(cur.intercept, pt.interceptGrad, r.value.L);
      assert oldProxCoef[..] == cur.oldProx;
      t' := UpdateIterate(num, momentum, t);
      assert LineSearch(num, problem, s, cur.coef, cur.intercept, cur.L, cur.budget)
             == Success(Outcome(r.value.L, r.value.budget, accepted, r.value.loss));
      assert proxCoef[..] == prox && proxIntercept[..] == proxI;
      ghost var w := (t - 1.0) / t';
      assert momentum ==> coef[..] == Extrapolated(proxCoef[..], cur.oldProx, w);
      assert intercept[..] == proxI;
      if momentum {
        assert t' == NextT(num, t);
        assert oldProxCoef[..] == prox;
      } else {
        assert coef[..] == prox && oldProxCoef[..] == cur.oldProx && t' == t;
      }
      IstaStepOf(num, problem, s, momentum, cur, Outcome(r.value.L, r.value.budget, accepted, r.value.loss), prox,
                 coef[..], intercept[..], oldProxCoef[..], t');
    }

    /**
      `_ista_loop`: `maxIter` proximal-gradient steps, each followed by the
      update of the iterate. L and the backtracking budget carry over from one
      step to the next; a failing step ends the loop.
    */
    method IstaLoop(num: Numerics, L0: real, Lmax: real, maxIter: nat, budget0: nat,
                    alpha: real, beta: real, divider: real, momentum: bool)
      returns (err: Option<StepError>, ghost L: real, ghost budget: nat, ghost t: real)
      requires Valid() && IsSqrt(num.sqrt)
      modifies coef, intercept, proxCoef, proxIntercept, coefGrad, interceptGrad, coefDiff, interceptDiff, oldProxCoef
      ensures err.None? && momentum ==> t >= 1.0 + 0.5 * (maxIter as real)
      ensures !momentum ==> t == 1.0
      ensures budget == budget0 || (budget == 1 && L == Lmax)
      ensures 0.0 < L0 <= Lmax && divider >= 1.0 ==> L0 <= L <= Lmax
      ensures err == Some(RankUnbound) <==> maxIter > 0 && budget0 == 0
      ensures err == Some(NonFinite) ==> L0 == 0.0 || divider == 0.0 || Lmax == 0.0
      ensures maxIter == 0 ==> err.None? && coef[..] == old(coef[..]) && intercept[..] == old(intercept[..])
      ensures err.None? && maxIter > 0 ==> intercept[..] == proxIntercept[..]
      ensures err.None? && maxIter > 0 && !momentum ==> coef[..] == proxCoef[..]
      ensures err.None? && maxIter > 0 && momentum ==> oldProxCoef[..] == proxCoef[..]
      ensures var run := IstaRun(num, problem, Settings(alpha, beta, Lmax, divider), momentum,
                                 Iterate(old(coef[..]), old(intercept[..]), seq(coef.Length, _ => 0.0), 1.0, L0, budget0),
                                 maxIter);
        && (run.Failure? ==> err == Some(run.error))
        && (run.Success? ==> err.None? && run.value == Iterate(coef[..], intercept[..], oldProxCoef[..], t, L, budget))
    {
      Fill(oldProxCoef, 0.0);
      var s := Settings(alpha, beta, Lmax, divider);
      ghost var start := Iterate(coef[..], intercept[..], oldProxCoef[..], 1.0, L0, budget0);
      assert oldProxCoef[..] == seq(coef.Length, _ => 0.0);
      RunOutcome(num, problem, s, momentum, start, maxIter);
      err, L, budget, t := Iterations(num, s, momentum, maxIter, L0, budget0);
    }

    /** The iterations of `_ista_loop`, from the buffers as they stand and t = 1. */
    method Iterations(num: Numerics, s: Settings, momentum: bool, maxIter: nat, L0: real, budget0: nat)
      returns (err: Option<StepError>, ghost L: real, ghost budget: nat, ghost t: real)
      requires Valid() && IsSqrt(num.sqrt)
      modifies coef, intercept, proxCoef, proxIntercept, coefGrad, interceptGrad, coefDiff, interceptDiff, oldProxCoef
      ensures err.None? && momentum ==> t >= 1.0 + 0.5 * (maxIter as real)
      ensures !momentum ==> t == 1.0
      ensures budget == budget0 || (budget == 1 && L == s.Lmax)
      ensures 0.0 < L0 <= s.Lmax && s.divider >= 1.0 ==> L0 <= L <= s.Lmax
      ensures err.None? && maxIter > 0 ==> intercept[..] == proxIntercept[..]
      ensures err.None? && maxIter > 0 && !momentum ==> coef[..] == proxCoef[..]
      ensures err.None? && maxIter > 0 && momentum ==> oldProxCoef[..] == proxCoef[..]
      ensures var run := IstaRun(num, problem, s, momentum,
                                 Iterate(old(coef[..]), old(intercept[..]), old(oldProxCoef[..]), 1.0, L0, budget0),
                                 maxIter);
        && (run.Failure? ==> err == Some(run.error))
        && (run.Success? ==> err.None? && run.value == Iterate(coef[..], intercept[..], oldProxCoef[..], t, L, budget))
    {
      var curL, curBudget, curT := L0, budget0, 1.0;
      ghost var start := Iterate(coef[..], intercept[..], oldProxCoef[..], 1.0, L0, budget0);
      for iter := 0 to maxIter
        invariant curT >= 1.0
        invariant IstaRun(num, problem, s, momentum, start, iter)
                  == Success(Iterate(coef[..], intercept[..], oldProxCoef[..], curT, curL, curBudget))
        invariant momentum ==> curT >= 1.0 + 0.5 * (iter as real)
        invariant !momentum ==> curT == 1.0
        invariant curBudget == budget0 || (curBudget == 1 && curL == s.Lmax)
        invariant 0.0 < L0 <= s.Lmax && s.divider >= 1.0 ==> L0 <= curL <= s.Lmax
        invariant iter > 0 ==> intercept[..] == proxIntercept[..]
        invariant iter > 0 && !momentum ==> coef[..] == proxCoef[..]
        invariant iter > 0 && momentum ==> oldProxCoef[..] == proxCoef[..]
      {
        var r, next := Advance(num, s, momentum, curL, curBudget, curT);
        if r.Failure? {
          RunStaysFailed(num, problem, s, momentum, start, iter + 1, maxIter, r.error);
          L, budget, t := curL, curBudget, curT;
          return Some(r.error), L, budget, t;
        }
        curL, curBudget, curT := r.value.L, r.value.budget, next;
      }
      L, budget, t := curL, curBudget, curT;
      err := None;
    }

    /** `_quad_approx`: fills the difference buffers and returns the majorizer. */
    method QuadApprox(loss: real, L: real) returns (approx: real)
      requires Valid()
      modifies coefDiff, interceptDiff
      ensures coefDiff[..] == Diff(proxCoef[..], coef[..])
      ensures interceptDiff[..] == Diff(proxIntercept[..], intercept[..])
      ensures approx == Majorizer(loss, L, coef[..], intercept[..], proxCoef[..], proxIntercept[..],
                                  coefGrad[..], interceptGrad[..])
    {
      var lin, sq := DifferenceInto(coef, proxCoef, coefGrad, coefDiff);
      var ilin, isq := DifferenceInto(intercept, proxIntercept, interceptGrad, interceptDiff);
      approx := loss + lin + ilin + 0.5 * L * (sq + isq);
    }
  }

  /**
    One half of `_quad_approx`: `diff[:] = prox - x`, returning
    `sum(diff * grad)` and `sum(diff ** 2)`.
  */
  method DifferenceInto(x: array<real>, prox: array<real>, grad: array<real>, diff: array<real>)
    returns (lin: real, sq: real)
    requires prox.Length == x.Length && grad.Length == x.Length && diff.Length == x.Length
    requires diff != x && diff != prox && diff != grad
    modifies diff
    ensures diff[..] == Diff(prox[..], x[..])
    ensures lin == Dot(diff[..], grad[..]) && sq == SqNorm(diff[..])
  {
    lin, sq := 0.0, 0.0;
    for k := 0 to diff.Length
      invariant forall j :: 0 <= j < k ==> diff[j] == prox[j] - x[j]
      invariant lin == Dot(diff[..k], grad[..k]) && sq == Dot(diff[..k], diff[..k])
    {
      diff[k] := prox[k] - x[k];
      DotStep(diff[..], grad[..], k);
      DotStep(diff[..], diff[..], k);
      lin := lin + diff[k] * grad[k];
      sq := sq + diff[k] * diff[k];
    }
    assert diff[..diff.Length] == diff[..] && grad[..diff.Length] == grad[..];
  }

  /**
    A rejected trial multiplies L by the divider; past Lmax, L is clamped to
    Lmax and the budget collapses to a single (untested) trial.
  */
  function Backtrack(L: real, divider: real, Lmax: real, budget: nat): (r: (real, nat))
    ensures r.0 <= Lmax
    ensures (r.0 == Lmax && r.1 == 1) || (r.0 == L * divider && r.1 == budget)
    ensures L * divider > Lmax ==> r == (Lmax, 1)
    ensures L * divider <= Lmax ==> r == (L * divider, budget)
    ensures L != 0.0 && divider != 0.0 && Lmax != 0.0 ==> r.0 != 0.0
    ensures 0.0 < L && divider >= 1.0 ==> L <= r.0 || r.0 == Lmax
  {
    Backtracked(L, divider);
    if L * divider > Lmax then (Lmax, 1) else (L * divider, budget)
  }

  /** Multiplying a step size by the divider keeps it nonzero, and never shrinks it when the divider is at least 1. */
  lemma Backtracked(L: real, divider: real)
    ensures L != 0.0 && divider != 0.0 ==> L * divider != 0.0
    ensures L > 0.0 && divider >= 1.0 ==> L * divider >= L
  {
    if L > 0.0 && divider >= 1.0 {
      assert L * divider - L == L * (divider - 1.0);
    }
  }

  /** `dst[:] = value`. */
  method Fill(dst: array<real>, value: real)
    modifies dst
    ensures forall k :: 0 <= k < dst.Length ==> dst[k] == value
  {
    for k := 0 to dst.Length
      invariant forall j :: 0 <= j < k ==> dst[j] == value
    {
      dst[k] := value;
    }
  }

  /** `dst[:] = src`. */
  method CopyInto(src: array<real>, dst: array<real>)
    requires src.Length == dst.Length && src != dst
    modifies dst
    ensures dst[..] == src[..]
  {
    for k := 0 to dst.Length
      invariant forall j :: 0 <= j < k ==> dst[j] == src[j]
    {
      dst[k] := src[k];
    }
  }

  /** `dst[:] = prox * (1 + w); dst -= w * previous`. */
  method ExtrapolateInto(prox: array<real>, previous: array<real>, w: real, dst: array<real>)
    requires prox.Length == dst.Length && previous.Length == dst.Length
    requires dst != prox && dst != previous
    modifies dst
    ensures dst[..] == Extrapolated(prox[..], previous[..], w)
  {
    for k := 0 to dst.Length
      invariant forall j :: 0 <= j < k ==> dst[j] == prox[j] * (1.0 + w)
    {
      dst[k] := prox[k] * (1.0 + w);
    }
    for k := 0 to dst.Length
      invariant forall j :: 0 <= j < k ==> dst[j] == prox[j] * (1.0 + w) - w * previous[j]
      invariant forall j :: k <= j < dst.Length ==> dst[j] == prox[j] * (1.0 + w)
    {
      dst[k] := dst[k] - w * previous[k];
    }
    assert forall j :: 0 <= j < dst.Length ==> dst[..][j] == Extrapolated(prox[..], previous[..], w)[j];
  }
}
