/** The residual cost every fitting script minimises: the model's infected
    column is interpolated at the data days, and the (weighted) sum of
    squared differences to the observed active counts is returned.  A failed
    simulation or interpolation either propagates or is turned into a fixed
    penalty by the caller. */
module LeastSquares {
  import opened Common
  import opened Extrema
  import Sir

  /** `sum((model - data) ** 2)`. */
  function Sse(model: seq<real>, data: seq<real>): (r: real)
    requires |model| == |data|
    ensures r >= 0.0
    ensures |model| > 0 ==> r >= Square(model[0] - data[0])
  {
    if |model| == 0 then 0.0
    else Square(model[0] - data[0]) + Sse(model[1..], data[1..])
  }

  function Square(x: real): (r: real)
    ensures r >= 0.0
  {
    x * x
  }

  /** `sum(weights * (model - data) ** 2)`. */
  function WeightedSse(weights: seq<real>, model: seq<real>, data: seq<real>): real
    requires |weights| == |model| == |data|
  {
    if |model| == 0 then 0.0
    else
      weights[0] * Square(model[0] - data[0]) + WeightedSse(weights[1..], model[1..], data[1..])
  }

  predicate NonNegative(s: seq<real>)
  {
    forall k :: 0 <= k < |s| ==> s[k] >= 0.0
  }

  /** With non-negative weights the weighted cost is non-negative. */
  lemma {:induction false} WeightedSseNonNegative(weights: seq<real>, model: seq<real>, data: seq<real>)
    requires |weights| == |model| == |data|
    ensures NonNegative(weights) ==> WeightedSse(weights, model, data) >= 0.0
    decreases |model|
  {
    if |model| > 0 && NonNegative(weights) {
      assert weights[0] * Square(model[0] - data[0]) >= 0.0;
      assert NonNegative(weights[1..]);
      WeightedSseNonNegative(weights[1..], model[1..], data[1..]);
    }
  }

  /** The cost is zero when the model matches every data point. */
  lemma {:induction false} SseZeroOnMatch(model: seq<real>, data: seq<real>)
    requires |model| == |data|
    requires model == data
    ensures Sse(model, data) == 0.0
    decreases |model|
  {
    if |model| > 0 {
      SseZeroOnMatch(model[1..], data[1..]);
    }
  }

  /** The weighted cost is zero when the model matches every data point,
      whatever the weights. */
  lemma {:induction false} WeightedSseZeroOnMatch(weights: seq<real>, model: seq<real>, data: seq<real>)
    requires |weights| == |model| == |data|
    requires model == data
    ensures WeightedSse(weights, model, data) == 0.0
    decreases |model|
  {
    if |model| > 0 {
      WeightedSseZeroOnMatch(weights[1..], model[1..], data[1..]);
    }
  }

  /** `np.ones_like(data_active, dtype=float)`. */
  function Ones(n: nat): (w: seq<real>)
    ensures |w| == n
    ensures forall k :: 0 <= k < n ==> w[k] == 1.0
  {
    seq(n, k => 1.0)
  }

  /** Unit weights give the plain sum of squared errors. */
  lemma {:induction false} UnitWeights(model: seq<real>, data: seq<real>)
    requires |model| == |data|
    ensures WeightedSse(Ones(|model|), model, data) == Sse(model, data)
    decreases |model|
  {
    if |model| > 0 {
      assert Ones(|model|)[1..] == Ones(|model| - 1);
      UnitWeights(model[1..], data[1..]);
    }
  }

  /** Weights between 1 and c keep the weighted cost between the plain cost
      and c times it. */
  lemma {:induction false} WeightedSseBetween(weights: seq<real>, model: seq<real>, data: seq<real>, c: real)
    requires |weights| == |model| == |data|
    requires forall k :: 0 <= k < |weights| ==> 1.0 <= weights[k] <= c
    ensures Sse(model, data) <= WeightedSse(weights, model, data) <= c * Sse(model, data)
    decreases |model|
  {
    if |model| > 0 {
      var sq := Square(model[0] - data[0]);
      assert sq <= weights[0] * sq <= c * sq by {
        assert (weights[0] - 1.0) * sq >= 0.0;
        assert (c - weights[0]) * sq >= 0.0;
      }
      WeightedSseBetween(weights[1..], model[1..], data[1..], c);
    }
  }

  /** Integer day numbers as the reals handed to the interpolant. */
  function AsReals(xs: seq<int>): (r: seq<real>)
    ensures |r| == |xs|
    ensures forall k :: 0 <= k < |xs| ==> r[k] == xs[k] as real
  {
    seq(|xs|, k requires 0 <= k < |xs| => xs[k] as real)
  }

  /** The value of the linear interpolant through the knots (t, y) at x, as
      `interp1d` or `np.interp` computes it: foreign library code. */
  type Interpolant = (seq<real>, seq<real>, real) -> real

  /** How `interp1d` treats a point outside the knots: `bounds_error=True`
      raises, `fill_value='extrapolate'` extends the end segments. */
  datatype OutOfRange = RaiseOutside | Extrapolate

  /** Some point lies outside [min t, max t]. */
  predicate AnyOutside(t: seq<real>, xs: seq<real>)
    requires |t| > 0
  {
    exists k :: 0 <= k < |xs| && (xs[k] < Min(t) || Max(t) < xs[k])
  }

  /** `interp1d(t, y, kind='linear', ...)(xs)`: ValueError when the knot
      arrays differ in length or have fewer than two entries, or when a point
      is outside the knots and bounds are enforced. */
  function Interp1d(interp: Interpolant, mode: OutOfRange, t: seq<real>, y: seq<real>, xs: seq<real>): (r: Outcome<seq<real>>)
    ensures r.Raised? <==> |t| < 2 || |t| != |y| || (mode == RaiseOutside && AnyOutside(t, xs))
    ensures r.Raised? ==> r.exc == ValueError
    ensures r.Returned? ==> |r.value| == |xs| && forall k :: 0 <= k < |xs| ==> r.value[k] == interp(t, y, xs[k])
  {
    if |t| < 2 || |t| != |y| then Raised(ValueError)
    else if mode == RaiseOutside && AnyOutside(t, xs) then Raised(ValueError)
    else Returned(seq(|xs|, k requires 0 <= k < |xs| => interp(t, y, xs[k])))
  }

  /** `np.sum(weights * (model - data) ** 2)`: arrays of different lengths
      do not broadcast and raise ValueError. */
  function WeightedResidual(weights: seq<real>, model: seq<real>, data: seq<real>): (r: Outcome<real>)
    ensures r.Raised? <==> !(|weights| == |model| == |data|)
    ensures r.Raised? ==> r.exc == ValueError
    ensures r.Returned? && NonNegative(weights) ==> r.value >= 0.0
    ensures |weights| == |model| && model == data ==> r == Returned(0.0)
  {
    if |weights| == |model| == |data| then
      WeightedSseNonNegative(weights, model, data);
      if model == data then WeightedSseZeroOnMatch(weights, model, data); Returned(WeightedSse(weights, model, data))
      else Returned(WeightedSse(weights, model, data))
    else Raised(ValueError)
  }

  /** `np.sum((model - data) ** 2)`: arrays of different lengths do not
      broadcast and raise ValueError. */
  function Residual(model: seq<real>, data: seq<real>): (r: Outcome<real>)
    ensures r.Raised? <==> |model| != |data|
    ensures r.Raised? ==> r.exc == ValueError
    ensures r.Returned? ==> r.value >= 0.0
    ensures model == data ==> r == Returned(0.0)
  {
    if |model| == |data| then
      if model == data then SseZeroOnMatch(model, data); Returned(Sse(model, data))
      else Returned(Sse(model, data))
    else Raised(ValueError)
  }

  /** Unit weights of the data's length leave the residual unchanged,
      including when the lengths do not match. */
  lemma UnitWeightedResidual(model: seq<real>, data: seq<real>)
    ensures WeightedResidual(Ones(|data|), model, data) == Residual(model, data)
  {
    if |model| == |data| {
      UnitWeights(model, data);
    }
  }

  /** The first half of every `try` block: take the run's t and I columns
      and interpolate I at the data days. */
  function ModelAtDays(run: Outcome<Sir.Trajectory>, interp: Interpolant, mode: OutOfRange,
                       days: seq<int>): (r: Outcome<seq<real>>)
    ensures run.Raised? ==> r == Raised(run.exc)
    ensures run.Returned? ==> r == Interp1d(interp, mode, run.value.t, run.value.i, AsReals(days))
    ensures r.Returned? ==> |r.value| == |days|
  {
    match run
    case Raised(e) => Raised(e)
    case Returned(traj) => Interp1d(interp, mode, traj.t, traj.i, AsReals(days))
  }

  /** The weighted cost of a run against the data. */
  function FitCost(run: Outcome<Sir.Trajectory>, interp: Interpolant, mode: OutOfRange,
                   days: seq<int>, active: seq<real>, weights: seq<real>): (r: Outcome<real>)
    ensures run.Raised? ==> r == Raised(run.exc)
    ensures run.Returned? && Interp1d(interp, mode, run.value.t, run.value.i, AsReals(days)).Raised? ==> r == Raised(ValueError)
    ensures r.Returned? && NonNegative(weights) ==> r.value >= 0.0
    ensures r.Returned? ==> |weights| == |days| == |active|
    ensures ModelAtDays(run, interp, mode, days) == Returned(active) && |weights| == |active| ==> r == Returned(0.0)
  {
    match ModelAtDays(run, interp, mode, days)
    case Raised(e) => Raised(e)
    case Returned(model) => WeightedResidual(weights, model, active)
  }

  /** The unweighted cost of a run against the data. */
  function PlainCost(run: Outcome<Sir.Trajectory>, interp: Interpolant, mode: OutOfRange,
                     days: seq<int>, active: seq<real>): (r: Outcome<real>)
    ensures run.Raised? ==> r == Raised(run.exc)
    ensures run.Returned? && Interp1d(interp, mode, run.value.t, run.value.i, AsReals(days)).Raised? ==> r == Raised(ValueError)
    ensures r.Returned? ==> r.value >= 0.0 && |days| == |active|
    ensures ModelAtDays(run, interp, mode, days) == Returned(active) ==> r == Returned(0.0)
  {
    match ModelAtDays(run, interp, mode, days)
    case Raised(e) => Raised(e)
    case Returned(model) => Residual(model, active)
  }

  /** Weighting every point by 1 gives the unweighted cost. */
  lemma UnitWeightedCost(run: Outcome<Sir.Trajectory>, interp: Interpolant, mode: OutOfRange,
                         days: seq<int>, active: seq<real>)
    ensures FitCost(run, interp, mode, days, active, Ones(|active|)) == PlainCost(run, interp, mode, days, active)
  {
    match ModelAtDays(run, interp, mode, days)
    case Raised(e) =>
    case Returned(model) => UnitWeightedResidual(model, active);
  }

  /** The penalty most objectives return for rejected parameters or a
      failed simulation. */
  const Penalty: real := 1e20

  /** `except (ValueError, RuntimeError, FloatingPointError): return 1e20`. */
  function CatchNumerical(r: Outcome<real>): (c: Outcome<real>)
    ensures r.Returned? ==> c == r
    ensures r.Raised? && NumericalError(r.exc) ==> c == Returned(Penalty)
    ensures r.Raised? && !NumericalError(r.exc) ==> c == r
  {
    match r
    case Returned(v) => r
    case Raised(e) => if NumericalError(e) then Returned(Penalty) else r
  }

  /** A bare `except: return 1e20`. */
  function CatchAll(r: Outcome<real>): (c: real)
    ensures r.Returned? ==> c == r.value
    ensures r.Raised? ==> c == Penalty
  {
    match r
    case Returned(v) => v
    case Raised(_) => Penalty
  }

  /** A cost behind the numerical handler is the penalty, a non-negative
      cost, or an exception outside the handled tuple. */
  lemma CaughtCostRange(run: Outcome<Sir.Trajectory>, interp: Interpolant, mode: OutOfRange,
                        days: seq<int>, active: seq<real>, weights: seq<real>)
    requires NonNegative(weights)
    ensures var c := CatchNumerical(FitCost(run, interp, mode, days, active, weights));
      (c.Returned? ==> c.value >= 0.0) &&
      (c.Raised? ==> run.Raised? && c.exc == run.exc && !NumericalError(run.exc))
  {
  }
}
