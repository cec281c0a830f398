/** The shared objective factory of src/sir/fitting.py: it checks that the
    simulated horizon covers the data, fixes the weights, and returns an
    objective that rejects non-positive rates, simulates, interpolates
    without extrapolating, and turns numerical failures into a penalty. */
module Fitting {
  import opened Common
  import opened Extrema
  import opened LeastSquares
  import Sir

  /** The result records of the fitting scripts. */
  datatype FittingResult = FittingResult(beta: real, gamma: real, r0: real, sse: real, success: bool, message: string)

  datatype TimeVaryingResult = TimeVaryingResult(
    betaPre: real, betaPost: real, gamma: real, r0Pre: real, r0Post: real,
    sse: real, success: bool, delay: real, transition: real)

  /** `run_simulation(params, N, I0, sim_days)`: the trajectory or an exception. */
  type Simulator = (seq<real>, real, real, int) -> Outcome<Sir.Trajectory>

  /** What the objective closure captures. */
  datatype SseObjective = SseObjective(
    days: seq<int>, active: seq<real>, n: real, i0: real, simDays: int,
    run: Simulator, interp: Interpolant, weights: seq<real>)

  /** `create_sse_objective`: ValueError when there are no data days (numpy's
      `max` of an empty array) or when the horizon ends before the last data
      day; otherwise the captured data with unit weights by default. */
  function CreateSseObjective(days: seq<int>, active: seq<real>, n: real, i0: real, simDays: int,
                              run: Simulator, interp: Interpolant, weights: Option<seq<real>>): (r: Outcome<SseObjective>)
    ensures r.Raised? <==> |days| == 0 || simDays < IntMax(days)
    ensures r.Raised? ==> r.exc == ValueError
    ensures r.Returned? ==> forall k :: 0 <= k < |days| ==> days[k] <= r.value.simDays
    ensures r.Returned? && weights.None? ==> r.value.weights == Ones(|active|)
    ensures r.Returned? && weights.Some? ==> r.value.weights == weights.value
    ensures r.Returned? ==> r.value.days == days && r.value.active == active && r.value.n == n && r.value.i0 == i0
  {
    if |days| == 0 then Raised(ValueError)
    else if simDays < IntMax(days) then Raised(ValueError)
    else
      var w := match weights case None => Ones(|active|) case Some(v) => v;
      Returned(SseObjective(days, active, n, i0, simDays, run, interp, w))
  }

  /** `any(p <= 0 for p in params[:3])`. */
  predicate RejectsRates(params: seq<real>)
  {
    exists k :: 0 <= k < |params| && k < 3 && params[k] <= 0.0
  }

  /** The simulation the objective runs for `params`. */
  function Simulate(obj: SseObjective, params: seq<real>): Outcome<Sir.Trajectory>
  {
    obj.run(params, obj.n, obj.i0, obj.simDays)
  }

  /** The objective closure: the penalty for a non-positive rate among the
      first three parameters, otherwise the weighted cost with numerical
      failures caught; any other exception escapes. */
  function Evaluate(obj: SseObjective, params: seq<real>): (r: Outcome<real>)
    ensures RejectsRates(params) ==> r == Returned(Penalty)
    ensures !RejectsRates(params) && Simulate(obj, params).Raised? ==>
      r == (if NumericalError(Simulate(obj, params).exc) then Returned(Penalty) else Raised(Simulate(obj, params).exc))
    ensures r.Raised? ==> !NumericalError(r.exc)
    ensures r.Returned? && NonNegative(obj.weights) ==> r.value >= 0.0
    ensures (!RejectsRates(params) && |obj.weights| == |obj.active| &&
             ModelAtDays(Simulate(obj, params), obj.interp, RaiseOutside, obj.days) == Returned(obj.active))
      ==> r == Returned(0.0)
  {
    if RejectsRates(params) then Returned(Penalty)
    else CatchNumerical(FitCost(Simulate(obj, params), obj.interp, RaiseOutside, obj.days, obj.active, obj.weights))
  }

  /** Without explicit weights the objective is the plain sum of squared
      errors behind the same guard and handler. */
  lemma DefaultWeightsGivePlainSse(days: seq<int>, active: seq<real>, n: real, i0: real, simDays: int,
                                   run: Simulator, interp: Interpolant, params: seq<real>)
    requires CreateSseObjective(days, active, n, i0, simDays, run, interp, None).Returned?
    ensures var obj := CreateSseObjective(days, active, n, i0, simDays, run, interp, None).value;
      Evaluate(obj, params) ==
        if RejectsRates(params) then Returned(Penalty)
        else CatchNumerical(PlainCost(Simulate(obj, params), interp, RaiseOutside, days, active))
  {
    var obj := CreateSseObjective(days, active, n, i0, simDays, run, interp, None).value;
    UnitWeightedCost(Simulate(obj, params), interp, RaiseOutside, days, active);
  }

  /** A data day outside the simulated grid is never extrapolated: the
      interpolant raises ValueError and the objective returns the penalty. */
  lemma OutOfRangeDayGivesPenalty(obj: SseObjective, params: seq<real>)
    requires !RejectsRates(params)
    requires Simulate(obj, params).Returned?
    requires var traj := Simulate(obj, params).value;
      |traj.t| >= 2 && |traj.t| == |traj.i| && AnyOutside(traj.t, AsReals(obj.days))
    ensures Evaluate(obj, params) == Returned(Penalty)
  {
  }

  /** The horizon check is what keeps interpolation in range: for a runner
      on the `run_sir` grid with any positive resolution, every
      non-negative data day accepted by the constructor lies inside the grid. */
  lemma ValidatedHorizonCoversDays(days: seq<int>, active: seq<real>, n: real, i0: real, simDays: int,
                                   run: Simulator, interp: Interpolant, weights: Option<seq<real>>, resolution: int)
    requires CreateSseObjective(days, active, n, i0, simDays, run, interp, weights).Returned?
    requires resolution >= 1
    requires forall k :: 0 <= k < |days| ==> days[k] >= 0
    ensures Sir.TimeGrid(simDays, resolution).Returned?
    ensures !AnyOutside(Sir.TimeGrid(simDays, resolution).value, AsReals(days))
  {
    assert simDays >= days[0] >= 0;
    Sir.TimeGridShape(simDays, resolution, 0);
    var t := Sir.TimeGrid(simDays, resolution).value;
    assert Min(t) <= t[0] == 0.0;
    assert Max(t) >= t[simDays * resolution] == simDays as real;
    var xs := AsReals(days);
    forall k | 0 <= k < |xs|
      ensures Min(t) <= xs[k] <= Max(t)
    {
      assert xs[k] == days[k] as real;
    }
  }
}
