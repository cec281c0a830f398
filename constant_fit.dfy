/** src/fit_sir_model.py: the constant-rate SIR fit to the Italian first
    wave.  One simulated point per day, an unweighted squared-error
    objective with extrapolating interpolation, and twelve L-BFGS-B starts
    of which the first best is kept. */
module ConstantFit {
  import opened Common
  import opened LeastSquares
  import opened Optimize
  import Sir
  import Calendar
  import Derived
  import Fitting

  const NPopulation: real := 60360000.0
  const SimulationDays: int := 120

  /** `sir_derivatives(y, t, N, beta, gamma)`: the shared field; t is unused. */
  function Derivatives(y: Sir.State, t: real, n: real, beta: real, gamma: real): (d: Sir.State)
    requires n != 0.0
    ensures d == Sir.Derivatives(y, n, beta, gamma)
    ensures Sir.Total(d) == 0.0
  {
    Sir.Derivatives(y, n, beta, gamma)
  }

  /** `run_sir_simulation`: start state [N - I0, I0, 0] on the grid
      `np.linspace(0, days, days + 1)`, which is `run_sir` at one point per day. */
  function RunSirSimulation(beta: real, gamma: real, n: real, i0: real, days: int, odeint: Sir.Solver): (r: Outcome<Sir.Trajectory>)
    requires n != 0.0
    ensures r == Sir.RunSir(beta, gamma, n, i0, days, odeint, 1)
  {
    var y0 := Sir.State(n - i0, i0, 0.0);
    match Sir.Linspace(0.0, days as real, days + 1)
    case Raised(e) => Raised(e)
    case Returned(t) => Sir.Solve(Returned(Sir.Setup(y0, t)), Sir.ConstantField(n, beta, gamma), odeint)
  }

  /** The objective of `create_objective_function`: unpacking anything but
      two parameters raises ValueError outside the `try`; a non-positive rate
      costs 1e20; numerical failures cost 1e20; otherwise the plain sum of
      squared errors of the extrapolating interpolant. */
  function Objective(days: seq<int>, active: seq<real>, n: real, i0: real, simDays: int,
                     odeint: Sir.Solver, interp: Interpolant, params: seq<real>): (r: Outcome<real>)
    requires n != 0.0
    ensures |params| != 2 ==> r == Raised(ValueError)
    ensures |params| == 2 && (params[0] <= 0.0 || params[1] <= 0.0) ==> r == Returned(Penalty)
    ensures r.Returned? ==> r.value >= 0.0
    ensures r.Raised? && |params| == 2 ==>
      !NumericalError(r.exc) && RunSirSimulation(params[0], params[1], n, i0, simDays, odeint) == Raised(r.exc)
  {
    if |params| != 2 then Raised(ValueError)
    else
      var beta := params[0];
      var gamma := params[1];
      if beta <= 0.0 || gamma <= 0.0 then Returned(Penalty)
      else CatchNumerical(PlainCost(RunSirSimulation(beta, gamma, n, i0, simDays, odeint), interp, Extrapolate, days, active))
  }

  /** The closure `fit_sir_model` optimises: the data as days since the
      first row, I0 the first active count, N and the horizon fixed. */
  function FitObjective(dates: seq<int>, active: seq<real>, odeint: Sir.Solver, interp: Interpolant): Optimize.Objective
    requires |dates| > 0 && |active| > 0
  {
    (p: seq<real>) => Objective(Calendar.DayOffsets(dates), active, NPopulation, active[0], SimulationDays, odeint, interp, p)
  }

  const GammaStarts: seq<real> := [0.05, 0.07, 0.1, 0.12]
  const BetaStarts: seq<real> := [0.15, 0.2, 0.3]

  /** The twelve starts in loop order: gamma outer, beta inner. */
  function StartGrid(): (starts: seq<seq<real>>)
    ensures |starts| == |GammaStarts| * |BetaStarts| == 12
  {
    seq(12, k requires 0 <= k < 12 => [BetaStarts[k % 3], GammaStarts[k / 3]])
  }

  /** Start g * 3 + b is the pair the loops reach with gamma index g and beta index b. */
  lemma StartAt(g: int, b: int)
    requires 0 <= g < |GammaStarts| && 0 <= b < |BetaStarts|
    ensures 0 <= g * 3 + b < 12
    ensures StartGrid()[g * 3 + b] == [BetaStarts[b], GammaStarts[g]]
  {
    var k := g * 3 + b;
    assert k / 3 == g && k % 3 == b;
  }

  /** `[(0.01, 0.5), (0.05, 0.15)]` for [beta, gamma]. */
  function Bounds(): seq<Bound>
  {
    [Bound(0.01, 0.5), Bound(0.05, 0.15)]
  }

  /** The `FittingResult` built from the kept optimiser result. */
  function Report(best: OptResult): (r: Fitting.FittingResult)
    requires InBounds(best.x, Bounds())
    ensures 0.01 <= r.beta <= 0.5 && 0.05 <= r.gamma <= 0.15
    ensures r.r0 * r.gamma == r.beta
    ensures r.beta == best.x[0] && r.gamma == best.x[1]
    ensures r.sse == best.fun && r.success == best.success && r.message == best.message
  {
    var beta := best.x[0];
    var gamma := best.x[1];
    Fitting.FittingResult(beta, gamma, Derived.ReproductionNumber(beta, gamma), best.fun, best.success, best.message)
  }

  /** `fit_sir_model`: an empty frame fails at `iloc[0]`; otherwise every
      start is optimised in order and the first result with the smallest
      objective is reported. */
  method FitSirModel(dates: seq<int>, active: seq<real>, odeint: Sir.Solver, interp: Interpolant, minimize: Minimizer)
    returns (r: Outcome<Fitting.FittingResult>)
    requires |dates| == |active|
    requires RespectsBounds(minimize)
    ensures r.Raised? <==> |dates| == 0
    ensures r.Raised? ==> r.exc == IndexError
    ensures r.Returned? ==>
      var best := BestSoFar(Runs(minimize, FitObjective(dates, active, odeint, interp), StartGrid(), Bounds()));
      best.Some? && InBounds(best.value.x, Bounds()) && r.value == Report(best.value)
    ensures r.Returned? ==> forall k :: 0 <= k < |StartGrid()| ==>
      r.value.sse <= minimize(FitObjective(dates, active, odeint, interp), StartGrid()[k], Bounds()).fun
  {
    if |dates| == 0 {
      return Raised(IndexError);
    }
    var objective := FitObjective(dates, active, odeint, interp);
    var bounds := Bounds();
    ghost var starts := StartGrid();
    ghost var seen: seq<OptResult> := [];
    ghost var done := 0;
    var best: Option<OptResult> := None;
    var g := 0;
    while g < |GammaStarts|
      invariant 0 <= g <= |GammaStarts| && done == g * 3
      invariant seen == Runs(minimize, objective, starts[..done], bounds)
      invariant best == BestSoFar(seen)
    {
      var b := 0;
      while b < |BetaStarts|
        invariant 0 <= b <= |BetaStarts| && done == g * 3 + b
        invariant seen == Runs(minimize, objective, starts[..done], bounds)
        invariant best == BestSoFar(seen)
      {
        var x0 := [BetaStarts[b], GammaStarts[g]];
        var result := minimize(objective, x0, bounds);
        StartAt(g, b);
        RunOneMore(minimize, objective, starts, bounds, done, seen, best);
        seen := seen + [result];
        done := done + 1;
        if best.None? || result.fun < best.value.fun {
          best := Some(result);
        }
        b := b + 1;
      }
      g := g + 1;
    }
    assert starts[..12] == starts;
    BestOfRuns(minimize, objective, starts, bounds);
    r := Returned(Report(best.value));
  }
}
