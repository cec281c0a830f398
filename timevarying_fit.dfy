/** src/fit_sir_timevarying.py: the SIR fit with a step in beta at the
    Italian lockdown.  Ten simulated points per day, an unweighted
    squared-error objective with extrapolating interpolation behind a bare
    `except`, and 27 L-BFGS-B starts of which the first best is kept. */
module TimeVaryingFit {
  import opened Common
  import opened LeastSquares
  import opened Optimize
  import Sir
  import Derived
  import Calendar

  const NPopulation: real := 60360000.0
  const SimulationDays: int := 120
  const DataStartDate: Calendar.Date := Calendar.Date(2020, 2, 22)
  const LockdownDate: Calendar.Date := Calendar.Date(2020, 3, 9)

  /** `(LOCKDOWN_DATE - DATA_START_DATE).days`. */
  function LockdownDay(): (day: int)
    ensures day == 16
  {
    Calendar.DaysBetween(DataStartDate, LockdownDate)
  }

  /** The result record of this script: no delay or transition width. */
  datatype TimeVaryingResult = TimeVaryingResult(
    betaPre: real, betaPost: real, gamma: real, r0Pre: real, r0Post: real, sse: real, success: bool)

  /** `sir_derivatives_timevarying`: beta_pre strictly before the lockdown
      day, beta_post from it on. */
  function Derivatives(y: Sir.State, t: real, n: real, betaPre: real, betaPost: real, gamma: real, lockdownDay: real): (d: Sir.State)
    requires n != 0.0
    ensures d == Sir.DerivativesAt(y, t, n, Sir.MakePiecewiseBeta(betaPre, betaPost, lockdownDay), gamma)
    ensures t < lockdownDay ==> d == Sir.Derivatives(y, n, betaPre, gamma)
    ensures lockdownDay <= t ==> d == Sir.Derivatives(y, n, betaPost, gamma)
    ensures Sir.Total(d) == 0.0
  {
    var beta := if t < lockdownDay then betaPre else betaPost;
    Sir.Derivatives(y, n, beta, gamma)
  }

  /** `run_sir_timevarying`: start state [N - I0, I0, 0] on
      `np.linspace(0, days, days * 10 + 1)`, with the step schedule. */
  function RunSirTimeVarying(betaPre: real, betaPost: real, gamma: real, n: real, i0: real, days: int,
                             lockdownDay: real, odeint: Sir.Solver): (r: Outcome<Sir.Trajectory>)
    requires n != 0.0
    ensures r == Sir.RunSirTimeVarying(Sir.MakePiecewiseBeta(betaPre, betaPost, lockdownDay), gamma, n, i0, days, odeint, 10)
  {
    var y0 := Sir.State(n - i0, i0, 0.0);
    match Sir.Linspace(0.0, days as real, days * 10 + 1)
    case Raised(e) => Raised(e)
    case Returned(t) =>
      Sir.Solve(Returned(Sir.Setup(y0, t)), Sir.ScheduledField(n, Sir.MakePiecewiseBeta(betaPre, betaPost, lockdownDay), gamma), odeint)
  }

  /** `any(p <= 0 for p in params)`. */
  predicate AnyNonPositive(params: seq<real>)
  {
    exists k :: 0 <= k < |params| && params[k] <= 0.0
  }

  /** The simulation the objective runs for three positive parameters. */
  function Simulate(i0: real, odeint: Sir.Solver, params: seq<real>): Outcome<Sir.Trajectory>
    requires |params| == 3
  {
    RunSirTimeVarying(params[0], params[1], params[2], NPopulation, i0, SimulationDays, LockdownDay() as real, odeint)
  }

  /** The objective of `fit_timevarying_sir`.  Unpacking anything but three
      parameters raises ValueError before the `try`; past that, the bare
      `except` turns every failure into 1e20, so the objective always
      returns a non-negative number. */
  function Objective(days: seq<int>, active: seq<real>, i0: real, odeint: Sir.Solver, interp: Interpolant,
                     params: seq<real>): (r: Outcome<real>)
    ensures |params| != 3 <==> r.Raised?
    ensures r.Raised? ==> r.exc == ValueError
    ensures r.Returned? ==> r.value >= 0.0
    ensures |params| == 3 && AnyNonPositive(params) ==> r == Returned(Penalty)
    ensures |params| == 3 && !AnyNonPositive(params) ==>
      var cost := PlainCost(Simulate(i0, odeint, params), interp, Extrapolate, days, active);
      (cost.Raised? ==> r == Returned(Penalty)) && (cost.Returned? ==> r == cost)
  {
    if |params| != 3 then Raised(ValueError)
    else if AnyNonPositive(params) then Returned(Penalty)
    else Returned(CatchAll(PlainCost(Simulate(i0, odeint, params), interp, Extrapolate, days, active)))
  }

  function FitObjective(dates: seq<int>, active: seq<real>, odeint: Sir.Solver, interp: Interpolant): Optimize.Objective
    requires |dates| > 0 && |active| > 0
  {
    (p: seq<real>) => Objective(Calendar.DayOffsets(dates), active, active[0], odeint, interp, p)
  }

  const PreStarts: seq<real> := [0.3, 0.4, 0.5]
  const PostStarts: seq<real> := [0.05, 0.1, 0.15]
  const GammaStarts: seq<real> := [0.05, 0.07, 0.1]

  /** The 27 starts in loop order: beta_pre outermost, gamma innermost. */
  function StartGrid(): (starts: seq<seq<real>>)
    ensures |starts| == |PreStarts| * |PostStarts| * |GammaStarts| == 27
  {
    seq(27, k requires 0 <= k < 27 => [PreStarts[k / 9], PostStarts[(k / 3) % 3], GammaStarts[k % 3]])
  }

  /** Start 9p + 3q + g is the triple the loops reach with indices p, q, g. */
  lemma StartAt(p: int, q: int, g: int)
    requires 0 <= p < 3 && 0 <= q < 3 && 0 <= g < 3
    ensures 0 <= p * 9 + q * 3 + g < 27
    ensures StartGrid()[p * 9 + q * 3 + g] == [PreStarts[p], PostStarts[q], GammaStarts[g]]
  {
    var k := p * 9 + q * 3 + g;
    assert k / 9 == p && (k / 3) % 3 == q && k % 3 == g;
  }

  /** One more start of the grid: the run at (p, q, g) extends the list of
      runs by one, and keeping the better of it and the best so far gives the
      best of the longer list. */
  lemma GridStep(minimize: Minimizer, f: Objective, bounds: seq<Bound>, p: int, q: int, g: int,
                 seen: seq<OptResult>, best: Option<OptResult>)
    requires 0 <= p < 3 && 0 <= q < 3 && 0 <= g < 3
    requires seen == Runs(minimize, f, StartGrid()[..p * 9 + q * 3 + g], bounds)
    requires best == BestSoFar(seen)
    ensures seen + [minimize(f, [PreStarts[p], PostStarts[q], GammaStarts[g]], bounds)]
      == Runs(minimize, f, StartGrid()[..p * 9 + q * 3 + g + 1], bounds)
    ensures Keep(best, minimize(f, [PreStarts[p], PostStarts[q], GammaStarts[g]], bounds))
      == BestSoFar(seen + [minimize(f, [PreStarts[p], PostStarts[q], GammaStarts[g]], bounds)])
  {
    StartAt(p, q, g);
    RunOneMore(minimize, f, StartGrid(), bounds, p * 9 + q * 3 + g, seen, best);
  }

  /** After all 27 starts the best run exists, lies within the bounds and
      is no worse than any single run. */
  lemma GridDone(minimize: Minimizer, f: Objective, bounds: seq<Bound>, seen: seq<OptResult>, best: Option<OptResult>)
    requires RespectsBounds(minimize)
    requires seen == Runs(minimize, f, StartGrid()[..27], bounds)
    requires best == BestSoFar(seen)
    ensures best == BestSoFar(Runs(minimize, f, StartGrid(), bounds))
    ensures best.Some? && InBounds(best.value.x, bounds)
    ensures forall k :: 0 <= k < |StartGrid()| ==> best.value.fun <= minimize(f, StartGrid()[k], bounds).fun
  {
    assert StartGrid()[..27] == StartGrid();
    BestOfRuns(minimize, f, StartGrid(), bounds);
  }

  /** The innermost loop of the grid search: for fixed (p, q) it runs the
      optimiser from each gamma start and keeps the strictly better result. */
  method TryGammaStarts(minimize: Minimizer, objective: Objective, bounds: seq<Bound>, p: int, q: int,
                        best: Option<OptResult>, ghost seen: seq<OptResult>)
    returns (newBest: Option<OptResult>, ghost newSeen: seq<OptResult>)
    requires 0 <= p < 3 && 0 <= q < 3
    requires seen == Runs(minimize, objective, StartGrid()[..p * 9 + q * 3], bounds)
    requires best == BestSoFar(seen)
    ensures newSeen == Runs(minimize, objective, StartGrid()[..p * 9 + q * 3 + 3], bounds)
    ensures newBest == BestSoFar(newSeen)
  {
    newBest, newSeen := best, seen;
    var g := 0;
    while g < |GammaStarts|
      invariant 0 <= g <= |GammaStarts|
      invariant newSeen == Runs(minimize, objective, StartGrid()[..p * 9 + q * 3 + g], bounds)
      invariant newBest == BestSoFar(newSeen)
    {
      var x0 := [PreStarts[p], PostStarts[q], GammaStarts[g]];
      var result := minimize(objective, x0, bounds);
      GridStep(minimize, objective, bounds, p, q, g, newSeen, newBest);
      newSeen := newSeen + [result];
      if newBest.None? || result.fun < newBest.value.fun {
        newBest := Some(result);
      }
      g := g + 1;
    }
  }

  /** `[(0.1, 1.0), (0.01, 0.3), (0.03, 0.15)]` for [beta_pre, beta_post, gamma]. */
  function Bounds(): seq<Bound>
  {
    [Bound(0.1, 1.0), Bound(0.01, 0.3), Bound(0.03, 0.15)]
  }

  /** The `TimeVaryingResult` built from the kept optimiser result: two
      reproduction numbers over the shared gamma, ordered as the rates are. */
  function Report(best: OptResult): (r: TimeVaryingResult)
    requires InBounds(best.x, Bounds())
    ensures r.betaPre == best.x[0] && r.betaPost == best.x[1] && r.gamma == best.x[2]
    ensures r.r0Pre * r.gamma == r.betaPre && r.r0Post * r.gamma == r.betaPost
    ensures r.r0Post < r.r0Pre <==> r.betaPost < r.betaPre
    ensures r.sse == best.fun && r.success == best.success
  {
    var betaPre := best.x[0];
    var betaPost := best.x[1];
    var gamma := best.x[2];
    Derived.ReproductionNumberOrder(betaPre, betaPost, gamma);
    TimeVaryingResult(betaPre, betaPost, gamma,
      Derived.ReproductionNumber(betaPre, gamma), Derived.ReproductionNumber(betaPost, gamma),
      best.fun, best.success)
  }

  /** `fit_timevarying_sir`: an empty frame fails at `iloc[0]`; otherwise
      every start is optimised in order and the first result with the
      smallest objective is reported. */
  method FitTimeVaryingSir(dates: seq<int>, active: seq<real>, odeint: Sir.Solver, interp: Interpolant, minimize: Minimizer)
    returns (r: Outcome<TimeVaryingResult>)
    requires |dates| == |active|
    requires RespectsBounds(minimize)
    ensures r.Raised? <==> |dates| == 0
    ensures r.Raised? ==> r.exc == IndexError
    ensures r.Returned? ==>
      var best := BestSoFar(Runs(minimize, FitObjective(dates, active, odeint, interp), StartGrid(), Bounds()));
      best.Some? && InBounds(best.value.x, Bounds()) && r.value == Report(best.value)
    ensures r.Returned? ==> forall k :: 0 <= k < |StartGrid()| ==>
      r.value.sse <= minimize(FitObjective(dates, active, odeint, interp), StartGrid()[k], Bounds()).fun
  {
    if |dates| == 0 {
      return Raised(IndexError);
    }
    var objective := FitObjective(dates, active, odeint, interp);
    var bounds := Bounds();
    ghost var starts := StartGrid();
    ghost var seen: seq<OptResult> := [];
    ghost var done := 0;
    var best: Option<OptResult> := None;
    var p := 0;
    while p < |PreStarts|
      invariant 0 <= p <= |PreStarts| && done == p * 9
      invariant seen == Runs(minimize, objective, starts[..done], bounds)
      invariant best == BestSoFar(seen)
    {
      var q := 0;
      while q < |PostStarts|
        invariant 0 <= q <= |PostStarts| && done == p * 9 + q * 3
        invariant seen == Runs(minimize, objective, starts[..done], bounds)
        invariant best == BestSoFar(seen)
      {
        best, seen := TryGammaStarts(minimize, objective, bounds, p, q, best, seen);
        done := done + 3;
        q := q + 1;
      }
      p := p + 1;
    }
    GridDone(minimize, objective, bounds, seen, best);
    r := Returned(Report(best.value));
  }

  /** The constant-beta sum of squared errors the comparison figure quotes. */
  const ConstantSse: real := 418000000000.0

  /** `(1 - sse / const_sse) * 100`: positive exactly when the step fits better. */
  function Improvement(sse: real, constSse: real): (pct: real)
    requires constSse > 0.0
    ensures pct > 0.0 <==> sse < constSse
    ensures pct <= 100.0 <==> sse >= 0.0
    ensures sse == constSse * (1.0 - pct / 100.0)
  {
    Derived.PercentReduction(constSse, sse)
  }

  /** `(1 - beta_post / beta_pre) * 100` of a reported fit: at most 100, and
      positive exactly when the lockdown lowered beta. */
  function InterventionEffect(res: TimeVaryingResult): (pct: real)
    requires res.betaPre > 0.0
    ensures res.betaPost >= 0.0 ==> pct <= 100.0
    ensures pct > 0.0 <==> res.betaPost < res.betaPre
    ensures res.betaPost == res.betaPre * (1.0 - pct / 100.0)
  {
    Derived.PercentReduction(res.betaPre, res.betaPost)
  }

  /** Every reported fit lies in the box, so its effect is defined and at
      most 100 percent. */
  lemma ReportedEffect(best: OptResult)
    requires InBounds(best.x, Bounds())
    ensures Report(best).betaPre > 0.0
    ensures InterventionEffect(Report(best)) <= 100.0
    ensures InterventionEffect(Report(best)) > 0.0 <==> Report(best).r0Post < Report(best).r0Pre
  {
  }
}
