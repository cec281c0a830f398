/** src/fit_sir_improved.py: the SIR fit with a smooth (logistic) change of
    beta after the Italian lockdown, pre-lockdown points weighted three
    times, and one differential-evolution search over five parameters. */
module ImprovedFit {
  import opened Common
  import opened LeastSquares
  import opened Optimize
  import Sir
  import Calendar
  import Derived
  import Fitting

  const NPopulation: real := 60360000.0
  const SimulationDays: int := 120

  /** Hard-coded as 16 here; the same day count as 22 February to 9 March
      2020 (`TimeVaryingFit.LockdownDay`). */
  const LockdownDay: int := 16

  datatype ImprovedResult = ImprovedResult(
    betaPre: real, betaPost: real, gamma: real, delay: real, transition: real,
    r0Pre: real, r0Post: real, sse: real)

  /** `sigmoid_beta`: the width is raised to 0.1 when smaller, then the same
      logistic blend as `make_sigmoid_beta`. */
  function SigmoidBeta(t: real, betaPre: real, betaPost: real, lockdownDay: real, delay: real,
                       transitionWidth: real, exp: real -> real): (b: real)
    requires Sir.ExpLike(exp)
    ensures b == Sir.SigmoidBeta(t, betaPre, betaPost, lockdownDay, delay, transitionWidth, exp)
    ensures Sir.Between(b, betaPost, betaPre)
    ensures t == lockdownDay + delay ==> b == (betaPre + betaPost) / 2.0
  {
    var tEffective := lockdownDay + delay;
    var width := if transitionWidth < 0.1 then 0.1 else transitionWidth;
    var sigmoid := 1.0 / (1.0 + exp((t - tEffective) / width));
    Sir.Blend(betaPre, betaPost, sigmoid)
  }

  /** `sir_derivatives_smooth`: the field with beta from the sigmoid. */
  function Derivatives(y: Sir.State, t: real, n: real, betaPre: real, betaPost: real, gamma: real,
                       lockdownDay: real, delay: real, transition: real, exp: real -> real): (d: Sir.State)
    requires n != 0.0 && Sir.ExpLike(exp)
    ensures d == Sir.DerivativesAt(y, t, n, Sir.MakeSigmoidBeta(exp, betaPre, betaPost, lockdownDay, delay, transition), gamma)
    ensures Sir.Total(d) == 0.0
  {
    Sir.Derivatives(y, n, SigmoidBeta(t, betaPre, betaPost, lockdownDay, delay, transition, exp), gamma)
  }

  /** `run_sir_smooth`: start state [N - I0, I0, 0] on
      `np.linspace(0, days, days * 10 + 1)`, lockdown on day 16. */
  function RunSirSmooth(betaPre: real, betaPost: real, gamma: real, delay: real, transition: real,
                        n: real, i0: real, days: int, odeint: Sir.Solver, exp: real -> real): (r: Outcome<Sir.Trajectory>)
    requires n != 0.0 && Sir.ExpLike(exp)
    ensures r == Sir.RunSirTimeVarying(Sir.MakeSigmoidBeta(exp, betaPre, betaPost, LockdownDay as real, delay, transition),
                                       gamma, n, i0, days, odeint, 10)
  {
    var y0 := Sir.State(n - i0, i0, 0.0);
    match Sir.Linspace(0.0, days as real, days * 10 + 1)
    case Raised(e) => Raised(e)
    case Returned(t) =>
      Sir.Solve(Returned(Sir.Setup(y0, t)),
        Sir.ScheduledField(n, Sir.MakeSigmoidBeta(exp, betaPre, betaPost, LockdownDay as real, delay, transition), gamma), odeint)
  }

  /** The weights after `weights[data_days < LOCKDOWN_DAY] = 3.0`: triple
      before the lockdown day, single from it on. */
  function LockdownWeights(days: seq<int>, lockdownDay: int): (w: seq<real>)
    ensures |w| == |days|
    ensures forall k :: 0 <= k < |days| ==> 1.0 <= w[k] <= 3.0
    ensures forall k :: 0 <= k < |days| ==> (w[k] == 3.0 <==> days[k] < lockdownDay)
    ensures forall k :: 0 <= k < |days| ==> (w[k] == 1.0 <==> lockdownDay <= days[k])
  {
    seq(|days|, k requires 0 <= k < |days| => if days[k] < lockdownDay then 3.0 else 1.0)
  }

  /** `np.ones_like(...)` followed by the masked assignment, in place. */
  method LockdownWeightArray(days: seq<int>, lockdownDay: int) returns (w: array<real>)
    ensures fresh(w)
    ensures w[..] == LockdownWeights(days, lockdownDay)
  {
    w := new real[|days|](_ => 1.0);
    var k := 0;
    while k < |days|
      invariant 0 <= k <= |days|
      invariant forall j :: 0 <= j < k ==> w[j] == LockdownWeights(days, lockdownDay)[j]
      invariant forall j :: k <= j < |days| ==> w[j] == 1.0
    {
      if days[k] < lockdownDay {
        w[k] := 3.0;
      }
      k := k + 1;
    }
  }

  /** The weighted cost inside the `try`: the run and the interpolation may
      raise; a boolean mask of another length than the weights raises
      IndexError; then the weighted sum of squares. */
  function WeightedCost(run: Outcome<Sir.Trajectory>, interp: Interpolant, days: seq<int>, active: seq<real>): (r: Outcome<real>)
    ensures run.Raised? ==> r == Raised(run.exc)
    ensures run.Returned? && ModelAtDays(run, interp, Extrapolate, days).Returned? && |days| != |active| ==> r == Raised(IndexError)
    ensures r.Returned? ==> r.value >= 0.0 && |days| == |active|
  {
    match ModelAtDays(run, interp, Extrapolate, days)
    case Raised(e) => Raised(e)
    case Returned(model) =>
      if |days| != |active| then Raised(IndexError)
      else FitCost(run, interp, Extrapolate, days, active, LockdownWeights(days, LockdownDay))
  }

  /** Tripling the pre-lockdown weights puts the cost between the plain sum
      of squares and three times it. */
  lemma WeightedCostBetween(run: Outcome<Sir.Trajectory>, interp: Interpolant, days: seq<int>, active: seq<real>)
    requires WeightedCost(run, interp, days, active).Returned?
    ensures PlainCost(run, interp, Extrapolate, days, active).Returned?
    ensures var plain := PlainCost(run, interp, Extrapolate, days, active).value;
      plain <= WeightedCost(run, interp, days, active).value <= 3.0 * plain
  {
    var model := ModelAtDays(run, interp, Extrapolate, days).value;
    WeightedSseBetween(LockdownWeights(days, LockdownDay), model, active, 3.0);
  }

  /** The simulation the objective runs for five parameters. */
  function Simulate(i0: real, odeint: Sir.Solver, exp: real -> real, params: seq<real>): Outcome<Sir.Trajectory>
    requires |params| == 5 && Sir.ExpLike(exp)
  {
    RunSirSmooth(params[0], params[1], params[2], params[3], params[4], NPopulation, i0, SimulationDays, odeint, exp)
  }

  /** The objective of `fit_improved_sir`: unpacking anything but five
      parameters raises ValueError before the `try`; a non-positive rate
      costs 1e20; numerical failures cost 1e20; otherwise the weighted cost. */
  function Objective(days: seq<int>, active: seq<real>, i0: real, odeint: Sir.Solver, interp: Interpolant,
                     exp: real -> real, params: seq<real>): (r: Outcome<real>)
    requires Sir.ExpLike(exp)
    ensures |params| != 5 ==> r == Raised(ValueError)
    ensures |params| == 5 && Fitting.RejectsRates(params) ==> r == Returned(Penalty)
    ensures r.Returned? ==> r.value >= 0.0
    ensures r.Raised? && |params| == 5 ==> !NumericalError(r.exc)
    ensures |params| == 5 && !Fitting.RejectsRates(params) ==>
      var cost := WeightedCost(Simulate(i0, odeint, exp, params), interp, days, active);
      r == CatchNumerical(cost)
  {
    if |params| != 5 then Raised(ValueError)
    else if Fitting.RejectsRates(params) then Returned(Penalty)
    else CatchNumerical(WeightedCost(Simulate(i0, odeint, exp, params), interp, days, active))
  }

  function FitObjective(dates: seq<int>, active: seq<real>, odeint: Sir.Solver, interp: Interpolant, exp: real -> real): Optimize.Objective
    requires |dates| > 0 && |active| > 0 && Sir.ExpLike(exp)
  {
    (p: seq<real>) => Objective(Calendar.DayOffsets(dates), active, active[0], odeint, interp, exp, p)
  }

  /** Bounds for [beta_pre, beta_post, gamma, delay, transition]. */
  function Bounds(): seq<Bound>
  {
    [Bound(0.2, 0.6), Bound(0.05, 0.15), Bound(0.05, 0.12), Bound(5.0, 20.0), Bound(3.0, 15.0)]
  }

  /** The `ImprovedResult` built from the search result. */
  function Report(res: OptResult): (r: ImprovedResult)
    requires InBounds(res.x, Bounds())
    ensures r.betaPre == res.x[0] && r.betaPost == res.x[1] && r.gamma == res.x[2]
    ensures r.delay == res.x[3] && r.transition == res.x[4] && r.sse == res.fun
    ensures r.r0Pre * r.gamma == r.betaPre && r.r0Post * r.gamma == r.betaPost
    ensures r.r0Post < r.r0Pre <==> r.betaPost < r.betaPre
  {
    var gamma := res.x[2];
    Derived.ReproductionNumberOrder(res.x[0], res.x[1], gamma);
    ImprovedResult(res.x[0], res.x[1], gamma, res.x[3], res.x[4],
      Derived.ReproductionNumber(res.x[0], gamma), Derived.ReproductionNumber(res.x[1], gamma), res.fun)
  }

  /** `fit_improved_sir`: an empty frame fails at `iloc[0]`; otherwise one
      global search over the box, reported with its reproduction numbers. */
  function FitImprovedSir(dates: seq<int>, active: seq<real>, odeint: Sir.Solver, interp: Interpolant,
                          exp: real -> real, search: GlobalMinimizer): (r: Outcome<ImprovedResult>)
    requires |dates| == |active|
    requires Sir.ExpLike(exp) && GlobalRespectsBounds(search)
    ensures r.Raised? <==> |dates| == 0
    ensures r.Raised? ==> r.exc == IndexError
    ensures r.Returned? ==>
      var res := search(FitObjective(dates, active, odeint, interp, exp), Bounds());
      r.value == Report(res) && r.value.sse == res.fun
    ensures r.Returned? ==> 5.0 <= r.value.delay <= 20.0 && 3.0 <= r.value.transition <= 15.0
  {
    if |dates| == 0 then Raised(IndexError)
    else Returned(Report(search(FitObjective(dates, active, odeint, interp, exp), Bounds())))
  }

  /** Inside the box the width clamp never fires, so the fitted schedule is
      the sigmoid with the fitted width and passes its midpoint on day
      16 + delay. */
  lemma FittedScheduleMidpoint(res: OptResult, exp: real -> real)
    requires InBounds(res.x, Bounds()) && Sir.ExpLike(exp)
    ensures Sir.EffectiveWidth(Report(res).transition) == Report(res).transition
    ensures var r := Report(res);
      SigmoidBeta(LockdownDay as real + r.delay, r.betaPre, r.betaPost, LockdownDay as real, r.delay, r.transition, exp)
        == (r.betaPre + r.betaPost) / 2.0
  {
  }
}
