/** src/compare_countries.py: the smooth-transition SIR fit applied to
    Italy and South Korea.  The fitting window starts at the first day
    with more than ten active cases, the intervention day is clamped to
    the window, and one differential-evolution search fits five
    parameters against the unweighted squared error. */
module CountryComparison {
  import opened Common
  import opened LeastSquares
  import opened Optimize
  import Sir
  import Calendar
  import Derived

  /** One entry of `COUNTRIES`; `name` is the key `main` adds later, read
      with the default 'Unknown'. */
  datatype CountryConfig = CountryConfig(
    population: real, interventionDate: Calendar.Date, startDate: Calendar.Date, name: Option<string>)

  function Italy(): CountryConfig
  {
    CountryConfig(60360000.0, Calendar.Date(2020, 3, 9), Calendar.Date(2020, 2, 22), None)
  }

  function SouthKorea(): CountryConfig
  {
    CountryConfig(51780000.0, Calendar.Date(2020, 2, 20), Calendar.Date(2020, 2, 18), None)
  }

  datatype CountryResult = CountryResult(
    country: string, betaPre: real, betaPost: real, gamma: real, r0Pre: real, r0Post: real,
    effectiveness: real, sse: real, delay: real, transition: real)

  /** `sigmoid_beta`: `max(transition, 0.1)` keeps the width at least 0.1. */
  function SigmoidBeta(t: real, betaPre: real, betaPost: real, interventionDay: real, delay: real,
                       transition: real, exp: real -> real): (b: real)
    requires Sir.ExpLike(exp)
    ensures b == Sir.SigmoidBeta(t, betaPre, betaPost, interventionDay, delay, transition, exp)
    ensures Sir.Between(b, betaPost, betaPre)
    ensures t == interventionDay + delay ==> b == (betaPre + betaPost) / 2.0
  {
    var tEff := interventionDay + delay;
    var width := if 0.1 > transition then 0.1 else transition;
    var sigmoid := 1.0 / (1.0 + exp((t - tEff) / width));
    Sir.Blend(betaPre, betaPost, sigmoid)
  }

  /** `sir_derivatives`: the field with beta from the sigmoid. */
  function Derivatives(y: Sir.State, t: real, n: real, betaPre: real, betaPost: real, gamma: real,
                       interventionDay: real, delay: real, transition: real, exp: real -> real): (d: Sir.State)
    requires n != 0.0 && Sir.ExpLike(exp)
    ensures d == Sir.DerivativesAt(y, t, n, Sir.MakeSigmoidBeta(exp, betaPre, betaPost, interventionDay, delay, transition), gamma)
    ensures Sir.Total(d) == 0.0
  {
    Sir.Derivatives(y, n, SigmoidBeta(t, betaPre, betaPost, interventionDay, delay, transition, exp), gamma)
  }

  /** `run_sir(params, N, I0, days, intervention_day)`: unpacking anything
      but five parameters raises ValueError; otherwise the start state
      [N - I0, I0, 0] on `np.linspace(0, days, days * 10 + 1)`. */
  function RunSir(params: seq<real>, n: real, i0: real, days: int, interventionDay: real,
                  odeint: Sir.Solver, exp: real -> real): (r: Outcome<Sir.Trajectory>)
    requires n != 0.0 && Sir.ExpLike(exp)
    ensures |params| != 5 ==> r == Raised(ValueError)
    ensures |params| == 5 ==>
      r == Sir.RunSirTimeVarying(Sir.MakeSigmoidBeta(exp, params[0], params[1], interventionDay, params[3], params[4]),
                                 params[2], n, i0, days, odeint, 10)
  {
    if |params| != 5 then Raised(ValueError)
    else
      var y0 := Sir.State(n - i0, i0, 0.0);
      match Sir.Linspace(0.0, days as real, days * 10 + 1)
      case Raised(e) => Raised(e)
      case Returned(t) =>
        Sir.Solve(Returned(Sir.Setup(y0, t)),
          Sir.ScheduledField(n, Sir.MakeSigmoidBeta(exp, params[0], params[1], interventionDay, params[3], params[4]), params[2]),
          odeint)
  }

  /** The first row with more than ten active cases, if any. */
  function FirstSignificant(active: seq<real>): (r: Option<nat>)
    ensures r.None? <==> forall k :: 0 <= k < |active| ==> active[k] <= 10.0
    ensures r.Some? ==> r.value < |active| && active[r.value] > 10.0
    ensures r.Some? ==> forall k :: 0 <= k < r.value ==> active[k] <= 10.0
  {
    if |active| == 0 then None
    else if active[0] > 10.0 then Some(0)
    else
      match FirstSignificant(active[1..])
      case None => None
      case Some(k) => Some(k + 1)
  }

  /** `significant_idx`: that row, or row 0 when no row qualifies. */
  function SignificantIndex(active: seq<real>): (idx: nat)
    ensures idx <= |active|
    ensures |active| > 0 ==> idx < |active|
    ensures forall k :: 0 <= k < idx ==> active[k] <= 10.0
    ensures idx > 0 ==> active[idx] > 10.0
    ensures (exists k :: 0 <= k < |active| && active[k] > 10.0) ==> idx < |active| && active[idx] > 10.0
    ensures (forall k :: 0 <= k < |active| ==> active[k] <= 10.0) ==> idx == 0
  {
    match FirstSignificant(active)
    case None => 0
    case Some(k) => k
  }

  /** `max(data_active[0], 1)`. */
  function InitialInfected(first: real): (i0: real)
    ensures i0 >= 1.0
    ensures i0 >= first
    ensures first >= 1.0 ==> i0 == first
  {
    if 1.0 > first then 1.0 else first
  }

  /** `max(0, (intervention_date - first_date).days)`. */
  function InterventionDay(interventionOrdinal: int, firstOrdinal: int): (day: int)
    ensures day >= 0
    ensures day >= interventionOrdinal - firstOrdinal
    ensures interventionOrdinal >= firstOrdinal ==> day == interventionOrdinal - firstOrdinal
  {
    if 0 < interventionOrdinal - firstOrdinal then interventionOrdinal - firstOrdinal else 0
  }

  /** What `fit_country` derives from the trimmed frame. */
  datatype Window = Window(dates: seq<int>, active: seq<real>, days: seq<int>, i0: real, interventionDay: int)

  /** The trimmed frame, its day column, I0 and the clamped intervention
      day; an empty frame fails at `iloc[0]`. */
  function FitWindow(dates: seq<int>, active: seq<real>, config: CountryConfig): (r: Outcome<Window>)
    requires |dates| == |active|
    requires Calendar.Valid(config.interventionDate)
    ensures r.Raised? <==> |dates| == 0
    ensures r.Raised? ==> r.exc == IndexError
    ensures r.Returned? ==>
      var idx := SignificantIndex(active);
      var w := r.value;
      w.dates == dates[idx..] && w.active == active[idx..] &&
      |w.days| == |w.active| > 0 && w.days[0] == 0 &&
      w.i0 >= 1.0 && w.interventionDay >= 0 &&
      (forall k :: 0 <= k < idx ==> active[k] <= 10.0) &&
      ((exists k :: 0 <= k < |active| && active[k] > 10.0) ==> active[idx] > 10.0) &&
      ((forall k :: 0 <= k < |active| ==> active[k] <= 10.0) ==> idx == 0)
  {
    if |dates| == 0 then Raised(IndexError)
    else
      var idx := SignificantIndex(active);
      var ds := dates[idx..];
      var xs := active[idx..];
      Returned(Window(ds, xs, Calendar.DayOffsets(ds), InitialInfected(xs[0]),
        InterventionDay(Calendar.Ordinal(config.interventionDate), ds[0])))
  }

  const SimulationDays: int := 120

  /** The objective of `fit_country`: ValueError unless five parameters; a
      non-positive rate costs 1e20; numerical failures cost 1e20; otherwise
      the plain sum of squared errors with extrapolation. */
  function Objective(w: Window, population: real, odeint: Sir.Solver, interp: Interpolant, exp: real -> real,
                     params: seq<real>): (r: Outcome<real>)
    requires population != 0.0 && Sir.ExpLike(exp)
    ensures |params| != 5 ==> r == Raised(ValueError)
    ensures |params| == 5 && (params[0] <= 0.0 || params[1] <= 0.0 || params[2] <= 0.0) ==> r == Returned(Penalty)
    ensures r.Returned? ==> r.value >= 0.0
    ensures r.Raised? && |params| == 5 ==> !NumericalError(r.exc)
  {
    if |params| != 5 then Raised(ValueError)
    else if params[0] <= 0.0 || params[1] <= 0.0 || params[2] <= 0.0 then Returned(Penalty)
    else
      var run := RunSir(params, population, w.i0, SimulationDays, w.interventionDay as real, odeint, exp);
      CatchNumerical(PlainCost(run, interp, Extrapolate, w.days, w.active))
  }

  /** Bounds for [beta_pre, beta_post, gamma, delay, transition]. */
  function Bounds(): seq<Bound>
  {
    [Bound(0.15, 0.8), Bound(0.02, 0.2), Bound(0.04, 0.15), Bound(0.0, 20.0), Bound(2.0, 20.0)]
  }

  /** The `CountryResult` of a search result: reproduction numbers over the
      shared gamma and the percentage by which the intervention cut beta. */
  function Report(name: string, res: OptResult): (r: CountryResult)
    requires InBounds(res.x, Bounds())
    ensures r.country == name && r.sse == res.fun
    ensures r.betaPre == res.x[0] && r.betaPost == res.x[1] && r.gamma == res.x[2]
    ensures r.delay == res.x[3] && r.transition == res.x[4]
    ensures r.r0Pre * r.gamma == r.betaPre && r.r0Post * r.gamma == r.betaPost
    ensures r.betaPost == r.betaPre * (1.0 - r.effectiveness / 100.0)
    ensures r.effectiveness < 100.0
    ensures r.effectiveness > 0.0 <==> r.r0Post < r.r0Pre
  {
    var betaPre := res.x[0];
    var betaPost := res.x[1];
    var gamma := res.x[2];
    Derived.ReproductionNumberOrder(betaPre, betaPost, gamma);
    CountryResult(name, betaPre, betaPost, gamma,
      Derived.ReproductionNumber(betaPre, gamma), Derived.ReproductionNumber(betaPost, gamma),
      Derived.PercentReduction(betaPre, betaPost), res.fun, res.x[3], res.x[4])
  }

  /** `config.get('name', 'Unknown')`. */
  function CountryName(config: CountryConfig): (name: string)
    ensures config.name.Some? ==> name == config.name.value
    ensures config.name.None? ==> name == "Unknown"
  {
    match config.name
    case Some(n) => n
    case None => "Unknown"
  }

  /** `fit_country`: the trimmed window, one search over the box, and the
      result with the trimmed frame. */
  function FitCountry(dates: seq<int>, active: seq<real>, config: CountryConfig, odeint: Sir.Solver,
                      interp: Interpolant, exp: real -> real, search: GlobalMinimizer): (r: Outcome<(CountryResult, Window)>)
    requires |dates| == |active|
    requires Calendar.Valid(config.interventionDate) && config.population != 0.0
    requires Sir.ExpLike(exp) && GlobalRespectsBounds(search)
    ensures r.Raised? <==> |dates| == 0
    ensures r.Returned? ==>
      var w := FitWindow(dates, active, config).value;
      var res := search((p: seq<real>) => Objective(w, config.population, odeint, interp, exp, p), Bounds());
      r.value.1 == w && r.value.0 == Report(CountryName(config), res)
  {
    match FitWindow(dates, active, config)
    case Raised(e) => Raised(e)
    case Returned(w) =>
      var res := search((p: seq<real>) => Objective(w, config.population, odeint, interp, exp, p), Bounds());
      Returned((Report(CountryName(config), res), w))
  }

  /** Both configured intervention dates are real calendar dates, and
      Italy's lies 16 days after its start date. */
  lemma ConfiguredDates()
    ensures Calendar.Valid(Italy().interventionDate) && Calendar.Valid(SouthKorea().interventionDate)
    ensures Calendar.DaysBetween(Italy().startDate, Italy().interventionDate) == 16
    ensures Calendar.DaysBetween(SouthKorea().startDate, SouthKorea().interventionDate) == 2
  {
  }
}
