/** src/analyze_uk.py: the step-beta SIR fit to United Kingdom data taken
    straight from the Johns Hopkins series.  Active cases are not clipped,
    the simulation is downsampled to whole days with `np.interp`, and the
    objective has its own penalty (1e9, only for negative parameters) and
    no exception handler. */
module UkAnalysis {
  import opened Common
  import opened Extrema
  import opened LeastSquares
  import opened Optimize
  import Sir
  import Calendar

  const Population: real := 67081000.0
  const StartDate: Calendar.Date := Calendar.Date(2020, 3, 1)
  const EndDate: Calendar.Date := Calendar.Date(2020, 6, 30)
  const LockdownDate: Calendar.Date := Calendar.Date(2020, 3, 23)

  /** The penalty of this script's objective. */
  const UkPenalty: real := 1e9

  /** One date of the three series after `pd.concat`: a series without that
      date leaves NaN, written None. */
  datatype JhuDay = JhuDay(date: int, confirmed: Option<real>, deaths: Option<real>, recovered: Option<real>)

  /** One row of the returned frame. */
  datatype UkDay = UkDay(date: int, confirmed: real, deaths: real, recovered: real, active: real)

  /** `fillna(0)` on one cell. */
  function FillNa(x: Option<real>): (v: real)
    ensures x.Some? ==> v == x.value
    ensures x.None? ==> v == 0.0
  {
    match x
    case Some(c) => c
    case None => 0.0
  }

  function DateOf(d: UkDay): int
  {
    d.date
  }

  /** The combined frame after `fillna(0)` and the `active` column: one row
      per input date, in input order, with missing counts 0 and active cases
      confirmed - deaths - recovered. */
  function Filled(combined: seq<JhuDay>): (rows: seq<UkDay>)
    ensures |rows| == |combined|
    ensures forall k :: 0 <= k < |rows| ==>
      rows[k].date == combined[k].date &&
      rows[k].confirmed == FillNa(combined[k].confirmed) &&
      rows[k].deaths == FillNa(combined[k].deaths) &&
      rows[k].recovered == FillNa(combined[k].recovered) &&
      rows[k].active == rows[k].confirmed - rows[k].deaths - rows[k].recovered
  {
    seq(|combined|, k requires 0 <= k < |combined| =>
      var c, d, r := FillNa(combined[k].confirmed), FillNa(combined[k].deaths), FillNa(combined[k].recovered);
      UkDay(combined[k].date, c, d, r, c - d - r))
  }

  /** `load_uk_data` after reading: fill missing counts with 0, add
      `active = confirmed - deaths - recovered` (not clipped), and keep the
      dates from 1 March to 30 June 2020, both included. */
  method LoadUkData(combined: seq<JhuDay>) returns (df: seq<UkDay>)
    ensures df == Calendar.DateWindow(Filled(combined), DateOf, Calendar.Ordinal(StartDate), Calendar.Ordinal(EndDate))
    ensures |df| <= |combined|
    ensures forall k :: 0 <= k < |df| ==> df[k].active == df[k].confirmed - df[k].deaths - df[k].recovered
    ensures forall k :: 0 <= k < |df| ==>
      Calendar.Ordinal(StartDate) <= df[k].date <= Calendar.Ordinal(EndDate)
    ensures forall k :: 0 <= k < |combined| ==>
      (Calendar.Ordinal(StartDate) <= combined[k].date <= Calendar.Ordinal(EndDate) <==>
       UkDay(combined[k].date, FillNa(combined[k].confirmed), FillNa(combined[k].deaths), FillNa(combined[k].recovered),
             FillNa(combined[k].confirmed) - FillNa(combined[k].deaths) - FillNa(combined[k].recovered)) in df)
  {
    var filled := seq(|combined|, k requires 0 <= k < |combined| =>
      UkDay(combined[k].date, FillNa(combined[k].confirmed), FillNa(combined[k].deaths), FillNa(combined[k].recovered), 0.0));
    var withActive := seq(|filled|, k requires 0 <= k < |filled| =>
      filled[k].(active := filled[k].confirmed - filled[k].deaths - filled[k].recovered));
    assert withActive == Filled(combined);
    df := Calendar.DateWindow(withActive, DateOf, Calendar.Ordinal(StartDate), Calendar.Ordinal(EndDate));
    forall k | 0 <= k < |df|
      ensures df[k].active == df[k].confirmed - df[k].deaths - df[k].recovered
      ensures Calendar.Ordinal(StartDate) <= df[k].date <= Calendar.Ordinal(EndDate)
    {
      assert df[k] in df;
    }
    forall k | 0 <= k < |combined|
      ensures Calendar.Ordinal(StartDate) <= combined[k].date <= Calendar.Ordinal(EndDate) <==>
        UkDay(combined[k].date, FillNa(combined[k].confirmed), FillNa(combined[k].deaths), FillNa(combined[k].recovered),
              FillNa(combined[k].confirmed) - FillNa(combined[k].deaths) - FillNa(combined[k].recovered)) in df
    {
      assert withActive[k] in withActive;
      assert withActive[k].date == combined[k].date;
    }
  }

  /** `sir_derivatives`: the shared field; t is unused. */
  function Derivatives(y: Sir.State, t: real, n: real, beta: real, gamma: real): (d: Sir.State)
    requires n != 0.0
    ensures d == Sir.Derivatives(y, n, beta, gamma)
    ensures Sir.Total(d) == 0.0
  {
    Sir.Derivatives(y, n, beta, gamma)
  }

  /** The inner `derivatives(y, t)` of `run_sir_timevarying`: beta_pre
      strictly before the lockdown day, beta_post from it on. */
  function StepDerivatives(y: Sir.State, t: real, n: real, betaPre: real, betaPost: real, gamma: real, lockdownDay: real): (d: Sir.State)
    requires n != 0.0
    ensures d == Sir.DerivativesAt(y, t, n, Sir.MakePiecewiseBeta(betaPre, betaPost, lockdownDay), gamma)
    ensures t < lockdownDay ==> d == Derivatives(y, t, n, betaPre, gamma)
    ensures lockdownDay <= t ==> d == Derivatives(y, t, n, betaPost, gamma)
  {
    var beta := if t < lockdownDay then betaPre else betaPost;
    Sir.Derivatives(y, n, beta, gamma)
  }

  /** The solver run of `run_sir_timevarying`: ValueError unless three
      parameters; start [N - I0, I0, 0] on `np.linspace(0, days, days * 10 + 1)`. */
  function FineRun(params: seq<real>, n: real, i0: real, days: int, lockdownDay: real, odeint: Sir.Solver): (r: Outcome<Sir.Trajectory>)
    requires n != 0.0
    ensures |params| != 3 ==> r == Raised(ValueError)
    ensures |params| == 3 ==>
      r == Sir.RunSirTimeVarying(Sir.MakePiecewiseBeta(params[0], params[1], lockdownDay), params[2], n, i0, days, odeint, 10)
  {
    if |params| != 3 then Raised(ValueError)
    else
      var t := Sir.Linspace(0.0, days as real, days * 10 + 1);
      match t
      case Raised(e) => Raised(e)
      case Returned(grid) =>
        Sir.Solve(Returned(Sir.Setup(Sir.State(n - i0, i0, 0.0), grid)),
          Sir.ScheduledField(n, Sir.MakePiecewiseBeta(params[0], params[1], lockdownDay), params[2]), odeint)
  }

  /** `np.arange(days + 1)`. */
  function WholeDays(days: int): (t: seq<real>)
    ensures |t| == if days + 1 > 0 then days + 1 else 0
    ensures forall k :: 0 <= k < |t| ==> t[k] == k as real
  {
    if days + 1 > 0 then seq(days + 1, k requires 0 <= k < days + 1 => k as real) else []
  }

  /** `np.interp(t_days, t, column)`: ValueError when the sample points are
      empty or do not match the column's length. */
  function InterpColumn(interp: Interpolant, x: seq<real>, t: seq<real>, column: seq<real>): (r: Outcome<seq<real>>)
    ensures r.Raised? <==> |t| == 0 || |t| != |column|
    ensures r.Raised? ==> r.exc == ValueError
    ensures r.Returned? ==> |r.value| == |x| && forall k :: 0 <= k < |x| ==> r.value[k] == interp(t, column, x[k])
  {
    if |t| == 0 || |t| != |column| then Raised(ValueError)
    else Returned(seq(|x|, k requires 0 <= k < |x| => interp(t, column, x[k])))
  }

  /** Downsample a fine run to whole days 0..days. */
  function Downsample(fine: Sir.Trajectory, days: int, interp: Interpolant): (r: Outcome<Sir.Trajectory>)
    ensures r.Raised? <==> |fine.t| == 0 || |fine.t| != |fine.s| || |fine.t| != |fine.i| || |fine.t| != |fine.r|
    ensures r.Returned? ==> r.value.t == WholeDays(days) && |r.value.s| == |r.value.i| == |r.value.r| == |WholeDays(days)|
  {
    var x := WholeDays(days);
    match InterpColumn(interp, x, fine.t, fine.s)
    case Raised(e) => Raised(e)
    case Returned(s) =>
      match InterpColumn(interp, x, fine.t, fine.i)
      case Raised(e) => Raised(e)
      case Returned(i) =>
        match InterpColumn(interp, x, fine.t, fine.r)
        case Raised(e) => Raised(e)
        case Returned(rr) => Returned(Sir.Trajectory(x, s, i, rr))
  }

  /** `run_sir_timevarying(params, N, I0, days, lockdown_day)`. */
  function RunSirTimeVarying(params: seq<real>, n: real, i0: real, days: int, lockdownDay: real,
                             odeint: Sir.Solver, interp: Interpolant): (r: Outcome<Sir.Trajectory>)
    requires n != 0.0
    ensures FineRun(params, n, i0, days, lockdownDay, odeint).Raised? ==> r == Raised(FineRun(params, n, i0, days, lockdownDay, odeint).exc)
    ensures FineRun(params, n, i0, days, lockdownDay, odeint).Returned? ==>
      r == Downsample(FineRun(params, n, i0, days, lockdownDay, odeint).value, days, interp)
  {
    match FineRun(params, n, i0, days, lockdownDay, odeint)
    case Raised(e) => Raised(e)
    case Returned(fine) => Downsample(fine, days, interp)
  }

  /** What the model assumes of `np.interp`: on increasing sample points it
      returns the sample value at a sample point. */
  ghost predicate HitsKnots(interp: Interpolant)
  {
    forall t: seq<real>, y: seq<real>, k: int :: Sir.Increasing(t) && |t| == |y| && 0 <= k < |t| ==> interp(t, y, t[k]) == y[k]
  }

  /** Downsampling a run on the ten-per-day grid reads every whole day k off
      fine sample 10k exactly. */
  lemma DownsampleOnGrid(fine: Sir.Trajectory, days: int, interp: Interpolant)
    requires HitsKnots(interp)
    requires days >= 1
    requires fine.t == Sir.TimeGrid(days, 10).value
    requires |fine.s| == |fine.i| == |fine.r| == |fine.t|
    ensures Downsample(fine, days, interp).Returned?
    ensures var coarse := Downsample(fine, days, interp).value;
      |coarse.i| == days + 1 &&
      forall k :: 0 <= k <= days ==>
        coarse.s[k] == fine.s[10 * k] && coarse.i[k] == fine.i[10 * k] && coarse.r[k] == fine.r[10 * k]
  {
    Sir.TimeGridIncreasing(days, 10);
    Sir.TimeGridShape(days, 10, 0);
    var coarse := Downsample(fine, days, interp).value;
    forall k | 0 <= k <= days
      ensures coarse.s[k] == fine.s[10 * k] && coarse.i[k] == fine.i[10 * k] && coarse.r[k] == fine.r[10 * k]
    {
      Sir.TimeGridShape(days, 10, k);
      assert fine.t[k * 10] == k as real;
      assert WholeDays(days)[k] == fine.t[10 * k];
    }
  }

  /** `any(p < 0 for p in params)`: zero is allowed. */
  predicate AnyNegative(params: seq<real>)
  {
    exists k :: 0 <= k < |params| && params[k] < 0.0
  }

  /** The cost of a run: the sum of squares over the first `len(y_data)`
      model values; a model shorter than the data fails to subtract. */
  function TruncatedCost(run: Sir.Trajectory, yData: seq<real>): (r: Outcome<real>)
    ensures r.Raised? <==> |run.i| < |yData|
    ensures r.Returned? ==> r.value >= 0.0 && r.value == Sse(run.i[..|yData|], yData)
  {
    Residual(run.i[..MinNat(|yData|, |run.i|)], yData)
  }

  /** The objective of `fit_model`: ValueError unless three parameters; 1e9
      when a parameter is negative; otherwise the truncated sum of squares.
      There is no handler, so every failure of the run escapes. */
  function Objective(yData: seq<real>, i0: real, days: int, lockdownDay: real, odeint: Sir.Solver,
                     interp: Interpolant, params: seq<real>): (r: Outcome<real>)
    ensures |params| != 3 ==> r == Raised(ValueError)
    ensures |params| == 3 && AnyNegative(params) ==> r == Returned(UkPenalty)
    ensures |params| == 3 && (forall k :: 0 <= k < 3 ==> params[k] >= 0.0) ==>
      var run := RunSirTimeVarying(params, Population, i0, days, lockdownDay, odeint, interp);
      (run.Raised? ==> r == Raised(run.exc)) && (run.Returned? ==> r == TruncatedCost(run.value, yData))
    ensures r.Returned? ==> r.value >= 0.0
  {
    if |params| != 3 then Raised(ValueError)
    else if AnyNegative(params) then Returned(UkPenalty)
    else
      match RunSirTimeVarying(params, Population, i0, days, lockdownDay, odeint, interp)
      case Raised(e) => Raised(e)
      case Returned(run) => TruncatedCost(run, yData)
  }

  /** What `fit_model` reads from the frame: the date span, the lockdown
      offset from the first date, and I0 = the first active value. */
  datatype FitSetup = FitSetup(days: int, lockdownDay: int, i0: real)

  function SetupFit(dates: seq<int>, active: seq<real>): (r: Outcome<FitSetup>)
    requires |dates| == |active|
    ensures r.Raised? <==> |dates| == 0
    ensures r.Raised? ==> r.exc == IndexError
    ensures r.Returned? ==> r.value.days >= 0 && r.value.i0 == active[0]
    ensures r.Returned? ==> forall k :: 0 <= k < |dates| ==> dates[k] - IntMin(dates) <= r.value.days
    ensures r.Returned? ==> r.value.lockdownDay + IntMin(dates) == Calendar.Ordinal(LockdownDate)
  {
    if |dates| == 0 then Raised(IndexError)
    else Returned(FitSetup(IntMax(dates) - IntMin(dates), Calendar.Ordinal(LockdownDate) - IntMin(dates), active[0]))
  }

  /** `[(0.1, 1.0), (0.01, 0.5), (0.01, 0.2)]` from `x0 = [0.4, 0.1, 0.1]`. */
  function Bounds(): seq<Bound>
  {
    [Bound(0.1, 1.0), Bound(0.01, 0.5), Bound(0.01, 0.2)]
  }

  const Start: seq<real> := [0.4, 0.1, 0.1]

  /** The closure `fit_model` hands to the optimiser. */
  function FitObjective(active: seq<real>, setup: FitSetup, odeint: Sir.Solver, interp: Interpolant): Objective
  {
    (p: seq<real>) => Objective(active, setup.i0, setup.days, setup.lockdownDay as real, odeint, interp, p)
  }

  /** `fit_model`: one L-BFGS-B run from the fixed start; its `x`. */
  function FitModel(dates: seq<int>, active: seq<real>, odeint: Sir.Solver, interp: Interpolant, minimize: Minimizer): (r: Outcome<seq<real>>)
    requires |dates| == |active|
    requires RespectsBounds(minimize)
    ensures r.Raised? <==> |dates| == 0
    ensures r.Returned? ==> InBounds(r.value, Bounds()) && |r.value| == 3
    ensures r.Returned? ==>
      r.value == minimize(FitObjective(active, SetupFit(dates, active).value, odeint, interp), Start, Bounds()).x
  {
    match SetupFit(dates, active)
    case Raised(e) => Raised(e)
    case Returned(setup) => Returned(minimize(FitObjective(active, setup, odeint, interp), Start, Bounds()).x)
  }
}
