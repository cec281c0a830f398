# SIR fitting of the first COVID-19 wave, in Dafny

This project models the core of a Python tutorial repository. The repository fits
SIR (susceptible–infected–recovered) epidemic models to Johns Hopkins CSSE case
counts. The model covers:

- the SIR vector field and its time-varying twin (`src/sir/core.py`);
- the start state and time grid the runners hand to the ODE solver;
- the step and logistic schedules of the transmission rate beta;
- the shared objective factory (`src/sir/fitting.py`);
- the five fitting scripts:
  - the constant-beta fit (`src/fit_sir_model.py`);
  - the step-beta fit (`src/fit_sir_timevarying.py`);
  - the smooth, weighted fit (`src/fit_sir_improved.py`);
  - the two-country comparison (`src/compare_countries.py`);
  - the United Kingdom analysis (`src/analyze_uk.py`);
- the data preprocessing (`data/preprocess_covid_data.py`);
- the stand-alone simulation example (`examples/sir_simulation/`).

Arithmetic is exact, over `real`; counts in the preprocessing are `int`. Python
exceptions are values: `Outcome<T>` is either `Returned(value)` or
`Raised(exc)`. Foreign numerical code is passed in as function parameters. This
covers `odeint` (`Sir.Solver`), linear interpolation (`LeastSquares.Interpolant`),
L-BFGS-B (`Optimize.Minimizer`), differential evolution
(`Optimize.GlobalMinimizer`) and `np.exp`. The model states only what the scripts
build around those calls. Dates are day ordinals (`Calendar.Ordinal`).

The imperative parts are methods with loop invariants:

- `ConstantFit.FitSirModel` and `TimeVaryingFit.FitTimeVaryingSir` are the
  multi-start loops. Each is proved to keep the first result with the least
  `fun` (strict `<`).
- `ImprovedFit.LockdownWeightArray` is the in-place weight assignment.
- `Preprocess.DeriveColumns` and `Preprocess.PreprocessCovidData` are the
  column-by-column frame updates.
- `UkAnalysis.LoadUkData` is the UK frame pipeline.
- `SimMain.RunSensitivityAnalysis` is the beta sweep.

Interpolation extrapolates in some scripts and not in others. The comments at
`src/sir/fitting.py:83` ("avoid extrapolation errors") and `src/sir/fitting.py:97`
("no extrapolation needed") speak of the shared objective factory only, which
enforces them with `bounds_error=True`. `fit_sir_model.py`, `fit_sir_timevarying.py`,
`fit_sir_improved.py` and `compare_countries.py` use `fill_value='extrapolate'`.
`analyze_uk.py` uses `np.interp`, which clamps. The model follows the code: see
`LeastSquares.OutOfRange`.

## Model

| member | source | states |
|---|---|---|
| Sir.Derivatives | src/sir/core.py:13-45 | dS+dI+dR = 0; dI = -dS - gamma I; dS <= 0 for non-negative beta, S, I and N > 0; dR >= 0 for non-negative gamma and I; I = 0 gives the zero vector |
| Sir.DerivativesAt | src/sir/core.py:94-129 | the time-varying field is the constant field with beta replaced by beta_func(t); it conserves the total |
| Sir.InitialState | src/sir/core.py:80-82 | [N - I0, I0, 0] sums to N and starts with nobody recovered |
| Sir.Linspace | src/sir/core.py:85 | num points, raises ValueError iff num < 0, first point start, last point stop, constant spacing (stop - start)/(num - 1) |
| Sir.TimeGrid | src/sir/core.py:85 | the runners' grid is linspace(0, days, days*resolution + 1) and raises exactly when that count is negative |
| Sir.GridPoint | src/sir/core.py:85 | sample k*resolution of the grid is exactly day k |
| Sir.TimeGridShape | src/sir/core.py:85 | for days >= 0 the grid has days*resolution + 1 points from 0 to days, with day k at index k*resolution |
| Sir.TimeGridIncreasing | src/sir/core.py:85 | over at least one day the grid is strictly increasing |
| Sir.RunSetup | src/sir/core.py:48-91 | the solver receives [N - I0, I0, 0] (sum N) and the time grid; a negative point count raises |
| Sir.Columns | src/sir/core.py:89 | solution.T: one S, I and R value per solver row, taken from that row |
| Sir.Solve | src/sir/core.py:88-91 | a failing setup or solver propagates its exception; a returned trajectory carries the requested time grid |
| Sir.PiecewiseBeta | src/sir/core.py:199-200 | beta_pre exactly when t < transition_day, beta_post from the transition day on |
| Sir.MakePiecewiseBeta | src/sir/core.py:177-201 | the returned closure gives beta_pre for every t before the transition day and beta_post for every other t |
| Sir.EffectiveWidth | src/sir/core.py:234 | max(width, 0.1) is at least 0.1 and leaves widths >= 0.1 unchanged |
| Sir.LogisticBounds | src/sir/core.py:235 | 1/(1 + e) lies strictly between 0 and 1 for positive e |
| Sir.BlendBounds | src/sir/core.py:236 | beta_post + (beta_pre - beta_post) s stays between the two rates for 0 < s < 1, strictly when they differ |
| Sir.SigmoidBeta | src/sir/core.py:232-236 | with exp positive, beta(t) lies between beta_post and beta_pre and equals their midpoint at transition_day + delay |
| Sir.MakeSigmoidBeta | src/sir/core.py:204-237 | the closure stays between the rates for every t and passes the midpoint at transition_day + delay |
| Fitting.CreateSseObjective | src/sir/fitting.py:79-87 | raises ValueError iff there are no data days or sim_days < max(data_days); otherwise every data day is within the horizon and missing weights become all ones |
| Fitting.Evaluate | src/sir/fitting.py:89-109 | 1e20 without simulating when one of the first three params is <= 0; numerical exceptions become 1e20; no numerical exception escapes; non-negative weights give a non-negative cost; with accepted rates, weights of the data's length and a model that matches the data at every day, the cost is 0 |
| Fitting.DefaultWeightsGivePlainSse | src/sir/fitting.py:86-103 | without weights the objective equals the plain SSE behind the same guard and handler |
| Fitting.OutOfRangeDayGivesPenalty | src/sir/fitting.py:98-107 | a data day outside the simulated grid is not extrapolated: the objective returns 1e20 |
| Fitting.ValidatedHorizonCoversDays | src/sir/fitting.py:79-84 | once the horizon check passes, every non-negative data day lies inside the run_sir grid |
| LeastSquares.Sse | src/sir/fitting.py:102 | the sum of squared errors is non-negative and at least its first term |
| LeastSquares.WeightedSseNonNegative | src/sir/fitting.py:102 | non-negative weights give a non-negative weighted SSE |
| LeastSquares.SseZeroOnMatch | src/sir/fitting.py:102 | the SSE is 0 when the model matches every data point |
| LeastSquares.WeightedSseZeroOnMatch | src/sir/fitting.py:101-103 | the weighted SSE is 0 when the model matches every data point, whatever the weights |
| LeastSquares.Ones | src/sir/fitting.py:87 | np.ones_like: one weight 1.0 per data point |
| LeastSquares.UnitWeights | src/sir/fitting.py:86-87 | unit weights give the unweighted SSE |
| LeastSquares.WeightedSseBetween | src/fit_sir_improved.py:109-114 | weights in [1, c] put the weighted SSE between the plain SSE and c times it |
| LeastSquares.AsReals | src/sir/fitting.py:99 | the integer data days as the interpolant's real abscissae |
| LeastSquares.Interp1d | src/sir/fitting.py:98-99 | ValueError iff the knots are too few or mismatched, or a point lies outside them with bounds_error=True; otherwise one interpolated value per point |
| LeastSquares.WeightedResidual | src/sir/fitting.py:102 | ValueError iff the three arrays differ in length; non-negative with non-negative weights; 0 when the model equals the data |
| LeastSquares.Residual | src/fit_sir_model.py:171 | ValueError iff model and data differ in length; non-negative; 0 when they match |
| LeastSquares.UnitWeightedResidual | src/sir/fitting.py:86-102 | unit weights of the data's length give the unweighted residual, errors included |
| LeastSquares.ModelAtDays | src/fit_sir_model.py:162-168 | a failed run propagates; otherwise the interpolated I column at the data days |
| LeastSquares.FitCost | src/sir/fitting.py:95-103 | run failures propagate, interpolation failures raise ValueError, the cost is non-negative with non-negative weights, and 0 when the interpolated model equals the data |
| LeastSquares.PlainCost | src/fit_sir_model.py:162-173 | the same for the unweighted cost, 0 when the interpolated model equals the data |
| LeastSquares.UnitWeightedCost | src/sir/fitting.py:86-103 | the weighted cost with unit weights is the plain cost |
| LeastSquares.CatchNumerical | src/sir/fitting.py:105-107 | ValueError, RuntimeError and FloatingPointError become 1e20; values and other exceptions pass through |
| LeastSquares.CatchAll | src/fit_sir_timevarying.py:126-127 | the bare except turns every exception into 1e20 |
| LeastSquares.CaughtCostRange | src/sir/fitting.py:94-107 | behind the handler the cost is non-negative or the run's own non-numerical exception |
| Extrema.FirstArgMax | examples/sir_simulation/main.py:40 | np.argmax: an index of a largest element, with every earlier element strictly smaller |
| Extrema.FirstArgMin | src/fit_sir_model.py:243-244 | the strict-< scan keeps the first index of a smallest value |
| Extrema.FirstArgMinSnoc | src/fit_sir_model.py:243-244 | one more scan step replaces the candidate only on a strictly smaller value |
| Extrema.IntMax | src/sir/fitting.py:79 | max of the data days is an element and bounds every element |
| Optimize.Runs | src/fit_sir_model.py:233-242 | one minimize result per start, in start order |
| Optimize.BestSoFar | src/fit_sir_model.py:232-246 | the kept result is the first one with the least fun, and none exists before any run |
| Optimize.KeepExtendsBest | src/fit_sir_model.py:243-244 | `best is None or result.fun < best.fun` computes that kept result incrementally |
| Optimize.RunsSnoc | src/fit_sir_model.py:233-242 | one more start appends its result |
| Optimize.BestOfRuns | src/fit_sir_model.py:232-246 | after at least one start the kept result exists, lies in the bounds and is no worse than any start's result |
| Derived.ReproductionNumber | src/fit_sir_model.py:249 | R0 * gamma = beta; R0 > 1 iff beta > gamma for positive gamma |
| Derived.PercentReduction | src/fit_sir_timevarying.py:204-205 | (1 - value/reference)*100 is positive iff value < reference and at most 100 iff value >= 0 |
| Derived.DoublingTime | src/fit_sir_model.py:295-298 | reported iff abs(beta - gamma) > 0.001, and then it times (beta - gamma) is ln 2 |
| Derived.ReproductionNumberOrder | src/fit_sir_timevarying.py:152-153 | over a shared positive gamma, R0_post < R0_pre iff beta_post < beta_pre |
| Calendar.DaysInMonth | src/fit_sir_timevarying.py:29-31 | 28 to 31 days; February has 29 iff the year is a leap year |
| Calendar.NextDay | src/fit_sir_timevarying.py:31 | the next calendar day is a valid date |
| Calendar.MonthTable | src/fit_sir_timevarying.py:31 | the cumulative month table agrees with the month lengths |
| Calendar.YearLength | src/fit_sir_timevarying.py:31 | a year has 366 days iff it is a leap year |
| Calendar.NextDayOrdinal | src/fit_sir_timevarying.py:31 | the next day is one ordinal later, so date differences count days |
| Calendar.DayOffsets | src/fit_sir_model.py:200 | days since the first row: 0 first, and date k = first date + day k |
| Calendar.DateWindow | data/preprocess_covid_data.py:152-154 | keeps exactly the rows with start <= date <= end |
| Calendar.DateWindowAppend | data/preprocess_covid_data.py:152-154 | the filter commutes with concatenation, so row order is kept |
| ConstantFit.Derivatives | src/fit_sir_model.py:44-76 | the script's field is the shared field and conserves the total |
| ConstantFit.RunSirSimulation | src/fit_sir_model.py:79-119 | [N - I0, I0, 0] on linspace(0, days, days + 1): run_sir with one point per day |
| ConstantFit.Objective | src/fit_sir_model.py:153-181 | ValueError unless two params; 1e20 when beta <= 0 or gamma <= 0; non-negative; numerical failures become 1e20 and the rest propagate |
| ConstantFit.StartGrid | src/fit_sir_model.py:233-235 | exactly 12 starts |
| ConstantFit.StartAt | src/fit_sir_model.py:233-235 | start 3g + b is [beta b, gamma g]: gamma outer, beta inner |
| ConstantFit.Report | src/fit_sir_model.py:248-258 | beta and gamma within the bounds, R0 * gamma = beta, sse, success and message from the kept result |
| ConstantFit.FitSirModel | src/fit_sir_model.py:184-258 | IndexError iff the frame is empty; otherwise the report of the first minimum over the 12 starts, in bounds and no worse than any start |
| TimeVaryingFit.LockdownDay | src/fit_sir_timevarying.py:29-31 | the days from 22 February to 9 March 2020 are 16 |
| TimeVaryingFit.Derivatives | src/fit_sir_timevarying.py:46-70 | beta_pre before the lockdown day, beta_post from it on; the total is conserved |
| TimeVaryingFit.RunSirTimeVarying | src/fit_sir_timevarying.py:73-95 | [N - I0, I0, 0] on days*10 + 1 points with the step schedule |
| TimeVaryingFit.Objective | src/fit_sir_timevarying.py:112-127 | raises iff the param count is not 3; 1e20 when a param is <= 0 or on any exception; otherwise the SSE |
| TimeVaryingFit.StartGrid | src/fit_sir_timevarying.py:133-136 | exactly 27 starts |
| TimeVaryingFit.StartAt | src/fit_sir_timevarying.py:133-136 | start 9p + 3q + g is [pre p, post q, gamma g]: pre outermost, gamma innermost |
| TimeVaryingFit.GridStep | src/fit_sir_timevarying.py:134-144 | the run from start (p, q, g) is run 9p + 3q + g, and keeping the strictly better result gives the best of the longer list |
| TimeVaryingFit.TryGammaStarts | src/fit_sir_timevarying.py:136-144 | the innermost loop adds the three gamma starts' runs and leaves the first minimum of all runs so far |
| TimeVaryingFit.GridDone | src/fit_sir_timevarying.py:134-146 | after the 27 starts a best result exists, lies within the bounds and is no worse than any start |
| TimeVaryingFit.Report | src/fit_sir_timevarying.py:146-156 | the rates of the kept result, R0_pre = beta_pre/gamma, R0_post = beta_post/gamma, sse and success |
| TimeVaryingFit.FitTimeVaryingSir | src/fit_sir_timevarying.py:98-156 | IndexError iff the frame is empty; otherwise the report of the first minimum over the 27 starts, in bounds and no worse than any start |
| TimeVaryingFit.Improvement | src/fit_sir_timevarying.py:204 | (1 - sse/const_sse)*100 is positive iff the step fit has the smaller SSE |
| TimeVaryingFit.InterventionEffect | src/fit_sir_timevarying.py:205 | (1 - beta_post/beta_pre)*100 is positive iff beta fell, and at most 100 |
| TimeVaryingFit.ReportedEffect | src/fit_sir_timevarying.py:146-156 | for every reported fit the effect is defined, at most 100, and positive iff R0 fell |
| ImprovedFit.SigmoidBeta | src/fit_sir_improved.py:41-57 | width clamped to 0.1, effective day lockdown_day + delay; beta between the rates and at the midpoint on the effective day |
| ImprovedFit.Derivatives | src/fit_sir_improved.py:60-70 | the field with the sigmoid beta; the total is conserved |
| ImprovedFit.RunSirSmooth | src/fit_sir_improved.py:73-83 | [N - I0, I0, 0] on days*10 + 1 points, lockdown on day 16 |
| ImprovedFit.LockdownWeights | src/fit_sir_improved.py:109-110 | weight 3.0 iff the data day is before day 16, 1.0 iff it is not |
| ImprovedFit.LockdownWeightArray | src/fit_sir_improved.py:109-110 | the array filled with ones, then masked in place, equals those weights |
| ImprovedFit.WeightedCost | src/fit_sir_improved.py:98-114 | run failures propagate, a mismatched mask raises IndexError, the cost is non-negative |
| ImprovedFit.WeightedCostBetween | src/fit_sir_improved.py:109-114 | the weighted cost lies between the plain SSE and three times it |
| ImprovedFit.Objective | src/fit_sir_improved.py:95-117 | ValueError unless five params; 1e20 for a non-positive rate or a caught exception; otherwise the weighted cost |
| ImprovedFit.Report | src/fit_sir_improved.py:137-148 | the parameters of the search result, R0_pre and R0_post over gamma, ordered as the betas |
| ImprovedFit.FitImprovedSir | src/fit_sir_improved.py:86-148 | IndexError iff the frame is empty; otherwise the report of the search, with delay in [5, 20] and width in [3, 15] |
| ImprovedFit.FittedScheduleMidpoint | src/fit_sir_improved.py:51-57 | inside the bounds the width clamp never fires, and the fitted beta is at the midpoint on day 16 + delay |
| CountryComparison.SigmoidBeta | src/compare_countries.py:58-62 | the width is at least 0.1; beta between the rates and at the midpoint on the effective day |
| CountryComparison.Derivatives | src/compare_countries.py:65-71 | the field with the sigmoid beta; the total is conserved |
| CountryComparison.RunSir | src/compare_countries.py:74-81 | ValueError unless five params; otherwise [N - I0, I0, 0] on days*10 + 1 points |
| CountryComparison.FirstSignificant | src/compare_countries.py:89-90 | none iff no row has more than 10 active cases; otherwise the first such row |
| CountryComparison.SignificantIndex | src/compare_countries.py:89-90 | the window start is the first row with more than 10 active cases when one exists (that row qualifies, every earlier row has at most 10), and row 0 when none qualifies |
| CountryComparison.InitialInfected | src/compare_countries.py:95 | I0 = max(first active, 1) is at least 1 |
| CountryComparison.InterventionDay | src/compare_countries.py:97-98 | the intervention day is clamped to >= 0 and is exact when not negative |
| CountryComparison.FitWindow | src/compare_countries.py:86-98 | IndexError iff the frame is empty; otherwise the frame from the first row with more than 10 active cases (row 0 when none has), with day 0 first, I0 >= 1 and a non-negative intervention day |
| CountryComparison.Objective | src/compare_countries.py:100-113 | ValueError unless five params; 1e20 for a non-positive rate; non-negative; only non-numerical exceptions escape |
| CountryComparison.Report | src/compare_countries.py:126-139 | R0s over gamma; beta_post = beta_pre(1 - effectiveness/100); effectiveness < 100 and positive iff R0 fell |
| CountryComparison.CountryName | src/compare_countries.py:129 | the configured name, or 'Unknown' |
| CountryComparison.FitCountry | src/compare_countries.py:84-139 | IndexError iff the frame is empty; otherwise the report of one search over the trimmed window |
| CountryComparison.ConfiguredDates | src/compare_countries.py:24-41 | both intervention dates are real dates, 16 and 2 days after the start dates |
| UkAnalysis.FillNa | src/analyze_uk.py:62 | a missing count becomes 0; a present one is kept |
| UkAnalysis.Filled | src/analyze_uk.py:61-68 | one row per combined date, in order, missing counts 0 and active = confirmed - deaths - recovered, not clipped |
| UkAnalysis.LoadUkData | src/analyze_uk.py:61-72 | the result is exactly the date filter of the filled rows: a filled row is kept iff its date is in [1 March, 30 June 2020], in input order and multiplicity, and nothing else appears |
| UkAnalysis.Derivatives | src/analyze_uk.py:77-82 | the shared field; the total is conserved |
| UkAnalysis.StepDerivatives | src/analyze_uk.py:89-95 | beta_pre before the lockdown day, beta_post from it on |
| UkAnalysis.FineRun | src/analyze_uk.py:86-101 | ValueError unless three params; otherwise [N - I0, I0, 0] on days*10 + 1 points with the step schedule |
| UkAnalysis.WholeDays | src/analyze_uk.py:103 | np.arange(days + 1): the whole days 0..days |
| UkAnalysis.InterpColumn | src/analyze_uk.py:104-106 | ValueError iff the sample points are empty or mismatched; otherwise one value per day |
| UkAnalysis.Downsample | src/analyze_uk.py:103-107 | the run resampled at whole days, with one value per day in each column |
| UkAnalysis.RunSirTimeVarying | src/analyze_uk.py:85-109 | the fine run's failure propagates; otherwise its downsampled trajectory |
| UkAnalysis.DownsampleOnGrid | src/analyze_uk.py:97-107 | on the ten-per-day grid the value at whole day k is sample 10k of the fine run |
| UkAnalysis.TruncatedCost | src/analyze_uk.py:124-126 | ValueError (the subtraction fails) iff the run is shorter than the data; otherwise the SSE over the first len(y_data) days |
| UkAnalysis.Objective | src/analyze_uk.py:120-127 | ValueError unless three params; 1e9 when a param is negative (zero allowed); otherwise the truncated cost, non-negative |
| UkAnalysis.SetupFit | src/analyze_uk.py:113-118 | IndexError iff the frame is empty; the horizon covers every data day and the lockdown day counts from the first date |
| UkAnalysis.FitModel | src/analyze_uk.py:112-134 | IndexError iff the frame is empty; otherwise the optimiser's x from [0.4, 0.1, 0.1], three values inside the bounds |
| Preprocess.CountryRows | data/preprocess_covid_data.py:72 | exactly the rows of the country, non-empty iff some row names it |
| Preprocess.ColumnSumAppend | data/preprocess_covid_data.py:81 | the sum over provinces is additive over any split of the rows |
| Preprocess.ExtractCountryData | data/preprocess_covid_data.py:52-83 | ValueError iff no row names the country; otherwise one total per date column, the sum over the country's rows |
| Preprocess.OtherCountryIgnored | data/preprocess_covid_data.py:72-81 | a row of another country changes nothing |
| Preprocess.SingleRow | data/preprocess_covid_data.py:78-81 | a country with one row gets that row's counts unchanged |
| Preprocess.Combined | data/preprocess_covid_data.py:137-149 | ValueError iff a country is missing from a table or the three series differ in length; otherwise one row per date column holding the three country totals |
| Preprocess.Window | data/preprocess_covid_data.py:151-157 | the combined frame's errors pass through; an empty window raises ValueError; otherwise a non-empty frame holding exactly the rows dated within [start, end] |
| Preprocess.ClipLow | data/preprocess_covid_data.py:171-172 | clip(lower=0): non-negative, unchanged when already non-negative |
| Preprocess.ClippedActive | data/preprocess_covid_data.py:163-172 | active is non-negative, at least c - r - d, and at most confirmed when the counts are non-negative |
| Preprocess.DailyNewCases | data/preprocess_covid_data.py:166-171 | 0 on the first day, then max(0, c[i] - c[i-1]) |
| Preprocess.DailyNewCasesAddUp | data/preprocess_covid_data.py:166-171 | on a non-decreasing series, the first value plus the daily new cases up to day k equals the cumulative count on day k |
| Preprocess.DeriveColumns | data/preprocess_covid_data.py:160-176 | one record per row, the three counts kept, active and daily new cases as above, every derived column non-negative |
| Preprocess.Confirmed | data/preprocess_covid_data.py:166 | the confirmed column of the frame |
| Preprocess.PreprocessCovidData | data/preprocess_covid_data.py:103-195 | raises ValueError iff the window does; otherwise one record per windowed row with the derived columns |
| SimConfig.S0 | examples/sir_simulation/config.py:30-33 | S0 + I0 = N |
| SimConfig.R0 | examples/sir_simulation/config.py:35-38 | the initial recovered count is always 0 |
| SimConfig.RNaught | examples/sir_simulation/config.py:40-43 | beta/gamma; a zero gamma raises; R_naught * gamma = beta |
| SimConfig.InitialCompartments | examples/sir_simulation/config.py:17-18 | S0 + I0 + R0 = N for every configuration |
| SimConfig.Defaults | examples/sir_simulation/config.py:17-28 | the defaults give 999, 1 and 0 people, R_naught 3, 160 days and the sweep (0.1, 0.5, 10) |
| SimModel.Derivatives | examples/sir_simulation/model.py:5-25 | independent of t; the total is conserved; dI = -dS - gamma I; the signs; I = 0 gives 0 |
| SimMain.SimulateSir | examples/sir_simulation/main.py:24-36 | duration points from 0 to duration, spaced duration/(duration - 1); the start state [S0, I0, R0] sums to N |
| SimMain.ComputeStats | examples/sir_simulation/main.py:38-45 | raises iff I is empty (ValueError) or t or R is too short (IndexError); the peak bounds every I value, is at its first occurrence, and is read together with its time; the final R is the last one |
| SimMain.SweepConfig | examples/sir_simulation/main.py:79 | only beta differs from the defaults |
| SimMain.SweepBetas | examples/sir_simulation/main.py:72-73 | ten betas from 0.1 to 0.5, evenly spaced |
| SimMain.RunSensitivityAnalysis | examples/sir_simulation/main.py:66-84 | both lists have one entry per beta, and entry i comes from beta i; the first failing run's exception ends the sweep |

## Left out

- Floating point: the model computes in exact reals. Rounding, overflow, NaN and numpy warnings are not modelled. The objectives' `FloatingPointError` is an exception value the solver may return.
- `odeint`, `interp1d`/`np.interp`, `minimize` (L-BFGS-B), `differential_evolution` and `np.exp` are function parameters. The model assumes only what the named predicates say: `Optimize.RespectsBounds`, `Optimize.GlobalRespectsBounds`, `Sir.ExpLike` and `UkAnalysis.HitsKnots`.
- Exceptions the objective raises inside `minimize` or `differential_evolution` are not propagated out of the optimiser. The optimiser is a total function of the objective.
- File I/O, CSV parsing, `pd.to_datetime` and the JHU date parsing are not modelled. Neither are `melt`/`concat` in `load_uk_data`, plotting, printing or logging. Dates arrive as ordinals and series as sequences.
- The `main` functions are not modelled. That includes the compare_countries loop and its `config['name']` assignment (the name is an input to `CountryComparison.CountryName`) and the RMSE print. `Derived.DoublingTime` models the guarded doubling time.
- N = 0 is excluded (`requires n != 0.0`). Python would raise `ZeroDivisionError` or return infinities.
- numpy broadcasting of length-1 arrays is not modelled. Arrays of different lengths raise ValueError.
- Writing `df['day']` into a copied frame is modelled as the value `Calendar.DayOffsets`.
- LeastSquares.SseZeroOnMatch: only "match implies zero" is proved, not the converse (likewise for LeastSquares.WeightedSseZeroOnMatch).
- UkAnalysis.FitModel: it returns the optimiser's `x` only, as the source does. The `success` and `fun` fields are not read.
- `load_jhu_timeseries` and `parse_jhu_dates` (file reading and date-string parsing) are not modelled.
