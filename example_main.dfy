/** examples/sir_simulation/main.py: one simulation from the configuration,
    its summary statistics, and the sweep over beta. */
module SimMain {
  import opened Common
  import Sir
  import Extrema
  import SimConfig
  import SimModel

  datatype SimulationStats = SimulationStats(peakInfection: real, peakDay: real, finalRecovered: real)

  /** `simulate_sir`: `np.linspace(0, duration, duration)` (duration points,
      so the spacing is duration / (duration - 1), not one day) and the
      start state [S0, I0, R0] of the configuration. */
  function SimulateSir(config: SimConfig.SimulationConfig, odeint: Sir.Solver): (r: Outcome<Sir.Trajectory>)
    requires config.n != 0
    ensures Sir.Linspace(0.0, config.duration as real, config.duration).Raised? ==> r == Raised(ValueError)
    ensures r.Returned? ==> config.duration >= 0 && |r.value.t| == config.duration
    ensures r.Returned? && config.duration >= 1 ==> r.value.t[0] == 0.0
    ensures r.Returned? && config.duration >= 2 ==>
      r.value.t[config.duration - 1] == config.duration as real &&
      forall k :: 0 <= k < config.duration - 1 ==>
        r.value.t[k + 1] - r.value.t[k] == Sir.Step(0.0, config.duration as real, config.duration)
    ensures r.Returned? ==>
      var y0 := Sir.State(config.S0() as real, config.i0 as real, config.R0() as real);
      Sir.Total(y0) == config.n as real &&
      r == Sir.Solve(Returned(Sir.Setup(y0, r.value.t)),
                     SimModel.Field(config.n as real, config.beta, config.gamma), odeint)
  {
    var y0 := Sir.State(config.S0() as real, config.i0 as real, config.R0() as real);
    match Sir.Linspace(0.0, config.duration as real, config.duration)
    case Raised(e) => Raised(e)
    case Returned(t) => Sir.Solve(Returned(Sir.Setup(y0, t)), SimModel.Field(config.n as real, config.beta, config.gamma), odeint)
  }

  /** `compute_stats`: `np.argmax` of an empty column raises ValueError; the
      peak time `t[peak_idx]` and the last recovered value `R[-1]` raise
      IndexError when their columns are too short. */
  function ComputeStats(t: seq<real>, i: seq<real>, r: seq<real>): (s: Outcome<SimulationStats>)
    ensures s.Raised? <==> |i| == 0 || Extrema.FirstArgMax(i) >= |t| || |r| == 0
    ensures |i| == 0 ==> s == Raised(ValueError)
    ensures |i| > 0 && s.Raised? ==> s.exc == IndexError
    ensures s.Returned? ==> forall k :: 0 <= k < |i| ==> i[k] <= s.value.peakInfection
    ensures s.Returned? ==>
      exists k :: 0 <= k < |i| && k < |t| && s.value.peakInfection == i[k] && s.value.peakDay == t[k] &&
        forall j :: 0 <= j < k ==> i[j] < i[k]
    ensures s.Returned? ==> s.value.finalRecovered == r[|r| - 1]
  {
    if |i| == 0 then Raised(ValueError)
    else
      var peak := Extrema.FirstArgMax(i);
      if peak >= |t| || |r| == 0 then Raised(IndexError)
      else Returned(SimulationStats(i[peak], t[peak], r[|r| - 1]))
  }

  /** `SimulationConfig(beta=beta)`: the defaults with beta replaced. */
  function SweepConfig(beta: real): (c: SimConfig.SimulationConfig)
    ensures c.beta == beta
    ensures c.n == SimConfig.Default().n && c.i0 == SimConfig.Default().i0
    ensures c.gamma == SimConfig.Default().gamma && c.duration == SimConfig.Default().duration
    ensures c.betaSweep == SimConfig.Default().betaSweep
  {
    SimConfig.Default().(beta := beta)
  }

  /** One sweep run: simulate with the given beta and summarise. */
  function SweepStats(beta: real, odeint: Sir.Solver): Outcome<SimulationStats>
  {
    match SimulateSir(SweepConfig(beta), odeint)
    case Raised(e) => Raised(e)
    case Returned(run) => ComputeStats(run.t, run.i, run.r)
  }

  /** The betas of the default sweep: `np.linspace(0.1, 0.5, 10)`. */
  function SweepBetas(): (betas: seq<real>)
    ensures |betas| == 10 && betas[0] == 0.1 && betas[9] == 0.5
    ensures forall k :: 0 <= k < 9 ==> betas[k + 1] - betas[k] == Sir.Step(0.1, 0.5, 10)
  {
    var (start, stop, count) := SimConfig.Default().betaSweep;
    Sir.Linspace(start, stop, count).value
  }

  /** `run_sensitivity_analysis` up to the plot: the peak size and peak time
      of one run per swept beta, appended in order; the first run that
      raises ends the sweep with its exception. */
  method RunSensitivityAnalysis(odeint: Sir.Solver) returns (r: Outcome<(seq<real>, seq<real>)>)
    ensures r.Returned? ==>
      |r.value.0| == |SweepBetas()| && |r.value.1| == |SweepBetas()| &&
      forall k :: 0 <= k < |SweepBetas()| ==>
        SweepStats(SweepBetas()[k], odeint).Returned? &&
        r.value.0[k] == SweepStats(SweepBetas()[k], odeint).value.peakInfection &&
        r.value.1[k] == SweepStats(SweepBetas()[k], odeint).value.peakDay
    ensures r.Raised? ==>
      exists k :: 0 <= k < |SweepBetas()| && SweepStats(SweepBetas()[k], odeint) == Raised(r.exc) &&
        forall j :: 0 <= j < k ==> SweepStats(SweepBetas()[j], odeint).Returned?
  {
    var betas := SweepBetas();
    var peakInfections: seq<real> := [];
    var peakTimes: seq<real> := [];
    var k := 0;
    while k < |betas|
      invariant 0 <= k <= |betas|
      invariant |peakInfections| == k && |peakTimes| == k
      invariant forall j :: 0 <= j < k ==>
        SweepStats(betas[j], odeint).Returned? &&
        peakInfections[j] == SweepStats(betas[j], odeint).value.peakInfection &&
        peakTimes[j] == SweepStats(betas[j], odeint).value.peakDay
    {
      var stats := SweepStats(betas[k], odeint);
      if stats.Raised? {
        return Raised(stats.exc);
      }
      peakInfections := peakInfections + [stats.value.peakInfection];
      peakTimes := peakTimes + [stats.value.peakDay];
      k := k + 1;
    }
    r := Returned((peakInfections, peakTimes));
  }
}
