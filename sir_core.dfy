/** The SIR model of src/sir/core.py: the vector field, its time-varying
    twin, the start state and time grid that the runners hand to the ODE
    solver, and the two transmission-rate schedules.

    The solver (`odeint`) is foreign floating-point code; it is a parameter
    of type Solver, and only what the runners build around it is modelled.
    All arithmetic is exact, over `real`. */
module Sir {
  import opened Common

  /** A point of the state space: susceptible, infected, recovered. */
  datatype State = State(s: real, i: real, r: real)

  function Total(y: State): real
  {
    y.s + y.i + y.r
  }

  /** The right-hand side handed to the solver: state and time to derivatives. */
  type Field = (State, real) -> State

  /** `odeint(field, y0, t)`: one state per requested time, or an exception. */
  type Solver = (State, seq<real>, Field) -> Outcome<seq<State>>

  /** What a runner returns: the time grid and the three columns of the solution. */
  datatype Trajectory = Trajectory(t: seq<real>, s: seq<real>, i: seq<real>, r: seq<real>)

  /** What a runner hands to the solver besides the field. */
  datatype Setup = Setup(y0: State, times: seq<real>)

  /** `sir_derivatives`: dS = -beta S I / N, dI = beta S I / N - gamma I, dR = gamma I. */
  function Derivatives(y: State, n: real, beta: real, gamma: real): (d: State)
    requires n != 0.0
    ensures Total(d) == 0.0
    ensures d.i == -d.s - gamma * y.i
    ensures beta >= 0.0 && y.s >= 0.0 && y.i >= 0.0 && n > 0.0 ==> d.s <= 0.0
    ensures gamma >= 0.0 && y.i >= 0.0 ==> d.r >= 0.0
    ensures y.i == 0.0 ==> d == State(0.0, 0.0, 0.0)
  {
    var infection := beta * y.s * y.i / n;
    NonNegativeProduct(beta, y.s, y.i, n);
    State(-infection, infection - gamma * y.i, gamma * y.i)
  }

  lemma NonNegativeProduct(a: real, b: real, c: real, n: real)
    requires n != 0.0
    ensures a >= 0.0 && b >= 0.0 && c >= 0.0 && n > 0.0 ==> a * b * c / n >= 0.0
    ensures c == 0.0 ==> a * b * c / n == 0.0
  {
    if a >= 0.0 && b >= 0.0 && c >= 0.0 && n > 0.0 {
      assert a * b >= 0.0;
      assert a * b * c >= 0.0;
    }
  }

  /** `sir_derivatives_timevarying`: the same field with beta read from
      `betaAt` at time t. */
  function DerivativesAt(y: State, t: real, n: real, betaAt: real -> real, gamma: real): (d: State)
    requires n != 0.0
    ensures d == Derivatives(y, n, betaAt(t), gamma)
    ensures Total(d) == 0.0
  {
    var beta := betaAt(t);
    State(-beta * y.s * y.i / n, beta * y.s * y.i / n - gamma * y.i, gamma * y.i)
  }

  /** The field `run_sir` passes to the solver. */
  function ConstantField(n: real, beta: real, gamma: real): Field
    requires n != 0.0
  {
    (y: State, t: real) => Derivatives(y, n, beta, gamma)
  }

  /** The field `run_sir_timevarying` passes to the solver. */
  function ScheduledField(n: real, betaAt: real -> real, gamma: real): Field
    requires n != 0.0
  {
    (y: State, t: real) => DerivativesAt(y, t, n, betaAt, gamma)
  }

  /** `[N - I0, I0, 0]`. */
  function InitialState(n: real, i0: real): (y: State)
    ensures Total(y) == n
    ensures y.i == i0 && y.r == 0.0
  {
    State(n - i0, i0, 0.0)
  }

  /** The spacing of `np.linspace(start, stop, num)` for num >= 2. */
  function Step(start: real, stop: real, num: int): real
    requires num >= 2
  {
    (stop - start) / (num - 1) as real
  }

  /** The k-th point of an evenly spaced grid. */
  function Point(start: real, step: real, k: int): real
  {
    start + k as real * step
  }

  /** `np.linspace(start, stop, num)`: num evenly spaced points from start to
      stop inclusive; a negative count raises ValueError. */
  function Linspace(start: real, stop: real, num: int): (r: Outcome<seq<real>>)
    ensures r.Raised? <==> num < 0
    ensures r.Raised? ==> r.exc == ValueError
    ensures r.Returned? ==> |r.value| == num
    ensures r.Returned? && num >= 1 ==> r.value[0] == start
    ensures r.Returned? && num >= 2 ==> r.value[num - 1] == stop
    ensures r.Returned? && num >= 2 ==>
      forall k :: 0 <= k < num - 1 ==> r.value[k + 1] - r.value[k] == Step(start, stop, num)
  {
    if num < 0 then Raised(ValueError)
    else if num == 1 then Returned([start])
    else if num == 0 then Returned([])
    else
      var step := Step(start, stop, num);
      LastPoint(start, stop, num);
      assert forall k :: 0 <= k < num - 1 ==> Point(start, step, k + 1) - Point(start, step, k) == step by {
        forall k | 0 <= k < num - 1 {
          PointSpacing(start, step, k);
        }
      }
      Returned(seq(num, k requires 0 <= k < num => Point(start, step, k)))
  }

  lemma LastPoint(start: real, stop: real, num: int)
    requires num >= 2
    ensures Point(start, Step(start, stop, num), num - 1) == stop
  {
    var m := (num - 1) as real;
    assert m * ((stop - start) / m) == stop - start;
  }

  lemma PointSpacing(start: real, step: real, k: int)
    ensures Point(start, step, k + 1) - Point(start, step, k) == step
  {
    assert (k + 1) as real * step == k as real * step + step;
  }

  /** `np.linspace(0, days, days * resolution + 1)`, the grid of both runners. */
  function TimeGrid(days: int, resolution: int): (r: Outcome<seq<real>>)
    ensures r == Linspace(0.0, days as real, days * resolution + 1)
    ensures r.Raised? <==> days * resolution + 1 < 0
  {
    Linspace(0.0, days as real, days * resolution + 1)
  }

  lemma CastProduct(a: int, b: int)
    ensures (a * b) as real == a as real * b as real
  {
  }

  lemma Cancel(k: real, d: real, res: real)
    requires d > 0.0 && res > 0.0
    ensures (k * res) * (d / (d * res)) == k
  {
    assert d / (d * res) == 1.0 / res;
  }

  /** Sample k * resolution of a grid with `resolution` points per day lies
      exactly on day k. */
  lemma GridPoint(days: int, resolution: int, k: int)
    requires days >= 1 && resolution >= 1
    ensures Point(0.0, Step(0.0, days as real, days * resolution + 1), k * resolution) == k as real
  {
    CastProduct(days, resolution);
    CastProduct(k, resolution);
    Cancel(k as real, days as real, resolution as real);
  }

  /** For a non-negative horizon and a positive resolution the grid has
      days * resolution + 1 points from 0 to days, and whole day k is sample
      k * resolution. */
  lemma TimeGridShape(days: int, resolution: int, k: int)
    requires days >= 0 && resolution >= 1
    requires 0 <= k <= days
    ensures TimeGrid(days, resolution).Returned?
    ensures |TimeGrid(days, resolution).value| == days * resolution + 1
    ensures TimeGrid(days, resolution).value[0] == 0.0
    ensures TimeGrid(days, resolution).value[days * resolution] == days as real
    ensures TimeGrid(days, resolution).value[k * resolution] == k as real
  {
    assert 0 <= k * resolution <= days * resolution by {
      MulMonotone(k, days, resolution);
    }
    if days > 0 {
      GridPoint(days, resolution, k);
    }
  }

  lemma MulMonotone(k: int, days: int, resolution: int)
    requires 0 <= k <= days && resolution >= 1
    ensures 0 <= k * resolution <= days * resolution
  {
  }

  /** Each point strictly after the one before. */
  predicate Increasing(t: seq<real>)
  {
    forall k :: 0 <= k < |t| - 1 ==> t[k] < t[k + 1]
  }

  /** A grid over at least one day is strictly increasing. */
  lemma TimeGridIncreasing(days: int, resolution: int)
    requires days >= 1 && resolution >= 1
    ensures TimeGrid(days, resolution).Returned?
    ensures Increasing(TimeGrid(days, resolution).value)
  {
    TimeGridShape(days, resolution, 0);
    var num := days * resolution + 1;
    assert num >= 2 by {
      MulMonotone(1, days, resolution);
    }
    assert Step(0.0, days as real, num) > 0.0;
  }

  /** The default points per day of `run_sir` and of `run_sir_timevarying`. */
  const RunSirResolution: int := 1
  const TimeVaryingResolution: int := 10

  /** The start state and time grid a runner hands to the solver. */
  function RunSetup(n: real, i0: real, days: int, resolution: int): (r: Outcome<Setup>)
    ensures r.Raised? <==> days * resolution + 1 < 0
    ensures r.Returned? ==> Total(r.value.y0) == n && r.value.y0 == State(n - i0, i0, 0.0)
    ensures r.Returned? ==> r.value.times == TimeGrid(days, resolution).value
  {
    match TimeGrid(days, resolution)
    case Raised(e) => Raised(e)
    case Returned(times) => Returned(Setup(InitialState(n, i0), times))
  }

  /** `solution.T`: the columns of the solver's rows. */
  function Columns(times: seq<real>, states: seq<State>): (traj: Trajectory)
    ensures traj.t == times
    ensures |traj.s| == |traj.i| == |traj.r| == |states|
    ensures forall k :: 0 <= k < |states| ==> traj.s[k] == states[k].s && traj.i[k] == states[k].i && traj.r[k] == states[k].r
  {
    Trajectory(times,
      seq(|states|, k requires 0 <= k < |states| => states[k].s),
      seq(|states|, k requires 0 <= k < |states| => states[k].i),
      seq(|states|, k requires 0 <= k < |states| => states[k].r))
  }

  /** Hand a setup and a field to the solver; a failure of either propagates. */
  function Solve(setup: Outcome<Setup>, field: Field, odeint: Solver): (r: Outcome<Trajectory>)
    ensures setup.Raised? ==> r == Raised(setup.exc)
    ensures setup.Returned? && odeint(setup.value.y0, setup.value.times, field).Raised? ==>
      r == Raised(odeint(setup.value.y0, setup.value.times, field).exc)
    ensures r.Returned? ==> setup.Returned? && r.value.t == setup.value.times
  {
    match setup
    case Raised(e) => Raised(e)
    case Returned(su) =>
      match odeint(su.y0, su.times, field)
      case Raised(e) => Raised(e)
      case Returned(states) => Returned(Columns(su.times, states))
  }

  /** `run_sir(beta, gamma, N, I0, days, resolution)`. */
  function RunSir(beta: real, gamma: real, n: real, i0: real, days: int, odeint: Solver,
                  resolution: int := RunSirResolution): Outcome<Trajectory>
    requires n != 0.0
  {
    Solve(RunSetup(n, i0, days, resolution), ConstantField(n, beta, gamma), odeint)
  }

  /** `run_sir_timevarying(beta_func, gamma, N, I0, days, resolution)`. */
  function RunSirTimeVarying(betaAt: real -> real, gamma: real, n: real, i0: real, days: int, odeint: Solver,
                             resolution: int := TimeVaryingResolution): Outcome<Trajectory>
    requires n != 0.0
  {
    Solve(RunSetup(n, i0, days, resolution), ScheduledField(n, betaAt, gamma), odeint)
  }

  /** beta lies between the two rates, whichever is larger. */
  predicate Between(b: real, x: real, y: real)
  {
    (x <= b <= y) || (y <= b <= x)
  }

  /** The step schedule: beta_pre strictly before the transition day,
      beta_post from that day on. */
  function PiecewiseBeta(betaPre: real, betaPost: real, transitionDay: real, t: real): (b: real)
    ensures t < transitionDay ==> b == betaPre
    ensures transitionDay <= t ==> b == betaPost
  {
    if t < transitionDay then betaPre else betaPost
  }

  /** `make_piecewise_beta`: the schedule as a closure. */
  function MakePiecewiseBeta(betaPre: real, betaPost: real, transitionDay: real): (f: real -> real)
    ensures forall t :: t < transitionDay ==> f(t) == betaPre
    ensures forall t :: transitionDay <= t ==> f(t) == betaPost
  {
    (t: real) => PiecewiseBeta(betaPre, betaPost, transitionDay, t)
  }

  /** What the model assumes of `np.exp`: it is positive and exp(0) = 1. */
  ghost predicate ExpLike(exp: real -> real)
  {
    (forall x :: exp(x) > 0.0) && exp(0.0) == 1.0
  }

  /** `max(width, 0.1)`: the width actually used by the sigmoid. */
  function EffectiveWidth(width: real): (w: real)
    ensures w >= 0.1
    ensures width >= 0.1 ==> w == width
    ensures width < 0.1 ==> w == 0.1
  {
    if width >= 0.1 then width else 0.1
  }

  /** The logistic factor 1 / (1 + exp(x)) lies strictly between 0 and 1. */
  lemma LogisticBounds(e: real)
    requires e > 0.0
    ensures 0.0 < 1.0 / (1.0 + e) < 1.0
  {
  }

  /** d * s, kept as a named term so that facts about it carry over. */
  function Scale(d: real, s: real): real
  {
    d * s
  }

  /** Scaling by 0 < s < 1 moves strictly towards zero. */
  lemma ScaleInside(d: real, s: real)
    requires 0.0 < s < 1.0
    ensures d > 0.0 ==> 0.0 < Scale(d, s) < d
    ensures d < 0.0 ==> d < Scale(d, s) < 0.0
  {
    assert d * (1.0 - s) == d - d * s;
    if d > 0.0 {
      assert d * s > 0.0;
      assert d * (1.0 - s) > 0.0;
    } else if d < 0.0 {
      assert (-d) * s > 0.0;
      assert (-d) * (1.0 - s) > 0.0;
    }
  }

  /** beta_post + (beta_pre - beta_post) * s. */
  function Blend(betaPre: real, betaPost: real, s: real): real
  {
    betaPost + Scale(betaPre - betaPost, s)
  }

  /** A blend with 0 < s < 1 stays between the two rates, strictly when they
      differ. */
  lemma BlendBounds(betaPre: real, betaPost: real, s: real)
    requires 0.0 < s < 1.0
    ensures Between(Blend(betaPre, betaPost, s), betaPost, betaPre)
    ensures betaPost < betaPre ==> betaPost < Blend(betaPre, betaPost, s) < betaPre
    ensures betaPre < betaPost ==> betaPre < Blend(betaPre, betaPost, s) < betaPost
  {
    ScaleInside(betaPre - betaPost, s);
  }

  /** The inner function of `make_sigmoid_beta`: a logistic blend from
      beta_pre to beta_post centred on transition_day + delay. */
  function SigmoidBeta(t: real, betaPre: real, betaPost: real, transitionDay: real, delay: real,
                       width: real, exp: real -> real): (b: real)
    requires ExpLike(exp)
    ensures Between(b, betaPost, betaPre)
    ensures betaPost < betaPre ==> betaPost < b < betaPre
    ensures betaPre < betaPost ==> betaPre < b < betaPost
    ensures t == transitionDay + delay ==> b == (betaPre + betaPost) / 2.0
  {
    var tEff := transitionDay + delay;
    var w := EffectiveWidth(width);
    var e := exp((t - tEff) / w);
    var sigmoid := 1.0 / (1.0 + e);
    LogisticBounds(e);
    BlendBounds(betaPre, betaPost, sigmoid);
    Blend(betaPre, betaPost, sigmoid)
  }

  const DefaultDelay: real := 0.0
  const DefaultWidth: real := 3.0

  /** `make_sigmoid_beta(beta_pre, beta_post, transition_day, delay=0, width=3)`. */
  function MakeSigmoidBeta(exp: real -> real, betaPre: real, betaPost: real, transitionDay: real,
                           delay: real := DefaultDelay, width: real := DefaultWidth): (f: real -> real)
    requires ExpLike(exp)
    ensures forall t :: Between(f(t), betaPost, betaPre)
    ensures f(transitionDay + delay) == (betaPre + betaPost) / 2.0
  {
    (t: real) => SigmoidBeta(t, betaPre, betaPost, transitionDay, delay, width, exp)
  }
}
