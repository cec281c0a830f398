/** examples/sir_simulation/config.py: the settings of the stand-alone SIR
    example and the three values derived from them. */
module SimConfig {
  import opened Common
  import Derived

  /** `SimulationConfig`; the sweep is (start, stop, count). */
  datatype SimulationConfig = SimulationConfig(
    n: int, i0: int, beta: real, gamma: real, duration: int, betaSweep: (real, real, int))
  {
    /** `S0`: everyone not initially infected is susceptible. */
    function S0(): (s0: int)
      ensures s0 + i0 == n
    {
      n - i0
    }

    /** `R0`: nobody has recovered at the start (not the reproduction number). */
    function R0(): (r0: int)
      ensures r0 == 0
    {
      0
    }

    /** `R_naught`: beta / gamma; a zero gamma raises ZeroDivisionError. */
    function RNaught(): (r: Outcome<real>)
      ensures r.Raised? <==> gamma == 0.0
      ensures r.Raised? ==> r.exc == OtherError
      ensures r.Returned? ==> r.value * gamma == beta
      ensures r.Returned? && gamma > 0.0 ==> (r.value > 1.0 <==> beta > gamma)
    {
      if gamma == 0.0 then Raised(OtherError) else Returned(Derived.ReproductionNumber(beta, gamma))
    }
  }

  /** `SimulationConfig()` with every default. */
  function Default(): SimulationConfig
  {
    SimulationConfig(1000, 1, 0.3, 0.1, 160, (0.1, 0.5, 10))
  }

  /** The three compartments at the start always add up to the population. */
  lemma InitialCompartments(c: SimulationConfig)
    ensures c.S0() + c.i0 + c.R0() == c.n
  {
  }

  /** With the defaults: 999 susceptible, 1 infected, nobody recovered, and
      a reproduction number of 3. */
  lemma Defaults()
    ensures Default().S0() == 999 && Default().i0 == 1 && Default().R0() == 0
    ensures Default().RNaught() == Returned(3.0)
    ensures Default().duration == 160 && Default().betaSweep == (0.1, 0.5, 10)
  {
    var r := Default().RNaught().value;
    assert r * 0.1 == 0.3;
  }
}
