/** The derived quantities the scripts report next to fitted rates: the
    basic reproduction number, percentage reductions, and the guarded
    doubling time. */
module Derived {
  import opened Common

  /** beta / gamma. */
  function ReproductionNumber(beta: real, gamma: real): (r0: real)
    requires gamma != 0.0
    ensures r0 * gamma == beta
    ensures gamma > 0.0 ==> (r0 > 1.0 <==> beta > gamma)
    ensures gamma > 0.0 ==> (r0 < 1.0 <==> beta < gamma)
  {
    Ratio(beta, gamma)
  }

  function Ratio(x: real, y: real): real
    requires y != 0.0
  {
    x / y
  }

  /** `(1 - value / reference) * 100`: the intervention effect
      (1 - beta_post / beta_pre) * 100 and the fit improvement
      (1 - sse / const_sse) * 100. */
  function PercentReduction(reference: real, value: real): (p: real)
    requires reference != 0.0
    ensures value == reference * (1.0 - p / 100.0)
    ensures reference > 0.0 ==> (p > 0.0 <==> value < reference)
    ensures reference > 0.0 ==> (p == 0.0 <==> value == reference)
    ensures reference > 0.0 ==> (p <= 100.0 <==> value >= 0.0)
  {
    (1.0 - Ratio(value, reference)) * 100.0
  }

  /** `abs(beta - gamma) > 0.001`: the doubling time ln 2 / (beta - gamma) is
      reported only when the rates differ by more than 0.001. */
  function DoublingTime(beta: real, gamma: real, ln2: real): (d: Option<real>)
    ensures d.Some? <==> beta - gamma > 0.001 || gamma - beta > 0.001
    ensures d.Some? ==> d.value * (beta - gamma) == ln2
  {
    if beta - gamma > 0.001 || gamma - beta > 0.001 then Some(Ratio(ln2, beta - gamma)) else None
  }

  /** Over a shared positive gamma the reproduction numbers are ordered as
      the transmission rates are. */
  lemma ReproductionNumberOrder(beta1: real, beta2: real, gamma: real)
    requires gamma > 0.0
    ensures ReproductionNumber(beta2, gamma) < ReproductionNumber(beta1, gamma) <==> beta2 < beta1
  {
    var a := ReproductionNumber(beta1, gamma);
    var b := ReproductionNumber(beta2, gamma);
    if b < a {
      assert b * gamma < a * gamma;
    } else {
      assert a * gamma <= b * gamma;
    }
  }
}
