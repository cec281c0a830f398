/** examples/sir_simulation/model.py: the autonomous SIR vector field. */
module SimModel {
  import Sir

  /** `sir_derivatives(y, t, N, beta, gamma)`; t is accepted for the solver
      and not used. */
  function Derivatives(y: Sir.State, t: real, n: real, beta: real, gamma: real): (d: Sir.State)
    requires n != 0.0
    ensures d == Sir.Derivatives(y, n, beta, gamma)
    ensures Sir.Total(d) == 0.0
    ensures d.i == -d.s - gamma * y.i
    ensures beta >= 0.0 && y.s >= 0.0 && y.i >= 0.0 && n > 0.0 ==> d.s <= 0.0
    ensures gamma >= 0.0 && y.i >= 0.0 ==> d.r >= 0.0
    ensures y.i == 0.0 ==> d == Sir.State(0.0, 0.0, 0.0)
  {
    var infection := beta * y.s * y.i / n;
    Sir.State(-infection, infection - gamma * y.i, gamma * y.i)
  }

  /** `odeint(sir_derivatives, y0, t, args=(N, beta, gamma))`'s right-hand side. */
  function Field(n: real, beta: real, gamma: real): Sir.Field
    requires n != 0.0
  {
    (y: Sir.State, t: real) => Derivatives(y, t, n, beta, gamma)
  }
}
