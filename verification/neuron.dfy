/** IZNeuron: one explicit Euler step of the Izhikevich (2003) two-variable
    model with a threshold reset, plus the Input setter and Output getter.
    The coupling strength, the simulation speed and `Time.fixedDeltaTime` live
    in NeuronBase and the engine; they are parameters here. */
module IzNeuron {
  import opened Prims

  /** The neuron's parameters (a, b, c, d), its state (v, u) and its input. */
  datatype Neuron = Neuron(a: real, b: real, c: real, d: real, v: real, u: real, inputCurrent: real)

  /** The field initialisers: a = 0.02, b = 0.2, c = -65, d = 8, state and input 0. */
  const Default: Neuron := Neuron(0.02, 0.2, -65.0, 8.0, 0.0, 0.0, 0.0)

  /** The membrane potential at which the neuron spikes and resets. */
  const SpikePeak: real := 30.0

  /** The engine's per-step constants: `Time.fixedDeltaTime` and NeuronBase's
      `simulationSpeed` and `couplingStrength`. */
  datatype StepConfig = StepConfig(fixedDeltaTime: real, simulationSpeed: real, couplingStrength: real)

  /** Initialize: the rest state v = c, u = b * v. */
  function Initialize(n: Neuron): (r: Neuron)
    ensures r.v == n.c && r.u == n.b * n.c
    ensures r.(v := n.v, u := n.u) == n
  {
    n.(v := n.c, u := n.b * n.c)
  }

  /** The coupling term. The code computes `couplingStrength * coupled.v - v`,
      so the neuron's own potential is subtracted unscaled. */
  function CouplingTerm(n: Neuron, coupled: Option<Neuron>, strength: real): (r: real)
    ensures coupled.None? ==> r == 0.0
    ensures coupled.Some? ==> r + n.v == strength * coupled.value.v
  {
    match coupled
    case None => 0.0
    case Some(other) => strength * other.v - n.v
  }

  /** The Euler update before the reset test, both derivatives taken at the old (v, u). */
  function EulerStep(n: Neuron, coupling: real, cfg: StepConfig): (vu: (real, real))
  {
    var dv := 0.04 * n.v * n.v + 5.0 * n.v + 140.0 - n.u + n.inputCurrent + coupling;
    var du := n.a * (n.b * n.v - n.u);
    (n.v + dv * cfg.fixedDeltaTime * cfg.simulationSpeed,
     n.u + du * cfg.fixedDeltaTime * cfg.simulationSpeed)
  }

  /** SimulateStep: one Euler step followed by the spike reset. */
  function SimulateStep(n: Neuron, coupled: Option<Neuron>, cfg: StepConfig): (r: Neuron)
    ensures var (v1, u1) := EulerStep(n, CouplingTerm(n, coupled, cfg.couplingStrength), cfg);
      if v1 >= SpikePeak then r.v == n.c && r.u == u1 + n.d else r.v == v1 && r.u == u1
    ensures n.c < SpikePeak ==> r.v < SpikePeak
    ensures r.(v := n.v, u := n.u) == n
  {
    var (v1, u1) := EulerStep(n, CouplingTerm(n, coupled, cfg.couplingStrength), cfg);
    if v1 >= SpikePeak then n.(v := n.c, u := u1 + n.d) else n.(v := v1, u := u1)
  }

  /** The `Input` setter. */
  function SetInput(n: Neuron, current: real): (r: Neuron)
    ensures r.inputCurrent == current
    ensures r.(inputCurrent := n.inputCurrent) == n
  {
    n.(inputCurrent := current)
  }

  /** The `Output` getter: the membrane potential. */
  function Output(n: Neuron): real {
    n.v
  }

  /** With the default parameters, Initialize gives v = -65 and u = -13. */
  lemma DefaultRestState()
    ensures Initialize(Default).v == -65.0 && Initialize(Default).u == -13.0
  {
  }

  /** Setting the input never changes what the neuron outputs. */
  lemma SetInputKeepsOutput(n: Neuron, current: real)
    ensures Output(SetInput(n, current)) == Output(n)
  {
  }

  /** The code's coupling is not the diffusive form strength * (coupled.v - v):
      the two agree only when strength = 1 or v = 0. */
  lemma CouplingIsNotDiffusive(n: Neuron, other: Neuron, strength: real)
    ensures CouplingTerm(n, Some(other), strength) == strength * (other.v - n.v)
        <==> (strength == 1.0 || n.v == 0.0)
  {
    assert strength * (other.v - n.v) == strength * other.v - strength * n.v;
    assert strength * n.v - n.v == (strength - 1.0) * n.v;
    if strength != 1.0 && n.v != 0.0 {
      ProductNonZero(strength - 1.0, n.v);
    }
  }

  lemma ProductNonZero(x: real, y: real)
    requires x != 0.0 && y != 0.0
    ensures x * y != 0.0
  {
  }

  /** Stepping a neuron k times with a fixed coupled-neuron snapshot. */
  function Run(n: Neuron, coupled: Option<Neuron>, cfg: StepConfig, k: nat): Neuron
    decreases k
  {
    if k == 0 then n else SimulateStep(Run(n, coupled, cfg, k - 1), coupled, cfg)
  }

  /** Once initialised with c below the spike peak, the potential never reaches
      the peak again, however many steps are taken. */
  lemma {:induction false} RunStaysBelowPeak(n: Neuron, coupled: Option<Neuron>, cfg: StepConfig, k: nat)
    requires n.c < SpikePeak
    ensures Run(Initialize(n), coupled, cfg, k).v < SpikePeak
    ensures Run(Initialize(n), coupled, cfg, k).c == n.c
    decreases k
  {
    if k > 0 {
      RunStaysBelowPeak(n, coupled, cfg, k - 1);
    }
  }
}
