/**
 What the client program's rotations are for: measuring a pair after its rotation is measuring
 it in the basis that the application lists for it.
 */
module ClientBases {
  import opened Options
  import opened Amplitudes
  import opened GateLaws
  import Nqasm
  import ClientProgram

  datatype Pauli = PauliX | PauliY | PauliZ

  /** A measurement of a Pauli operator, with the outcomes exchanged if not `plus`. */
  datatype Measurement = Measurement(plus: bool, pauli: Pauli)

  /** The client's bases in the order of the application's list, which has twelve entries. */
  function BasisOf(p: nat): Measurement
    requires p < 12
  {
    Measurement(p < 6, if p % 3 == 0 then PauliX else if p % 3 == 1 then PauliY else PauliZ)
  }

  /** One amplitude of the state after a Pauli operator on qubit `q`. */
  function PauliAt(pauli: Pauli, q: nat, psi: State, b: Basis, e: Env, p: Part): real {
    match pauli
    case PauliX => psi(With(b, q, q !in b), e, p)
    case PauliY => Signed(q in b, TimesI(psi, With(b, q, q !in b), e, p))
    case PauliZ => Signed(q !in b, psi(b, e, p))
  }

  /** One amplitude of twice the state's part that belongs to `outcome`: the state plus or minus
      the operator applied to it. */
  function PartAt(m: Measurement, outcome: bool, q: nat, psi: State, b: Basis, e: Env, p: Part): real {
    psi(b, e, p) + Signed(outcome != m.plus, PauliAt(m.pauli, q, psi, b, e, p))
  }

  /** Four times the Born weight of `outcome`, with the other qubits as in `b`. */
  function PartWeight(m: Measurement, outcome: bool, q: nat, psi: State, b: Basis, e: Env): real {
    Square(m, outcome, q, psi, With(b, q, false), e) + Square(m, outcome, q, psi, With(b, q, true), e)
  }

  function Square(m: Measurement, outcome: bool, q: nat, psi: State, b: Basis, e: Env): real {
    var re, im := PartAt(m, outcome, q, psi, b, e, Re), PartAt(m, outcome, q, psi, b, e, Im);
    re * re + im * im
  }

  /** A rotation by `num` times pi over 2 to the `denom`, as a gate up to a global phase; those
      that the program does not use are left out. */
  function GateOf(rotation: Nqasm.Rotation): Option<Gate> {
    match rotation
    case RotX(num, denom) =>
      if denom == 1 && num % 4 == 1 then Some(RotXPlus)
      else if denom == 1 && num % 4 == 3 then Some(RotXMinus)
      else if denom == 0 && num % 2 == 1 then Some(X)
      else None
    case RotY(num, denom) =>
      if denom == 1 && num % 4 == 1 then Some(RotYPlus)
      else if denom == 1 && num % 4 == 3 then Some(RotYMinus)
      else None
  }

  /** The gates of the rotations before pair `p` is measured. */
  function GateBefore(p: nat): Option<Gate> {
    var rotations := ClientProgram.RotationsFor(p);
    if rotations == [] then Some(Identity) else if |rotations| == 1 then GateOf(rotations[0]) else None
  }

  /** The gate that turns a measurement into one of Z. */
  function GateFor(m: Measurement): Gate {
    match m
    case Measurement(true, PauliX) => RotYMinus
    case Measurement(false, PauliX) => RotYPlus
    case Measurement(true, PauliY) => RotXPlus
    case Measurement(false, PauliY) => RotXMinus
    case Measurement(true, PauliZ) => Identity
    case Measurement(false, PauliZ) => X
  }

  /** The gates over pi/2 are scaled by the square root of 2. */
  function Scale(m: Measurement): real {
    if m.pauli.PauliZ? then 1.0 else 2.0
  }

  lemma Flips(b: Basis, q: nat)
    ensures With(With(b, q, false), q, true) == With(b, q, true) && With(With(b, q, true), q, false) == With(b, q, false)
    ensures With(With(b, q, false), q, false) == With(b, q, false) && With(With(b, q, true), q, true) == With(b, q, true)
  {
  }

  lemma {:induction false} XMeasures(m: Measurement, outcome: bool, q: nat, psi: State, b: Basis, e: Env)
    requires m.pauli.PauliX?
    ensures 4.0 * Weight(Apply(GateFor(m), q, psi), With(b, q, outcome), e) == Scale(m) * PartWeight(m, outcome, q, psi, b, e)
  {
    Flips(b, q);
  }

  lemma {:induction false} YMeasures(m: Measurement, outcome: bool, q: nat, psi: State, b: Basis, e: Env)
    requires m.pauli.PauliY?
    ensures 4.0 * Weight(Apply(GateFor(m), q, psi), With(b, q, outcome), e) == Scale(m) * PartWeight(m, outcome, q, psi, b, e)
  {
    Flips(b, q);
  }

  lemma {:induction false} ZMeasures(m: Measurement, outcome: bool, q: nat, psi: State, b: Basis, e: Env)
    requires m.pauli.PauliZ?
    ensures 4.0 * Weight(Apply(GateFor(m), q, psi), With(b, q, outcome), e) == Scale(m) * PartWeight(m, outcome, q, psi, b, e)
  {
    Flips(b, q);
  }

  lemma {:induction false} GateMeasures(m: Measurement, outcome: bool, q: nat, psi: State, b: Basis, e: Env)
    ensures 4.0 * Weight(Apply(GateFor(m), q, psi), With(b, q, outcome), e) == Scale(m) * PartWeight(m, outcome, q, psi, b, e)
  {
    match m.pauli
    case PauliX => XMeasures(m, outcome, q, psi, b, e);
    case PauliY => YMeasures(m, outcome, q, psi, b, e);
    case PauliZ => ZMeasures(m, outcome, q, psi, b, e);
  }

  /** For every one of the twelve pairs and every joint state: after the pair's rotation, an
      outcome of the measurement has the Born weight that it has in the basis listed for the pair,
      up to the scaling of the gate. */
  lemma {:induction false} RotationMeasuresBasis(p: nat, outcome: bool, q: nat, psi: State, b: Basis, e: Env)
    requires p < 12
    ensures GateBefore(p).Some?
    ensures 4.0 * Weight(Apply(GateBefore(p).value, q, psi), With(b, q, outcome), e)
         == Scale(BasisOf(p)) * PartWeight(BasisOf(p), outcome, q, psi, b, e)
  {
    assert GateBefore(p) == Some(GateFor(BasisOf(p)));
    GateMeasures(BasisOf(p), outcome, q, psi, b, e);
  }

  /** All further pairs are measured as they are. */
  lemma NoFurtherRotations(p: nat)
    requires p >= 12
    ensures ClientProgram.RotationsFor(p) == []
  {
  }
}
