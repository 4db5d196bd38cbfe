/**
 Quantum states as unnormalised amplitude functions.

 A basis state is the set of qubits that are in |1>. A state gives the real and the
 imaginary part of an amplitude for every basis state and every environment index, so it
 covers any number of qubits, entangled with each other and with anything outside. Gates
 are scaled by powers of sqrt(2), so that every matrix entry is 0, 1, -1, i or -i.
 */
module Amplitudes {
  type Basis = set<nat>

  /** Environment index. `Outside` stands for everything beyond the device; `Discarded`
      records the value a qubit had when it was reset, because a reset throws the old
      qubit into the environment. */
  datatype Env = Outside(index: int) | Discarded(bit: bool, rest: Env)

  datatype Part = Re | Im

  type State = (Basis, Env, Part) -> real

  /** The given part of i times the amplitude. */
  function TimesI(psi: State, b: Basis, e: Env, p: Part): real {
    match p
    case Re => -psi(b, e, Im)
    case Im => psi(b, e, Re)
  }

  /** The squared modulus of the amplitude: the Born weight of the basis state. */
  function Weight(psi: State, b: Basis, e: Env): real {
    psi(b, e, Re) * psi(b, e, Re) + psi(b, e, Im) * psi(b, e, Im)
  }

  /** The basis state `b` with qubit `q` set to `v`. */
  function With(b: Basis, q: nat, v: bool): Basis {
    if v then b + {q} else b - {q}
  }

  /** One-qubit gates; the rotations are over +pi/2 and -pi/2. */
  datatype Gate = Identity | X | Z | H | RotXPlus | RotXMinus | RotYPlus | RotYMinus {
    /** First row of the matrix: the new amplitude of |0> from the old amplitudes a0 and a1,
        where ia1 is i times a1. */
    function Row0(a0: real, a1: real, ia1: real): real {
      match this
      case Identity => a0
      case X => a1
      case Z => a0
      case H => a0 + a1
      case RotXPlus => a0 - ia1
      case RotXMinus => a0 + ia1
      case RotYPlus => a0 - a1
      case RotYMinus => a0 + a1
    }

    /** Second row of the matrix: the new amplitude of |1>, where ia0 is i times a0. */
    function Row1(a0: real, a1: real, ia0: real): real {
      match this
      case Identity => a1
      case X => a0
      case Z => -a1
      case H => a0 - a1
      case RotXPlus => a1 - ia0
      case RotXMinus => a1 + ia0
      case RotYPlus => a0 + a1
      case RotYMinus => a1 - a0
    }
  }

  function Apply(g: Gate, q: nat, psi: State): State {
    (b: Basis, e: Env, p: Part) =>
      var b0, b1 := With(b, q, false), With(b, q, true);
      if q in b then g.Row1(psi(b0, e, p), psi(b1, e, p), TimesI(psi, b0, e, p))
      else g.Row0(psi(b0, e, p), psi(b1, e, p), TimesI(psi, b1, e, p))
  }

  /** Applies `g0` to `target` where `control` is |0> and `g1` where it is |1>. */
  function ApplyControlled(g0: Gate, g1: Gate, control: nat, target: nat, psi: State): State {
    (b: Basis, e: Env, p: Part) => Apply(if control in b then g1 else g0, target, psi)(b, e, p)
  }

  function Cnot(control: nat, target: nat, psi: State): State {
    ApplyControlled(Identity, X, control, target, psi)
  }

  function Cphase(control: nat, target: nat, psi: State): State {
    ApplyControlled(Identity, Z, control, target, psi)
  }

  /** Direction-controlled rotations: the control selects the sign of the angle. */
  function CxDirPlus(control: nat, target: nat, psi: State): State {
    ApplyControlled(RotXPlus, RotXMinus, control, target, psi)
  }

  function CyDirMinus(control: nat, target: nat, psi: State): State {
    ApplyControlled(RotYMinus, RotYPlus, control, target, psi)
  }

  /** Reset: the old qubit goes to the environment and a fresh |0> takes its place. */
  function Init(q: nat, psi: State): State {
    (b: Basis, e: Env, p: Part) =>
      match e
      case Outside(_) => 0.0
      case Discarded(was, rest) => if q in b then 0.0 else psi(With(b, q, was), rest, p)
  }

  /** The unnormalised state after a Z-measurement of `q` gave `outcome`. */
  function Project(q: nat, outcome: bool, psi: State): State {
    (b: Basis, e: Env, p: Part) => if (q in b) == outcome then psi(b, e, p) else 0.0
  }

  /** Discards qubits `first` and `second` and puts one half each of |00> + |11> there. */
  function EprPair(first: nat, second: nat, psi: State): State {
    (b: Basis, e: Env, p: Part) =>
      match e
      case Discarded(was1, Discarded(was2, rest)) =>
        if (first in b) == (second in b) then psi(With(With(b, first, was1), second, was2), rest, p) else 0.0
      case _ => 0.0
  }
}
