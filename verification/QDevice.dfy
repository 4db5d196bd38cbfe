/** The quantum device: a register of qubits whose joint state the instructions change. */
module QDevice {
  import opened Amplitudes

  /** On NV hardware, position 0 is the electron and all others are carbons. */
  const ELECTRON: nat := 0

  class QuantumDevice {
    var psi: State
    var inUse: set<nat>

    constructor (psi: State, inUse: set<nat>)
      ensures this.psi == psi && this.inUse == inUse
    {
      this.psi := psi;
      this.inUse := inUse;
    }

    method DoGate(g: Gate, q: nat)
      modifies this`psi
      ensures psi == Apply(g, q, old(psi))
    {
      psi := Apply(g, q, psi);
    }

    method DoCnot(control: nat, target: nat)
      modifies this`psi
      ensures psi == Cnot(control, target, old(psi))
    {
      psi := Cnot(control, target, psi);
    }

    method DoCphase(control: nat, target: nat)
      modifies this`psi
      ensures psi == Cphase(control, target, old(psi))
    {
      psi := Cphase(control, target, psi);
    }

    method DoCxDirPlus(control: nat, target: nat)
      modifies this`psi
      ensures psi == CxDirPlus(control, target, old(psi))
    {
      psi := CxDirPlus(control, target, psi);
    }

    method DoCyDirMinus(control: nat, target: nat)
      modifies this`psi
      ensures psi == CyDirMinus(control, target, old(psi))
    {
      psi := CyDirMinus(control, target, psi);
    }

    method DoInit(q: nat)
      modifies this
      ensures psi == Init(q, old(psi)) && inUse == old(inUse) + {q}
    {
      psi := Init(q, psi);
      inUse := inUse + {q};
    }

    /** Nature picks the outcome; the state collapses accordingly. */
    method Measure(q: nat, nature: bool) returns (outcome: bool)
      modifies this`psi
      ensures outcome == nature && psi == Project(q, outcome, old(psi))
    {
      outcome := nature;
      psi := Project(q, outcome, psi);
    }

    /** Entanglement delivery: a fresh pair on qubits `p` and `q`. */
    method DeliverPair(p: nat, q: nat)
      modifies this
      ensures psi == EprPair(p, q, old(psi)) && inUse == old(inUse) + {p, q}
    {
      psi := EprPair(p, q, psi);
      inUse := inUse + {p, q};
    }

    method Release(q: nat)
      modifies this`inUse
      ensures inUse == old(inUse) - {q}
    {
      inUse := inUse - {q};
    }
  }
}
