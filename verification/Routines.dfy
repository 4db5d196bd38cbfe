/**
 Teleportation and the distributed two-qubit gates, run by two nodes that share one pair.
 They hold for every joint state and every combination of measurement outcomes.
 */
module Routines {
  import opened Amplitudes
  import opened GateLaws
  import opened QDevice

  /** Three distinct qubits of interest, a basis state for all others, and the environment. */
  datatype Frame = Frame(b: Basis, q: nat, a: nat, r: nat, e: Env) {
    predicate Valid() {
      q != a && a != r && q != r
    }

    /** The basis state with the three qubits set. */
    function Set(x: bool, y: bool, z: bool): Basis {
      With(With(With(b, q, x), a, y), r, z)
    }

    function At(psi: State, x: bool, y: bool, z: bool, p: Part): real {
      psi(Set(x, y, z), e, p)
    }

    lemma Bits(x: bool, y: bool, z: bool)
      requires Valid()
      ensures forall v :: With(Set(x, y, z), q, v) == Set(v, y, z)
      ensures forall v :: With(Set(x, y, z), a, v) == Set(x, v, z)
      ensures forall v :: With(Set(x, y, z), r, v) == Set(x, y, v)
      ensures (q in Set(x, y, z)) == x && (a in Set(x, y, z)) == y && (r in Set(x, y, z)) == z
    {
    }

    lemma Here()
      requires Valid()
      ensures b == Set(q in b, a in b, r in b)
    {
    }
  }

  /** A fresh pair on `a` and `r`: equal bits, whatever was there before is discarded. */
  lemma PairAt(f: Frame, psi: State, x: bool, y: bool, z: bool, was1: bool, was2: bool, p: Part)
    requires f.Valid()
    ensures f.(e := Discarded(was1, Discarded(was2, f.e))).At(EprPair(f.a, f.r, psi), x, y, z, p)
         == if y == z then f.At(psi, x, was1, was2, p) else 0.0
  {
    f.Bits(x, y, z);
    f.Bits(x, was1, z);
  }

  function TeleportSent(q: nat, a: nat, m1: bool, m2: bool, psi: State): State {
    Project(a, m2, Project(q, m1, Apply(H, q, Cnot(q, a, psi))))
  }

  function TeleportCorrected(r: nat, m1: bool, m2: bool, psi: State): State {
    var s := if m2 then Apply(X, r, psi) else psi;
    if m1 then Apply(Z, r, s) else s
  }

  lemma SentAt(f: Frame, psi: State, m1: bool, m2: bool, x: bool, y: bool, z: bool, p: Part)
    requires f.Valid()
    ensures f.At(TeleportSent(f.q, f.a, m1, m2, psi), x, y, z, p) ==
            if x == m1 && y == m2 then f.At(psi, false, y, z, p) + Signed(!x, f.At(psi, true, !y, z, p)) else 0.0
  {
    f.Bits(x, y, z);
    HAt(f.q, Cnot(f.q, f.a, psi), f.Set(x, y, z), f.e, p);
    f.Bits(false, y, z);
    f.Bits(true, y, z);
    CnotAt(f.q, f.a, psi, f.Set(false, y, z), f.e, p);
    CnotAt(f.q, f.a, psi, f.Set(true, y, z), f.e, p);
  }

  lemma CorrectedAt(f: Frame, psi: State, m1: bool, m2: bool, x: bool, y: bool, z: bool, p: Part)
    requires f.Valid()
    ensures f.At(TeleportCorrected(f.r, m1, m2, psi), x, y, z, p) == Signed(!(m1 && z), f.At(psi, x, y, z != m2, p))
  {
    f.Bits(x, y, z);
    XAt(f.r, psi, f.Set(x, y, z), f.e, p);
    ZAt(f.r, if m2 then Apply(X, f.r, psi) else psi, f.Set(x, y, z), f.e, p);
  }

  /** The receiver's qubit ends up in the state that the sent qubit had, exactly. */
  lemma TeleportMoves(f: Frame, m1: bool, m2: bool, psi: State, was1: bool, was2: bool, p: Part)
    requires f.Valid()
    ensures TeleportCorrected(f.r, m1, m2, TeleportSent(f.q, f.a, m1, m2, EprPair(f.a, f.r, psi)))
              (f.b, Discarded(was1, Discarded(was2, f.e)), p)
         == if (f.q in f.b) == m1 && (f.a in f.b) == m2 then f.At(psi, f.r in f.b, was1, was2, p) else 0.0
  {
    var g := f.(e := Discarded(was1, Discarded(was2, f.e)));
    var x, y, z := f.q in f.b, f.a in f.b, f.r in f.b;
    g.Here();
    var s1 := EprPair(f.a, f.r, psi);
    CorrectedAt(g, TeleportSent(f.q, f.a, m1, m2, s1), m1, m2, x, y, z, p);
    SentAt(g, s1, m1, m2, x, y, z != m2, p);
    PairAt(f, psi, false, y, z != m2, was1, was2, p);
    PairAt(f, psi, true, !y, z != m2, was1, was2, p);
  }

  /** Sending side: half a Bell measurement on the qubit and the local half of the pair. */
  method TeleportSend(device: QuantumDevice, q: nat, epr: nat, nature1: bool, nature2: bool)
    returns (m1: bool, m2: bool)
    modifies device
    ensures m1 == nature1 && m2 == nature2
    ensures device.psi == TeleportSent(q, epr, m1, m2, old(device.psi))
  {
    device.DoCnot(q, epr);
    device.DoGate(H, q);
    m1 := device.Measure(q, nature1);
    m2 := device.Measure(epr, nature2);
  }

  /** Receiving side: corrections from the two bits in the message. */
  method TeleportReceive(device: QuantumDevice, epr: nat, m1: bool, m2: bool)
    modifies device
    ensures device.psi == TeleportCorrected(epr, m1, m2, old(device.psi))
  {
    if m2 {
      device.DoGate(X, epr);
    }
    if m1 {
      device.DoGate(Z, epr);
    }
  }

  /** Both sides together, on any state: the sent qubit and the sender's half of the pair are
      left in the measured basis states, and `there` holds what `q` held. */
  method Teleport(device: QuantumDevice, q: nat, here: nat, there: nat, nature1: bool, nature2: bool)
    returns (m1: bool, m2: bool)
    requires q != here && here != there && q != there
    modifies device
    ensures m1 == nature1 && m2 == nature2
    ensures forall b, was1, was2, e, p ::
      device.psi(b, Discarded(was1, Discarded(was2, e)), p) ==
      if (q in b) == m1 && (here in b) == m2
      then old(device.psi)(Frame(b, q, here, there, e).Set(there in b, was1, was2), e, p) else 0.0
  {
    device.DeliverPair(here, there);
    m1, m2 := TeleportSend(device, q, here, nature1, nature2);
    TeleportReceive(device, there, m1, m2);
    forall b, was1, was2, e, p
      ensures device.psi(b, Discarded(was1, Discarded(was2, e)), p) ==
              if (q in b) == m1 && (here in b) == m2
              then old(device.psi)(Frame(b, q, here, there, e).Set(there in b, was1, was2), e, p) else 0.0
    {
      TeleportMoves(Frame(b, q, here, there, e), m1, m2, old(device.psi), was1, was2, p);
    }
  }

  // Distributed gates. The frame holds the control and the two halves of the pair; the target
  // is a fourth qubit.

  datatype Kind = CNOT | CPHASE

  /** The gate as one node would do it. */
  function Local(kind: Kind, control: nat, target: nat, psi: State): State {
    match kind
    case CNOT => Cnot(control, target, psi)
    case CPHASE => Cphase(control, target, psi)
  }

  function ControlStarted(control: nat, epr: nat, m: bool, psi: State): State {
    Project(epr, m, Cnot(control, epr, psi))
  }

  function TargetDone(kind: Kind, epr: nat, target: nat, m: bool, m': bool, psi: State): State {
    Project(epr, m', Apply(H, epr, Local(kind, epr, target, if m then Apply(X, epr, psi) else psi)))
  }

  function ControlDone(control: nat, m': bool, psi: State): State {
    if m' then Apply(Z, control, psi) else psi
  }

  /** The local gate looks at no qubit but its two, and changes at most the target. */
  lemma LocalAt(kind: Kind, control: nat, target: nat, psi: State, b: Basis, e: Env, p: Part)
    ensures Local(kind, control, target, psi)(b, e, p) ==
            match kind
            case CNOT => psi(With(b, target, (target in b) != (control in b)), e, p)
            case CPHASE => Signed(!(control in b && target in b), psi(b, e, p))
  {
    match kind
    case CNOT => CnotAt(control, target, psi, b, e, p);
    case CPHASE => CphaseAt(control, target, psi, b, e, p);
  }

  /** After the control's measurement and the target's correction, the pair copies the control. */
  lemma CopiedAt(f: Frame, psi: State, m: bool, x: bool, y: bool, z: bool, was1: bool, was2: bool, p: Part)
    requires f.Valid()
    ensures var s := ControlStarted(f.q, f.a, m, EprPair(f.a, f.r, psi));
            f.(e := Discarded(was1, Discarded(was2, f.e))).At(if m then Apply(X, f.r, s) else s, x, y, z, p)
            == if y == m && z == x then f.At(psi, x, was1, was2, p) else 0.0
  {
    var g := f.(e := Discarded(was1, Discarded(was2, f.e)));
    var s1 := EprPair(f.a, f.r, psi);
    g.Bits(x, y, z);
    g.Bits(x, y, z != m);
    XAt(f.r, ControlStarted(f.q, f.a, m, s1), g.Set(x, y, z), g.e, p);
    CnotAt(f.q, f.a, s1, g.Set(x, y, z != m), g.e, p);
    PairAt(f, psi, x, y != x, z != m, was1, was2, p);
  }

  lemma OtherQubit(f: Frame, t: nat, v: bool, x: bool, y: bool, z: bool)
    requires f.Valid() && t != f.q && t != f.a && t != f.r
    ensures With(f.Set(x, y, z), t, v) == f.(b := With(f.b, t, v)).Set(x, y, z)
    ensures (t in f.Set(x, y, z)) == (t in f.b)
  {
  }

  /** The gate in terms of the frame: the control or the copy may be any of the three qubits. */
  lemma LocalInFrame(kind: Kind, f: Frame, c: nat, t: nat, psi: State, x: bool, y: bool, z: bool, p: Part)
    requires f.Valid() && t != f.q && t != f.a && t != f.r
    requires c == f.q || c == f.r
    ensures var bit := if c == f.q then x else z;
            f.At(Local(kind, c, t, psi), x, y, z, p) ==
            match kind
            case CNOT => f.(b := With(f.b, t, (t in f.b) != bit)).At(psi, x, y, z, p)
            case CPHASE => Signed(!(bit && t in f.b), f.At(psi, x, y, z, p))
  {
    var bit := if c == f.q then x else z;
    LocalAt(kind, c, t, psi, f.Set(x, y, z), f.e, p);
    f.Bits(x, y, z);
    OtherQubit(f, t, (t in f.b) != bit, x, y, z);
  }

  /** After the target's gate: the local gate has acted, and the pair still copies the control. */
  lemma TargetGateAt(kind: Kind, f: Frame, t: nat, psi: State, m: bool, x: bool, y: bool, z: bool, was1: bool, was2: bool, p: Part)
    requires f.Valid() && t != f.q && t != f.a && t != f.r
    ensures var s := ControlStarted(f.q, f.a, m, EprPair(f.a, f.r, psi));
            f.(e := Discarded(was1, Discarded(was2, f.e)))
             .At(Local(kind, f.r, t, if m then Apply(X, f.r, s) else s), x, y, z, p)
            == if y == m && z == x then f.At(Local(kind, f.q, t, psi), x, was1, was2, p) else 0.0
  {
    var g := f.(e := Discarded(was1, Discarded(was2, f.e)));
    var s := ControlStarted(f.q, f.a, m, EprPair(f.a, f.r, psi));
    LocalInFrame(kind, g, f.r, t, if m then Apply(X, f.r, s) else s, x, y, z, p);
    LocalInFrame(kind, f, f.q, t, psi, x, was1, was2, p);
    CopiedAt(f, psi, m, x, y, z, was1, was2, p);
    CopiedAt(f.(b := With(f.b, t, (t in f.b) != z)), psi, m, x, y, z, was1, was2, p);
  }

  /** The last two steps: the half of the pair, a copy of the control, is measured in the X
      basis, and the control gets the phase correction. The two signs cancel. */
  lemma FinishAt(f: Frame, s: State, m': bool, x: bool, y: bool, z: bool, p: Part, out: real)
    requires f.Valid()
    requires f.At(s, x, y, x, p) == out && f.At(s, x, y, !x, p) == 0.0
    ensures f.At(ControlDone(f.q, m', Project(f.r, m', Apply(H, f.r, s))), x, y, z, p) == if z == m' then out else 0.0
  {
    f.Bits(x, y, z);
    ZAt(f.q, Project(f.r, m', Apply(H, f.r, s)), f.Set(x, y, z), f.e, p);
    HAt(f.r, s, f.Set(x, y, z), f.e, p);
  }

  /** The two nodes together apply the local gate to control and target, exactly. */
  lemma DistributedActsLocally(kind: Kind, f: Frame, t: nat, psi: State, m: bool, m': bool, was1: bool, was2: bool, p: Part)
    requires f.Valid() && t != f.q && t != f.a && t != f.r
    ensures ControlDone(f.q, m', TargetDone(kind, f.r, t, m, m', ControlStarted(f.q, f.a, m, EprPair(f.a, f.r, psi))))
              (f.b, Discarded(was1, Discarded(was2, f.e)), p)
         == if (f.a in f.b) == m && (f.r in f.b) == m' then f.At(Local(kind, f.q, t, psi), f.q in f.b, was1, was2, p) else 0.0
  {
    var g := f.(e := Discarded(was1, Discarded(was2, f.e)));
    var x, y, z := f.q in f.b, f.a in f.b, f.r in f.b;
    g.Here();
    var s := ControlStarted(f.q, f.a, m, EprPair(f.a, f.r, psi));
    TargetGateAt(kind, f, t, psi, m, x, y, x, was1, was2, p);
    TargetGateAt(kind, f, t, psi, m, x, y, !x, was1, was2, p);
    FinishAt(g, Local(kind, f.r, t, if m then Apply(X, f.r, s) else s), m', x, y, z, p,
             if y == m then f.At(Local(kind, f.q, t, psi), x, was1, was2, p) else 0.0);
  }

  /** First half of the control's routine; the outcome is sent to the target. */
  method ControlStart(device: QuantumDevice, control: nat, epr: nat, nature: bool) returns (m: bool)
    modifies device
    ensures m == nature && device.psi == ControlStarted(control, epr, m, old(device.psi))
  {
    device.DoCnot(control, epr);
    m := device.Measure(epr, nature);
  }

  /** The target's routine, given the control's outcome; its own outcome is sent back. */
  method TargetPart(kind: Kind, device: QuantumDevice, target: nat, epr: nat, m: bool, nature: bool) returns (m': bool)
    modifies device
    ensures m' == nature && device.psi == TargetDone(kind, epr, target, m, m', old(device.psi))
  {
    if m {
      device.DoGate(X, epr);
    }
    if kind.CNOT? {
      device.DoCnot(epr, target);
    } else {
      device.DoCphase(epr, target);
    }
    device.DoGate(H, epr);
    m' := device.Measure(epr, nature);
  }

  /** Second half of the control's routine, given the target's outcome. */
  method ControlFinish(device: QuantumDevice, control: nat, m': bool)
    modifies device
    ensures device.psi == ControlDone(control, m', old(device.psi))
  {
    if m' {
      device.DoGate(Z, control);
    }
  }

  /** The two routines with their two messages. Whatever the outcomes, the effect on control,
      target and everything else is that of the local gate; the halves of the pair are left in
      the measured basis states. */
  method DistributedGate(kind: Kind, device: QuantumDevice, control: nat, here: nat, there: nat, target: nat,
                         nature1: bool, nature2: bool)
    returns (m: bool, m': bool)
    requires control != here && here != there && control != there
    requires target != control && target != here && target != there
    modifies device
    ensures m == nature1 && m' == nature2
    ensures forall b, was1, was2, e, p ::
      device.psi(b, Discarded(was1, Discarded(was2, e)), p) ==
      if (here in b) == m && (there in b) == m'
      then Local(kind, control, target, old(device.psi))(Frame(b, control, here, there, e).Set(control in b, was1, was2), e, p)
      else 0.0
  {
    device.DeliverPair(here, there);
    m := ControlStart(device, control, here, nature1);
    m' := TargetPart(kind, device, target, there, m, nature2);
    ControlFinish(device, control, m');
    forall b, was1, was2, e, p
      ensures device.psi(b, Discarded(was1, Discarded(was2, e)), p) ==
              if (here in b) == m && (there in b) == m'
              then Local(kind, control, target, old(device.psi))(Frame(b, control, here, there, e).Set(control in b, was1, was2), e, p)
              else 0.0
    {
      DistributedActsLocally(kind, Frame(b, control, here, there, e), target, old(device.psi), m, m', was1, was2, p);
    }
  }
}
