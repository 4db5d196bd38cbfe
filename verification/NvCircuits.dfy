/**
 The two circuits that NV hardware uses to move a qubit between the electron (qubit 0) and
 a carbon, on every joint state.
 */
module NvCircuits {
  import opened Amplitudes
  import opened GateLaws
  import opened QDevice

  /** The basis state `b` with the electron set to `x` and the carbon `c` to `y`. */
  function Corner(b: Basis, c: nat, x: bool, y: bool): Basis {
    With(With(b, ELECTRON, x), c, y)
  }

  /** One part of the amplitude with the electron set to `x` and the carbon to `y`. */
  function At(psi: State, b: Basis, c: nat, x: bool, y: bool, e: Env, p: Part): real {
    psi(Corner(b, c, x, y), e, p)
  }

  function IAt(psi: State, b: Basis, c: nat, x: bool, y: bool, e: Env, p: Part): real {
    TimesI(psi, Corner(b, c, x, y), e, p)
  }

  lemma CornerBits(b: Basis, c: nat, x: bool, y: bool)
    requires c != ELECTRON
    ensures forall v :: With(Corner(b, c, x, y), ELECTRON, v) == Corner(b, c, v, y)
    ensures forall v :: With(Corner(b, c, x, y), c, v) == Corner(b, c, x, v)
    ensures (ELECTRON in Corner(b, c, x, y)) == x && (c in Corner(b, c, x, y)) == y
    ensures b == Corner(b, c, ELECTRON in b, c in b)
  {
  }

  function SwapHead(c: nat, psi: State): State {
    CyDirMinus(ELECTRON, c, Apply(RotYPlus, ELECTRON, psi))
  }

  function SwapTail(c: nat, psi: State): State {
    CxDirPlus(ELECTRON, c, Apply(RotXMinus, ELECTRON, psi))
  }

  lemma ElectronGateAt(g: Gate, c: nat, psi: State, b: Basis, x: bool, y: bool, e: Env, p: Part)
    requires c != ELECTRON
    ensures At(Apply(g, ELECTRON, psi), b, c, x, y, e, p) ==
            var a0, a1 := At(psi, b, c, false, y, e, p), At(psi, b, c, true, y, e, p);
            if x then g.Row1(a0, a1, IAt(psi, b, c, false, y, e, p)) else g.Row0(a0, a1, IAt(psi, b, c, true, y, e, p))
  {
    CornerBits(b, c, x, y);
  }

  lemma CarbonGateAt(g0: Gate, g1: Gate, c: nat, psi: State, b: Basis, x: bool, y: bool, e: Env, p: Part)
    requires c != ELECTRON
    ensures At(ApplyControlled(g0, g1, ELECTRON, c, psi), b, c, x, y, e, p) ==
            var g := if x then g1 else g0;
            var a0, a1 := At(psi, b, c, x, false, e, p), At(psi, b, c, x, true, e, p);
            if y then g.Row1(a0, a1, IAt(psi, b, c, x, false, e, p)) else g.Row0(a0, a1, IAt(psi, b, c, x, true, e, p))
  {
    CornerBits(b, c, x, y);
  }

  lemma SwapHeadAt(c: nat, psi: State, b: Basis, x: bool, y: bool, e: Env, p: Part)
    requires c != ELECTRON
    ensures At(SwapHead(c, psi), b, c, x, y, e, p) ==
            At(psi, b, c, false, y, e, p) + Signed(x, At(psi, b, c, true, y, e, p))
            + Signed(x == y, At(psi, b, c, false, !y, e, p)) + Signed(y, At(psi, b, c, true, !y, e, p))
  {
    var s := Apply(RotYPlus, ELECTRON, psi);
    CarbonGateAt(RotYMinus, RotYPlus, c, s, b, x, y, e, p);
    ElectronGateAt(RotYPlus, c, psi, b, x, false, e, p);
    ElectronGateAt(RotYPlus, c, psi, b, x, true, e, p);
  }

  lemma SwapTailAt(c: nat, psi: State, b: Basis, x: bool, y: bool, e: Env, p: Part)
    requires c != ELECTRON
    ensures At(SwapTail(c, psi), b, c, x, y, e, p) ==
            At(psi, b, c, x, y, e, p) + IAt(psi, b, c, !x, y, e, p)
            + Signed(x, IAt(psi, b, c, x, !y, e, p)) + Signed(!x, At(psi, b, c, !x, !y, e, p))
  {
    var s := Apply(RotXMinus, ELECTRON, psi);
    CarbonGateAt(RotXPlus, RotXMinus, c, s, b, x, y, e, p);
    ElectronGateAt(RotXMinus, c, psi, b, x, y, e, p);
    ElectronGateAt(RotXMinus, c, psi, b, x, !y, e, Re);
    ElectronGateAt(RotXMinus, c, psi, b, x, !y, e, Im);
  }

  function ElectronToCarbon(carbon: nat, psi: State): State {
    SwapTail(carbon, SwapHead(carbon, Init(carbon, psi)))
  }

  function CarbonToElectron(carbon: nat, psi: State): State {
    Apply(RotYMinus, ELECTRON, SwapTail(carbon, SwapHead(carbon, Init(ELECTRON, psi))))
  }

  lemma FreshCarbonAt(c: nat, psi: State, b: Basis, x: bool, y: bool, was: bool, e: Env, p: Part)
    requires c != ELECTRON
    ensures At(Init(c, psi), b, c, x, y, Discarded(was, e), p) == if y then 0.0 else At(psi, b, c, x, was, e, p)
  {
    CornerBits(b, c, x, y);
  }

  lemma FreshElectronAt(c: nat, psi: State, b: Basis, x: bool, y: bool, was: bool, e: Env, p: Part)
    requires c != ELECTRON
    ensures At(Init(ELECTRON, psi), b, c, x, y, Discarded(was, e), p) == if x then 0.0 else At(psi, b, c, was, y, e, p)
  {
    CornerBits(b, c, x, y);
  }

  /** The first half on a fresh carbon: (|0>-|1>)|0> and so on, entry by entry. */
  lemma HeadOnFreshCarbon(c: nat, psi: State, b: Basis, x: bool, y: bool, was: bool, e: Env, p: Part)
    requires c != ELECTRON
    ensures At(SwapHead(c, Init(c, psi)), b, c, x, y, Discarded(was, e), p) ==
            Signed(x || !y, At(psi, b, c, false, was, e, p)) + Signed(x || y, At(psi, b, c, true, was, e, p))
  {
    SwapHeadAt(c, Init(c, psi), b, x, y, Discarded(was, e), p);
    FreshCarbonAt(c, psi, b, false, y, was, e, p);
    FreshCarbonAt(c, psi, b, true, y, was, e, p);
    FreshCarbonAt(c, psi, b, false, !y, was, e, p);
    FreshCarbonAt(c, psi, b, true, !y, was, e, p);
  }

  /** The state moves to the carbon exactly, times 2+2i, and the electron is left in |0>+|1>:
      the new amplitude does not depend on the electron's bit. The carbon's old qubit is
      discarded. */
  lemma ElectronToCarbonMoves(c: nat, psi: State, b: Basis, was: bool, e: Env, p: Part)
    requires c != ELECTRON
    ensures ElectronToCarbon(c, psi)(b, Discarded(was, e), p)
         == 2.0 * At(psi, b, c, c in b, was, e, p) + 2.0 * IAt(psi, b, c, c in b, was, e, p)
  {
    var x, y := ELECTRON in b, c in b;
    CornerBits(b, c, x, y);
    SwapTailAt(c, SwapHead(c, Init(c, psi)), b, x, y, Discarded(was, e), p);
    HeadOnFreshCarbon(c, psi, b, x, y, was, e, p);
    HeadOnFreshCarbon(c, psi, b, !x, !y, was, e, p);
    var q := if p.Re? then Im else Re;
    HeadOnFreshCarbon(c, psi, b, !x, y, was, e, q);
    HeadOnFreshCarbon(c, psi, b, x, !y, was, e, q);
  }

  lemma HeadOnFreshElectron(c: nat, psi: State, b: Basis, x: bool, y: bool, was: bool, e: Env, p: Part)
    requires c != ELECTRON
    ensures At(SwapHead(c, Init(ELECTRON, psi)), b, c, x, y, Discarded(was, e), p) ==
            At(psi, b, c, was, y, e, p) + Signed(x == y, At(psi, b, c, was, !y, e, p))
  {
    SwapHeadAt(c, Init(ELECTRON, psi), b, x, y, Discarded(was, e), p);
    FreshElectronAt(c, psi, b, false, y, was, e, p);
    FreshElectronAt(c, psi, b, true, y, was, e, p);
    FreshElectronAt(c, psi, b, false, !y, was, e, p);
    FreshElectronAt(c, psi, b, true, !y, was, e, p);
  }

  /** Before the last rotation: |0>|x> has become (|0> + |1>)|0> or i times (|1> - |0>)|0>. */
  lemma TailOnFreshElectron(c: nat, psi: State, b: Basis, x: bool, y: bool, was: bool, e: Env, p: Part)
    requires c != ELECTRON
    ensures At(SwapTail(c, SwapHead(c, Init(ELECTRON, psi))), b, c, x, y, Discarded(was, e), p) ==
            if y then 0.0
            else 2.0 * At(psi, b, c, was, false, e, p) + 2.0 * IAt(psi, b, c, was, false, e, p)
                 + Signed(x, 2.0 * IAt(psi, b, c, was, true, e, p) - 2.0 * At(psi, b, c, was, true, e, p))
  {
    SwapTailAt(c, SwapHead(c, Init(ELECTRON, psi)), b, x, y, Discarded(was, e), p);
    HeadOnFreshElectron(c, psi, b, x, y, was, e, p);
    HeadOnFreshElectron(c, psi, b, !x, !y, was, e, p);
    var q := if p.Re? then Im else Re;
    HeadOnFreshElectron(c, psi, b, !x, y, was, e, q);
    HeadOnFreshElectron(c, psi, b, x, !y, was, e, q);
  }

  /** The carbon is left in |0>, and the state is on the electron, times 4+4i and with one
      more factor i where the bit is 1. The electron's old qubit is discarded. */
  lemma CarbonToElectronMoves(c: nat, psi: State, b: Basis, was: bool, e: Env, p: Part)
    requires c != ELECTRON
    ensures CarbonToElectron(c, psi)(b, Discarded(was, e), p) ==
            if c in b then 0.0
            else Signed(ELECTRON !in b, 4.0 * At(psi, b, c, was, ELECTRON in b, e, p))
                 + 4.0 * IAt(psi, b, c, was, ELECTRON in b, e, p)
  {
    var x, y, e' := ELECTRON in b, c in b, Discarded(was, e);
    CornerBits(b, c, x, y);
    ElectronGateAt(RotYMinus, c, SwapTail(c, SwapHead(c, Init(ELECTRON, psi))), b, x, y, e', p);
    TailOnFreshElectron(c, psi, b, false, y, was, e, p);
    TailOnFreshElectron(c, psi, b, true, y, was, e, p);
  }

  /** A reset leaves nothing in the environments that record no discarded qubit. */
  lemma NothingOutside(c: nat, psi: State, b: Basis, i: int, p: Part)
    requires c != ELECTRON
    ensures ElectronToCarbon(c, psi)(b, Outside(i), p) == 0.0 == CarbonToElectron(c, psi)(b, Outside(i), p)
  {
    var x, y := ELECTRON in b, c in b;
    CornerBits(b, c, x, y);
    NothingOutsideAt(c, c, psi, b, x, y, i, p);
    ElectronGateAt(RotYMinus, c, SwapTail(c, SwapHead(c, Init(ELECTRON, psi))), b, x, y, Outside(i), p);
    NothingOutsideAt(c, ELECTRON, psi, b, false, y, i, p);
    NothingOutsideAt(c, ELECTRON, psi, b, true, y, i, p);
  }

  lemma HeadOutsideAt(c: nat, q: nat, psi: State, b: Basis, x: bool, y: bool, i: int, p: Part)
    requires c != ELECTRON
    ensures At(SwapHead(c, Init(q, psi)), b, c, x, y, Outside(i), p) == 0.0
  {
    SwapHeadAt(c, Init(q, psi), b, x, y, Outside(i), p);
  }

  lemma NothingOutsideAt(c: nat, q: nat, psi: State, b: Basis, x: bool, y: bool, i: int, p: Part)
    requires c != ELECTRON
    ensures At(SwapTail(c, SwapHead(c, Init(q, psi))), b, c, x, y, Outside(i), p) == 0.0
  {
    SwapTailAt(c, SwapHead(c, Init(q, psi)), b, x, y, Outside(i), p);
    HeadOutsideAt(c, q, psi, b, x, y, i, p);
    HeadOutsideAt(c, q, psi, b, !x, !y, i, p);
    var r := if p.Re? then Im else Re;
    HeadOutsideAt(c, q, psi, b, !x, y, i, r);
    HeadOutsideAt(c, q, psi, b, x, !y, i, r);
  }

  /** Moving to a carbon scales every Born weight by 8. */
  lemma ElectronToCarbonWeight(c: nat, psi: State, b: Basis, was: bool, e: Env)
    requires c != ELECTRON
    ensures Weight(ElectronToCarbon(c, psi), b, Discarded(was, e)) == 8.0 * Weight(psi, Corner(b, c, c in b, was), e)
  {
    ElectronToCarbonMoves(c, psi, b, was, e, Re);
    ElectronToCarbonMoves(c, psi, b, was, e, Im);
    var b0 := Corner(b, c, c in b, was);
    WeightFrom(ElectronToCarbon(c, psi), b, Discarded(was, e),
               2.0 * psi(b0, e, Re) - 2.0 * psi(b0, e, Im), 2.0 * psi(b0, e, Im) + 2.0 * psi(b0, e, Re));
  }

  /** Moving to the electron scales every Born weight by 32, whatever the bit is. */
  lemma CarbonToElectronWeight(c: nat, psi: State, b: Basis, was: bool, e: Env)
    requires c != ELECTRON
    ensures Weight(CarbonToElectron(c, psi), b, Discarded(was, e)) ==
            if c in b then 0.0 else 32.0 * Weight(psi, Corner(b, c, was, ELECTRON in b), e)
  {
    CarbonToElectronMoves(c, psi, b, was, e, Re);
    CarbonToElectronMoves(c, psi, b, was, e, Im);
    if c in b {
      WeightFrom(CarbonToElectron(c, psi), b, Discarded(was, e), 0.0, 0.0);
    } else {
      var b0 := Corner(b, c, was, ELECTRON in b);
      TurnedWeight(CarbonToElectron(c, psi), b, Discarded(was, e), psi(b0, e, Re), psi(b0, e, Im), !(ELECTRON in b));
    }
  }

  lemma TurnedWeight(s: State, b: Basis, e: Env, re: real, im: real, plus: bool)
    requires s(b, e, Re) == Signed(plus, 4.0 * re) - 4.0 * im && s(b, e, Im) == Signed(plus, 4.0 * im) + 4.0 * re
    ensures Weight(s, b, e) == 32.0 * (re * re + im * im)
  {
    if plus {
      WeightFrom(s, b, e, 4.0 * re - 4.0 * im, 4.0 * im + 4.0 * re);
    } else {
      WeightFrom(s, b, e, -(4.0 * re) - 4.0 * im, -(4.0 * im) + 4.0 * re);
    }
  }

  lemma WeightFrom(s: State, b: Basis, e: Env, re: real, im: real)
    requires s(b, e, Re) == re && s(b, e, Im) == im
    ensures Weight(s, b, e) == re * re + im * im
  {
  }

  method MoveElectronToCarbon(device: QuantumDevice, carbon: nat)
    modifies device
    ensures device.psi == ElectronToCarbon(carbon, old(device.psi))
    ensures device.inUse == old(device.inUse) + {carbon}
  {
    device.DoInit(carbon);
    device.DoGate(RotYPlus, ELECTRON);
    device.DoCyDirMinus(ELECTRON, carbon);
    device.DoGate(RotXMinus, ELECTRON);
    device.DoCxDirPlus(ELECTRON, carbon);
  }

  method MoveCarbonToElectron(device: QuantumDevice, carbon: nat)
    modifies device
    ensures device.psi == CarbonToElectron(carbon, old(device.psi))
    ensures device.inUse == old(device.inUse) + {ELECTRON}
  {
    device.DoInit(ELECTRON);
    device.DoGate(RotYPlus, ELECTRON);
    device.DoCyDirMinus(ELECTRON, carbon);
    device.DoGate(RotXMinus, ELECTRON);
    device.DoCxDirPlus(ELECTRON, carbon);
    device.DoGate(RotYMinus, ELECTRON);
  }
}
