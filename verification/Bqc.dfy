/**
 Blind quantum computation between a client and a server, for all angles.

 An angle is represented by its phase e^(i*angle), so adding angles multiplies phases,
 negating conjugates, and adding pi negates. Z-rotations are taken up to a global phase.
 */
module Bqc {
  import opened Amplitudes
  import opened GateLaws
  import opened QDevice

  datatype Complex = Complex(re: real, im: real) {
    function Part(p: Part): real {
      if p.Re? then re else im
    }
  }

  const ZERO := Complex(0.0, 0.0)
  const ONE := Complex(1.0, 0.0)

  function Add(x: Complex, y: Complex): Complex {
    Complex(x.re + y.re, x.im + y.im)
  }

  function Mul(x: Complex, y: Complex): Complex {
    Complex(x.re * y.re - x.im * y.im, x.re * y.im + x.im * y.re)
  }

  function Conj(x: Complex): Complex {
    Complex(x.re, -x.im)
  }

  /** x where `plus`, and -x otherwise: for phases, the angle plus 0 or pi. */
  function Flip(plus: bool, x: Complex): Complex {
    Complex(Signed(plus, x.re), Signed(plus, x.im))
  }

  predicate IsPhase(u: Complex) {
    u.re * u.re + u.im * u.im == 1.0
  }

  function Amplitude(psi: State, b: Basis, e: Env): Complex {
    Complex(psi(b, e, Re), psi(b, e, Im))
  }

  // Complex arithmetic.

  lemma MulComm(x: Complex, y: Complex)
    ensures Mul(x, y) == Mul(y, x)
  {
  }

  lemma MulAssoc(x: Complex, y: Complex, z: Complex)
    ensures Mul(Mul(x, y), z) == Mul(x, Mul(y, z))
  {
  }

  lemma MulAdd(x: Complex, y: Complex, z: Complex)
    ensures Mul(Add(x, y), z) == Add(Mul(x, z), Mul(y, z))
    ensures Mul(z, Add(x, y)) == Add(Mul(z, x), Mul(z, y))
  {
  }

  lemma MulFlip(plus: bool, x: Complex, y: Complex)
    ensures Mul(Flip(plus, x), y) == Mul(x, Flip(plus, y)) == Flip(plus, Mul(x, y))
  {
  }

  lemma PhaseInverse(u: Complex)
    requires IsPhase(u)
    ensures Mul(Conj(u), u) == Mul(u, Conj(u)) == ONE
  {
  }

  /** A rotation by (a - theta + (p + r)*pi) undoes a preparation over theta + p*pi, up to r*pi. */
  lemma {:induction false} ThetaCancels(a: Complex, theta: Complex, p: bool, r: bool)
    requires IsPhase(theta)
    ensures Mul(Flip(p == r, Mul(a, Conj(theta))), Flip(!p, theta)) == Flip(!r, a)
  {
    MulFlip(p == r, Mul(a, Conj(theta)), Flip(!p, theta));
    MulFlip(!p, Mul(a, Conj(theta)), theta);
    MulAssoc(a, Conj(theta), theta);
    PhaseInverse(theta);
  }

  // The steps of the protocol, as operations and as relations between amplitudes.

  /** Z-rotation of `q` over the angle with phase `u`. */
  function RotZ(u: Complex, q: nat, psi: State): State {
    (b: Basis, e: Env, p: Part) => if q in b then Mul(u, Amplitude(psi, b, e)).Part(p) else psi(b, e, p)
  }

  /** Rotate by `u`, Hadamard, and measure with the given outcome. */
  function MeasXY(q: nat, u: Complex, outcome: bool, psi: State): State {
    Project(q, outcome, Apply(H, q, RotZ(u, q, psi)))
  }

  /** Remote state preparation: the client rotates and measures its half of a pair. */
  function Prepared(client: nat, server: nat, theta: Complex, outcome: bool, psi: State): State {
    MeasXY(client, theta, outcome, EprPair(client, server, psi))
  }

  /** The prepared qubit is Rz(theta + outcome*pi) |+>. */
  function PreparedFactor(theta: Complex, outcome: bool, bit: bool): Complex {
    if bit then Flip(!outcome, theta) else ONE
  }

  ghost predicate IsMeasXY(s: State, s': State, q: nat, u: Complex, m: bool) {
    forall b: Basis, e: Env :: Amplitude(s', b, e) ==
      if (q in b) == m
      then Add(Amplitude(s, With(b, q, false), e), Flip(!m, Mul(u, Amplitude(s, With(b, q, true), e)))) else ZERO
  }

  ghost predicate IsCphase(s: State, s': State, c: nat, t: nat) {
    forall b: Basis, e: Env :: Amplitude(s', b, e) == Flip(!(c in b && t in b), Amplitude(s, b, e))
  }

  ghost predicate IsPrepared(s: State, s': State, c: nat, t: nat, theta: Complex, m: bool) {
    forall b: Basis, e: Env, was1: bool, was2: bool ::
      Amplitude(s', b, Discarded(was1, Discarded(was2, e))) ==
      if (c in b) == m
      then Mul(PreparedFactor(theta, m, t in b), Amplitude(s, With(With(b, c, was1), t, was2), e)) else ZERO
  }

  lemma MeasXYAt(q: nat, u: Complex, m: bool, s: State, b: Basis, e: Env)
    ensures Amplitude(MeasXY(q, u, m, s), b, e) ==
            if (q in b) == m
            then Add(Amplitude(s, With(b, q, false), e), Flip(!m, Mul(u, Amplitude(s, With(b, q, true), e)))) else ZERO
  {
    HAt(q, RotZ(u, q, s), b, e, Re);
    HAt(q, RotZ(u, q, s), b, e, Im);
  }

  lemma CphaseHolds(s: State, c: nat, t: nat)
    ensures IsCphase(s, Cphase(c, t, s), c, t)
  {
    forall b: Basis, e: Env
      ensures Amplitude(Cphase(c, t, s), b, e) == Flip(!(c in b && t in b), Amplitude(s, b, e))
    {
      CphaseAt(c, t, s, b, e, Re);
      CphaseAt(c, t, s, b, e, Im);
    }
  }

  lemma PreparedAt(s: State, c: nat, t: nat, theta: Complex, m: bool, b: Basis, e: Env, was1: bool, was2: bool)
    requires c != t
    ensures Amplitude(Prepared(c, t, theta, m, s), b, Discarded(was1, Discarded(was2, e))) ==
            if (c in b) == m
            then Mul(PreparedFactor(theta, m, t in b), Amplitude(s, With(With(b, c, was1), t, was2), e)) else ZERO
  {
    var z := Amplitude(s, With(With(b, c, was1), t, was2), e);
    MeasXYAt(c, theta, m, EprPair(c, t, s), b, Discarded(was1, Discarded(was2, e)));
    forall v: bool
      ensures Amplitude(EprPair(c, t, s), With(b, c, v), Discarded(was1, Discarded(was2, e)))
           == if v == (t in b) then z else ZERO
    {
      assert With(With(With(b, c, v), c, was1), t, was2) == With(With(b, c, was1), t, was2);
    }
    MulFlip(!m, theta, z);
  }

  lemma MeasXYHolds(s: State, q: nat, u: Complex, m: bool)
    ensures IsMeasXY(s, MeasXY(q, u, m, s), q, u, m)
  {
    forall b: Basis, e: Env { MeasXYAt(q, u, m, s, b, e); }
  }

  lemma PreparedHolds(s: State, c: nat, t: nat, theta: Complex, m: bool)
    requires c != t
    ensures IsPrepared(s, Prepared(c, t, theta, m, s), c, t, theta, m)
  {
    forall b: Basis, e: Env, was1: bool, was2: bool { PreparedAt(s, c, t, theta, m, b, e, was1, was2); }
  }

  method DoMeasXY(device: QuantumDevice, q: nat, u: Complex, nature: bool) returns (m: bool)
    modifies device
    ensures m == nature && device.psi == MeasXY(q, u, m, old(device.psi))
  {
    device.psi := RotZ(u, q, device.psi);
    device.DoGate(H, q);
    m := device.Measure(q, nature);
  }

  /** Both ends of remote state preparation: the pair, and the client's measurement of its half. */
  method RemoteStatePreparation(device: QuantumDevice, client: nat, server: nat, theta: Complex, nature: bool)
    returns (m: bool)
    requires client != server
    modifies device
    ensures m == nature && IsPrepared(old(device.psi), device.psi, client, server, theta, m)
  {
    device.DeliverPair(client, server);
    m := DoMeasXY(device, client, theta, nature);
    PreparedHolds(old(device.psi), client, server, theta, m);
  }

  // The whole protocol. Qubits: c1, c2 are the client's halves, s1, s2 the server's.

  datatype Qubits = Qubits(c1: nat, s1: nat, c2: nat, s2: nat) {
    predicate Valid() {
      c1 != s1 && c1 != c2 && c1 != s2 && s1 != c2 && s1 != s2 && c2 != s2
    }

    /** The basis state `b` with all four qubits replaced. */
    function Reset(b: Basis, w: Old): Basis {
      With(With(With(With(b, c2, w.c2), s2, w.s2), c1, w.c1), s1, w.s1)
    }
  }

  /** What the four qubits held before the pairs were delivered there. */
  datatype Old = Old(c1: bool, s1: bool, c2: bool, s2: bool) {
    function In(e: Env): Env {
      Discarded(c2, Discarded(s2, Discarded(c1, Discarded(s1, e))))
    }
  }

  /** Inputs and secrets of the client. */
  datatype Params = Params(alpha: Complex, beta: Complex, theta1: Complex, theta2: Complex, r1: bool, r2: bool) {
    predicate Valid() {
      IsPhase(alpha) && IsPhase(beta) && IsPhase(theta1) && IsPhase(theta2)
    }

    /** alpha - theta1 + (p1 + r1)*pi */
    function Delta1(p1: bool): Complex {
      Flip(p1 == r1, Mul(alpha, Conj(theta1)))
    }

    /** (-1)^(m1 + r1) * beta - theta2 + (p2 + r2)*pi */
    function Delta2(p2: bool, m1: bool): Complex {
      Flip(p2 == r2, Mul(Beta(m1), Conj(theta2)))
    }

    function Beta(m1: bool): Complex {
      if m1 == r1 then beta else Conj(beta)
    }
  }

  datatype Outcomes = Outcomes(p1: bool, p2: bool, m1: bool, m2: bool)

  /** The measured qubits are where the outcomes say. */
  predicate Agrees(q: Qubits, o: Outcomes, b: Basis) {
    (q.c1 in b) == o.p1 && (q.c2 in b) == o.p2 && (q.s1 in b) == o.m1 && (q.s2 in b) == o.m2
  }

  lemma PairsAmplitude(s0: State, s1: State, s2: State, q: Qubits, k: Params, o: Outcomes, b: Basis, w: Old, e: Env)
    requires q.Valid()
    requires IsPrepared(s0, s1, q.c1, q.s1, k.theta1, o.p1)
    requires IsPrepared(s1, s2, q.c2, q.s2, k.theta2, o.p2)
    ensures Amplitude(s2, b, w.In(e)) ==
            if (q.c1 in b) == o.p1 && (q.c2 in b) == o.p2
            then Mul(PreparedFactor(k.theta2, o.p2, q.s2 in b),
                     Mul(PreparedFactor(k.theta1, o.p1, q.s1 in b), Amplitude(s0, q.Reset(b, w), e)))
            else ZERO
  {
    var b1 := With(With(b, q.c2, w.c2), q.s2, w.s2);
    assert (q.c1 in b1) == (q.c1 in b) && (q.s1 in b1) == (q.s1 in b);
    assert Amplitude(s1, b1, Discarded(w.c1, Discarded(w.s1, e))) ==
           if (q.c1 in b) == o.p1
           then Mul(PreparedFactor(k.theta1, o.p1, q.s1 in b), Amplitude(s0, q.Reset(b, w), e)) else ZERO;
  }

  /** Amplitude of the server's two-qubit cluster state, as a multiple of z. */
  function Cluster(k: Params, o: Outcomes, x: bool, y: bool, z: Complex): Complex {
    Flip(!(x && y), Mul(PreparedFactor(k.theta2, o.p2, y), Mul(PreparedFactor(k.theta1, o.p1, x), z)))
  }

  /** Amplitude after the first measurement. */
  function First(k: Params, o: Outcomes, y: bool, z: Complex): Complex {
    Add(Cluster(k, o, false, y, z), Flip(!o.m1, Mul(k.Delta1(o.p1), Cluster(k, o, true, y, z))))
  }

  /** Amplitude after the second measurement. */
  function Second(k: Params, o: Outcomes, z: Complex): Complex {
    Add(First(k, o, false, z), Flip(!o.m2, Mul(k.Delta2(o.p2, o.m1), First(k, o, true, z))))
  }

  /** s3 is the state s0 with the cluster state on the server's qubits. */
  ghost predicate IsCluster(s0: State, s3: State, q: Qubits, k: Params, o: Outcomes) {
    forall b: Basis, w: Old, e: Env ::
      Amplitude(s3, b, w.In(e)) ==
      if (q.c1 in b) == o.p1 && (q.c2 in b) == o.p2
      then Cluster(k, o, q.s1 in b, q.s2 in b, Amplitude(s0, q.Reset(b, w), e)) else ZERO
  }

  lemma ClusterHolds(s0: State, s1: State, s2: State, s3: State, q: Qubits, k: Params, o: Outcomes)
    requires q.Valid()
    requires IsPrepared(s0, s1, q.c1, q.s1, k.theta1, o.p1)
    requires IsPrepared(s1, s2, q.c2, q.s2, k.theta2, o.p2)
    requires IsCphase(s2, s3, q.s1, q.s2)
    ensures IsCluster(s0, s3, q, k, o)
  {
    forall b: Basis, w: Old, e: Env
      ensures Amplitude(s3, b, w.In(e)) ==
              if (q.c1 in b) == o.p1 && (q.c2 in b) == o.p2
              then Cluster(k, o, q.s1 in b, q.s2 in b, Amplitude(s0, q.Reset(b, w), e)) else ZERO
    {
      PairsAmplitude(s0, s1, s2, q, k, o, b, w, e);
    }
  }

  ghost predicate IsFirst(s0: State, s4: State, q: Qubits, k: Params, o: Outcomes) {
    forall b: Basis, w: Old, e: Env ::
      Amplitude(s4, b, w.In(e)) ==
      if (q.c1 in b) == o.p1 && (q.c2 in b) == o.p2 && (q.s1 in b) == o.m1
      then First(k, o, q.s2 in b, Amplitude(s0, q.Reset(b, w), e)) else ZERO
  }

  lemma FirstAt(s0: State, s3: State, s4: State, q: Qubits, k: Params, o: Outcomes, b: Basis, w: Old, e: Env)
    requires q.Valid() && IsCluster(s0, s3, q, k, o) && IsMeasXY(s3, s4, q.s1, k.Delta1(o.p1), o.m1)
    ensures Amplitude(s4, b, w.In(e)) ==
            if (q.c1 in b) == o.p1 && (q.c2 in b) == o.p2 && (q.s1 in b) == o.m1
            then First(k, o, q.s2 in b, Amplitude(s0, q.Reset(b, w), e)) else ZERO
  {
    var b0, b1 := With(b, q.s1, false), With(b, q.s1, true);
    assert q.Reset(b0, w) == q.Reset(b1, w) == q.Reset(b, w);
  }

  lemma FirstHolds(s0: State, s3: State, s4: State, q: Qubits, k: Params, o: Outcomes)
    requires q.Valid() && IsCluster(s0, s3, q, k, o) && IsMeasXY(s3, s4, q.s1, k.Delta1(o.p1), o.m1)
    ensures IsFirst(s0, s4, q, k, o)
  {
    forall b: Basis, w: Old, e: Env { FirstAt(s0, s3, s4, q, k, o, b, w, e); }
  }

  lemma SecondHolds(s0: State, s4: State, s5: State, q: Qubits, k: Params, o: Outcomes, b: Basis, w: Old, e: Env)
    requires q.Valid() && IsFirst(s0, s4, q, k, o) && IsMeasXY(s4, s5, q.s2, k.Delta2(o.p2, o.m1), o.m2)
    ensures Amplitude(s5, b, w.In(e)) ==
            if Agrees(q, o, b) then Second(k, o, Amplitude(s0, q.Reset(b, w), e)) else ZERO
  {
    var b0, b1 := With(b, q.s2, false), With(b, q.s2, true);
    assert q.Reset(b0, w) == q.Reset(b1, w) == q.Reset(b, w);
  }

  /** First part of the correctness argument: the thetas drop out. */
  lemma FirstFactors(k: Params, o: Outcomes, y: bool, z: Complex)
    requires k.Valid()
    ensures First(k, o, y, z)
         == Mul(PreparedFactor(k.theta2, o.p2, y), Mul(Add(ONE, Flip((o.m1 == k.r1) != y, k.alpha)), z))
  {
    var t1, t2 := PreparedFactor(k.theta1, o.p1, true), PreparedFactor(k.theta2, o.p2, y);
    var d1 := k.Delta1(o.p1);
    calc {
      Mul(d1, Mul(t2, Mul(t1, z)));
      { MulAssoc(d1, t2, Mul(t1, z)); MulComm(d1, t2); MulAssoc(t2, d1, Mul(t1, z)); }
      Mul(t2, Mul(d1, Mul(t1, z)));
      { MulAssoc(d1, t1, z); ThetaCancels(k.alpha, k.theta1, o.p1, k.r1); }
      Mul(t2, Mul(Flip(!k.r1, k.alpha), z));
    }
    MulFlip(!y, d1, Mul(t2, Mul(t1, z)));
    MulFlip(!k.r1, k.alpha, z);
    MulFlip(!k.r1, t2, Mul(k.alpha, z));
    MulAdd(ONE, Flip((o.m1 == k.r1) != y, k.alpha), z);
    MulFlip((o.m1 == k.r1) != y, k.alpha, z);
    MulAdd(z, Mul(Flip((o.m1 == k.r1) != y, k.alpha), z), t2);
    MulFlip((o.m1 == k.r1) != y, t2, Mul(k.alpha, z));
  }

  /** Second part: what is left is the wanted computation, up to a phase and the flip r2. */
  function IdealFactor(alpha: Complex, beta: Complex, m: bool): Complex {
    Add(Add(ONE, alpha), Flip(!m, Mul(beta, Add(ONE, Flip(false, alpha)))))
  }

  /** The phase by which an odd m1 + r1 changes every amplitude. */
  function LeftoverPhase(k: Params, o: Outcomes): Complex {
    if o.m1 == k.r1 then ONE else Flip(o.m2 == k.r2, Conj(k.beta))
  }

  lemma SecondFactors(k: Params, o: Outcomes, z: Complex)
    requires k.Valid()
    ensures var even := o.m1 == k.r1;
            Second(k, o, z) == Mul(Add(Add(ONE, Flip(even, k.alpha)),
                                       Flip(o.m2 == k.r2, Mul(k.Beta(o.m1), Add(ONE, Flip(!even, k.alpha))))), z)
  {
    var even := o.m1 == k.r1;
    var g0, g1 := Add(ONE, Flip(even, k.alpha)), Add(ONE, Flip(!even, k.alpha));
    var t2, d2 := PreparedFactor(k.theta2, o.p2, true), k.Delta2(o.p2, o.m1);
    FirstFactors(k, o, false, z);
    FirstFactors(k, o, true, z);
    MulAssoc(d2, t2, Mul(g1, z));
    ThetaCancels(k.Beta(o.m1), k.theta2, o.p2, k.r2);
    var b2 := Flip(!k.r2, k.Beta(o.m1));
    assert Mul(d2, First(k, o, true, z)) == Mul(b2, Mul(g1, z));
    MulFlip(!k.r2, k.Beta(o.m1), Mul(g1, z));
    MulAssoc(k.Beta(o.m1), g1, z);
    MulFlip(o.m2 == k.r2, Mul(k.Beta(o.m1), g1), z);
    MulAdd(g0, Flip(o.m2 == k.r2, Mul(k.Beta(o.m1), g1)), z);
  }

  lemma {:induction false} ConjugateFactors(plus: Complex, minus: Complex, beta: Complex, s: bool)
    requires IsPhase(beta)
    ensures Add(minus, Flip(s, Mul(Conj(beta), plus))) == Mul(Flip(s, Conj(beta)), Add(plus, Flip(s, Mul(beta, minus))))
  {
    var c := Conj(beta);
    MulFlip(s, c, Add(plus, Flip(s, Mul(beta, minus))));
    MulAdd(plus, Flip(s, Mul(beta, minus)), c);
    MulFlip(s, c, Mul(beta, minus));
    MulAssoc(c, beta, minus);
    PhaseInverse(beta);
  }

  lemma FactorsMatch(k: Params, o: Outcomes)
    requires k.Valid()
    ensures var even := o.m1 == k.r1;
            Add(Add(ONE, Flip(even, k.alpha)), Flip(o.m2 == k.r2, Mul(k.Beta(o.m1), Add(ONE, Flip(!even, k.alpha)))))
            == Mul(LeftoverPhase(k, o), IdealFactor(k.alpha, k.beta, o.m2 != k.r2))
  {
    if o.m1 != k.r1 {
      ConjugateFactors(Add(ONE, k.alpha), Add(ONE, Flip(false, k.alpha)), k.beta, o.m2 == k.r2);
    }
  }

  lemma LeftoverIsPhase(k: Params, o: Outcomes)
    requires k.Valid()
    ensures IsPhase(LeftoverPhase(k, o))
  {
  }

  /** The amplitude of every outcome m2 is that of m2 xor r2 in the wanted computation, up to a
      phase: neither theta nor p nor m1 shows in the Born weights. */
  ghost predicate IsBlindComputation(s0: State, s5: State, q: Qubits, k: Params, o: Outcomes) {
    forall b: Basis, w: Old, e: Env ::
      Amplitude(s5, b, w.In(e)) ==
      if Agrees(q, o, b)
      then Mul(Mul(LeftoverPhase(k, o), IdealFactor(k.alpha, k.beta, o.m2 != k.r2)), Amplitude(s0, q.Reset(b, w), e))
      else ZERO
  }

  lemma BlindComputationHolds(s0: State, s4: State, s5: State, q: Qubits, k: Params, o: Outcomes)
    requires q.Valid() && k.Valid() && IsFirst(s0, s4, q, k, o)
    requires IsMeasXY(s4, s5, q.s2, k.Delta2(o.p2, o.m1), o.m2)
    ensures IsBlindComputation(s0, s5, q, k, o)
  {
    forall b: Basis, w: Old, e: Env
      ensures Amplitude(s5, b, w.In(e)) ==
              if Agrees(q, o, b)
              then Mul(Mul(LeftoverPhase(k, o), IdealFactor(k.alpha, k.beta, o.m2 != k.r2)), Amplitude(s0, q.Reset(b, w), e))
              else ZERO
    {
      SecondHolds(s0, s4, s5, q, k, o, b, w, e);
      SecondFactors(k, o, Amplitude(s0, q.Reset(b, w), e));
      FactorsMatch(k, o);
    }
  }

  /** A phase changes no Born weight. */
  lemma {:induction false} PhaseKeepsWeight(u: Complex, x: Complex)
    requires IsPhase(u)
    ensures var y := Mul(u, x); y.re * y.re + y.im * y.im == x.re * x.re + x.im * x.im
  {
    var c := x.re * x.re + x.im * x.im;
    assert (u.re * u.re + u.im * u.im) * c == c;
  }

  /** Client and server together. The client sends delta1 once it knows p1 and p2, the server
      answers m1, the client sends delta2, the server answers m2. */
  method RunBqc(device: QuantumDevice, q: Qubits, k: Params, nature: Outcomes) returns (o: Outcomes)
    requires q.Valid() && k.Valid()
    modifies device
    ensures o == nature
    ensures IsBlindComputation(old(device.psi), device.psi, q, k, o)
  {
    ghost var s0 := device.psi;
    var p1 := RemoteStatePreparation(device, q.c1, q.s1, k.theta1, nature.p1);
    ghost var s1 := device.psi;
    var p2 := RemoteStatePreparation(device, q.c2, q.s2, k.theta2, nature.p2);
    ghost var s2 := device.psi;
    device.DoCphase(q.s1, q.s2);
    ghost var s3 := device.psi;
    CphaseHolds(s2, q.s1, q.s2);
    ClusterHolds(s0, s1, s2, s3, q, k, nature);
    var m1 := DoMeasXY(device, q.s1, k.Delta1(p1), nature.m1);
    MeasXYHolds(s3, q.s1, k.Delta1(p1), m1);
    ghost var s4 := device.psi;
    FirstHolds(s0, s3, s4, q, k, nature);
    var m2 := DoMeasXY(device, q.s2, k.Delta2(p2, m1), nature.m2);
    MeasXYHolds(s4, q.s2, k.Delta2(p2, m1), m2);
    o := Outcomes(p1, p2, m1, m2);
    BlindComputationHolds(s0, s4, device.psi, q, k, o);
  }

  /** H Rz(beta) H Rz(alpha) on |+>, then a measurement: what the client wanted. */
  function WantedState(q: nat, alpha: Complex, beta: Complex, m: bool, psi: State): State {
    MeasXY(q, beta, m, Apply(H, q, RotZ(alpha, q, Apply(H, q, Init(q, psi)))))
  }

  lemma WantedAmplitude(q: nat, alpha: Complex, beta: Complex, m: bool, psi: State, b: Basis, was: bool, e: Env)
    ensures Amplitude(WantedState(q, alpha, beta, m, psi), b, Discarded(was, e)) ==
            if (q in b) == m then Mul(IdealFactor(alpha, beta, m), Amplitude(psi, With(b, q, was), e)) else ZERO
  {
    var e', z := Discarded(was, e), Amplitude(psi, With(b, q, was), e);
    var plus := Apply(H, q, Init(q, psi));
    var b0, b1 := With(b, q, false), With(b, q, true);
    assert With(b0, q, was) == With(b1, q, was) == With(b, q, was);
    assert With(b0, q, true) == With(b1, q, true) == b1 && With(b0, q, false) == With(b1, q, false) == b0;
    assert Amplitude(plus, b0, e') == Amplitude(plus, b1, e') == z by {
      HAt(q, Init(q, psi), b0, e', Re);
      HAt(q, Init(q, psi), b0, e', Im);
      HAt(q, Init(q, psi), b1, e', Re);
      HAt(q, Init(q, psi), b1, e', Im);
    }
    var s := Apply(H, q, RotZ(alpha, q, plus));
    forall v: bool ensures Amplitude(s, With(b, q, v), e') == Add(z, Flip(!v, Mul(alpha, z))) {
      HAt(q, RotZ(alpha, q, plus), With(b, q, v), e', Re);
      HAt(q, RotZ(alpha, q, plus), With(b, q, v), e', Im);
    }
    MeasXYAt(q, beta, m, s, b, e');
    WantedFactors(alpha, beta, m, z);
  }

  lemma WantedFactors(alpha: Complex, beta: Complex, m: bool, z: Complex)
    ensures Add(Add(z, Mul(alpha, z)), Flip(!m, Mul(beta, Add(z, Flip(false, Mul(alpha, z))))))
         == Mul(IdealFactor(alpha, beta, m), z)
  {
    var g0, g1 := Add(ONE, alpha), Add(ONE, Flip(false, alpha));
    MulAdd(ONE, alpha, z);
    MulAdd(ONE, Flip(false, alpha), z);
    MulFlip(false, alpha, z);
    MulAssoc(beta, g1, z);
    MulFlip(!m, Mul(beta, g1), z);
    MulAdd(g0, Flip(!m, Mul(beta, g1)), z);
  }

  ghost predicate IsWanted(s: State, s': State, q: nat, alpha: Complex, beta: Complex, m: bool) {
    forall b: Basis, was: bool, e: Env ::
      Amplitude(s', b, Discarded(was, e)) ==
      if (q in b) == m then Mul(IdealFactor(alpha, beta, m), Amplitude(s, With(b, q, was), e)) else ZERO
  }

  lemma WantedHolds(s: State, q: nat, alpha: Complex, beta: Complex, m: bool)
    ensures IsWanted(s, WantedState(q, alpha, beta, m, s), q, alpha, beta, m)
  {
    forall b: Basis, was: bool, e: Env { WantedAmplitude(q, alpha, beta, m, s, b, was, e); }
  }

  lemma WeightIs(s: State, b: Basis, e: Env, a: Complex)
    requires a == Amplitude(s, b, e)
    ensures Weight(s, b, e) == a.re * a.re + a.im * a.im
  {
  }

  /** The wanted computation, done openly on one qubit. */
  method RunWanted(device: QuantumDevice, q: nat, alpha: Complex, beta: Complex, nature: bool) returns (m: bool)
    modifies device
    ensures m == nature && IsWanted(old(device.psi), device.psi, q, alpha, beta, m)
  {
    device.DoInit(q);
    device.DoGate(H, q);
    device.psi := RotZ(alpha, q, device.psi);
    device.DoGate(H, q);
    m := DoMeasXY(device, q, beta, nature);
    WantedHolds(old(device.psi), q, alpha, beta, m);
  }

  /** Where the wanted computation puts the amplitude that the blind one is compared with. */
  function Wanted(q: Qubits, b: Basis, w: Old, m: bool): Basis {
    With(q.Reset(b, w), q.s2, m)
  }

  lemma BlindAt(s0: State, blind: State, q: Qubits, k: Params, o: Outcomes, b: Basis, w: Old, e: Env)
    requires IsBlindComputation(s0, blind, q, k, o) && Agrees(q, o, b)
    ensures Amplitude(blind, b, w.In(e)) ==
            Mul(Mul(LeftoverPhase(k, o), IdealFactor(k.alpha, k.beta, o.m2 != k.r2)), Amplitude(s0, q.Reset(b, w), e))
  {
  }

  lemma WantedAt(s0: State, plain: State, q: Qubits, alpha: Complex, beta: Complex, m: bool, b: Basis, w: Old, e: Env)
    requires q.Valid() && IsWanted(s0, plain, q.s2, alpha, beta, m)
    ensures Amplitude(plain, Wanted(q, b, w, m), Discarded(w.s2, e)) ==
            Mul(IdealFactor(alpha, beta, m), Amplitude(s0, q.Reset(b, w), e))
  {
    assert With(Wanted(q, b, w, m), q.s2, w.s2) == q.Reset(b, w) && (q.s2 in Wanted(q, b, w, m)) == m;
  }

  /** Amplitudes that differ by a phase have the same modulus. */
  lemma SameUpToPhase(phase: Complex, factor: Complex, z: Complex, x: Complex, y: Complex)
    requires IsPhase(phase) && x == Mul(Mul(phase, factor), z) && y == Mul(factor, z)
    ensures x == Mul(phase, y) && x.re * x.re + x.im * x.im == y.re * y.re + y.im * y.im
  {
    MulAssoc(phase, factor, z);
    PhaseKeepsWeight(phase, y);
  }

  /** The blind run against the wanted computation, both through their circuits: the amplitude
      of outcome m2 is, up to a phase, the one that outcome m2 xor r2 has when the computation
      is done openly on the same start state. So the Born weights agree. */
  lemma BlindMatchesWanted(s0: State, blind: State, plain: State, q: Qubits, k: Params, o: Outcomes,
                           b: Basis, w: Old, e: Env)
    requires q.Valid() && k.Valid() && IsBlindComputation(s0, blind, q, k, o) && Agrees(q, o, b)
    requires IsWanted(s0, plain, q.s2, k.alpha, k.beta, o.m2 != k.r2)
    ensures var there, e' := Wanted(q, b, w, o.m2 != k.r2), Discarded(w.s2, e);
            && IsPhase(LeftoverPhase(k, o))
            && Amplitude(blind, b, w.In(e)) == Mul(LeftoverPhase(k, o), Amplitude(plain, there, e'))
            && Weight(blind, b, w.In(e)) == Weight(plain, there, e')
  {
    var m := o.m2 != k.r2;
    var x, y := Amplitude(blind, b, w.In(e)), Amplitude(plain, Wanted(q, b, w, m), Discarded(w.s2, e));
    BlindAt(s0, blind, q, k, o, b, w, e);
    WantedAt(s0, plain, q, k.alpha, k.beta, m, b, w, e);
    LeftoverIsPhase(k, o);
    SameUpToPhase(LeftoverPhase(k, o), IdealFactor(k.alpha, k.beta, m), Amplitude(s0, q.Reset(b, w), e), x, y);
    WeightIs(blind, b, w.In(e), x);
    WeightIs(plain, Wanted(q, b, w, m), Discarded(w.s2, e), y);
  }
}
