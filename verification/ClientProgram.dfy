/**
 The client program of the link layer example: for every repetition and for two fidelities it
 asks for one pair per basis, waits for each pair in turn, measures it in its basis, and
 stores the outcome. It is proved for any number of bases and repetitions, any outcomes, and
 any interleaving with the deliveries of the network stack.
 */
module ClientProgram {
  import opened Options
  import opened Nqasm

  datatype Config = Config(bases: nat, repetitions: nat, nature: Nature)

  const HALF_60 := 26
  const HALF_65 := 78
  const HALF_LENGTH := 52
  const LENGTH := 134

  /** The array addresses of the two fidelities, which are numbered 0 and 1. */
  function Outcomes(f: nat): nat { f }
  function Results(f: nat): nat { 3 * f + 2 }
  function VirtIds(f: nat): nat { 3 * f + 3 }
  function Args(f: nat): nat { 3 * f + 4 }

  function Start(f: nat): nat {
    if f == 0 then HALF_60 else HALF_65
  }

  /** Issues the request and starts the loop over the pairs. */
  function IssueCode(config: Config, f: nat, o: nat): Instruction {
    var base := Start(f);
    match o
    case 0 => CreateEpr(VirtIds(f), Args(f), Results(f))
    case 1 => Set(R(1), 0)
    case _ => Beq(Reg(R(1)), Imm(config.bases), base + HALF_LENGTH)
  }

  /** Computes the start of the slice of the current pair. */
  function SliceStartCode(config: Config, f: nat, o: nat): Instruction {
    var base := Start(f);
    match o
    case 3 => Set(R(2), 0)
    case 4 => Set(R(3), 0)
    case 5 => Set(R(4), 0)
    case 6 => Set(R(5), 0)
    case 7 => Beq(Reg(R(5)), Imm(10), base + 11)
    case 8 => Add(R(2), Reg(R(2)), Reg(R(1)))
    case 9 => Add(R(5), Reg(R(5)), Imm(1))
    case _ => Jmp(base + 7)
  }

  /** Computes the end of the slice. */
  function SliceEndCode(config: Config, f: nat, o: nat): Instruction {
    var base := Start(f);
    match o
    case 11 => Add(R(3), Reg(R(1)), Imm(1))
    case 12 => Set(R(5), 0)
    case 13 => Beq(Reg(R(5)), Imm(10), base + 17)
    case 14 => Add(R(4), Reg(R(4)), Reg(R(3)))
    case 15 => Add(R(5), Reg(R(5)), Imm(1))
    case _ => Jmp(base + 13)
  }

  /** Chooses the basis of the pair. */
  function ChooseCode(config: Config, f: nat, o: nat): Instruction {
    var base := Start(f);
    match o
    case 19 => Beq(Reg(R(1)), Imm(0), base + 30)
    case 20 => Beq(Reg(R(1)), Imm(1), base + 32)
    case 21 => Beq(Reg(R(1)), Imm(3), base + 30)
    case 22 => Beq(Reg(R(1)), Imm(4), base + 32)
    case 23 => Beq(Reg(R(1)), Imm(6), base + 34)
    case 24 => Beq(Reg(R(1)), Imm(7), base + 36)
    case 25 => Beq(Reg(R(1)), Imm(8), base + 38)
    case 26 => Beq(Reg(R(1)), Imm(9), base + 34)
    case 27 => Beq(Reg(R(1)), Imm(10), base + 36)
    case 28 => Beq(Reg(R(1)), Imm(11), base + 38)
    case _ => Jmp(base + 40)
  }

  /** Rotates into the basis. */
  function RotateCode(config: Config, f: nat, o: nat): Instruction {
    var base := Start(f);
    match o
    case 30 => Rotate(Q(0), RotY(3, 1))
    case 31 => Jmp(base + 40)
    case 32 => Rotate(Q(0), RotX(1, 1))
    case 33 => Jmp(base + 40)
    case 34 => Rotate(Q(0), RotY(1, 1))
    case 35 => Jmp(base + 40)
    case 36 => Rotate(Q(0), RotX(3, 1))
    case 37 => Jmp(base + 40)
    case 38 => Rotate(Q(0), RotX(1, 0))
    case _ => Jmp(base + 40)
  }

  /** Measures the qubit and frees it. */
  function MeasureCode(config: Config, f: nat, o: nat): Instruction {
    var base := Start(f);
    match o
    case 40 => Meas(Q(0), M(0))
    case 41 => QFree(Q(0))
    case 42 => Set(C(0), 0)
    case 43 => Set(C(1), 0)
    case _ => Add(C(1), Reg(C(1)), Reg(R(1)))
  }

  /** Computes the index of the outcome, stores it, and goes on with the next pair. */
  function IndexCode(config: Config, f: nat, o: nat): Instruction {
    var base := Start(f);
    match o
    case 45 => Beq(Reg(C(0)), Reg(R(6)), base + 49)
    case 46 => Add(C(1), Reg(C(1)), Imm(config.bases))
    case 47 => Add(C(0), Reg(C(0)), Imm(1))
    case 48 => Jmp(base + 45)
    case 49 => Store(Reg(M(0)), Outcomes(f), Reg(C(1)))
    case 50 => Add(R(1), Reg(R(1)), Imm(1))
    case _ => Jmp(base + 2)
  }

  /** The instruction at offset `o` of the code for one fidelity. */
  function Half(config: Config, f: nat, o: nat): Instruction {
    if o <= 2 then IssueCode(config, f, o)
    else if o <= 10 then SliceStartCode(config, f, o)
    else if o <= 16 then SliceEndCode(config, f, o)
    else if o == 17 then WaitAll(Results(f), Reg(R(2)), Reg(R(4)))
    else if o == 18 then Load(Q(0), VirtIds(f), Reg(R(1)))
    else if o <= 29 then ChooseCode(config, f, o)
    else if o <= 39 then RotateCode(config, f, o)
    else if o <= 44 then MeasureCode(config, f, o)
    else IndexCode(config, f, o)
  }

  /** The code before the two halves: arrays, arguments, and the reset of the results. */
  function Prologue(config: Config, pc: nat): Instruction {
    match pc
    case 0 => ArrayInstr(Imm(config.repetitions * config.bases), Outcomes(0))
    case 1 => ArrayInstr(Imm(config.repetitions * config.bases), Outcomes(1))
    case 2 => ArrayInstr(Imm(20), Args(0))
    case 3 => ArrayInstr(Imm(config.bases), VirtIds(0))
    case 4 => ArrayInstr(Imm(10 * config.bases), Results(0))
    case 5 => ArrayInstr(Imm(20), Args(1))
    case 6 => ArrayInstr(Imm(config.bases), VirtIds(1))
    case 7 => ArrayInstr(Imm(10 * config.bases), Results(1))
    case 8 => Store(Imm(0), Args(0), Imm(0))
    case 9 => Store(Imm(config.bases), Args(0), Imm(1))
    case 10 => Store(Imm(0), Args(1), Imm(0))
    case 11 => Store(Imm(config.bases), Args(1), Imm(1))
    case 12 => Set(R(0), 0)
    case 13 => Beq(Reg(R(0)), Imm(config.bases), 18)
    case 14 => Store(Imm(0), VirtIds(0), Reg(R(0)))
    case 15 => Store(Imm(0), VirtIds(1), Reg(R(0)))
    case 16 => Add(R(0), Reg(R(0)), Imm(1))
    case 17 => Jmp(13)
    case 18 => Set(R(6), 0)
    case 19 => Beq(Reg(R(6)), Imm(config.repetitions), 132)
    case 20 => Set(C(0), 0)
    case 21 => Beq(Reg(C(0)), Imm(10 * config.bases), 26)
    case 22 => Undef(Results(0), Reg(C(0)))
    case 23 => Undef(Results(1), Reg(C(0)))
    case 24 => Add(C(0), Reg(C(0)), Imm(1))
    case _ => Jmp(21)
  }

  function Fetch(config: Config, pc: nat): Instruction
    requires pc < LENGTH
  {
    if pc < HALF_60 then Prologue(config, pc)
    else if pc < HALF_65 + HALF_LENGTH then Half(config, FidelityAt(pc), pc - Start(FidelityAt(pc)))
    else if pc == 130 then Add(R(6), Reg(R(6)), Imm(1))
    else if pc == 131 then Jmp(19)
    else if pc == 132 then RetArr(Outcomes(0))
    else RetArr(Outcomes(1))
  }

  /** One instruction of the processor, or one delivery with arbitrary result values. */
  datatype Step = Instruct | DeliverPair(values: seq<int>)

  predicate Enabled(config: Config, m: Machine, step: Step) {
    match step
    case Instruct => m.pc < LENGTH && CanExecute(m, Fetch(config, m.pc))
    case DeliverPair(values) => CanDeliver(m) && |values| == SLICE
  }

  function After(config: Config, m: Machine, step: Step): Machine
    requires Enabled(config, m, step)
  {
    match step
    case Instruct => Execute(m, Fetch(config, m.pc), config.nature)
    case DeliverPair(values) => Deliver(m, values)
  }

  /** The rotation before the measurement of a pair, which selects its basis. */
  function RotationsFor(p: nat): seq<Rotation> {
    if p == 0 || p == 3 then [RotY(3, 1)]
    else if p == 1 || p == 4 then [RotX(1, 1)]
    else if p == 6 || p == 9 then [RotY(1, 1)]
    else if p == 7 || p == 10 then [RotX(3, 1)]
    else if p == 8 || p == 11 then [RotX(1, 0)]
    else []
  }

  /** What the outcome of pair `p` in repetition `r` has to be, for fidelity `f`. */
  function Outcome(config: Config, f: nat, r: nat, p: nat): int {
    config.nature(Pair(2 * r + f, p), RotationsFor(p))
  }

  /** Repeated addition. */
  function Times(n: nat, x: nat): nat {
    if n == 0 then 0 else Times(n - 1, x) + x
  }

  lemma {:induction false} TimesMultiplies(n: nat, x: nat)
    ensures Times(n, x) == n * x
  {
    if n > 0 {
      TimesMultiplies(n - 1, x);
    }
  }

  /** The index of pair `p` in repetition `r` in an outcomes array. */
  function Index(bases: nat, r: nat, p: nat): nat {
    Times(r, bases) + p
  }

  /** The outcomes array of fidelity `f` with its first `cut` entries written. */
  ghost predicate OutcomesUpTo(m: Machine, config: Config, f: nat, cut: nat) {
    && HasLength(m, Outcomes(f), config.repetitions * config.bases) && cut <= config.repetitions * config.bases
    && forall r: nat, p: nat ::
         p < config.bases && Index(config.bases, r, p) < config.repetitions * config.bases ==>
         m.arrays[Outcomes(f)][Index(config.bases, r, p)] ==
         if Index(config.bases, r, p) < cut then Some(Outcome(config, f, r, p)) else None
  }

  predicate HasLength(m: Machine, addr: nat, n: nat) {
    addr in m.arrays && |m.arrays[addr]| == n
  }

  predicate AllNone(m: Machine, addr: nat) {
    addr in m.arrays && forall i :: 0 <= i < |m.arrays[addr]| ==> m.arrays[addr][i].None?
  }

  /** The results array has exactly the slices of the first `k` pairs. */
  predicate ResultsUpTo(m: Machine, config: Config, f: nat, k: nat) {
    && HasLength(m, Results(f), 10 * config.bases)
    && forall i :: 0 <= i < 10 * config.bases ==> (m.arrays[Results(f)][i].Some? <==> i < 10 * k)
  }

  /** The argument and virtual ID arrays after the prologue. */
  predicate RequestArrays(m: Machine, config: Config, f: nat) {
    && HasLength(m, Args(f), 20) && m.arrays[Args(f)][1] == Some(config.bases)
    && HasLength(m, VirtIds(f), config.bases)
    && forall i :: 0 <= i < config.bases ==> m.arrays[VirtIds(f)][i] == Some(0)
  }

  predicate Prepared(m: Machine, config: Config) {
    && RequestArrays(m, config, 0) && RequestArrays(m, config, 1)
    && HasLength(m, Results(0), 10 * config.bases) && HasLength(m, Results(1), 10 * config.bases)
  }

  type Registers = map<Register, int>

  predicate RegIs(regs: Registers, r: Register, v: int) {
    r in regs && regs[r] == v
  }

  /** A register holds a loop counter within a bound. */
  predicate Counts(regs: Registers, r: Register, bound: int) {
    r in regs && 0 <= regs[r] <= bound
  }

  /** A loop counter within a bound, and a register with the counter times `x`, where the
      counter is already one behind if `added`. */
  predicate Adds(regs: Registers, counter: Register, bound: int, out: Register, x: nat, added: bool) {
    Counts(regs, counter, bound) && RegIs(regs, out, Times(if added then regs[counter] + 1 else regs[counter], x))
  }

  /** The two loops that compute the slice 10p..10(p+1) by repeated addition. */
  predicate SliceLoops(regs: Registers, o: nat, p: nat) {
    match o
    case 4 | 5 => RegIs(regs, R(2), 0)
    case 6 => RegIs(regs, R(2), 0) && RegIs(regs, R(4), 0)
    case 7 | 10 => Adds(regs, R(5), 10, R(2), p, false) && RegIs(regs, R(4), 0)
    case 8 => Adds(regs, R(5), 9, R(2), p, false) && RegIs(regs, R(4), 0)
    case 9 => Adds(regs, R(5), 9, R(2), p, true) && RegIs(regs, R(4), 0)
    case 11 => RegIs(regs, R(2), 10 * p) && RegIs(regs, R(4), 0)
    case 12 => RegIs(regs, R(2), 10 * p) && RegIs(regs, R(4), 0) && RegIs(regs, R(3), p + 1)
    case 13 | 16 => RegIs(regs, R(2), 10 * p) && RegIs(regs, R(3), p + 1) && Adds(regs, R(5), 10, R(4), p + 1, false)
    case 14 => RegIs(regs, R(2), 10 * p) && RegIs(regs, R(3), p + 1) && Adds(regs, R(5), 9, R(4), p + 1, false)
    case 15 => RegIs(regs, R(2), 10 * p) && RegIs(regs, R(3), p + 1) && Adds(regs, R(5), 9, R(4), p + 1, true)
    case 17 => RegIs(regs, R(2), 10 * p) && RegIs(regs, R(4), 10 * (p + 1))
    case _ => true
  }

  /** The loop that computes the index of the outcome by repeated addition. */
  predicate IndexLoop(regs: Registers, bases: nat, o: nat, r: nat, p: nat) {
    match o
    case 43 => RegIs(regs, C(0), 0)
    case 44 => RegIs(regs, C(0), 0) && RegIs(regs, C(1), 0)
    case 45 | 48 => Counts(regs, C(0), r) && RegIs(regs, C(1), Index(bases, regs[C(0)], p))
    case 46 => Counts(regs, C(0), r - 1) && RegIs(regs, C(1), Index(bases, regs[C(0)], p))
    case 47 => Counts(regs, C(0), r - 1) && RegIs(regs, C(1), Index(bases, regs[C(0)] + 1, p))
    case 49 => RegIs(regs, C(1), Index(bases, r, p))
    case _ => true
  }

  /** The `n`-th constant that the pair index is compared with. */
  function Compared(n: nat): nat {
    if n < 2 then n else if n < 4 then n + 1 else n + 2
  }

  /** The choice of the basis by comparing the pair index with constants. */
  predicate BasisChoice(o: nat, p: nat) {
    match o
    case 30 | 31 => p == 0 || p == 3
    case 32 | 33 => p == 1 || p == 4
    case 34 | 35 => p == 6 || p == 9
    case 36 | 37 => p == 7 || p == 10
    case 38 | 39 => p == 8 || p == 11
    case _ => 19 <= o <= 29 ==> p == 2 || p == 5 || p >= Compared(o - 19)
  }

  /** What the registers hold at offset `o` in the loop over the pairs, in repetition `r`. */
  predicate RegistersOk(regs: Registers, config: Config, f: nat, o: nat, r: nat) {
    && RegIs(regs, R(6), r)
    && Counts(regs, R(1), if o == 2 || o == 51 then config.bases else config.bases - 1)
    && LocalsOk(regs, config, f, o, r, regs[R(1)])
  }

  predicate LocalsOk(regs: Registers, config: Config, f: nat, o: nat, r: nat, p: nat) {
    if o <= 18 then SliceLoops(regs, o, p)
    else if o <= 40 then RegIs(regs, Q(0), 0) && BasisChoice(o, p)
    else if o <= 49 then
      RegIs(regs, M(0), Outcome(config, f, r, p)) && IndexLoop(regs, config.bases, o, r, p) && (o == 41 ==> RegIs(regs, Q(0), 0))
    else true
  }

  /** How far the pairs of a request are: `freed` of them were measured and freed, `stored` of
      their outcomes are in the array. If `holding` is given, the next pair is certainly there,
      with these rotations; otherwise it may or may not have been delivered. */
  datatype Stage = Stage(freed: nat, holding: Option<seq<Rotation>>, stored: nat)

  function StageAt(o: nat, p: nat): Stage {
    Stage(if 42 <= o <= 50 then p + 1 else p,
          if 18 <= o <= 41 then Some(RotationsAt(o, p)) else None,
          if o == 50 then p + 1 else p)
  }

  /** The rotations that the qubit of the current pair has had at offset `o`. */
  function RotationsAt(o: nat, p: nat): seq<Rotation> {
    if o <= 29 || o == 30 || o == 32 || o == 34 || o == 36 || o == 38 then [] else RotationsFor(p)
  }

  function FreshRequest(f: nat, number: nat, delivered: nat): Request {
    Request(number, VirtIds(f), Args(f), Results(f), delivered)
  }

  /** The network stack is at pair `k` of the current request. */
  predicate AtPair(m: Machine, config: Config, f: nat, number: nat, k: nat) {
    && k <= config.bases && ResultsUpTo(m, config, f, k)
    && m.requests == if k == config.bases then [] else [FreshRequest(f, number, k)]
  }

  predicate Delivery(m: Machine, config: Config, f: nat, number: nat, freed: nat, holding: Option<seq<Rotation>>) {
    || (holding.None? && AtPair(m, config, f, number, freed) && m.qubits == map[])
    || (AtPair(m, config, f, number, freed + 1)
        && m.qubits == map[0 := Qubit(Pair(number, freed), if holding.Some? then holding.value else [])])
  }

  /** The arrays that the code for fidelity `f` does not touch. */
  ghost predicate OtherFidelity(m: Machine, config: Config, f: nat, r: nat) {
    if f == 0 then AllNone(m, Results(1)) && OutcomesUpTo(m, config, 1, Index(config.bases, r, 0))
    else OutcomesUpTo(m, config, 0, Index(config.bases, r + 1, 0))
  }

  /** The memory while the pairs of fidelity `f` come in, in repetition `r`. */
  ghost predicate MemoryOk(m: Machine, config: Config, f: nat, r: nat, stage: Stage) {
    && Prepared(m, config) && r < config.repetitions && OtherFidelity(m, config, f, r)
    && m.issued == 2 * r + f + 1
    && Delivery(m, config, f, 2 * r + f, stage.freed, stage.holding)
    && OutcomesUpTo(m, config, f, Index(config.bases, r, stage.stored))
  }

  /** Before the request is issued. */
  ghost predicate MemoryBefore(m: Machine, config: Config, f: nat, r: nat) {
    && Prepared(m, config) && r < config.repetitions && OtherFidelity(m, config, f, r)
    && m.issued == 2 * r + f && m.requests == [] && m.qubits == map[] && AllNone(m, Results(f))
    && OutcomesUpTo(m, config, f, Index(config.bases, r, 0))
  }

  /** At offset `o` of the code for fidelity `f`, in repetition `r`. */
  ghost predicate HalfOk(m: Machine, config: Config, f: nat, o: nat, r: nat) {
    if o == 0 then RegIs(m.regs, R(6), r) && MemoryBefore(m, config, f, r)
    else if o == 1 then RegIs(m.regs, R(6), r) && MemoryOk(m, config, f, r, Stage(0, None, 0))
    else RegistersOk(m.regs, config, f, o, r) && MemoryOk(m, config, f, r, StageAt(o, m.regs[R(1)]))
  }

  /** The arrays that the first `pc` instructions allocate, still without values. */
  predicate Allocated(m: Machine, config: Config, pc: nat) {
    && (pc > 0 ==> HasLength(m, Outcomes(0), config.repetitions * config.bases) && AllNone(m, Outcomes(0)))
    && (pc > 1 ==> HasLength(m, Outcomes(1), config.repetitions * config.bases) && AllNone(m, Outcomes(1)))
    && (pc > 2 ==> HasLength(m, Args(0), 20))
    && (pc > 3 ==> HasLength(m, VirtIds(0), config.bases))
    && (pc > 4 ==> HasLength(m, Results(0), 10 * config.bases))
    && (pc > 5 ==> HasLength(m, Args(1), 20))
    && (pc > 6 ==> HasLength(m, VirtIds(1), config.bases))
    && (pc > 7 ==> HasLength(m, Results(1), 10 * config.bases))
    && (pc > 9 ==> m.arrays[Args(0)][1] == Some(config.bases))
    && (pc > 11 ==> m.arrays[Args(1)][1] == Some(config.bases))
  }

  predicate Zeros(m: Machine, addr: nat, n: int) {
    addr in m.arrays && forall i :: 0 <= i < n && i < |m.arrays[addr]| ==> m.arrays[addr][i] == Some(0)
  }

  predicate NonesUpTo(m: Machine, addr: nat, n: int) {
    addr in m.arrays && forall i :: 0 <= i < n && i < |m.arrays[addr]| ==> m.arrays[addr][i].None?
  }

  predicate SetupOk(m: Machine, config: Config) {
    && Allocated(m, config, m.pc) && m.requests == [] && m.qubits == map[] && m.issued == 0
    && (m.pc >= 13 ==>
          && Counts(m.regs, R(0), if 14 <= m.pc <= 16 then config.bases - 1 else config.bases)
          && Zeros(m, VirtIds(0), if m.pc == 15 || m.pc == 16 then m.regs[R(0)] + 1 else m.regs[R(0)])
          && Zeros(m, VirtIds(1), if m.pc == 16 then m.regs[R(0)] + 1 else m.regs[R(0)])
          && (m.pc == 18 ==> m.regs[R(0)] == config.bases))
  }

  /** Between repetitions: all outcomes of the first `r` are there, no pair is outstanding. */
  ghost predicate BetweenOk(m: Machine, config: Config, r: nat) {
    && Prepared(m, config) && r <= config.repetitions && m.requests == [] && m.qubits == map[] && m.issued == 2 * r
    && OutcomesUpTo(m, config, 0, Index(config.bases, r, 0)) && OutcomesUpTo(m, config, 1, Index(config.bases, r, 0))
  }

  /** While the results are reset. */
  predicate ResetOk(m: Machine, config: Config) {
    m.pc >= 21 ==>
      && Counts(m.regs, C(0), if 22 <= m.pc <= 24 then 10 * config.bases - 1 else 10 * config.bases)
      && NonesUpTo(m, Results(0), if m.pc == 23 || m.pc == 24 then m.regs[C(0)] + 1 else m.regs[C(0)])
      && NonesUpTo(m, Results(1), if m.pc == 24 then m.regs[C(0)] + 1 else m.regs[C(0)])
  }

  function FidelityAt(pc: nat): (f: nat)
    ensures HALF_60 <= pc < HALF_65 + HALF_LENGTH ==> Start(f) <= pc < Start(f) + HALF_LENGTH
  {
    if pc < HALF_65 then 0 else 1
  }

  /** In the main loop before the two halves, in repetition `r`. */
  ghost predicate MainOk(m: Machine, config: Config, r: nat) {
    && 19 <= m.pc <= 25 && RegIs(m.regs, R(6), r) && BetweenOk(m, config, r) && ResetOk(m, config)
    && (m.pc > 19 ==> r < config.repetitions)
  }

  /** After the two halves, with `r` repetitions done. */
  ghost predicate TailOk(m: Machine, config: Config, r: nat) {
    && 130 <= m.pc <= LENGTH && BetweenOk(m, config, r)
    && (m.pc == 130 ==> r > 0 && RegIs(m.regs, R(6), r - 1)) && (m.pc == 131 ==> RegIs(m.regs, R(6), r))
    && (m.pc >= 132 ==> r == config.repetitions)
  }

  /** The part of the program that control is in. */
  datatype Where = InSetup | InMain(r: nat) | InHalf(f: nat, o: nat, r: nat) | InTail(r: nat)

  ghost predicate InvAt(m: Machine, config: Config, w: Where) {
    match w
    case InSetup => m.pc <= 18 && SetupOk(m, config)
    case InMain(r) => MainOk(m, config, r)
    case InHalf(f, o, r) => f <= 1 && m.pc == Start(f) + o && o < HALF_LENGTH && HalfOk(m, config, f, o, r)
    case InTail(r) => TailOk(m, config, r)
  }

  ghost predicate Inv(m: Machine, config: Config) {
    exists w :: InvAt(m, config, w)
  }

  /** Only registers and the program counter differ. */
  predicate SameMemory(m: Machine, m': Machine) {
    m'.arrays == m.arrays && m'.qubits == m.qubits && m'.requests == m.requests && m'.issued == m.issued
  }

  lemma SameMemoryKeeps(m: Machine, m': Machine, config: Config, f: nat, r: nat, stage: Stage)
    requires MemoryOk(m, config, f, r, stage) && SameMemory(m, m')
    ensures MemoryOk(m', config, f, r, stage)
  {
  }

  /** How far offset `o` is from the end of the work on a pair; loops count as one place. */
  function Place(o: nat): nat {
    if o <= 6 then 99 - o
    else if o <= 10 then 80
    else if o <= 12 then 90 - o
    else if o <= 16 then 70
    else if o <= 29 then 86 - o
    else if o <= 39 then (if o == 30 || o == 32 || o == 34 || o == 36 || o == 38 then 50 else 49)
    else if o <= 44 then 88 - o
    else if o <= 48 then 40
    else if o <= 50 then 88 - o
    else 100
  }

  /** Within a loop of four instructions: the rounds left, and the place in the round. */
  function Round(left: int, first: nat, o: nat): int {
    4 * left + (if o == first then 2 else if o == first + 1 then 1 else if o == first + 2 then 0 else 3)
  }

  function RoundsAt(regs: Registers, o: nat, r: nat): int {
    if 7 <= o <= 10 && R(5) in regs then Round(10 - regs[R(5)], 7, o)
    else if 13 <= o <= 16 && R(5) in regs then Round(10 - regs[R(5)], 13, o)
    else if 45 <= o <= 48 && C(0) in regs then Round(r - regs[C(0)], 45, o)
    else 0
  }

  /** The step from offset `o` to `o'` in the loop over the pairs gets closer to its end. */
  predicate GetsCloser(regs: Registers, o: nat, regs': Registers, o': nat, r: nat)
    requires R(1) in regs && R(1) in regs'
  {
    || regs'[R(1)] > regs[R(1)]
    || (regs'[R(1)] == regs[R(1)] && Place(o') < Place(o))
    || (regs'[R(1)] == regs[R(1)] && Place(o') == Place(o) && 0 <= RoundsAt(regs', o', r) < RoundsAt(regs, o, r))
  }

  /** An instruction at offset `o` that only computes with registers leads to offset `o'`: in the
      loop at the same pair, or past the end of the loop. */
  predicate ComesTo(m: Machine, m': Machine, config: Config, f: nat, o: nat, o': nat, r: nat)
    requires R(1) in m.regs && m.regs[R(1)] >= 0
  {
    SameMemory(m, m') && m'.pc == Start(f) + o' &&
    if o' == HALF_LENGTH then o == 2 && m.regs[R(1)] == config.bases && m'.regs == m.regs
    else
      && 2 <= o' < HALF_LENGTH && RegistersOk(m'.regs, config, f, o', r)
      && StageAt(o', m'.regs[R(1)]) == StageAt(o, m.regs[R(1)]) && GetsCloser(m.regs, o, m'.regs, o', r)
  }

  ghost predicate StaysInLoop(m: Machine, m': Machine, config: Config, f: nat, o: nat, r: nat)
    requires R(1) in m.regs && m.regs[R(1)] >= 0
  {
    exists o': nat :: ComesTo(m, m', config, f, o, o', r)
  }

  lemma TenTimes(n: nat, x: nat)
    requires n == 10
    ensures Times(n, x) == 10 * x
  {
    TimesMultiplies(n, x);
  }

  lemma PairTest(m: Machine, config: Config, f: nat, o: nat, r: nat)
    requires RegistersOk(m.regs, config, f, o, r) && m.pc == Start(f) + o && o == 2
    ensures CanExecute(m, Half(config, f, o))
    ensures ComesTo(m, Execute(m, Half(config, f, o), config.nature), config, f, o,
                   if m.regs[R(1)] == config.bases then HALF_LENGTH else 3, r)
  {
  }

  lemma PairStart(m: Machine, config: Config, f: nat, o: nat, r: nat)
    requires RegistersOk(m.regs, config, f, o, r) && m.pc == Start(f) + o && 3 <= o <= 6
    ensures CanExecute(m, Half(config, f, o))
    ensures ComesTo(m, Execute(m, Half(config, f, o), config.nature), config, f, o, o + 1, r)
  {
  }

  lemma SliceStartTest(m: Machine, config: Config, f: nat, o: nat, r: nat)
    requires RegistersOk(m.regs, config, f, o, r) && m.pc == Start(f) + o && o == 7
    ensures CanExecute(m, Half(config, f, o))
    ensures ComesTo(m, Execute(m, Half(config, f, o), config.nature), config, f, o,
                   if m.regs[R(5)] == 10 then 11 else 8, r)
  {
    if m.regs[R(5)] == 10 {
      TenTimes(m.regs[R(5)], m.regs[R(1)]);
    }
  }

  lemma {:induction false} SliceStartAdds(m: Machine, config: Config, f: nat, o: nat, r: nat)
    requires RegistersOk(m.regs, config, f, o, r) && m.pc == Start(f) + o && o == 8
    ensures CanExecute(m, Half(config, f, o))
    ensures ComesTo(m, Execute(m, Half(config, f, o), config.nature), config, f, o, 9, r)
  {
    assert Times(m.regs[R(5)] + 1, m.regs[R(1)]) == Times(m.regs[R(5)], m.regs[R(1)]) + m.regs[R(1)];
  }

  lemma SliceStartCounts(m: Machine, config: Config, f: nat, o: nat, r: nat)
    requires RegistersOk(m.regs, config, f, o, r) && m.pc == Start(f) + o && o == 9
    ensures CanExecute(m, Half(config, f, o))
    ensures ComesTo(m, Execute(m, Half(config, f, o), config.nature), config, f, o, 10, r)
  {
  }

  lemma SliceStartJumps(m: Machine, config: Config, f: nat, o: nat, r: nat)
    requires RegistersOk(m.regs, config, f, o, r) && m.pc == Start(f) + o && o == 10
    ensures CanExecute(m, Half(config, f, o))
    ensures ComesTo(m, Execute(m, Half(config, f, o), config.nature), config, f, o, 7, r)
  {
  }

  lemma SliceEndStart(m: Machine, config: Config, f: nat, o: nat, r: nat)
    requires RegistersOk(m.regs, config, f, o, r) && m.pc == Start(f) + o && 11 <= o <= 12
    ensures CanExecute(m, Half(config, f, o))
    ensures ComesTo(m, Execute(m, Half(config, f, o), config.nature), config, f, o, o + 1, r)
  {
  }

  lemma SliceEndTest(m: Machine, config: Config, f: nat, o: nat, r: nat)
    requires RegistersOk(m.regs, config, f, o, r) && m.pc == Start(f) + o && o == 13
    ensures CanExecute(m, Half(config, f, o))
    ensures ComesTo(m, Execute(m, Half(config, f, o), config.nature), config, f, o,
                   if m.regs[R(5)] == 10 then 17 else 14, r)
  {
    if m.regs[R(5)] == 10 {
      TenTimes(m.regs[R(5)], m.regs[R(1)] + 1);
    }
  }

  lemma {:induction false} SliceEndAdds(m: Machine, config: Config, f: nat, o: nat, r: nat)
    requires RegistersOk(m.regs, config, f, o, r) && m.pc == Start(f) + o && o == 14
    ensures CanExecute(m, Half(config, f, o))
    ensures ComesTo(m, Execute(m, Half(config, f, o), config.nature), config, f, o, 15, r)
  {
    assert Times(m.regs[R(5)] + 1, m.regs[R(3)]) == Times(m.regs[R(5)], m.regs[R(3)]) + m.regs[R(3)];
  }

  lemma SliceEndCounts(m: Machine, config: Config, f: nat, o: nat, r: nat)
    requires RegistersOk(m.regs, config, f, o, r) && m.pc == Start(f) + o && o == 15
    ensures CanExecute(m, Half(config, f, o))
    ensures ComesTo(m, Execute(m, Half(config, f, o), config.nature), config, f, o, 16, r)
  {
  }

  lemma SliceEndJumps(m: Machine, config: Config, f: nat, o: nat, r: nat)
    requires RegistersOk(m.regs, config, f, o, r) && m.pc == Start(f) + o && o == 16
    ensures CanExecute(m, Half(config, f, o))
    ensures ComesTo(m, Execute(m, Half(config, f, o), config.nature), config, f, o, 13, r)
  {
  }

  /** Where the comparison at an offset leads if the pair index is the constant. */
  function BasisTarget(o: nat): nat {
    if o == 19 || o == 21 then 30
    else if o == 20 || o == 22 then 32
    else if o == 23 || o == 26 then 34
    else if o == 24 || o == 27 then 36
    else 38
  }

  lemma ChooseTable(config: Config, f: nat, o: nat, p: nat)
    requires 19 <= o <= 28 && BasisChoice(o, p)
    ensures Half(config, f, o) == Beq(Reg(R(1)), Imm(Compared(o - 19)), Start(f) + BasisTarget(o))
    ensures BasisChoice(if p == Compared(o - 19) then BasisTarget(o) else o + 1, p)
  {
  }

  lemma ChooseSteps(m: Machine, config: Config, f: nat, o: nat, r: nat)
    requires RegistersOk(m.regs, config, f, o, r) && m.pc == Start(f) + o && 19 <= o <= 28
    ensures CanExecute(m, Half(config, f, o))
    ensures ComesTo(m, Execute(m, Half(config, f, o), config.nature), config, f, o,
                   if m.regs[R(1)] == Compared(o - 19) then BasisTarget(o) else o + 1, r)
  {
    ChooseTable(config, f, o, m.regs[R(1)]);
  }

  lemma ChooseNone(m: Machine, config: Config, f: nat, o: nat, r: nat)
    requires RegistersOk(m.regs, config, f, o, r) && m.pc == Start(f) + o && o == 29
    ensures CanExecute(m, Half(config, f, o))
    ensures ComesTo(m, Execute(m, Half(config, f, o), config.nature), config, f, o, 40, r)
  {
  }

  lemma JumpToMeasure(m: Machine, config: Config, f: nat, o: nat, r: nat)
    requires RegistersOk(m.regs, config, f, o, r) && m.pc == Start(f) + o && 30 <= o <= 39 && !Half(config, f, o).Rotate?
    ensures CanExecute(m, Half(config, f, o))
    ensures ComesTo(m, Execute(m, Half(config, f, o), config.nature), config, f, o, 40, r)
  {
  }

  lemma IndexReset(m: Machine, config: Config, f: nat, o: nat, r: nat)
    requires RegistersOk(m.regs, config, f, o, r) && m.pc == Start(f) + o && 42 <= o <= 43
    ensures CanExecute(m, Half(config, f, o))
    ensures ComesTo(m, Execute(m, Half(config, f, o), config.nature), config, f, o, o + 1, r)
  {
  }

  lemma IndexStart(m: Machine, config: Config, f: nat, o: nat, r: nat)
    requires RegistersOk(m.regs, config, f, o, r) && m.pc == Start(f) + o && o == 44
    ensures CanExecute(m, Half(config, f, o))
    ensures ComesTo(m, Execute(m, Half(config, f, o), config.nature), config, f, o, 45, r)
  {
  }

  lemma IndexTest(m: Machine, config: Config, f: nat, o: nat, r: nat)
    requires RegistersOk(m.regs, config, f, o, r) && m.pc == Start(f) + o && o == 45
    ensures CanExecute(m, Half(config, f, o))
    ensures ComesTo(m, Execute(m, Half(config, f, o), config.nature), config, f, o,
                   if m.regs[C(0)] == r then 49 else 46, r)
  {
  }

  lemma IndexAdds(m: Machine, config: Config, f: nat, o: nat, r: nat)
    requires RegistersOk(m.regs, config, f, o, r) && m.pc == Start(f) + o && o == 46
    ensures CanExecute(m, Half(config, f, o))
    ensures ComesTo(m, Execute(m, Half(config, f, o), config.nature), config, f, o, 47, r)
  {
  }

  lemma IndexCounts(m: Machine, config: Config, f: nat, o: nat, r: nat)
    requires RegistersOk(m.regs, config, f, o, r) && m.pc == Start(f) + o && o == 47
    ensures CanExecute(m, Half(config, f, o))
    ensures ComesTo(m, Execute(m, Half(config, f, o), config.nature), config, f, o, 48, r)
  {
  }

  lemma IndexJumps(m: Machine, config: Config, f: nat, o: nat, r: nat)
    requires RegistersOk(m.regs, config, f, o, r) && m.pc == Start(f) + o && o == 48
    ensures CanExecute(m, Half(config, f, o))
    ensures ComesTo(m, Execute(m, Half(config, f, o), config.nature), config, f, o, 45, r)
  {
  }

  lemma NextPair(m: Machine, config: Config, f: nat, o: nat, r: nat)
    requires RegistersOk(m.regs, config, f, o, r) && m.pc == Start(f) + o && o == 50
    ensures CanExecute(m, Half(config, f, o))
    ensures ComesTo(m, Execute(m, Half(config, f, o), config.nature), config, f, o, 51, r)
  {
  }

  lemma NextPairJumps(m: Machine, config: Config, f: nat, o: nat, r: nat)
    requires RegistersOk(m.regs, config, f, o, r) && m.pc == Start(f) + o && o == 51
    ensures CanExecute(m, Half(config, f, o))
    ensures ComesTo(m, Execute(m, Half(config, f, o), config.nature), config, f, o, 2, r)
  {
  }

  /** Whether the instruction at an offset only computes with registers. */
  predicate OnlyRegisters(o: nat) {
    2 <= o <= 51 && o != 17 && o != 18 && o != 30 && o != 32 && o != 34 && o != 36 && o != 38 && o != 40 && o != 41 && o != 49
  }

  lemma SliceSteps(m: Machine, config: Config, f: nat, o: nat, r: nat)
    requires RegistersOk(m.regs, config, f, o, r) && m.pc == Start(f) + o && 7 <= o <= 16
    ensures CanExecute(m, Half(config, f, o))
    ensures StaysInLoop(m, Execute(m, Half(config, f, o), config.nature), config, f, o, r)
  {
    if o == 7 { SliceStartTest(m, config, f, o, r); }
    else if o == 8 { SliceStartAdds(m, config, f, o, r); }
    else if o == 9 { SliceStartCounts(m, config, f, o, r); }
    else if o == 10 { SliceStartJumps(m, config, f, o, r); }
    else if o <= 12 { SliceEndStart(m, config, f, o, r); }
    else if o == 13 { SliceEndTest(m, config, f, o, r); }
    else if o == 14 { SliceEndAdds(m, config, f, o, r); }
    else if o == 15 { SliceEndCounts(m, config, f, o, r); }
    else { SliceEndJumps(m, config, f, o, r); }
  }

  lemma IndexSteps(m: Machine, config: Config, f: nat, o: nat, r: nat)
    requires RegistersOk(m.regs, config, f, o, r) && m.pc == Start(f) + o && 42 <= o <= 48
    ensures CanExecute(m, Half(config, f, o))
    ensures StaysInLoop(m, Execute(m, Half(config, f, o), config.nature), config, f, o, r)
  {
    if o <= 43 { IndexReset(m, config, f, o, r); }
    else if o == 44 { IndexStart(m, config, f, o, r); }
    else if o == 45 { IndexTest(m, config, f, o, r); }
    else if o == 46 { IndexAdds(m, config, f, o, r); }
    else if o == 47 { IndexCounts(m, config, f, o, r); }
    else { IndexJumps(m, config, f, o, r); }
  }

  lemma RegisterSteps(m: Machine, config: Config, f: nat, o: nat, r: nat)
    requires RegistersOk(m.regs, config, f, o, r) && m.pc == Start(f) + o && OnlyRegisters(o)
    ensures CanExecute(m, Half(config, f, o))
    ensures StaysInLoop(m, Execute(m, Half(config, f, o), config.nature), config, f, o, r)
  {
    if o == 2 { PairTest(m, config, f, o, r); }
    else if o <= 6 { PairStart(m, config, f, o, r); }
    else if o <= 16 { SliceSteps(m, config, f, o, r); }
    else if o <= 28 { ChooseSteps(m, config, f, o, r); }
    else if o == 29 { ChooseNone(m, config, f, o, r); }
    else if o <= 39 { JumpToMeasure(m, config, f, o, r); }
    else if o <= 48 { IndexSteps(m, config, f, o, r); }
    else if o == 50 { NextPair(m, config, f, o, r); }
    else { NextPairJumps(m, config, f, o, r); }
  }

  /** Where a half is left: the next half begins, or the repetition ends. */
  ghost predicate HalfDone(m: Machine, config: Config, f: nat, r: nat) {
    && m.pc == Start(f) + HALF_LENGTH
    && RegIs(m.regs, R(6), r) && r < config.repetitions
    && if f == 0 then MemoryBefore(m, config, 1, r) else BetweenOk(m, config, r + 1)
  }

  lemma {:induction false} AllPairsDone(m: Machine, config: Config, f: nat, r: nat)
    requires f <= 1 && MemoryOk(m, config, f, r, Stage(config.bases, None, config.bases))
    requires m.pc == Start(f) + HALF_LENGTH && RegIs(m.regs, R(6), r)
    ensures HalfDone(m, config, f, r)
  {
    assert Index(config.bases, r, config.bases) == Index(config.bases, r + 1, 0);
  }

  /** The request goes out, for as many pairs as there are bases. */
  lemma IssueKeeps(m: Machine, config: Config, f: nat, r: nat)
    requires f <= 1 && MemoryBefore(m, config, f, r)
    ensures CanExecute(m, Half(config, f, 0))
    ensures MemoryOk(Execute(m, Half(config, f, 0), config.nature), config, f, r, Stage(0, None, 0))
  {
  }

  /** A defined slice means that its pair is there: no result is left from an earlier repetition. */
  lemma DefinedMeansDelivered(m: Machine, config: Config, f: nat, r: nat, p: nat)
    requires MemoryOk(m, config, f, r, Stage(p, None, p)) && p < config.bases
    requires SliceDefined(m.arrays[Results(f)], 10 * p, 10 * (p + 1))
    ensures MemoryOk(m, config, f, r, Stage(p, Some([]), p))
  {
    assert m.arrays[Results(f)][10 * p].Some?;
  }

  lemma RotateKeeps(m: Machine, config: Config, f: nat, r: nat, p: nat, rotation: Rotation)
    requires MemoryOk(m, config, f, r, Stage(p, Some([]), p)) && RegIs(m.regs, Q(0), 0)
    requires RotationsFor(p) == [rotation]
    ensures CanExecute(m, Rotate(Q(0), rotation))
    ensures MemoryOk(Execute(m, Rotate(Q(0), rotation), config.nature), config, f, r, Stage(p, Some(RotationsFor(p)), p))
  {
    assert [] + [rotation] == [rotation];
  }

  /** The outcome is that of this pair in its basis. */
  lemma MeasKeeps(m: Machine, config: Config, f: nat, r: nat, p: nat)
    requires MemoryOk(m, config, f, r, Stage(p, Some(RotationsFor(p)), p)) && RegIs(m.regs, Q(0), 0)
    ensures CanExecute(m, Meas(Q(0), M(0)))
    ensures var m' := Execute(m, Meas(Q(0), M(0)), config.nature);
            SameMemory(m, m') && m'.regs == m.regs[M(0) := Outcome(config, f, r, p)]
  {
  }

  lemma {:induction false} FreeKeeps(m: Machine, config: Config, f: nat, r: nat, p: nat)
    requires MemoryOk(m, config, f, r, Stage(p, Some(RotationsFor(p)), p)) && RegIs(m.regs, Q(0), 0)
    ensures CanExecute(m, QFree(Q(0)))
    ensures MemoryOk(Execute(m, QFree(Q(0)), config.nature), config, f, r, Stage(p + 1, None, p))
  {
    assert m.qubits - {0} == map[];
  }

  lemma {:induction false} TimesGrows(a: nat, b: nat, x: nat)
    requires a < b
    ensures Times(a, x) + x <= Times(b, x)
  {
    if a + 1 < b {
      TimesGrows(a, b - 1, x);
    }
  }

  /** An index belongs to one pair of one repetition only. */
  lemma IndexIsUnique(bases: nat, r: nat, p: nat, r2: nat, p2: nat)
    requires p < bases && p2 < bases && Index(bases, r, p) == Index(bases, r2, p2)
    ensures r == r2 && p == p2
  {
    if r < r2 {
      TimesGrows(r, r2, bases);
    } else if r2 < r {
      TimesGrows(r2, r, bases);
    }
  }

  lemma IndexInRange(config: Config, r: nat, p: nat)
    requires r < config.repetitions && p < config.bases
    ensures Index(config.bases, r, p) < config.repetitions * config.bases
  {
    TimesGrows(r, config.repetitions, config.bases);
    TimesMultiplies(config.repetitions, config.bases);
  }

  lemma StoreExtends(m: Machine, m': Machine, config: Config, f: nat, r: nat, p: nat)
    requires r < config.repetitions && p < config.bases && OutcomesUpTo(m, config, f, Index(config.bases, r, p))
    requires Index(config.bases, r, p) < config.repetitions * config.bases
    requires m'.arrays == m.arrays[Outcomes(f) :=
                                     m.arrays[Outcomes(f)][Index(config.bases, r, p) := Some(Outcome(config, f, r, p))]]
    ensures OutcomesUpTo(m', config, f, Index(config.bases, r, p + 1))
  {
    forall r2: nat, p2: nat | p2 < config.bases && Index(config.bases, r2, p2) < config.repetitions * config.bases
      ensures m'.arrays[Outcomes(f)][Index(config.bases, r2, p2)] ==
              if Index(config.bases, r2, p2) < Index(config.bases, r, p + 1) then Some(Outcome(config, f, r2, p2)) else None
    {
      if Index(config.bases, r2, p2) == Index(config.bases, r, p) {
        IndexIsUnique(config.bases, r, p, r2, p2);
      }
    }
  }

  /** Writing outcomes touches no other array. */
  lemma OnlyOutcomesChange(m: Machine, m': Machine, config: Config, f: nat, r: nat, stage: Stage, a: seq<Option<int>>)
    requires f <= 1 && MemoryOk(m, config, f, r, stage)
    requires m'.arrays == m.arrays[Outcomes(f) := a] && m'.requests == m.requests && m'.qubits == m.qubits
    ensures Prepared(m', config) && OtherFidelity(m', config, f, r)
    ensures Delivery(m', config, f, 2 * r + f, stage.freed, stage.holding)
  {
  }

  /** The store fills an entry that was undefined, and no other. */
  lemma StoreKeeps(m: Machine, config: Config, f: nat, r: nat, p: nat)
    requires f <= 1 && p < config.bases && MemoryOk(m, config, f, r, Stage(p + 1, None, p))
    requires RegIs(m.regs, C(1), Index(config.bases, r, p)) && RegIs(m.regs, M(0), Outcome(config, f, r, p))
    ensures CanExecute(m, Half(config, f, 49)) && m.arrays[Outcomes(f)][Index(config.bases, r, p)].None?
    ensures MemoryOk(Execute(m, Half(config, f, 49), config.nature), config, f, r, Stage(p + 1, None, p + 1))
  {
    IndexInRange(config, r, p);
    var m' := Execute(m, Half(config, f, 49), config.nature);
    StoreExtends(m, m', config, f, r, p);
    OnlyOutcomesChange(m, m', config, f, r, Stage(p + 1, None, p), m'.arrays[Outcomes(f)]);
  }

  /** Writing results touches no other array. */
  lemma OnlyResultsChange(m: Machine, config: Config, f: nat, r: nat, stage: Stage, a: seq<Option<int>>, m': Machine)
    requires f <= 1 && MemoryOk(m, config, f, r, stage) && |a| == 10 * config.bases
    requires m'.arrays == m.arrays[Results(f) := a]
    ensures Prepared(m', config) && OtherFidelity(m', config, f, r)
    ensures OutcomesUpTo(m', config, f, Index(config.bases, r, stage.stored))
  {
  }

  lemma {:induction false} DeliverNext(m: Machine, values: seq<int>, config: Config, f: nat, number: nat, k: nat)
    requires f <= 1 && RequestArrays(m, config, f) && AtPair(m, config, f, number, k) && k < config.bases
    requires CanDeliver(m) && |values| == SLICE && m.qubits == map[]
    ensures var m' := Deliver(m, values);
            && m'.arrays == m.arrays[Results(f) := WithSlice(m.arrays[Results(f)], 10 * k, values)]
            && AtPair(m', config, f, number, k + 1) && m'.qubits == map[0 := Qubit(Pair(number, k), [])]
            && m'.regs == m.regs && m'.pc == m.pc && m'.issued == m.issued
  {
    assert m.requests[0] == FreshRequest(f, number, k);
    assert m.arrays[VirtIds(f)][k] == Some(0);
  }

  lemma {:induction false} NextDelivered(m: Machine, m': Machine, config: Config, f: nat, r: nat, stage: Stage, a: seq<Option<int>>)
    requires f <= 1 && MemoryOk(m, config, f, r, stage) && stage.holding.None? && |a| == 10 * config.bases
    requires m'.arrays == m.arrays[Results(f) := a] && m'.issued == m.issued
    requires AtPair(m', config, f, 2 * r + f, stage.freed + 1)
    requires m'.qubits == map[0 := Qubit(Pair(2 * r + f, stage.freed), [])]
    ensures MemoryOk(m', config, f, r, stage)
  {
    OnlyResultsChange(m, config, f, r, stage, a, m');
  }

  /** A delivery is only possible while no pair is held, and brings the next pair. */
  lemma {:induction false} DeliverKeeps(m: Machine, values: seq<int>, config: Config, f: nat, r: nat, stage: Stage)
    requires f <= 1 && MemoryOk(m, config, f, r, stage) && CanDeliver(m) && |values| == SLICE
    ensures stage.holding.None? && MemoryOk(Deliver(m, values), config, f, r, stage)
    ensures Deliver(m, values).regs == m.regs && Deliver(m, values).pc == m.pc
  {
    QubitIsFree(m, config, f, 2 * r + f, stage.freed, stage.holding);
    DeliverNext(m, values, config, f, 2 * r + f, stage.freed);
    NextDelivered(m, Deliver(m, values), config, f, r, stage, WithSlice(m.arrays[Results(f)], 10 * stage.freed, values));
  }

  function PairsLeft(m: Machine, config: Config): nat {
    if m.requests == [] || m.requests[0].delivered >= config.bases then 0 else config.bases - m.requests[0].delivered
  }

  lemma {:induction false} DeliveryShortens(m: Machine, values: seq<int>, config: Config, f: nat, r: nat, stage: Stage)
    requires f <= 1 && MemoryOk(m, config, f, r, stage) && CanDeliver(m) && |values| == SLICE
    ensures PairsLeft(Deliver(m, values), config) < PairsLeft(m, config)
  {
    QubitIsFree(m, config, f, 2 * r + f, stage.freed, stage.holding);
    DeliverNext(m, values, config, f, 2 * r + f, stage.freed);
  }

  lemma {:induction false} QubitIsFree(m: Machine, config: Config, f: nat, number: nat, freed: nat, holding: Option<seq<Rotation>>)
    requires f <= 1 && RequestArrays(m, config, f) && Delivery(m, config, f, number, freed, holding) && CanDeliver(m)
    ensures holding.None? && AtPair(m, config, f, number, freed) && freed < config.bases && m.qubits == map[]
  {
    var k := m.requests[0].delivered;
    assert m.requests[0].virtAddr == VirtIds(f) && m.arrays[VirtIds(f)][k] == Some(0);
  }

  /** An instruction at offset `o` of a half leads to offset `o'`, whose assertion holds and which
      is closer to the end of the loop over the pairs, or out of the half. */
  ghost predicate LeadsTo(m: Machine, m': Machine, config: Config, f: nat, o: nat, o': nat, r: nat)
    requires o < 2 || R(1) in m.regs
  {
    m'.pc == Start(f) + o' &&
    if o' == HALF_LENGTH then HalfDone(m', config, f, r)
    else
      && 0 < o' < HALF_LENGTH && HalfOk(m', config, f, o', r)
      && if o < 2 then o' == o + 1 else o' >= 2 && GetsCloser(m.regs, o, m'.regs, o', r)
  }

  ghost predicate Leads(m: Machine, m': Machine, config: Config, f: nat, o: nat, r: nat)
    requires o < 2 || R(1) in m.regs
  {
    exists o': nat :: LeadsTo(m, m', config, f, o, o', r)
  }

  lemma {:induction false} NextLeads(m: Machine, m': Machine, config: Config, f: nat, o: nat, r: nat)
    requires 17 <= o <= 49 && !OnlyRegisters(o) && m'.pc == Start(f) + o + 1 && R(1) in m.regs
    requires RegistersOk(m'.regs, config, f, o + 1, r) && m'.regs[R(1)] == m.regs[R(1)]
    requires MemoryOk(m', config, f, r, StageAt(o + 1, m.regs[R(1)]))
    ensures Leads(m, m', config, f, o, r)
  {
    assert LeadsTo(m, m', config, f, o, o + 1, r);
  }

  lemma WaitStep(m: Machine, config: Config, f: nat, o: nat, r: nat)
    requires f <= 1 && HalfOk(m, config, f, o, r) && m.pc == Start(f) + o && o == 17
    requires CanExecute(m, Half(config, f, o))
    ensures Leads(m, Execute(m, Half(config, f, o), config.nature), config, f, o, r)
  {
    var m' := Execute(m, Half(config, f, o), config.nature);
    DefinedMeansDelivered(m, config, f, r, m.regs[R(1)]);
    SameMemoryKeeps(m, m', config, f, r, StageAt(18, m.regs[R(1)]));
    NextLeads(m, m', config, f, o, r);
  }

  lemma LoadStep(m: Machine, config: Config, f: nat, o: nat, r: nat)
    requires f <= 1 && HalfOk(m, config, f, o, r) && m.pc == Start(f) + o && o == 18
    ensures CanExecute(m, Half(config, f, o))
    ensures Leads(m, Execute(m, Half(config, f, o), config.nature), config, f, o, r)
  {
    var m' := Execute(m, Half(config, f, o), config.nature);
    SameMemoryKeeps(m, m', config, f, r, StageAt(19, m.regs[R(1)]));
    NextLeads(m, m', config, f, o, r);
  }

  /** A rotation is the one that belongs to the pair. */
  lemma RotationFits(regs: Registers, config: Config, f: nat, o: nat, r: nat)
    requires RegistersOk(regs, config, f, o, r) && 30 <= o <= 38 && Half(config, f, o).Rotate?
    ensures RegistersOk(regs, config, f, o + 1, r)
    ensures RotationsFor(regs[R(1)]) == [Half(config, f, o).rotation]
    ensures Half(config, f, o).qreg == Q(0) && RegIs(regs, Q(0), 0)
    ensures StageAt(o, regs[R(1)]) == Stage(regs[R(1)], Some([]), regs[R(1)])
    ensures StageAt(o + 1, regs[R(1)]) == Stage(regs[R(1)], Some(RotationsFor(regs[R(1)])), regs[R(1)])
  {
  }

  lemma {:induction false} RotateSteps(m: Machine, config: Config, f: nat, o: nat, r: nat)
    requires f <= 1 && HalfOk(m, config, f, o, r) && m.pc == Start(f) + o && 30 <= o <= 38 && Half(config, f, o).Rotate?
    ensures CanExecute(m, Half(config, f, o))
    ensures Leads(m, Execute(m, Half(config, f, o), config.nature), config, f, o, r)
  {
    RotationFits(m.regs, config, f, o, r);
    RotateKeeps(m, config, f, r, m.regs[R(1)], Half(config, f, o).rotation);
    RotateLeads(m, config, f, o, r, Half(config, f, o).rotation);
  }

  lemma {:induction false} RotateLeads(m: Machine, config: Config, f: nat, o: nat, r: nat, rotation: Rotation)
    requires m.pc == Start(f) + o && 30 <= o <= 38 && !OnlyRegisters(o) && CanExecute(m, Rotate(Q(0), rotation))
    requires RegistersOk(m.regs, config, f, o + 1, r)
    requires MemoryOk(Execute(m, Rotate(Q(0), rotation), config.nature), config, f, r, StageAt(o + 1, m.regs[R(1)]))
    ensures Leads(m, Execute(m, Rotate(Q(0), rotation), config.nature), config, f, o, r)
  {
    NextLeads(m, Execute(m, Rotate(Q(0), rotation), config.nature), config, f, o, r);
  }

  lemma MeasStep(m: Machine, config: Config, f: nat, o: nat, r: nat)
    requires f <= 1 && HalfOk(m, config, f, o, r) && m.pc == Start(f) + o && o == 40
    ensures CanExecute(m, Half(config, f, o))
    ensures Leads(m, Execute(m, Half(config, f, o), config.nature), config, f, o, r)
  {
    var m' := Execute(m, Half(config, f, o), config.nature);
    MeasKeeps(m, config, f, r, m.regs[R(1)]);
    SameMemoryKeeps(m, m', config, f, r, StageAt(41, m.regs[R(1)]));
    NextLeads(m, m', config, f, o, r);
  }

  lemma FreeStep(m: Machine, config: Config, f: nat, o: nat, r: nat)
    requires f <= 1 && HalfOk(m, config, f, o, r) && m.pc == Start(f) + o && o == 41
    ensures CanExecute(m, Half(config, f, o))
    ensures Leads(m, Execute(m, Half(config, f, o), config.nature), config, f, o, r)
  {
    FreeKeeps(m, config, f, r, m.regs[R(1)]);
    NextLeads(m, Execute(m, Half(config, f, o), config.nature), config, f, o, r);
  }

  lemma StoreStep(m: Machine, config: Config, f: nat, o: nat, r: nat)
    requires f <= 1 && HalfOk(m, config, f, o, r) && m.pc == Start(f) + o && o == 49
    ensures CanExecute(m, Half(config, f, o))
    ensures Leads(m, Execute(m, Half(config, f, o), config.nature), config, f, o, r)
  {
    StoreKeeps(m, config, f, r, m.regs[R(1)]);
    NextLeads(m, Execute(m, Half(config, f, o), config.nature), config, f, o, r);
  }

  /** The instructions on the qubit and the arrays. */
  lemma MemorySteps(m: Machine, config: Config, f: nat, o: nat, r: nat)
    requires f <= 1 && HalfOk(m, config, f, o, r) && m.pc == Start(f) + o && 2 <= o <= 51 && !OnlyRegisters(o)
    ensures o != 17 ==> CanExecute(m, Half(config, f, o))
    ensures CanExecute(m, Half(config, f, o)) ==> Leads(m, Execute(m, Half(config, f, o), config.nature), config, f, o, r)
  {
    if o == 17 {
      if CanExecute(m, Half(config, f, o)) {
        WaitStep(m, config, f, o, r);
      }
    }
    else if o == 18 { LoadStep(m, config, f, o, r); }
    else if o < 40 { RotateSteps(m, config, f, o, r); }
    else if o == 40 { MeasStep(m, config, f, o, r); }
    else if o == 41 { FreeStep(m, config, f, o, r); }
    else { StoreStep(m, config, f, o, r); }
  }

  lemma {:induction false} IssueStep(m: Machine, config: Config, f: nat, o: nat, r: nat)
    requires f <= 1 && HalfOk(m, config, f, o, r) && m.pc == Start(f) + o && o == 0
    ensures CanExecute(m, Half(config, f, o))
    ensures Leads(m, Execute(m, Half(config, f, o), config.nature), config, f, o, r)
  {
    IssueKeeps(m, config, f, r);
    assert LeadsTo(m, Execute(m, Half(config, f, o), config.nature), config, f, 0, 1, r);
  }

  lemma {:induction false} EnterLoopStep(m: Machine, config: Config, f: nat, o: nat, r: nat)
    requires f <= 1 && HalfOk(m, config, f, o, r) && m.pc == Start(f) + o && o == 1
    ensures CanExecute(m, Half(config, f, o))
    ensures Leads(m, Execute(m, Half(config, f, o), config.nature), config, f, o, r)
  {
    var m' := Execute(m, Half(config, f, o), config.nature);
    SameMemoryKeeps(m, m', config, f, r, Stage(0, None, 0));
    assert LeadsTo(m, m', config, f, 1, 2, r);
  }

  lemma {:induction false} LoopSteps(m: Machine, config: Config, f: nat, o: nat, r: nat)
    requires f <= 1 && HalfOk(m, config, f, o, r) && m.pc == Start(f) + o && OnlyRegisters(o)
    ensures CanExecute(m, Half(config, f, o))
    ensures Leads(m, Execute(m, Half(config, f, o), config.nature), config, f, o, r)
  {
    RegisterSteps(m, config, f, o, r);
    var m' := Execute(m, Half(config, f, o), config.nature);
    var o': nat :| ComesTo(m, m', config, f, o, o', r);
    SameMemoryKeeps(m, m', config, f, r, StageAt(o, m.regs[R(1)]));
    LoopLeads(m, m', config, f, o, o', r);
  }

  lemma {:induction false} LoopLeads(m: Machine, m': Machine, config: Config, f: nat, o: nat, o': nat, r: nat)
    requires f <= 1 && o >= 2 && RegistersOk(m.regs, config, f, o, r) && ComesTo(m, m', config, f, o, o', r)
    requires MemoryOk(m', config, f, r, StageAt(o, m.regs[R(1)]))
    ensures Leads(m, m', config, f, o, r)
  {
    if o' == HALF_LENGTH {
      AllPairsDone(m', config, f, r);
    }
    assert LeadsTo(m, m', config, f, o, o', r);
  }

  /** Every instruction of a half but the wait can be executed. */
  lemma HalfSteps(m: Machine, config: Config, f: nat, o: nat, r: nat)
    requires f <= 1 && HalfOk(m, config, f, o, r) && m.pc == Start(f) + o && o < HALF_LENGTH
    ensures o != 17 ==> CanExecute(m, Half(config, f, o))
    ensures CanExecute(m, Half(config, f, o)) ==> Leads(m, Execute(m, Half(config, f, o), config.nature), config, f, o, r)
  {
    if o == 0 {
      IssueStep(m, config, f, o, r);
    } else if o == 1 {
      EnterLoopStep(m, config, f, o, r);
    } else if OnlyRegisters(o) {
      LoopSteps(m, config, f, o, r);
    } else {
      MemorySteps(m, config, f, o, r);
    }
  }

  /** A blocked wait is not stuck: the pair it waits for can be delivered. */
  lemma BlockedMeansDeliverable(m: Machine, config: Config, f: nat, r: nat)
    requires f <= 1 && HalfOk(m, config, f, 17, r) && !CanExecute(m, Half(config, f, 17))
    ensures CanDeliver(m)
  {
    var p := m.regs[R(1)];
    assert AtPair(m, config, f, 2 * r + f, p);
    assert m.arrays[VirtIds(f)][p] == Some(0);
  }

  /** The part of the program before the main loop. */
  lemma {:induction false} AllocateFirst(m: Machine, config: Config)
    requires SetupOk(m, config) && m.pc <= 3
    ensures CanExecute(m, Prologue(config, m.pc))
    ensures Execute(m, Prologue(config, m.pc), config.nature).pc == m.pc + 1
    ensures Inv(Execute(m, Prologue(config, m.pc), config.nature), config)
  {
    assert InvAt(Execute(m, Prologue(config, m.pc), config.nature), config, InSetup);
  }

  lemma {:induction false} AllocateRest(m: Machine, config: Config)
    requires SetupOk(m, config) && 4 <= m.pc <= 7
    ensures CanExecute(m, Prologue(config, m.pc))
    ensures Execute(m, Prologue(config, m.pc), config.nature).pc == m.pc + 1
    ensures Inv(Execute(m, Prologue(config, m.pc), config.nature), config)
  {
    assert InvAt(Execute(m, Prologue(config, m.pc), config.nature), config, InSetup);
  }

  lemma {:induction false} ArgumentSteps(m: Machine, config: Config)
    requires SetupOk(m, config) && 8 <= m.pc <= 11
    ensures CanExecute(m, Prologue(config, m.pc))
    ensures Execute(m, Prologue(config, m.pc), config.nature).pc == m.pc + 1
    ensures Inv(Execute(m, Prologue(config, m.pc), config.nature), config)
  {
    assert InvAt(Execute(m, Prologue(config, m.pc), config.nature), config, InSetup);
  }

  lemma {:induction false} VirtIdStart(m: Machine, config: Config)
    requires SetupOk(m, config) && m.pc == 12
    ensures CanExecute(m, Prologue(config, m.pc))
    ensures Execute(m, Prologue(config, m.pc), config.nature).pc == m.pc + 1
    ensures Inv(Execute(m, Prologue(config, m.pc), config.nature), config)
  {
    assert InvAt(Execute(m, Prologue(config, m.pc), config.nature), config, InSetup);
  }

  /** A step while the virtual IDs are written, closer to the end of that. */
  predicate VirtIdCloser(m: Machine, m': Machine, config: Config) {
    && 13 <= m'.pc <= 18 && R(0) in m.regs && R(0) in m'.regs && m'.regs[R(0)] <= config.bases
    && (m'.regs[R(0)] > m.regs[R(0)] || (m'.regs[R(0)] == m.regs[R(0)]
            && ((m'.pc == m.pc + 1 && m.pc != 16) || m'.pc == 18 || (m.pc == 17 && m'.pc == 13))))
  }

  lemma {:induction false} VirtIdTest(m: Machine, config: Config)
    requires SetupOk(m, config) && m.pc == 13
    ensures CanExecute(m, Prologue(config, m.pc))
    ensures var m' := Execute(m, Prologue(config, m.pc), config.nature);
            Inv(m', config) && VirtIdCloser(m, m', config)
  {
    assert InvAt(Execute(m, Prologue(config, m.pc), config.nature), config, InSetup);
  }

  lemma {:induction false} VirtIdJumps(m: Machine, config: Config)
    requires SetupOk(m, config) && m.pc == 17
    ensures CanExecute(m, Prologue(config, m.pc))
    ensures var m' := Execute(m, Prologue(config, m.pc), config.nature);
            Inv(m', config) && VirtIdCloser(m, m', config)
  {
    assert InvAt(Execute(m, Prologue(config, m.pc), config.nature), config, InSetup);
  }

  lemma {:induction false} VirtIdStores(m: Machine, config: Config)
    requires SetupOk(m, config) && 14 <= m.pc <= 16
    ensures CanExecute(m, Prologue(config, m.pc))
    ensures var m' := Execute(m, Prologue(config, m.pc), config.nature);
            Inv(m', config) && VirtIdCloser(m, m', config)
  {
    assert InvAt(Execute(m, Prologue(config, m.pc), config.nature), config, InSetup);
  }

  /** The main loop begins with nothing measured. */
  lemma {:induction false} MainLoopStarts(m: Machine, config: Config)
    requires SetupOk(m, config) && m.pc == 18
    ensures CanExecute(m, Prologue(config, 18))
    ensures var m' := Execute(m, Prologue(config, 18), config.nature);
            m'.pc == 19 && RegIs(m'.regs, R(6), 0) && Inv(m', config)
  {
    assert InvAt(Execute(m, Prologue(config, 18), config.nature), config, InMain(0));
  }

  lemma {:induction false} MainTest(m: Machine, config: Config, r: nat)
    requires MainOk(m, config, r) && 19 <= m.pc <= 20
    ensures CanExecute(m, Prologue(config, m.pc))
    ensures var m' := Execute(m, Prologue(config, m.pc), config.nature);
            Inv(m', config) && (m'.pc == m.pc + 1 || m'.pc == 132) && RegIs(m'.regs, R(6), r)
  {
    var m' := Execute(m, Prologue(config, m.pc), config.nature);
    if m'.pc == 132 {
      assert InvAt(m', config, InTail(r));
    } else {
      assert InvAt(m', config, InMain(r));
    }
  }

  lemma {:induction false} ResetTest(m: Machine, config: Config, r: nat)
    requires MainOk(m, config, r) && m.pc == 21
    ensures CanExecute(m, Prologue(config, m.pc))
    ensures ResetCloser(m, Execute(m, Prologue(config, m.pc), config.nature), config, r)
  {
    if m.regs[C(0)] == 10 * config.bases {
      ResetDone(m, config, r);
    } else {
      assert InvAt(Execute(m, Prologue(config, m.pc), config.nature), config, InMain(r));
    }
  }

  /** Once the results are reset, the first half begins. */
  lemma {:induction false} ResetDone(m: Machine, config: Config, r: nat)
    requires MainOk(m, config, r) && m.pc == 21 && m.regs[C(0)] == 10 * config.bases
    ensures m.(pc := 26) == Execute(m, Prologue(config, m.pc), config.nature)
    ensures Inv(m.(pc := 26), config)
  {
    assert InvAt(m.(pc := 26), config, InHalf(0, 0, r));
  }

  lemma {:induction false} ResetEntry(m: Machine, config: Config, r: nat)
    requires MainOk(m, config, r) && 22 <= m.pc <= 23
    ensures CanExecute(m, Prologue(config, m.pc))
    ensures ResetCloser(m, Execute(m, Prologue(config, m.pc), config.nature), config, r)
  {
    assert InvAt(Execute(m, Prologue(config, m.pc), config.nature), config, InMain(r));
  }

  lemma {:induction false} ResetCounts(m: Machine, config: Config, r: nat)
    requires MainOk(m, config, r) && 24 <= m.pc <= 25
    ensures CanExecute(m, Prologue(config, m.pc))
    ensures ResetCloser(m, Execute(m, Prologue(config, m.pc), config.nature), config, r)
  {
    assert InvAt(Execute(m, Prologue(config, m.pc), config.nature), config, InMain(r));
  }

  /** A step while the results are reset, closer to the end of that. */
  ghost predicate ResetCloser(m: Machine, m': Machine, config: Config, r: nat)
    requires C(0) in m.regs
  {
    && 21 <= m'.pc <= 26 && Inv(m', config) && RegIs(m'.regs, R(6), r) && C(0) in m'.regs
    && ((m.pc == 24 && m'.regs[C(0)] > m.regs[C(0)])
        || (m'.regs[C(0)] == m.regs[C(0)] && ((m'.pc == m.pc + 1 && m.pc != 24) || m'.pc == 26 || (m.pc == 25 && m'.pc == 21))))
  }

  lemma {:induction false} RepetitionEnds(m: Machine, config: Config, r: nat)
    requires TailOk(m, config, r) && 130 <= m.pc <= 131
    ensures CanExecute(m, Fetch(config, m.pc))
    ensures var m' := Execute(m, Fetch(config, m.pc), config.nature);
            Inv(m', config) && m'.pc == (if m.pc == 131 then 19 else 131) && RegIs(m'.regs, R(6), r)
  {
    var m' := Execute(m, Fetch(config, m.pc), config.nature);
    if m.pc == 131 {
      assert InvAt(m', config, InMain(r));
    } else {
      assert InvAt(m', config, InTail(r));
    }
  }

  lemma {:induction false} ReturnSteps(m: Machine, config: Config, r: nat)
    requires TailOk(m, config, r) && 132 <= m.pc < LENGTH
    ensures CanExecute(m, Fetch(config, m.pc))
    ensures var m' := Execute(m, Fetch(config, m.pc), config.nature);
            Inv(m', config) && m'.pc == m.pc + 1
  {
    assert InvAt(Execute(m, Fetch(config, m.pc), config.nature), config, InTail(r));
  }

  /** A rank that every step lowers: repetitions left, the block of the program, rounds left in
      the block's loop, the place in it, rounds left in an inner loop, and pairs to deliver. */
  datatype Rank = Rank(repetitions: nat, block: nat, loop: nat, place: nat, rounds: nat, pairs: nat)

  predicate Below(a: Rank, b: Rank) {
    || a.repetitions < b.repetitions
    || (a.repetitions == b.repetitions &&
        (|| a.block < b.block
         || (a.block == b.block &&
             (|| a.loop < b.loop
              || (a.loop == b.loop &&
                  (|| a.place < b.place
                   || (a.place == b.place &&
                       (a.rounds < b.rounds || (a.rounds == b.rounds && a.pairs < b.pairs)))))))))
  }

  /** How much a register is below a bound. */
  function Missing(regs: Registers, r: Register, bound: int): nat {
    if r in regs && regs[r] < bound then bound - regs[r] else 0
  }

  function RoundsRank(regs: Registers, o: nat): nat {
    var r := if R(6) in regs && regs[R(6)] >= 0 then regs[R(6)] else 0;
    if RoundsAt(regs, o, r) < 0 then 0 else RoundsAt(regs, o, r)
  }

  function HalfRank(m: Machine, config: Config, f: nat): Rank
    requires m.pc >= Start(f)
  {
    var o, left := m.pc - Start(f), Missing(m.regs, R(6), config.repetitions);
    if o < 2 then Rank(left, 5 - 2 * (if f == 0 then 0 else 1), 0, 2 - o, 0, PairsLeft(m, config))
    else Rank(left, 4 - 2 * (if f == 0 then 0 else 1), Missing(m.regs, R(1), config.bases), Place(o),
              RoundsRank(m.regs, o), PairsLeft(m, config))
  }

  function RankOf(m: Machine, config: Config): Rank {
    var left := Missing(m.regs, R(6), config.repetitions);
    if m.pc <= 12 then Rank(config.repetitions + 1, 9, 0, 20 - m.pc, 0, 0)
    else if m.pc <= 17 then
      Rank(config.repetitions + 1, 8, Missing(m.regs, R(0), config.bases), if m.pc == 17 then 31 else 43 - m.pc, 0, 0)
    else if m.pc == 18 then Rank(config.repetitions + 1, 7, 0, 0, 0, 0)
    else if m.pc <= 20 then Rank(left, 8, 0, 20 - m.pc, 0, 0)
    else if m.pc <= 25 then
      Rank(left, 6, Missing(m.regs, C(0), 10 * config.bases), if m.pc == 25 then 31 else 51 - m.pc, 0, 0)
    else if m.pc < HALF_65 + HALF_LENGTH then HalfRank(m, config, FidelityAt(m.pc))
    else if m.pc == 130 then Rank(left, 1, 0, 0, 0, 0)
    else if m.pc == 131 then Rank(left, 9, 0, 0, 0, 0)
    else Rank(0, 0, 0, if m.pc < LENGTH then LENGTH - m.pc else 0, 0, 0)
  }

  lemma StraightBelow(m: Machine, m': Machine, config: Config)
    requires m.pc <= 12 && m'.pc == m.pc + 1
    ensures Below(RankOf(m', config), RankOf(m, config))
  {
  }

  lemma StraightWorks(m: Machine, config: Config)
    requires Inv(m, config) && m.pc <= 12
    ensures CanExecute(m, Prologue(config, m.pc))
    ensures var m' := Execute(m, Prologue(config, m.pc), config.nature);
            Inv(m', config) && Below(RankOf(m', config), RankOf(m, config))
  {
    var w :| InvAt(m, config, w);
    if m.pc <= 3 {
      AllocateFirst(m, config);
    } else if m.pc <= 7 {
      AllocateRest(m, config);
    } else if m.pc <= 11 {
      ArgumentSteps(m, config);
    } else {
      VirtIdStart(m, config);
    }
    StraightBelow(m, Execute(m, Prologue(config, m.pc), config.nature), config);
  }

  lemma VirtIdBelow(m: Machine, m': Machine, config: Config)
    requires 13 <= m.pc <= 17 && VirtIdCloser(m, m', config)
    ensures Below(RankOf(m', config), RankOf(m, config))
  {
  }

  lemma SetupStepWorks(m: Machine, config: Config)
    requires Inv(m, config) && m.pc <= 18
    ensures CanExecute(m, Fetch(config, m.pc))
    ensures var m' := Execute(m, Fetch(config, m.pc), config.nature);
            Inv(m', config) && Below(RankOf(m', config), RankOf(m, config))
  {
    if m.pc <= 12 {
      StraightWorks(m, config);
    } else {
      var w :| InvAt(m, config, w);
      if m.pc <= 17 {
        if m.pc == 13 {
          VirtIdTest(m, config);
        } else if m.pc == 17 {
          VirtIdJumps(m, config);
        } else {
          VirtIdStores(m, config);
        }
        VirtIdBelow(m, Execute(m, Prologue(config, m.pc), config.nature), config);
      } else {
        MainLoopStarts(m, config);
      }
    }
  }

  lemma MainStepWorks(m: Machine, config: Config)
    requires Inv(m, config) && 19 <= m.pc <= 25
    ensures CanExecute(m, Fetch(config, m.pc))
    ensures var m' := Execute(m, Fetch(config, m.pc), config.nature);
            Inv(m', config) && Below(RankOf(m', config), RankOf(m, config))
  {
    var w :| InvAt(m, config, w);
    if m.pc <= 20 {
      MainTest(m, config, w.r);
      MainTestBelow(m, Execute(m, Prologue(config, m.pc), config.nature), config, w.r);
    } else {
      ResetStepWorks(m, config, w.r);
    }
  }

  lemma ResetStepWorks(m: Machine, config: Config, r: nat)
    requires MainOk(m, config, r) && 21 <= m.pc
    ensures CanExecute(m, Prologue(config, m.pc))
    ensures var m' := Execute(m, Prologue(config, m.pc), config.nature);
            Inv(m', config) && Below(RankOf(m', config), RankOf(m, config))
  {
    if m.pc == 21 {
      ResetTest(m, config, r);
    } else if m.pc <= 23 {
      ResetEntry(m, config, r);
    } else {
      ResetCounts(m, config, r);
    }
    ResetBelow(m, Execute(m, Prologue(config, m.pc), config.nature), config, r);
  }

  lemma TailStepWorks(m: Machine, config: Config)
    requires Inv(m, config) && 130 <= m.pc < LENGTH
    ensures CanExecute(m, Fetch(config, m.pc))
    ensures var m' := Execute(m, Fetch(config, m.pc), config.nature);
            Inv(m', config) && Below(RankOf(m', config), RankOf(m, config))
  {
    var w :| InvAt(m, config, w);
    if m.pc <= 131 {
      RepetitionEnds(m, config, w.r);
      RepetitionBelow(m, Execute(m, Fetch(config, m.pc), config.nature), config, w.r);
    } else {
      ReturnSteps(m, config, w.r);
    }
  }

  lemma RepetitionBelow(m: Machine, m': Machine, config: Config, r: nat)
    requires TailOk(m, config, r) && 130 <= m.pc <= 131 && m'.pc == (if m.pc == 131 then 19 else 131)
    requires RegIs(m'.regs, R(6), r)
    ensures Below(RankOf(m', config), RankOf(m, config))
  {
  }

  lemma MainTestBelow(m: Machine, m': Machine, config: Config, r: nat)
    requires 19 <= m.pc <= 20 && RegIs(m.regs, R(6), r) && RegIs(m'.regs, R(6), r)
    requires m'.pc == m.pc + 1 || m'.pc == 132
    ensures Below(RankOf(m', config), RankOf(m, config))
  {
  }

  lemma ResetBelow(m: Machine, m': Machine, config: Config, r: nat)
    requires 21 <= m.pc <= 25 && RegIs(m.regs, R(6), r) && Counts(m.regs, C(0), 10 * config.bases)
    requires m.pc == 24 ==> m.regs[C(0)] < 10 * config.bases
    requires ResetCloser(m, m', config, r)
    ensures Below(RankOf(m', config), RankOf(m, config))
  {
  }

  lemma WhichHalf(config: Config, pc: nat, f: nat)
    requires f <= 1 && Start(f) <= pc < Start(f) + HALF_LENGTH
    ensures FidelityAt(pc) == f && HALF_60 <= pc < HALF_65 + HALF_LENGTH
    ensures Fetch(config, pc) == Half(config, f, pc - Start(f))
  {
  }

  /** The code of a half is what the processor fetches. */
  lemma WhereInHalf(m: Machine, config: Config) returns (f: nat, o: nat, r: nat)
    requires Inv(m, config) && HALF_60 <= m.pc < HALF_65 + HALF_LENGTH
    ensures f <= 1 && m.pc == Start(f) + o && o < HALF_LENGTH && HalfOk(m, config, f, o, r)
    ensures Fetch(config, m.pc) == Half(config, f, o)
  {
    var w :| InvAt(m, config, w);
    f, o, r := w.f, w.o, w.r;
    WhichHalf(config, m.pc, f);
  }

  lemma HalfStepWorks(m: Machine, config: Config)
    requires Inv(m, config) && HALF_60 <= m.pc < HALF_65 + HALF_LENGTH && CanExecute(m, Fetch(config, m.pc))
    ensures var m' := Execute(m, Fetch(config, m.pc), config.nature);
            Inv(m', config) && Below(RankOf(m', config), RankOf(m, config))
  {
    var f, o, r := WhereInHalf(m, config);
    HalfRegisters(m, config, f, o, r);
    HalfSteps(m, config, f, o, r);
    var m' := Execute(m, Fetch(config, m.pc), config.nature);
    var o': nat :| LeadsTo(m, m', config, f, o, o', r);
    LeadsToInv(m, m', config, f, o, o', r);
    LeadsBelow(m, m', config, f, o, o', r);
  }

  lemma {:induction false} LeadsToInv(m: Machine, m': Machine, config: Config, f: nat, o: nat, o': nat, r: nat)
    requires f <= 1 && (o >= 2 ==> R(1) in m.regs)
    requires LeadsTo(m, m', config, f, o, o', r)
    ensures Inv(m', config)
  {
    if o' < HALF_LENGTH {
      assert InvAt(m', config, InHalf(f, o', r));
    } else if f == 0 {
      assert InvAt(m', config, InHalf(1, 0, r));
    } else {
      assert InvAt(m', config, InTail(r + 1));
    }
  }

  lemma HalfRegisters(m: Machine, config: Config, f: nat, o: nat, r: nat)
    requires HalfOk(m, config, f, o, r)
    ensures RegIs(m.regs, R(6), r) && r < config.repetitions && (o >= 2 ==> Counts(m.regs, R(1), config.bases))
  {
  }

  lemma {:induction false} LeadsBelow(m: Machine, m': Machine, config: Config, f: nat, o: nat, o': nat, r: nat)
    requires f <= 1 && m.pc == Start(f) + o && o < HALF_LENGTH
    requires RegIs(m.regs, R(6), r) && r < config.repetitions
    requires o >= 2 ==> R(1) in m.regs && m.regs[R(1)] <= config.bases
    requires LeadsTo(m, m', config, f, o, o', r)
    ensures Below(RankOf(m', config), RankOf(m, config))
  {
    if o' == HALF_LENGTH {
      HalfDoneBelow(m, m', config, f, r);
    } else {
      HalfRegisters(m', config, f, o', r);
      HalfRankBelow(m, m', config, f, o, o', r);
    }
  }

  lemma HalfDoneBelow(m: Machine, m': Machine, config: Config, f: nat, r: nat)
    requires f <= 1 && Start(f) <= m.pc < Start(f) + HALF_LENGTH
    requires RegIs(m.regs, R(6), r) && HalfDone(m', config, f, r)
    ensures Below(RankOf(m', config), RankOf(m, config))
  {
  }

  lemma {:induction false} HalfRankBelow(m: Machine, m': Machine, config: Config, f: nat, o: nat, o': nat, r: nat)
    requires f <= 1 && m.pc == Start(f) + o && m'.pc == Start(f) + o' && o < HALF_LENGTH && 0 < o' < HALF_LENGTH
    requires RegIs(m.regs, R(6), r) && RegIs(m'.regs, R(6), r)
    requires if o < 2 then o' == o + 1
             else o' >= 2 && R(1) in m.regs && R(1) in m'.regs && m'.regs[R(1)] <= config.bases
                  && GetsCloser(m.regs, o, m'.regs, o', r)
    ensures Below(RankOf(m', config), RankOf(m, config))
  {
    WhichHalf(config, m.pc, f);
    WhichHalf(config, m'.pc, f);
    assert RankOf(m, config) == HalfRank(m, config, f) && RankOf(m', config) == HalfRank(m', config, f);
    if o >= 2 {
      LoopRankBelow(m, m', config, f, o, o', r);
    }
  }

  lemma {:induction false} LoopRankBelow(m: Machine, m': Machine, config: Config, f: nat, o: nat, o': nat, r: nat)
    requires f <= 1 && m.pc == Start(f) + o && m'.pc == Start(f) + o' && o >= 2 && o' >= 2
    requires RegIs(m.regs, R(6), r) && RegIs(m'.regs, R(6), r)
    requires R(1) in m.regs && R(1) in m'.regs && m'.regs[R(1)] <= config.bases && GetsCloser(m.regs, o, m'.regs, o', r)
    ensures Below(HalfRank(m', config, f), HalfRank(m, config, f))
  {
    assert RoundsRank(m.regs, o) == if RoundsAt(m.regs, o, r) < 0 then 0 else RoundsAt(m.regs, o, r);
    assert RoundsRank(m'.regs, o') == if RoundsAt(m'.regs, o', r) < 0 then 0 else RoundsAt(m'.regs, o', r);
  }

  lemma InstructWorks(m: Machine, config: Config)
    requires Inv(m, config) && Enabled(config, m, Instruct)
    ensures Inv(After(config, m, Instruct), config)
    ensures Below(RankOf(After(config, m, Instruct), config), RankOf(m, config))
  {
    if m.pc <= 18 {
      SetupStepWorks(m, config);
    } else if m.pc <= 25 {
      MainStepWorks(m, config);
    } else if m.pc < HALF_65 + HALF_LENGTH {
      HalfStepWorks(m, config);
    } else {
      TailStepWorks(m, config);
    }
  }

  /** A delivery is possible in the two halves only, after the request was issued. */
  lemma DeliveryWorks(m: Machine, config: Config, values: seq<int>)
    requires Inv(m, config) && Enabled(config, m, DeliverPair(values))
    ensures Inv(After(config, m, DeliverPair(values)), config)
    ensures Below(RankOf(After(config, m, DeliverPair(values)), config), RankOf(m, config))
  {
    var w :| InvAt(m, config, w);
    if w.o == 1 {
      DeliveryAtStart(m, config, values, w.f, w.r);
    } else {
      DeliveryInLoop(m, config, values, w.f, w.o, w.r, m.regs[R(1)]);
    }
    DeliveryBelow(m, Deliver(m, values), config, w.f);
  }

  lemma {:induction false} DeliveryAtStart(m: Machine, config: Config, values: seq<int>, f: nat, r: nat)
    requires f <= 1 && m.pc == Start(f) + 1 && RegIs(m.regs, R(6), r) && MemoryOk(m, config, f, r, Stage(0, None, 0))
    requires CanDeliver(m) && |values| == SLICE
    ensures Inv(Deliver(m, values), config) && PairsLeft(Deliver(m, values), config) < PairsLeft(m, config)
    ensures Deliver(m, values).regs == m.regs && Deliver(m, values).pc == m.pc
  {
    DeliverKeeps(m, values, config, f, r, Stage(0, None, 0));
    DeliveryShortens(m, values, config, f, r, Stage(0, None, 0));
    assert InvAt(Deliver(m, values), config, InHalf(f, 1, r));
  }

  lemma {:induction false} DeliveryInLoop(m: Machine, config: Config, values: seq<int>, f: nat, o: nat, r: nat, p: nat)
    requires f <= 1 && 2 <= o < HALF_LENGTH && m.pc == Start(f) + o
    requires RegistersOk(m.regs, config, f, o, r) && p == m.regs[R(1)] && MemoryOk(m, config, f, r, StageAt(o, p))
    requires CanDeliver(m) && |values| == SLICE
    ensures Inv(Deliver(m, values), config) && PairsLeft(Deliver(m, values), config) < PairsLeft(m, config)
    ensures Deliver(m, values).regs == m.regs && Deliver(m, values).pc == m.pc
  {
    DeliverKeeps(m, values, config, f, r, StageAt(o, p));
    DeliveryShortens(m, values, config, f, r, StageAt(o, p));
    assert InvAt(Deliver(m, values), config, InHalf(f, o, r));
  }

  lemma {:induction false} DeliveryBelow(m: Machine, m': Machine, config: Config, f: nat)
    requires f <= 1 && Start(f) <= m.pc < Start(f) + HALF_LENGTH && m'.pc == m.pc && m'.regs == m.regs
    requires PairsLeft(m', config) < PairsLeft(m, config)
    ensures Below(RankOf(m', config), RankOf(m, config))
  {
    WhichHalf(config, m.pc, f);
  }

  /** Until the program has ended, the processor can go on or the pair it waits for can come. */
  lemma NeverStuck(m: Machine, config: Config)
    requires Inv(m, config) && m.pc < LENGTH
    ensures Enabled(config, m, Instruct) || Enabled(config, m, DeliverPair(seq(SLICE, _ => 0)))
  {
    if m.pc <= 18 {
      SetupStepWorks(m, config);
    } else if m.pc <= 25 {
      MainStepWorks(m, config);
    } else if m.pc < HALF_65 + HALF_LENGTH {
      HalfNeverStuck(m, config);
    } else {
      TailStepWorks(m, config);
    }
  }

  lemma HalfNeverStuck(m: Machine, config: Config)
    requires Inv(m, config) && HALF_60 <= m.pc < HALF_65 + HALF_LENGTH
    ensures CanExecute(m, Fetch(config, m.pc)) || CanDeliver(m)
  {
    var f, o, r := WhereInHalf(m, config);
    HalfSteps(m, config, f, o, r);
    if o == 17 && !CanExecute(m, Half(config, f, 17)) {
      BlockedMeansDeliverable(m, config, f, r);
    }
  }

  lemma StepWorks(m: Machine, config: Config, step: Step)
    requires Inv(m, config) && Enabled(config, m, step)
    ensures Inv(After(config, m, step), config) && Below(RankOf(After(config, m, step), config), RankOf(m, config))
  {
    match step
    case Instruct => InstructWorks(m, config);
    case DeliverPair(values) => DeliveryWorks(m, config, values);
  }

  predicate IsRun(config: Config, m: Machine, steps: seq<Step>)
    decreases |steps|
  {
    steps == [] || (Enabled(config, m, steps[0]) && IsRun(config, After(config, m, steps[0]), steps[1..]))
  }

  function Final(config: Config, m: Machine, steps: seq<Step>): Machine
    requires IsRun(config, m, steps)
    decreases |steps|
  {
    if steps == [] then m else Final(config, After(config, m, steps[0]), steps[1..])
  }

  /** The first `n` steps of a schedule can all be taken. */
  predicate RunsFor(config: Config, m: Machine, schedule: nat -> Step, t: nat, n: nat)
    decreases n
  {
    n == 0 || (Enabled(config, m, schedule(t)) && RunsFor(config, After(config, m, schedule(t)), schedule, t + 1, n - 1))
  }

  lemma {:induction false} HaltsFrom(config: Config, m: Machine, schedule: nat -> Step, t: nat)
    requires Inv(m, config)
    ensures exists n: nat :: !RunsFor(config, m, schedule, t, n)
    decreases RankOf(m, config).repetitions, RankOf(m, config).block, RankOf(m, config).loop,
              RankOf(m, config).place, RankOf(m, config).rounds, RankOf(m, config).pairs
  {
    if Enabled(config, m, schedule(t)) {
      StepWorks(m, config, schedule(t));
      var m' := After(config, m, schedule(t));
      HaltsFrom(config, m', schedule, t + 1);
      var n: nat :| !RunsFor(config, m', schedule, t + 1, n);
      assert !RunsFor(config, m, schedule, t, n + 1);
    } else {
      assert !RunsFor(config, m, schedule, t, 1);
    }
  }

  lemma {:induction false} RunKeepsInv(config: Config, m: Machine, steps: seq<Step>)
    requires Inv(m, config) && IsRun(config, m, steps)
    ensures Inv(Final(config, m, steps), config)
    decreases |steps|
  {
    if steps != [] {
      StepWorks(m, config, steps[0]);
      RunKeepsInv(config, After(config, m, steps[0]), steps[1..]);
    }
  }

  /** The machine at the start of the subroutine, whatever its registers and arrays hold. */
  function Boot(regs: Registers, arrays: Arrays): Machine {
    Machine(0, regs, arrays, map[], [], 0)
  }

  /** The program halts: no infinite schedule of instructions and deliveries can be followed. */
  lemma Halts(config: Config, regs: Registers, arrays: Arrays, schedule: nat -> Step)
    ensures exists n: nat :: !RunsFor(config, Boot(regs, arrays), schedule, 0, n)
  {
    assert InvAt(Boot(regs, arrays), config, InSetup);
    HaltsFrom(config, Boot(regs, arrays), schedule, 0);
  }

  /** Entry r*B+p of each outcomes array holds the outcome of pair p of repetition r of its
      fidelity, measured in the basis of p. */
  predicate AllOutcomesStored(m: Machine, config: Config) {
    forall f: nat, r: nat, p: nat :: f <= 1 && r < config.repetitions && p < config.bases ==> StoredAt(m, config, f, r, p)
  }

  predicate StoredAt(m: Machine, config: Config, f: nat, r: nat, p: nat) {
    && HasLength(m, f, config.repetitions * config.bases)
    && 0 <= r * config.bases + p < config.repetitions * config.bases
    && m.arrays[f][r * config.bases + p] == Some(Outcome(config, f, r, p))
  }

  /** Whatever the registers and arrays hold at first, and however deliveries are interleaved: a
      run that cannot go on has reached the end, with every outcome in its place. */
  lemma EveryRunStoresOutcomes(config: Config, regs: Registers, arrays: Arrays, steps: seq<Step>)
    requires IsRun(config, Boot(regs, arrays), steps)
    ensures NoWrongOutcome(Final(config, Boot(regs, arrays), steps), config)
    ensures var m := Final(config, Boot(regs, arrays), steps);
            (forall step :: !Enabled(config, m, step)) ==> m.pc == LENGTH && AllOutcomesStored(m, config)
  {
    assert InvAt(Boot(regs, arrays), config, InSetup);
    RunKeepsInv(config, Boot(regs, arrays), steps);
    var m := Final(config, Boot(regs, arrays), steps);
    NeverWrong(m, config);
    if forall step :: !Enabled(config, m, step) {
      if m.pc < LENGTH {
        NeverStuck(m, config);
      }
      EndMeansStored(m, config);
    }
  }

  lemma {:induction false} EndMeansStored(m: Machine, config: Config)
    requires Inv(m, config) && m.pc >= LENGTH
    ensures m.pc == LENGTH && AllOutcomesStored(m, config)
  {
    var w :| InvAt(m, config, w);
    assert TailOk(m, config, w.r);
    AllStored(m, config);
  }

  lemma {:induction false} AllStored(m: Machine, config: Config)
    requires OutcomesUpTo(m, config, 0, Index(config.bases, config.repetitions, 0))
    requires OutcomesUpTo(m, config, 1, Index(config.bases, config.repetitions, 0))
    ensures AllOutcomesStored(m, config)
  {
    forall f: nat, r: nat, p: nat | f <= 1 && r < config.repetitions && p < config.bases
      ensures StoredAt(m, config, f, r, p)
    {
      OutcomeStored(m, config, f, r, p);
    }
  }

  lemma {:induction false} OutcomeStored(m: Machine, config: Config, f: nat, r: nat, p: nat)
    requires OutcomesUpTo(m, config, f, Index(config.bases, config.repetitions, 0)) && r < config.repetitions && p < config.bases
    ensures StoredAt(m, config, f, r, p)
  {
    OutcomeAt(m, config, f, Index(config.bases, config.repetitions, 0), r, p);
    TimesMultiplies(config.repetitions, config.bases);
  }

  lemma OutcomeAt(m: Machine, config: Config, f: nat, cut: nat, r: nat, p: nat)
    requires OutcomesUpTo(m, config, f, cut) && r < config.repetitions && p < config.bases
    ensures HasLength(m, f, config.repetitions * config.bases)
    ensures 0 <= r * config.bases + p < config.repetitions * config.bases
    ensures m.arrays[f][r * config.bases + p] ==
            if r * config.bases + p < cut then Some(Outcome(config, f, r, p)) else None
  {
    TimesMultiplies(r, config.bases);
    IndexInRange(config, r, p);
  }

  /** The one store of an outcome per pair: its entry is the pair's own and was undefined. */
  lemma StoresOnce(m: Machine, config: Config, f: nat, r: nat)
    requires f <= 1 && HalfOk(m, config, f, 49, r)
    ensures RegIs(m.regs, R(6), r) && R(1) in m.regs && m.regs[R(1)] >= 0
    ensures RegIs(m.regs, C(1), r * config.bases + m.regs[R(1)]) && CanExecute(m, Half(config, f, 49))
    ensures Outcomes(f) in m.arrays && 0 <= m.regs[C(1)] < |m.arrays[Outcomes(f)]|
    ensures m.arrays[Outcomes(f)][m.regs[C(1)]].None?
    ensures Execute(m, Half(config, f, 49), config.nature).arrays ==
            m.arrays[Outcomes(f) := m.arrays[Outcomes(f)][m.regs[C(1)] := Some(Outcome(config, f, r, m.regs[R(1)]))]]
  {
    TimesMultiplies(r, config.bases);
    StoreKeeps(m, config, f, r, m.regs[R(1)]);
    IndexInRange(config, r, m.regs[R(1)]);
  }

  /** From the main loop on, an entry of an outcomes array is undefined or right. */
  ghost predicate NoWrongOutcome(m: Machine, config: Config) {
    m.pc >= 19 ==>
      exists cut0, cut1 :: OutcomesUpTo(m, config, 0, cut0) && OutcomesUpTo(m, config, 1, cut1)
  }

  lemma {:induction false} NeverWrong(m: Machine, config: Config)
    requires Inv(m, config)
    ensures NoWrongOutcome(m, config)
  {
    var w :| InvAt(m, config, w);
    if w.InHalf? {
      HalfNeverWrong(m, config, w.f, w.o, w.r);
    }
  }

  lemma {:induction false} HalfNeverWrong(m: Machine, config: Config, f: nat, o: nat, r: nat)
    requires f <= 1 && HalfOk(m, config, f, o, r)
    ensures NoWrongOutcome(m, config)
  {
    var stored := if o < 2 then 0 else StageAt(o, m.regs[R(1)]).stored;
    assert OutcomesUpTo(m, config, f, Index(config.bases, r, stored));
    assert OutcomesUpTo(m, config, 1 - f, Index(config.bases, if f == 0 then r else r + 1, 0));
  }
}
