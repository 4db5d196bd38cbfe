/**
 The interpreter for NetQASM subroutines, as far as the client program of the link layer
 example needs it, together with the network stack that fulfils entanglement requests while
 the subroutine runs.
 */
module Nqasm {
  import opened Options

  /** Four groups of 16 registers, numbered consecutively. */
  type Register = nat

  function R(index: nat): Register { index }
  function C(index: nat): Register { 16 + index }
  function Q(index: nat): Register { 32 + index }
  function M(index: nat): Register { 48 + index }

  /** The assembler lets a value stand wherever an instruction needs a register. */
  datatype Operand = Imm(value: int) | Reg(reg: Register)

  datatype Rotation = RotX(num: nat, denom: nat) | RotY(num: nat, denom: nat)

  datatype Instruction =
    | ArrayInstr(size: Operand, addr: nat)
    | Store(source: Operand, addr: nat, entry: Operand)
    | Load(reg: Register, addr: nat, entry: Operand)
    | Undef(addr: nat, entry: Operand)
    | Set(reg: Register, imm: int)
    | Add(out: Register, a: Operand, b: Operand)
    | Jmp(target: nat)
    | Beq(a: Operand, b: Operand, target: nat)
    | CreateEpr(virtAddr: nat, argsAddr: nat, resultsAddr: nat)
    | WaitAll(addr: nat, start: Operand, end: Operand)
    | Rotate(qreg: Register, rotation: Rotation)
    | Meas(qreg: Register, creg: Register)
    | QFree(qreg: Register)
    | RetArr(addr: nat)

  /** The `index`-th pair of the `request`-th request. */
  datatype Pair = Pair(request: nat, index: nat)

  datatype Qubit = Qubit(pair: Pair, rotations: seq<Rotation>)

  /** A request that the network stack works on, and how many pairs it has delivered. */
  datatype Request = Request(number: nat, virtAddr: nat, argsAddr: nat, resultsAddr: nat, delivered: nat)

  type Arrays = map<nat, seq<Option<int>>>

  /** What measuring a pair after some rotations gives. */
  type Nature = (Pair, seq<Rotation>) -> int

  datatype Machine = Machine(pc: nat, regs: map<Register, int>, arrays: Arrays, qubits: map<int, Qubit>,
                             requests: seq<Request>, issued: nat)

  /** Length of a pair's slice in a results array. */
  const SLICE := 10

  predicate HasValue(m: Machine, x: Operand) {
    x.Imm? || x.reg in m.regs
  }

  function ValueOf(m: Machine, x: Operand): int
    requires HasValue(m, x)
  {
    match x
    case Imm(v) => v
    case Reg(r) => m.regs[r]
  }

  predicate HasEntry(m: Machine, addr: nat, entry: Operand) {
    HasValue(m, entry) && addr in m.arrays && 0 <= ValueOf(m, entry) < |m.arrays[addr]|
  }

  function EntryOf(m: Machine, addr: nat, entry: Operand): Option<int>
    requires HasEntry(m, addr, entry)
  {
    m.arrays[addr][ValueOf(m, entry)]
  }

  function SetEntry(m: Machine, addr: nat, i: int, value: Option<int>): Machine
    requires addr in m.arrays && 0 <= i < |m.arrays[addr]|
  {
    m.(arrays := m.arrays[addr := m.arrays[addr][i := value]])
  }

  predicate SliceDefined(a: seq<Option<int>>, start: int, end: int) {
    forall i :: start <= i < end && 0 <= i < |a| ==> a[i].Some?
  }

  predicate HasQubit(m: Machine, qreg: Register) {
    qreg in m.regs && m.regs[qreg] in m.qubits
  }

  /** The number of pairs stands in the argument array. */
  predicate HasPairCount(m: Machine, argsAddr: nat) {
    argsAddr in m.arrays && |m.arrays[argsAddr]| > 1 && m.arrays[argsAddr][1].Some?
  }

  /** When an instruction can be executed: it raises no exception and does not block. */
  predicate CanExecute(m: Machine, instr: Instruction) {
    match instr
    case ArrayInstr(size, _) => HasValue(m, size) && ValueOf(m, size) >= 0
    case Store(value, addr, entry) => HasValue(m, value) && HasEntry(m, addr, entry)
    case Load(_, addr, entry) => HasEntry(m, addr, entry) && EntryOf(m, addr, entry).Some?
    case Undef(addr, entry) => HasEntry(m, addr, entry)
    case Add(_, a, b) => HasValue(m, a) && HasValue(m, b)
    case Beq(a, b, _) => HasValue(m, a) && HasValue(m, b)
    case WaitAll(addr, start, end) =>
      && HasValue(m, start) && HasValue(m, end) && addr in m.arrays && 0 <= ValueOf(m, start) <= ValueOf(m, end)
      && SliceDefined(m.arrays[addr], ValueOf(m, start), ValueOf(m, end))
    case Rotate(qreg, _) => HasQubit(m, qreg)
    case Meas(qreg, _) => HasQubit(m, qreg)
    case QFree(qreg) => HasQubit(m, qreg)
    case CreateEpr(_, argsAddr, _) => HasPairCount(m, argsAddr)
    case _ => true
  }

  function SetReg(m: Machine, r: Register, v: int): Machine {
    m.(regs := m.regs[r := v])
  }

  function Next(m: Machine): Machine {
    m.(pc := m.pc + 1)
  }

  /** A branch sets the program counter; everything else increments it. */
  function Execute(m: Machine, instr: Instruction, nature: Nature): Machine
    requires CanExecute(m, instr)
  {
    match instr
    case Jmp(target) => m.(pc := target)
    case Beq(a, b, target) => if ValueOf(m, a) == ValueOf(m, b) then m.(pc := target) else Next(m)
    case ArrayInstr(size, addr) =>
      Next(m.(arrays := m.arrays[addr := seq(ValueOf(m, size), _ => None)]))
    case Store(value, addr, entry) => Next(SetEntry(m, addr, ValueOf(m, entry), Some(ValueOf(m, value))))
    case Load(reg, addr, entry) => Next(SetReg(m, reg, EntryOf(m, addr, entry).value))
    case Undef(addr, entry) => Next(SetEntry(m, addr, ValueOf(m, entry), None))
    case Set(reg, value) => Next(SetReg(m, reg, value))
    case Add(out, a, b) => Next(SetReg(m, out, ValueOf(m, a) + ValueOf(m, b)))
    case CreateEpr(virtAddr, argsAddr, resultsAddr) =>
      // A request for no pairs is done at once.
      var request := if m.arrays[argsAddr][1].value > 0 then [Request(m.issued, virtAddr, argsAddr, resultsAddr, 0)] else [];
      Next(m.(requests := m.requests + request, issued := m.issued + 1))
    case WaitAll(_, _, _) => Next(m)
    case Rotate(qreg, rotation) =>
      var q := m.qubits[m.regs[qreg]];
      Next(m.(qubits := m.qubits[m.regs[qreg] := q.(rotations := q.rotations + [rotation])]))
    case Meas(qreg, creg) =>
      var q := m.qubits[m.regs[qreg]];
      Next(SetReg(m, creg, nature(q.pair, q.rotations)))
    case QFree(qreg) => Next(m.(qubits := m.qubits - {m.regs[qreg]}))
    case RetArr(_) => Next(m)
  }

  /** The network stack delivers the next pair of its oldest request. It needs the communication
      qubit, so the virtual ID must be free again. */
  predicate CanDeliver(m: Machine) {
    && m.requests != []
    && var q := m.requests[0];
       && HasPairCount(m, q.argsAddr)
       && q.delivered < m.arrays[q.argsAddr][1].value
       && q.virtAddr in m.arrays && q.delivered < |m.arrays[q.virtAddr]| && m.arrays[q.virtAddr][q.delivered].Some?
       && m.arrays[q.virtAddr][q.delivered].value !in m.qubits
       && q.resultsAddr in m.arrays && SLICE * q.delivered + SLICE <= |m.arrays[q.resultsAddr]|
  }

  function WithSlice(a: seq<Option<int>>, start: nat, values: seq<int>): seq<Option<int>>
    requires start + |values| <= |a|
  {
    a[..start] + seq(|values|, i requires 0 <= i < |values| => Some(values[i])) + a[start + |values|..]
  }

  /** A request whose last pair was delivered is done. */
  function Deliver(m: Machine, values: seq<int>): Machine
    requires CanDeliver(m) && |values| == SLICE
  {
    var q := m.requests[0];
    var virt := m.arrays[q.virtAddr][q.delivered].value;
    var done := q.delivered + 1 >= m.arrays[q.argsAddr][1].value;
    m.(arrays := m.arrays[q.resultsAddr := WithSlice(m.arrays[q.resultsAddr], SLICE * q.delivered, values)],
       qubits := m.qubits[virt := Qubit(Pair(q.number, q.delivered), [])],
       requests := if done then m.requests[1..] else [q.(delivered := q.delivered + 1)] + m.requests[1..])
  }

  // What the instructions do, one machine compared with the next.

  /** One register holds `v`, and the program counter is one further; nothing else differs. */
  predicate OnlyRegister(m: Machine, m': Machine, r: Register, v: int) {
    && m' == m.(pc := m.pc + 1, regs := m'.regs) && m'.regs.Keys == m.regs.Keys + {r} && m'.regs[r] == v
    && forall x :: x in m.regs && x != r ==> m'.regs[x] == m.regs[x]
  }

  /** One array entry holds `value`, and the program counter is one further; nothing else differs. */
  predicate OnlyEntry(m: Machine, m': Machine, addr: nat, i: int, value: Option<int>) {
    && m' == m.(pc := m.pc + 1, arrays := m'.arrays) && m'.arrays.Keys == m.arrays.Keys
    && (forall x :: x in m.arrays && x != addr ==> m'.arrays[x] == m.arrays[x])
    && addr in m.arrays && |m'.arrays[addr]| == |m.arrays[addr]| && 0 <= i < |m.arrays[addr]|
    && (forall j :: 0 <= j < |m.arrays[addr]| ==> m'.arrays[addr][j] == if j == i then value else m.arrays[addr][j])
  }

  /** A new array of undefined entries replaces what was at its address; nothing else differs. */
  predicate OnlyNewArray(m: Machine, m': Machine, addr: nat, size: int) {
    && m' == m.(pc := m.pc + 1, arrays := m'.arrays) && m'.arrays.Keys == m.arrays.Keys + {addr}
    && (forall x :: x in m.arrays && x != addr ==> m'.arrays[x] == m.arrays[x])
    && |m'.arrays[addr]| == size && forall j :: 0 <= j < size ==> m'.arrays[addr][j].None?
  }

  /** The qubit with virtual ID `virt` becomes `q`, or is gone; nothing else differs. */
  ghost predicate OnlyQubit(m: Machine, m': Machine, virt: int, q: Option<Qubit>) {
    && m' == m.(pc := m.pc + 1, qubits := m'.qubits)
    && (virt in m'.qubits <==> q.Some?) && (q.Some? ==> m'.qubits[virt] == q.value)
    && forall x :: x != virt ==>
         (x in m'.qubits <==> x in m.qubits) && (x in m.qubits ==> m'.qubits[x] == m.qubits[x])
  }

  /** The machine after an instruction, compared with the one before. */
  ghost predicate HasEffect(m: Machine, instr: Instruction, nature: Nature, m': Machine)
    requires CanExecute(m, instr)
  {
    match instr
    case Set(reg, imm) => OnlyRegister(m, m', reg, imm)
    case Add(out, a, b) => OnlyRegister(m, m', out, ValueOf(m, a) + ValueOf(m, b))
    case Load(reg, addr, entry) =>
      reg in m'.regs && OnlyRegister(m, m', reg, m'.regs[reg]) && m.arrays[addr][ValueOf(m, entry)] == Some(m'.regs[reg])
    case Store(source, addr, entry) => OnlyEntry(m, m', addr, ValueOf(m, entry), Some(ValueOf(m, source)))
    case Undef(addr, entry) => OnlyEntry(m, m', addr, ValueOf(m, entry), None)
    case ArrayInstr(size, addr) => OnlyNewArray(m, m', addr, ValueOf(m, size))
    case Jmp(target) => m' == m.(pc := target)
    case Beq(a, b, target) => m' == m.(pc := m'.pc) && m'.pc == if ValueOf(m, a) == ValueOf(m, b) then target else m.pc + 1
    case Rotate(qreg, rotation) =>
      var q := m.qubits[m.regs[qreg]];
      OnlyQubit(m, m', m.regs[qreg], Some(Qubit(q.pair, q.rotations + [rotation])))
    case Meas(qreg, creg) =>
      var q := m.qubits[m.regs[qreg]];
      OnlyRegister(m, m', creg, nature(q.pair, q.rotations))
    case QFree(qreg) => OnlyQubit(m, m', m.regs[qreg], None)
    case CreateEpr(virtAddr, argsAddr, resultsAddr) =>
      && m' == m.(pc := m.pc + 1, requests := m'.requests, issued := m.issued + 1)
      && m'.requests == if m.arrays[argsAddr][1].value <= 0 then m.requests
                        else m.requests + [Request(m.issued, virtAddr, argsAddr, resultsAddr, 0)]
    case WaitAll(_, _, _) => m' == m.(pc := m.pc + 1)
    case RetArr(_) => m' == m.(pc := m.pc + 1)
  }

  predicate IsClassical(instr: Instruction) {
    instr.ArrayInstr? || instr.Store? || instr.Load? || instr.Undef? || instr.Set? || instr.Add?
  }

  lemma ClassicalHasEffect(m: Machine, instr: Instruction, nature: Nature)
    requires CanExecute(m, instr) && IsClassical(instr)
    ensures HasEffect(m, instr, nature, Execute(m, instr, nature))
  {
  }

  lemma OtherHasEffect(m: Machine, instr: Instruction, nature: Nature)
    requires CanExecute(m, instr) && !IsClassical(instr)
    ensures HasEffect(m, instr, nature, Execute(m, instr, nature))
  {
  }

  /** The effect of every instruction that can be executed. */
  lemma ExecuteHasEffect(m: Machine, instr: Instruction, nature: Nature)
    requires CanExecute(m, instr)
    ensures HasEffect(m, instr, nature, Execute(m, instr, nature))
  {
    if IsClassical(instr) {
      ClassicalHasEffect(m, instr, nature);
    } else {
      OtherHasEffect(m, instr, nature);
    }
  }

  /** What is stored can be loaded, into any register and through any operand with that index. */
  lemma StoreThenLoad(m: Machine, source: Operand, addr: nat, entry: Operand, reg: Register, again: Operand, nature: Nature)
    requires CanExecute(m, Store(source, addr, entry)) && HasValue(m, again) && ValueOf(m, again) == ValueOf(m, entry)
    ensures var m1 := Execute(m, Store(source, addr, entry), nature);
            CanExecute(m1, Load(reg, addr, again))
            && var m2 := Execute(m1, Load(reg, addr, again), nature);
               reg in m2.regs && m2.regs[reg] == ValueOf(m, source) && m2.pc == m.pc + 2 && m2.arrays == m1.arrays
  {
    ExecuteHasEffect(m, Store(source, addr, entry), nature);
  }

  /** An entry that was undefined can neither be loaded, nor does a wait for it end. */
  lemma UndefThenBlocked(m: Machine, addr: nat, entry: Operand, reg: Register, again: Operand, start: Operand, end: Operand,
                         nature: Nature)
    requires CanExecute(m, Undef(addr, entry)) && HasValue(m, again) && ValueOf(m, again) == ValueOf(m, entry)
    requires HasValue(m, start) && HasValue(m, end) && ValueOf(m, start) <= ValueOf(m, entry) < ValueOf(m, end)
    ensures var m1 := Execute(m, Undef(addr, entry), nature);
            !CanExecute(m1, Load(reg, addr, again)) && !CanExecute(m1, WaitAll(addr, start, end))
  {
    ExecuteHasEffect(m, Undef(addr, entry), nature);
    var m1 := Execute(m, Undef(addr, entry), nature);
    assert m1.arrays[addr][ValueOf(m, entry)].None?;
  }

  /** A list of rotations of one qubit, one instruction after the other. */
  function RotateAll(m: Machine, qreg: Register, rotations: seq<Rotation>, nature: Nature): Machine
    requires HasQubit(m, qreg)
    decreases |rotations|
  {
    if rotations == [] then m
    else RotateAll(Execute(m, Rotate(qreg, rotations[0]), nature), qreg, rotations[1..], nature)
  }

  /** Rotations add up in their order, and a measurement then sees all of them. */
  lemma {:induction false} RotationsAddUp(m: Machine, qreg: Register, rotations: seq<Rotation>, creg: Register, nature: Nature)
    requires HasQubit(m, qreg)
    ensures var m' := RotateAll(m, qreg, rotations, nature);
            var q := m.qubits[m.regs[qreg]];
            && m' == m.(pc := m.pc + |rotations|, qubits := m.qubits[m.regs[qreg] := q.(rotations := q.rotations + rotations)])
            && CanExecute(m', Meas(qreg, creg))
            && Execute(m', Meas(qreg, creg), nature).regs == m.regs[creg := nature(q.pair, q.rotations + rotations)]
    decreases |rotations|
  {
    var virt := m.regs[qreg];
    var q := m.qubits[virt];
    if rotations == [] {
      assert q.rotations + [] == q.rotations && m.qubits[virt := q] == m.qubits;
    } else {
      var m1 := Execute(m, Rotate(qreg, rotations[0]), nature);
      RotationsAddUp(m1, qreg, rotations[1..], creg, nature);
      assert (q.rotations + [rotations[0]]) + rotations[1..] == q.rotations + rotations;
    }
  }

  /** A delivery writes exactly the slice of its pair, gives its qubit to the virtual ID that the
      application asked for, and moves on to the next pair, or drops the request after its last. */
  lemma DeliverHasEffect(m: Machine, values: seq<int>)
    requires CanDeliver(m) && |values| == SLICE
    ensures var m' := Deliver(m, values);
            var q, rest := m.requests[0], m.requests[1..];
            var virt := m.arrays[q.virtAddr][q.delivered].value;
            && m' == m.(arrays := m'.arrays, qubits := m'.qubits, requests := m'.requests)
            && OnlyQubit(m, m'.(pc := m.pc + 1, arrays := m.arrays, requests := m.requests), virt,
                         Some(Qubit(Pair(q.number, q.delivered), [])))
            && m'.arrays.Keys == m.arrays.Keys && (forall x :: x in m.arrays && x != q.resultsAddr ==> m'.arrays[x] == m.arrays[x])
            && |m'.arrays[q.resultsAddr]| == |m.arrays[q.resultsAddr]|
            && (forall j :: 0 <= j < |m.arrays[q.resultsAddr]| ==>
                  m'.arrays[q.resultsAddr][j] ==
                  var i := j - SLICE * q.delivered;
                  if 0 <= i < SLICE then Some(values[i]) else m.arrays[q.resultsAddr][j])
            && m'.requests == if q.delivered + 1 == m.arrays[q.argsAddr][1].value then rest
                              else [Request(q.number, q.virtAddr, q.argsAddr, q.resultsAddr, q.delivered + 1)] + rest
  {
  }

  /** The memory of a running application, and the processor that works on it. */
  class Interpreter {
    var pc: nat
    var regs: map<Register, int>
    var arrays: Arrays
    var qubits: map<int, Qubit>
    var requests: seq<Request>
    var issued: nat

    ghost function State(): Machine
      reads this
    {
      Machine(pc, regs, arrays, qubits, requests, issued)
    }

    constructor (regs: map<Register, int>, arrays: Arrays)
      ensures State() == Machine(0, regs, arrays, map[], [], 0)
    {
      pc, issued := 0, 0;
      this.regs, this.arrays := regs, arrays;
      qubits, requests := map[], [];
    }

    method GetValue(x: Operand) returns (v: int)
      requires HasValue(State(), x)
      ensures v == ValueOf(State(), x)
    {
      v := match x case Imm(i) => i case Reg(r) => regs[r];
    }

    method SetArrayEntry(addr: nat, entry: Operand, value: Option<int>)
      requires HasEntry(State(), addr, entry)
      modifies this
      ensures State() == SetEntry(old(State()), addr, ValueOf(old(State()), entry), value)
    {
      var i := GetValue(entry);
      arrays := arrays[addr := arrays[addr][i := value]];
    }

    /** Branch instructions set the program counter themselves. */
    method InterpretBranch(instr: Instruction, nature: Nature)
      requires CanExecute(State(), instr) && (instr.Jmp? || instr.Beq?)
      modifies this
      ensures State() == Execute(old(State()), instr, nature)
      ensures HasEffect(old(State()), instr, nature, State())
    {
      ExecuteHasEffect(State(), instr, nature);
      var condition := true;
      if instr.Beq? {
        var a := GetValue(instr.a);
        var b := GetValue(instr.b);
        condition := a == b;
      }
      pc := if condition then instr.target else pc + 1;
    }

    method InterpretClassical(instr: Instruction, nature: Nature)
      requires CanExecute(State(), instr)
      requires IsClassical(instr)
      modifies this
      ensures State() == Execute(old(State()), instr, nature)
      ensures HasEffect(old(State()), instr, nature, State())
    {
      ExecuteHasEffect(State(), instr, nature);
      match instr {
        case ArrayInstr(size, addr) =>
          var length := GetValue(size);
          arrays := arrays[addr := seq(length, _ => None)];
        case Store(source, addr, entry) =>
          var value := GetValue(source);
          SetArrayEntry(addr, entry, Some(value));
        case Load(reg, addr, entry) =>
          var i := GetValue(entry);
          regs := regs[reg := arrays[addr][i].value];
        case Undef(addr, entry) => SetArrayEntry(addr, entry, None);
        case Set(reg, imm) => regs := regs[reg := imm];
        case Add(out, _, _) =>
          var a := GetValue(instr.a);
          var b := GetValue(instr.b);
          regs := regs[out := a + b];
      }
      pc := pc + 1;
    }

    method InterpretQuantum(instr: Instruction, nature: Nature)
      requires CanExecute(State(), instr)
      requires instr.CreateEpr? || instr.WaitAll? || instr.Rotate? || instr.Meas? || instr.QFree? || instr.RetArr?
      modifies this
      ensures State() == Execute(old(State()), instr, nature)
      ensures HasEffect(old(State()), instr, nature, State())
    {
      ExecuteHasEffect(State(), instr, nature);
      match instr {
        case CreateEpr(virtAddr, argsAddr, resultsAddr) =>
          if arrays[argsAddr][1].value > 0 {
            requests := requests + [Request(issued, virtAddr, argsAddr, resultsAddr, 0)];
          }
          issued := issued + 1;
        case Rotate(qreg, rotation) =>
          var q := qubits[regs[qreg]];
          qubits := qubits[regs[qreg] := Qubit(q.pair, q.rotations + [rotation])];
        case Meas(qreg, creg) =>
          var q := qubits[regs[qreg]];
          regs := regs[creg := nature(q.pair, q.rotations)];
        case QFree(qreg) => qubits := qubits - {regs[qreg]};
        case WaitAll(_, _, _) =>
        case RetArr(_) =>
      }
      pc := pc + 1;
    }

    /** One round of the processor's loop over the program counter. */
    method InterpretInstruction(instr: Instruction, nature: Nature)
      requires CanExecute(State(), instr)
      modifies this
      ensures State() == Execute(old(State()), instr, nature)
      ensures HasEffect(old(State()), instr, nature, State())
    {
      ExecuteHasEffect(State(), instr, nature);
      match instr
      case Jmp(_) => InterpretBranch(instr, nature);
      case Beq(_, _, _) => InterpretBranch(instr, nature);
      case CreateEpr(_, _, _) => InterpretQuantum(instr, nature);
      case WaitAll(_, _, _) => InterpretQuantum(instr, nature);
      case Rotate(_, _) => InterpretQuantum(instr, nature);
      case Meas(_, _) => InterpretQuantum(instr, nature);
      case QFree(_) => InterpretQuantum(instr, nature);
      case RetArr(_) => InterpretQuantum(instr, nature);
      case _ => InterpretClassical(instr, nature);
    }
  }
}
