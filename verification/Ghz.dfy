/**
 GHZ creation along a line of nodes 0 .. n-1, as a state machine over the nodes' steps in any
 order. Node 0 is the start and node n-1 the end; the rest are in the middle.

 All gates are CNOT and X, so the joint state is an equal superposition of basis states and is
 given by its support. `data` holds each node's own qubit; a middle node also has a second
 qubit, `link`, for its half of the pair with the next node.
 */
module Ghz {
  datatype Basis = Basis(data: set<nat>, link: set<nat>)

  function Put(s: set<nat>, i: nat, v: bool): set<nat> {
    if v then s + {i} else s - {i}
  }

  /** Where a node is in its routine. */
  datatype Pc =
    | Begin        // nothing done yet
    | WaitHello    // waits for the next node's message
    | NeedDown     // its subroutine waits for the pair with the previous node
    | NeedUp       // its subroutine waits for the pair with the next node
    | Paired       // middle: has both pairs, CNOT not done
    | Cnoted       // middle: second qubit not measured
    | WaitCorr     // subroutine flushed, waits for the previous node's correction
    | Done
  {
    function Rank(): nat {
      match this
      case Begin => 0
      case WaitHello => 1
      case NeedDown => 2
      case NeedUp => 3
      case Paired => 4
      case Cnoted => 5
      case WaitCorr => 6
      case Done => 7
    }
  }

  /** `hello[i]`: node i's message to node i-1 is in transit. `corr[i]`: the correction for node i
      is in transit, with its value in `bit[i]`. `flipped`: nodes whose data qubit got an X.
      `m`: measurement outcomes. */
  datatype Line = Line(n: nat, pc: seq<Pc>, hello: set<nat>, corr: set<nat>, bit: set<nat>,
                       flipped: set<nat>, m: set<nat>, support: Basis -> bool)

  function Initial(n: nat): Line
    requires n >= 2
  {
    Line(n, seq(n, _ => Begin), {}, {}, {}, {}, {}, (b: Basis) => b == Basis({}, {}))
  }

  datatype Step =
    | Start(i: nat)                      // send "" to the previous node; the start only waits
    | Hello(i: nat)                      // receive "" from the next node
    | Pair(i: nat)                       // nodes i and i+1 get a pair
    | Cnot(i: nat)
    | Measure(i: nat, outcome: bool)
    | Correct(i: nat)                    // apply and forward the correction

  predicate Sized(s: Line) {
    s.n >= 2 && |s.pc| == s.n
  }

  predicate Enabled(s: Line, step: Step)
    requires Sized(s)
  {
    match step
    case Start(i) => i < s.n && s.pc[i].Begin?
    case Hello(i) => i + 1 < s.n && s.pc[i].WaitHello? && i + 1 in s.hello
    case Pair(i) => i + 1 < s.n && s.pc[i].NeedUp? && s.pc[i + 1].NeedDown?
    case Cnot(i) => i < s.n && s.pc[i].Paired?
    case Measure(i, _) => i < s.n && s.pc[i].Cnoted?
    case Correct(i) => i < s.n && s.pc[i].WaitCorr? && (i == 0 || i in s.corr)
  }

  function Next(s: Line, step: Step): Line
    requires Sized(s) && Enabled(s, step)
  {
    match step
    case Start(i) =>
      s.(pc := s.pc[i := if i + 1 < s.n then WaitHello else NeedDown],
         hello := if i == 0 then s.hello else s.hello + {i})
    case Hello(i) =>
      s.(pc := s.pc[i := if i == 0 then NeedUp else NeedDown], hello := s.hello - {i + 1})
    case Pair(i) =>
      s.(pc := s.pc[i := if i == 0 then WaitCorr else Paired]
                   [i + 1 := if i + 2 < s.n then NeedUp else WaitCorr],
         support := PairSupport(s.support, i))
    case Cnot(i) =>
      s.(pc := s.pc[i := Cnoted], support := CnotSupport(s.support, i))
    case Measure(i, outcome) =>
      s.(pc := s.pc[i := WaitCorr], m := Put(s.m, i, outcome), support := MeasureSupport(s.support, i, outcome))
    case Correct(i) =>
      var flip := i != 0 && i in s.bit;
      s.(pc := s.pc[i := Done],
         support := if flip then FlipSupport(s.support, i) else s.support,
         flipped := Put(s.flipped, i, flip),
         corr := if i + 1 < s.n then (s.corr - {i}) + {i + 1} else s.corr - {i},
         bit := if i + 1 < s.n then Put(s.bit, i + 1, flip != (i in s.m)) else s.bit)
  }

  /** Two fresh qubits, both |0>, become (|00> + |11>): the start uses its data qubit. */
  function PairSupport(f: Basis -> bool, i: nat): Basis -> bool {
    (b: Basis) =>
      if i == 0 then
        (0 in b.data) == (1 in b.data) && f(Basis(b.data - {0, 1}, b.link))
      else
        (i in b.link) == (i + 1 in b.data) && f(Basis(b.data - {i + 1}, b.link - {i}))
  }

  function CnotSupport(f: Basis -> bool, i: nat): Basis -> bool {
    (b: Basis) => f(b.(link := Put(b.link, i, (i in b.link) != (i in b.data))))
  }

  function MeasureSupport(f: Basis -> bool, i: nat, outcome: bool): Basis -> bool {
    (b: Basis) => (i in b.link) == outcome && f(b)
  }

  function FlipSupport(f: Basis -> bool, i: nat): Basis -> bool {
    (b: Basis) => f(b.(data := Put(b.data, i, i !in b.data)))
  }

  // The invariant.

  /** The bit that node i's data qubit has apart from the correction. */
  ghost predicate Raw(s: Line, b: Basis, i: nat) {
    (i in b.data) != (i in s.flipped)
  }

  /** What the support says about node i. */
  ghost predicate At(s: Line, b: Basis, i: nat)
    requires Sized(s) && i < s.n
  {
    var rank := s.pc[i].Rank();
    && (i in b.data ==> if i == 0 then rank >= 6 else rank >= 3)
    && (if i == 0 then 0 !in b.link && (rank >= 6 ==> Raw(s, b, 0) == Raw(s, b, 1))
        else if i + 1 == s.n || rank < 4 then i !in b.link
        else if rank == 4 then (i in b.link) == Raw(s, b, i + 1)
        else (i in b.link) == (Raw(s, b, i) != Raw(s, b, i + 1)) && (rank >= 6 ==> (i in b.link) == (i in s.m)))
  }

  ghost predicate Bounded(ids: set<nat>, n: nat) {
    forall i :: i in ids ==> i < n
  }

  /** The basis states that the program points and the outcomes allow. */
  ghost predicate Consistent(s: Line, b: Basis)
    requires Sized(s)
  {
    && Bounded(b.data, s.n) && Bounded(b.link, s.n)
    && forall i: nat :: i < s.n ==> At(s, b, i)
  }

  /** Xor of the outcomes of nodes 1 .. i-1. */
  predicate Prefix(m: set<nat>, i: nat) {
    if i <= 1 then false else Prefix(m, i - 1) != (i - 1 in m)
  }

  /** Messages and corrections of node i. */
  ghost predicate Node(s: Line, i: nat)
    requires Sized(s) && i < s.n
  {
    && Role(s, i)
    && (i in s.hello <==> 0 < i && s.pc[i].Rank() >= 1 && s.pc[i - 1].Rank() <= 1)
    && (i in s.corr <==> 0 < i && s.pc[i - 1].Done? && !s.pc[i].Done?)
    && (0 < i && s.pc[i].Done? ==> s.pc[i - 1].Done?)
    && (0 < i && s.pc[i - 1].Done? ==> (i in s.bit) == Prefix(s.m, i))
    && (i in s.flipped <==> s.pc[i].Done? && Prefix(s.m, i))
    && (i in s.m ==> 0 < i && i + 1 < s.n && s.pc[i].Rank() >= 6)
  }

  ghost predicate Protocol(s: Line)
    requires Sized(s)
  {
    Bounded(s.m, s.n) && forall i: nat :: i < s.n ==> Node(s, i)
  }

  /** Which program points node i can be at, and how they fit those of the next node. */
  ghost predicate Role(s: Line, i: nat)
    requires Sized(s) && i < s.n
  {
    && (i == 0 ==> s.pc[i] !in {NeedDown, Paired, Cnoted})
    && (i + 1 == s.n ==> s.pc[i] !in {WaitHello, NeedUp, Paired, Cnoted})
    && (i + 1 < s.n ==> (s.pc[i].Rank() >= 4 <==> s.pc[i + 1].Rank() >= 3))
    && (i + 1 < s.n && s.pc[i].Rank() >= 2 ==> s.pc[i + 1].Rank() >= 1)
  }

  ghost predicate Inv(s: Line) {
    Sized(s) && Protocol(s) && forall b: Basis :: s.support(b) <==> Consistent(s, b)
  }

  lemma InitialInv(n: nat)
    requires n >= 2
    ensures Inv(Initial(n))
  {
    var s := Initial(n);
    forall b: Basis ensures s.support(b) <==> Consistent(s, b) {
      if Consistent(s, b) {
        assert forall i | i in b.data :: At(s, b, i);
        assert forall i | i in b.link :: At(s, b, i);
        assert b == Basis({}, {});
      }
    }
  }

  lemma {:induction false} PrefixIgnoresLater(m: set<nat>, i: nat, j: nat, v: bool)
    requires i <= j
    ensures Prefix(Put(m, j, v), i) == Prefix(m, i)
  {
    if i > 1 {
      PrefixIgnoresLater(m, i - 1, j, v);
    }
  }

  lemma {:induction false} DoneBelow(s: Line, i: nat, j: nat)
    requires Sized(s) && Protocol(s) && i <= j < s.n && s.pc[j].Done?
    ensures s.pc[i].Done?
  {
    if i < j {
      assert Node(s, j);
      DoneBelow(s, i, j - 1);
    }
  }

  lemma StartKept(s: Line, i: nat, j: nat)
    requires Sized(s) && Protocol(s) && Enabled(s, Start(i)) && j < s.n
    ensures Node(Next(s, Start(i)), j)
  {
    assert Node(s, i) && Node(s, j);
    if 0 < j { assert Node(s, j - 1); }
    if j + 1 < s.n { assert Node(s, j + 1); }
  }

  lemma HelloKept(s: Line, i: nat, j: nat)
    requires Sized(s) && Protocol(s) && Enabled(s, Hello(i)) && j < s.n
    ensures Node(Next(s, Hello(i)), j)
  {
    assert Node(s, i) && Node(s, j);
    if 0 < j { assert Node(s, j - 1); }
    if j + 1 < s.n { assert Node(s, j + 1); }
  }

  lemma PairKept(s: Line, i: nat, j: nat)
    requires Sized(s) && Protocol(s) && Enabled(s, Pair(i)) && j < s.n
    ensures Node(Next(s, Pair(i)), j)
  {
    assert Node(s, i) && Node(s, j);
    if 0 < j { assert Node(s, j - 1); }
    if j + 1 < s.n { assert Node(s, j + 1); }
  }

  lemma CnotKept(s: Line, i: nat, j: nat)
    requires Sized(s) && Protocol(s) && Enabled(s, Cnot(i)) && j < s.n
    ensures Node(Next(s, Cnot(i)), j)
  {
    assert Node(s, i) && Node(s, j);
    if 0 < j { assert Node(s, j - 1); }
    if j + 1 < s.n { assert Node(s, j + 1); }
  }

  lemma MeasureKept(s: Line, i: nat, outcome: bool, j: nat)
    requires Sized(s) && Protocol(s) && Enabled(s, Measure(i, outcome)) && j < s.n
    ensures Node(Next(s, Measure(i, outcome)), j)
  {
    assert Node(s, i) && Node(s, j);
    if i < j {
      if s.pc[j - 1].Done? { DoneBelow(s, i, j - 1); }
      if s.pc[j].Done? { DoneBelow(s, i, j); }
    } else {
      PrefixIgnoresLater(s.m, j, i, outcome);
    }
  }

  lemma CorrectKept(s: Line, i: nat, j: nat)
    requires Sized(s) && Protocol(s) && Enabled(s, Correct(i)) && j < s.n
    ensures Node(Next(s, Correct(i)), j)
  {
    assert Node(s, i) && Node(s, j);
    if 0 < j { assert Node(s, j - 1); }
    if j + 1 < s.n { assert Node(s, j + 1); }
  }

  // The support stays exactly what the program points and outcomes say.

  lemma BoundedPut(ids: set<nat>, n: nat, i: nat, v: bool)
    requires i < n
    ensures Bounded(ids, n) <==> Bounded(Put(ids, i, v), n)
  {
    var ids' := Put(ids, i, v);
    assert forall j :: j in ids ==> j in ids' || j == i;
    assert forall j :: j in ids' ==> j in ids || j == i;
  }

  lemma PairSupported(s: Line, i: nat, b: Basis)
    requires Inv(s) && Enabled(s, Pair(i))
    ensures Next(s, Pair(i)).support(b) <==> Consistent(Next(s, Pair(i)), b)
  {
    var s' := Next(s, Pair(i));
    var b' := if i == 0 then Basis(b.data - {0, 1}, b.link) else Basis(b.data - {i + 1}, b.link - {i});
    var equal := if i == 0 then (0 in b.data) == (1 in b.data) else (i in b.link) == (i + 1 in b.data);
    assert Node(s, i) && Node(s, i + 1);
    forall j: nat | j < s.n && j != i ensures At(s, b', j) <==> At(s', b, j) {
      assert Node(s, j);
    }
    assert At(s', b, i) <==> equal && At(s, b', i);
    assert forall j :: j in b.data ==> j in b'.data || j == i || j == i + 1;
    assert forall j :: j in b.link ==> j in b'.link || j == i;
    assert Bounded(b.data, s.n) <==> Bounded(b'.data, s.n);
    assert Bounded(b.link, s.n) <==> Bounded(b'.link, s.n);
  }

  lemma CnotSupported(s: Line, i: nat, b: Basis)
    requires Inv(s) && Enabled(s, Cnot(i))
    ensures Next(s, Cnot(i)).support(b) <==> Consistent(Next(s, Cnot(i)), b)
  {
    var s' := Next(s, Cnot(i));
    var b' := b.(link := Put(b.link, i, (i in b.link) != (i in b.data)));
    assert Node(s, i);
    forall j: nat | j < s.n ensures At(s, b', j) <==> At(s', b, j) {
      assert Node(s, j);
    }
    BoundedPut(b.link, s.n, i, (i in b.link) != (i in b.data));
  }

  lemma MeasureSupported(s: Line, i: nat, outcome: bool, b: Basis)
    requires Inv(s) && Enabled(s, Measure(i, outcome))
    ensures Next(s, Measure(i, outcome)).support(b) <==> Consistent(Next(s, Measure(i, outcome)), b)
  {
    var s' := Next(s, Measure(i, outcome));
    assert Node(s, i);
    forall j: nat | j < s.n && j != i ensures At(s, b, j) <==> At(s', b, j) {
      assert Node(s, j);
    }
    assert At(s', b, i) <==> (i in b.link) == outcome && At(s, b, i);
  }

  lemma CorrectSupported(s: Line, i: nat, b: Basis)
    requires Inv(s) && Enabled(s, Correct(i))
    ensures Next(s, Correct(i)).support(b) <==> Consistent(Next(s, Correct(i)), b)
  {
    var s' := Next(s, Correct(i));
    var flip := i != 0 && i in s.bit;
    var b' := if flip then b.(data := Put(b.data, i, i !in b.data)) else b;
    assert Node(s, i);
    assert forall j :: Raw(s', b, j) == Raw(s, b', j);
    forall j: nat | j < s.n ensures At(s, b', j) <==> At(s', b, j) {
      assert Node(s, j);
    }
    BoundedPut(b.data, s.n, i, i !in b.data);
  }

  lemma StepKeepsInv(s: Line, step: Step)
    requires Inv(s) && Enabled(s, step)
    ensures Inv(Next(s, step))
  {
    var s' := Next(s, step);
    forall j: nat | j < s.n ensures Node(s', j) {
      match step
      case Start(i) => StartKept(s, i, j);
      case Hello(i) => HelloKept(s, i, j);
      case Pair(i) => PairKept(s, i, j);
      case Cnot(i) => CnotKept(s, i, j);
      case Measure(i, v) => MeasureKept(s, i, v, j);
      case Correct(i) => CorrectKept(s, i, j);
    }
    forall b: Basis ensures s'.support(b) <==> Consistent(s', b) {
      match step
      case Start(i) => assert forall j: nat :: j < s.n ==> (At(s, b, j) <==> At(s', b, j));
      case Hello(i) => assert forall j: nat :: j < s.n ==> (At(s, b, j) <==> At(s', b, j));
      case Pair(i) => PairSupported(s, i, b);
      case Cnot(i) => CnotSupported(s, i, b);
      case Measure(i, v) => MeasureSupported(s, i, v, b);
      case Correct(i) => CorrectSupported(s, i, b);
    }
  }

  // Results.

  ghost predicate AllDone(s: Line) {
    Sized(s) && forall i: nat :: i < s.n ==> s.pc[i].Done?
  }

  /** Every node has flushed its subroutine and nobody has applied a correction: where the
      routine ends when corrections are not asked for. */
  ghost predicate AllFlushed(s: Line) {
    Sized(s) && forall i: nat :: i < s.n ==> s.pc[i].WaitCorr?
  }

  /** Neighbouring qubits differ by the lower node's outcome. */
  lemma NeighboursDiffer(s: Line, b: Basis, i: nat)
    requires Inv(s) && s.support(b) && i + 1 < s.n && s.pc[i].Rank() >= 6
    ensures Raw(s, b, i + 1) == (Raw(s, b, i) != (i in s.m))
  {
    assert At(s, b, i) && Node(s, i);
  }

  lemma {:induction false} RawIsPrefix(s: Line, b: Basis, i: nat)
    requires Inv(s) && s.support(b) && i < s.n
    requires forall j: nat :: j < s.n ==> s.pc[j].Rank() >= 6
    ensures Raw(s, b, i) == (Raw(s, b, 0) != Prefix(s.m, i))
  {
    if i > 0 {
      RawIsPrefix(s, b, i - 1);
      NeighboursDiffer(s, b, i - 1);
      assert Node(s, i - 1);
    }
  }

  /** Without corrections the state is the two complementary basis states in which node i+1's
      qubit differs from node i's by the outcome that node i returns. */
  lemma UncorrectedState(s: Line, b: Basis)
    requires Inv(s) && AllFlushed(s)
    ensures s.support(b) <==>
            && Bounded(b.data, s.n) && b.link == s.m
            && forall i: nat :: i + 1 < s.n ==> ((i + 1 in b.data) == ((i in b.data) != (i in s.m)))
  {
    forall i: nat | i < s.n ensures i !in s.flipped { assert Node(s, i); }
    if s.support(b) {
      forall i: nat | i + 1 < s.n ensures (i + 1 in b.data) == ((i in b.data) != (i in s.m)) {
        NeighboursDiffer(s, b, i);
      }
      LinkIsOutcome(s, b);
    }
    if Bounded(b.data, s.n) && b.link == s.m && forall i: nat :: i + 1 < s.n ==> ((i + 1 in b.data) == ((i in b.data) != (i in s.m))) {
      forall i: nat | i < s.n ensures At(s, b, i) {
        assert Node(s, i);
      }
    }
  }

  /** The measured qubits are in the states that the outcomes say. */
  lemma LinkIsOutcome(s: Line, b: Basis)
    requires Inv(s) && s.support(b) && forall j: nat :: j < s.n ==> s.pc[j].Rank() >= 6
    ensures b.link == s.m
  {
    forall i | i in b.link || i in s.m ensures i in b.link && i in s.m {
      if i < s.n {
        assert At(s, b, i) && Node(s, i);
      }
    }
  }

  ghost predicate AllOnes(ids: set<nat>, n: nat) {
    forall i: nat :: i in ids <==> i < n
  }

  /** With corrections, whatever the outcomes were, the data qubits end in exactly
      |0...0> + |1...1>. */
  lemma CorrectedState(s: Line, b: Basis)
    requires Inv(s) && AllDone(s)
    ensures s.support(b) <==> b.link == s.m && (b.data == {} || AllOnes(b.data, s.n))
  {
    if s.support(b) {
      LinkIsOutcome(s, b);
      forall i: nat | i < s.n ensures (i in b.data) == (0 in b.data) {
        RawIsPrefix(s, b, i);
        assert Node(s, i) && Node(s, 0);
      }
    }
    if b.link == s.m && (b.data == {} || AllOnes(b.data, s.n)) {
      forall i: nat | i < s.n ensures At(s, b, i) {
        assert Node(s, i);
        if i + 1 < s.n { assert Node(s, i + 1); }
      }
    }
  }

  /** The correction that node i forwards or has received is the xor of all outcomes below it. */
  lemma ForwardedCorrection(s: Line, i: nat)
    requires Inv(s) && i < s.n && i in s.corr
    ensures (i in s.bit) == Prefix(s.m, i)
  {
    assert Node(s, i);
  }

  /** As long as some node has not flushed its subroutine, a step other than a correction is
      possible. */
  lemma UnflushedStepEnabled(s: Line, i: nat) returns (step: Step)
    requires Inv(s) && i < s.n && s.pc[i].Rank() < 6
    ensures Enabled(s, step) && !step.Correct?
  {
    forall i: nat | i < s.n ensures Node(s, i) {}
    if i: nat :| i < s.n && s.pc[i].Begin? {
      return Start(i);
    }
    if i: nat :| i < s.n && s.pc[i].WaitHello? {
      assert Node(s, i) && Node(s, i + 1);
      return Hello(i);
    }
    if i: nat :| i < s.n && s.pc[i].Paired? {
      return Cnot(i);
    }
    if i: nat :| i < s.n && s.pc[i].Cnoted? {
      return Measure(i, false);
    }
    step := LowestUnpaired(s, i);
  }

  /** Nobody waits forever: unless every node is done, some step is possible. */
  lemma SomeStepEnabled(s: Line) returns (step: Step)
    requires Inv(s) && !AllDone(s)
    ensures Enabled(s, step)
  {
    if i: nat :| i < s.n && s.pc[i].Rank() < 6 {
      step := UnflushedStepEnabled(s, i);
    } else {
      var i: nat :| i < s.n && !s.pc[i].Done?;
      step := LowestUncorrected(s, i);
    }
  }

  /** The lowest node that still waits for a pair can get it. */
  lemma LowestUnpaired(s: Line, i: nat) returns (step: Step)
    requires Inv(s) && i < s.n && s.pc[i].Rank() < 4
    requires forall j: nat :: j < s.n ==> s.pc[j].Rank() in {2, 3, 6, 7}
    ensures Enabled(s, step) && !step.Correct?
    decreases i
  {
    assert Node(s, i);
    if i > 0 && s.pc[i - 1].Rank() < 4 {
      step := LowestUnpaired(s, i - 1);
    } else {
      if i > 0 { assert Node(s, i - 1); }
      assert s.pc[i].NeedUp?;
      step := Pair(i);
    }
  }

  /** The lowest node that is not done has its correction waiting. */
  lemma LowestUncorrected(s: Line, i: nat) returns (step: Step)
    requires Inv(s) && i < s.n && !s.pc[i].Done?
    requires forall j: nat :: j < s.n ==> s.pc[j].Rank() >= 6
    ensures Enabled(s, step)
    decreases i
  {
    assert Node(s, i);
    if i > 0 && !s.pc[i - 1].Done? {
      step := LowestUncorrected(s, i - 1);
    } else {
      step := Correct(i);
    }
  }

  /** Program points still ahead, summed over the nodes. */
  function Remaining(pc: seq<Pc>): nat {
    if pc == [] then 0 else Remaining(pc[..|pc| - 1]) + 7 - pc[|pc| - 1].Rank()
  }

  lemma {:induction false} RemainingDrops(pc: seq<Pc>, i: nat, to: Pc)
    requires i < |pc| && pc[i].Rank() < to.Rank()
    ensures Remaining(pc[i := to]) < Remaining(pc)
  {
    var last := |pc| - 1;
    if i < last {
      assert pc[i := to][..last] == pc[..last][i := to];
      RemainingDrops(pc[..last], i, to);
    } else {
      assert pc[i := to][..last] == pc[..last];
    }
  }

  lemma StepAdvances(s: Line, step: Step)
    requires Inv(s) && Enabled(s, step)
    ensures Remaining(Next(s, step).pc) < Remaining(s.pc)
  {
    assert Node(s, step.i);
    RemainingDrops(s.pc, step.i, Next(s, step).pc[step.i]);
    if step.Pair? {
      var i := step.i;
      RemainingDrops(s.pc[i := Next(s, step).pc[i]], i + 1, Next(s, step).pc[i + 1]);
    }
  }

  // Whole runs.

  ghost predicate IsRun(s: Line, steps: seq<Step>, end: Line)
    requires Sized(s)
    decreases |steps|
  {
    if steps == [] then s == end
    else Enabled(s, steps[0]) && IsRun(Next(s, steps[0]), steps[1..], end)
  }

  lemma {:induction false} RunKeepsInv(s: Line, steps: seq<Step>, end: Line)
    requires Inv(s) && IsRun(s, steps, end)
    ensures Inv(end) && end.n == s.n && |steps| + Remaining(end.pc) <= Remaining(s.pc)
    decreases |steps|
  {
    if steps != [] {
      StepKeepsInv(s, steps[0]);
      StepAdvances(s, steps[0]);
      RunKeepsInv(Next(s, steps[0]), steps[1..], end);
    }
  }

  /** Every run, in whatever order the nodes take their steps and whatever the outcomes are, is
      finite; one that cannot go on has ended with every node done and the GHZ state. */
  lemma {:induction false} EveryRunCreatesGhz(n: nat, steps: seq<Step>, end: Line)
    requires n >= 2 && IsRun(Initial(n), steps, end)
    ensures |steps| <= Remaining(Initial(n).pc)
    ensures Sized(end) && end.n == n
    ensures (forall step :: !Enabled(end, step)) ==>
            AllDone(end) &&
            forall b: Basis :: end.support(b) <==> b.link == end.m && (b.data == {} || AllOnes(b.data, n))
  {
    InitialInv(n);
    RunKeepsInv(Initial(n), steps, end);
    if forall step :: !Enabled(end, step) {
      if !AllDone(end) {
        var step := SomeStepEnabled(end);
        assert false;
      }
      forall b: Basis { CorrectedState(end, b); }
    }
  }

  predicate WithoutCorrections(steps: seq<Step>) {
    forall k :: 0 <= k < |steps| ==> !steps[k].Correct?
  }

  lemma {:induction false} NobodyCorrected(s: Line, steps: seq<Step>, end: Line)
    requires Inv(s) && IsRun(s, steps, end) && WithoutCorrections(steps)
    requires forall i: nat :: i < s.n ==> !s.pc[i].Done?
    ensures Sized(end) && forall i: nat :: i < end.n ==> !end.pc[i].Done?
    decreases |steps|
  {
    if steps != [] {
      StepKeepsInv(s, steps[0]);
      NobodyCorrected(Next(s, steps[0]), steps[1..], end);
    }
  }

  /** Without corrections: a run that can only go on by correcting has every node flushed, and
      its state is the superposition of the two bit strings that the outcomes tell. */
  lemma {:induction false} EveryUncorrectedRunFlushes(n: nat, steps: seq<Step>, end: Line)
    requires n >= 2 && IsRun(Initial(n), steps, end) && WithoutCorrections(steps)
    ensures Sized(end) && end.n == n
    ensures (forall step :: Enabled(end, step) ==> step.Correct?) ==>
            AllFlushed(end) &&
            forall b: Basis :: end.support(b) <==>
              && Bounded(b.data, n) && b.link == end.m
              && forall i: nat :: i + 1 < n ==> ((i + 1 in b.data) == ((i in b.data) != (i in end.m)))
  {
    InitialInv(n);
    RunKeepsInv(Initial(n), steps, end);
    NobodyCorrected(Initial(n), steps, end);
    if forall step :: Enabled(end, step) ==> step.Correct? {
      if i: nat :| i < n && end.pc[i].Rank() < 6 {
        var step := UnflushedStepEnabled(end, i);
        assert false;
      }
      forall b: Basis { UncorrectedState(end, b); }
    }
  }
}
