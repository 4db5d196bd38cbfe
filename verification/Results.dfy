/**
 The result array of an entanglement request: the network stack writes one slice per pair,
 and both ends can read the Bell state of every pair from it.
 */
module Results {
  import opened Options
  import Handshake

  /** What an array entry holds: a number, or a member of the Bell state enumeration. */
  datatype Stored = Number(value: int) | Member(value: int)

  /** Python's equality, given whether the enumeration's members are integers. */
  predicate Equal(x: Stored, y: Stored, membersAreInts: bool) {
    x == y || (membersAreInts && x.value == y.value)
  }

  /** Reading an entry asserts that it is an integer. */
  predicate IsReadable(x: Stored, membersAreInts: bool) {
    x.Number? || membersAreInts
  }

  /** Length of a slice, and the positions of the values that are not -1. They are constants of
      the NetQASM library. */
  datatype KeepLayout = KeepLayout(length: nat, goodness: nat, bellState: nat)

  datatype MeasureLayout = MeasureLayout(length: nat, outcome: nat, basis: nat, bellState: nat)

  datatype Measured = Measured(outcome: int, basis: int, bellState: int)

  /** The last assignment wins where two positions coincide. The creator stores the Bell state
      as it is, the receiver stores its number. */
  function KeepValue(layout: KeepLayout, isCreator: bool, i: nat, duration: int, bellState: int): Stored {
    if i == layout.bellState then (if isCreator then Member(bellState) else Number(bellState))
    else if i == layout.goodness then Number(duration)
    else Number(-1)
  }

  /** The first match wins where two positions coincide; both ends store numbers. */
  function MeasureValue(layout: MeasureLayout, i: nat, result: Measured): Stored {
    if i == layout.outcome then Number(result.outcome)
    else if i == layout.basis then Number(result.basis)
    else if i == layout.bellState then Number(result.bellState)
    else Number(-1)
  }

  /** The array index of position `i` in the slice of a pair. */
  function Entry(length: nat, pair: nat, i: nat): nat {
    length * pair + i
  }

  lemma {:induction false} SlicesFollow(length: nat, pair: nat, i: nat, pairs: nat)
    requires pair < pairs && i < length
    ensures Entry(length, pair, 0) <= Entry(length, pair, i) < Entry(length, pair, 0) + length
            == Entry(length, pair + 1, 0) <= Entry(length, pairs, 0)
  {
    MultiplyMonotone(length, pair + 1, pairs);
  }

  lemma MultiplyMonotone(length: nat, p: nat, q: nat)
    requires p <= q
    ensures length * p <= length * q
  {
  }

  /** Slices of different pairs do not overlap, and positions within a slice are distinct. */
  lemma SlicesAreDisjoint(length: nat, p: nat, i: nat, q: nat, j: nat)
    requires i < length && j < length && Entry(length, p, i) == Entry(length, q, j)
    ensures p == q && i == j
  {
    if p < q {
      SlicesFollow(length, p, i, q);
    } else if q < p {
      SlicesFollow(length, q, j, p);
    }
  }

  /** `value(p, i)` is what position `i` of pair `p` holds once the first `pairs` pairs are
      written; the rest of the array is as it was. */
  predicate Written(a: seq<Option<Stored>>, was: seq<Option<Stored>>, length: nat, value: (nat, nat) -> Stored, pairs: nat) {
    && |a| == |was| && Entry(length, pairs, 0) <= |a|
    && (forall k :: Entry(length, pairs, 0) <= k < |a| ==> a[k] == was[k])
    && forall p: nat, i: nat :: p < pairs && i < length && Entry(length, p, i) < |a| ==>
         a[Entry(length, p, i)] == Some(value(p, i))
  }

  /** Writing the next slice extends what is written. */
  lemma WrittenExtends(a: seq<Option<Stored>>, before: seq<Option<Stored>>, was: seq<Option<Stored>>,
                       length: nat, value: (nat, nat) -> Stored, pair: nat)
    requires Written(before, was, length, value, pair) && |a| == |before| && Entry(length, pair + 1, 0) <= |a|
    requires forall k :: 0 <= k < |a| && !(Entry(length, pair, 0) <= k < Entry(length, pair, 0) + length) ==> a[k] == before[k]
    requires forall i: nat :: i < length && Entry(length, pair, i) < |a| ==> a[Entry(length, pair, i)] == Some(value(pair, i))
    ensures Written(a, was, length, value, pair + 1)
  {
    forall p: nat, i: nat | p < pair + 1 && i < length && Entry(length, p, i) < |a|
      ensures a[Entry(length, p, i)] == Some(value(p, i))
    {
      if p < pair {
        SlicesFollow(length, p, i, pair);
      }
    }
    assert Entry(length, pair + 1, 0) == Entry(length, pair, 0) + length;
  }

  /** The slice of one kept pair. */
  method WriteKeepSlice(a: array<Option<Stored>>, layout: KeepLayout, isCreator: bool, pair: nat, duration: int, bellState: int)
    requires Entry(layout.length, pair, 0) + layout.length <= a.Length
    modifies a
    ensures forall i: nat :: i < layout.length && Entry(layout.length, pair, i) < a.Length ==>
              a[Entry(layout.length, pair, i)] == Some(KeepValue(layout, isCreator, i, duration, bellState))
    ensures forall k :: 0 <= k < a.Length && !(Entry(layout.length, pair, 0) <= k < Entry(layout.length, pair, 0) + layout.length)
              ==> a[k] == old(a[k])
  {
    ghost var start := Entry(layout.length, pair, 0);
    for i := 0 to layout.length
      invariant forall j: nat :: j < i ==> a[start + j] == Some(KeepValue(layout, isCreator, j, duration, bellState))
      invariant forall k :: 0 <= k < a.Length && !(start <= k < start + i) ==> a[k] == old(a[k])
    {
      var value := Number(-1);
      if i == layout.goodness {
        value := Number(duration);
      }
      if i == layout.bellState {
        value := if isCreator then Member(bellState) else Number(bellState);
      }
      a[layout.length * pair + i] := Some(value);
    }
    assert forall i: nat :: Entry(layout.length, pair, i) == start + i;
  }

  method WriteMeasureSlice(a: array<Option<Stored>>, layout: MeasureLayout, pair: nat, result: Measured)
    requires Entry(layout.length, pair, 0) + layout.length <= a.Length
    modifies a
    ensures forall i: nat :: i < layout.length && Entry(layout.length, pair, i) < a.Length ==>
              a[Entry(layout.length, pair, i)] == Some(MeasureValue(layout, i, result))
    ensures forall k :: 0 <= k < a.Length && !(Entry(layout.length, pair, 0) <= k < Entry(layout.length, pair, 0) + layout.length)
              ==> a[k] == old(a[k])
  {
    ghost var start := Entry(layout.length, pair, 0);
    for i := 0 to layout.length
      invariant forall j: nat :: j < i ==> a[start + j] == Some(MeasureValue(layout, j, result))
      invariant forall k :: 0 <= k < a.Length && !(start <= k < start + i) ==> a[k] == old(a[k])
    {
      var value := Number(-1);
      if i == layout.outcome {
        value := Number(result.outcome);
      } else if i == layout.basis {
        value := Number(result.basis);
      } else if i == layout.bellState {
        value := Number(result.bellState);
      }
      a[layout.length * pair + i] := Some(value);
    }
    assert forall i: nat :: Entry(layout.length, pair, i) == start + i;
  }

  function KeepValues(layout: KeepLayout, isCreator: bool, durations: seq<int>, bellStates: seq<int>): (nat, nat) -> Stored
    requires |durations| == |bellStates|
  {
    (p: nat, i: nat) => if p < |bellStates| then KeepValue(layout, isCreator, i, durations[p], bellStates[p]) else Number(-1)
  }

  function MeasureValues(layout: MeasureLayout, results: seq<Measured>): (nat, nat) -> Stored {
    (p: nat, i: nat) => if p < |results| then MeasureValue(layout, i, results[p]) else Number(-1)
  }

  /** Position `i` of the slice of pair `p` holds `value`. */
  predicate HasAt(a: seq<Option<Stored>>, length: nat, p: nat, i: nat, value: Stored) {
    length * p + i < |a| && a[length * p + i] == Some(value)
  }

  /** The slice of a kept pair, where its two meaningful positions are different: the time it
      took and its Bell state, and -1 everywhere else. */
  predicate KeepSlice(a: seq<Option<Stored>>, layout: KeepLayout, isCreator: bool, p: nat, duration: int, bellState: int) {
    layout.goodness != layout.bellState ==>
      && (layout.goodness < layout.length ==> HasAt(a, layout.length, p, layout.goodness, Number(duration)))
      && (layout.bellState < layout.length ==>
            HasAt(a, layout.length, p, layout.bellState, if isCreator then Member(bellState) else Number(bellState)))
      && forall i: nat | i < layout.length && i != layout.goodness && i != layout.bellState ::
           HasAt(a, layout.length, p, i, Number(-1))
  }

  predicate KeepSlices(a: seq<Option<Stored>>, layout: KeepLayout, isCreator: bool, durations: seq<int>, bellStates: seq<int>)
    requires |durations| == |bellStates|
  {
    forall p: nat | p < |bellStates| :: KeepSlice(a, layout, isCreator, p, durations[p], bellStates[p])
  }

  /** The slice of a measured pair, where its three meaningful positions are different: the
      outcome, the basis and the Bell state, and -1 everywhere else. */
  predicate MeasureSlice(a: seq<Option<Stored>>, layout: MeasureLayout, p: nat, result: Measured) {
    layout.outcome != layout.basis && layout.outcome != layout.bellState && layout.basis != layout.bellState ==>
      && (layout.outcome < layout.length ==> HasAt(a, layout.length, p, layout.outcome, Number(result.outcome)))
      && (layout.basis < layout.length ==> HasAt(a, layout.length, p, layout.basis, Number(result.basis)))
      && (layout.bellState < layout.length ==> HasAt(a, layout.length, p, layout.bellState, Number(result.bellState)))
      && forall i: nat | i < layout.length && i != layout.outcome && i != layout.basis && i != layout.bellState ::
           HasAt(a, layout.length, p, i, Number(-1))
  }

  predicate MeasureSlices(a: seq<Option<Stored>>, layout: MeasureLayout, results: seq<Measured>) {
    forall p: nat | p < |results| :: MeasureSlice(a, layout, p, results[p])
  }

  lemma WrittenAt(a: seq<Option<Stored>>, was: seq<Option<Stored>>, length: nat, value: (nat, nat) -> Stored, pairs: nat, p: nat, i: nat)
    requires Written(a, was, length, value, pairs) && p < pairs && i < length
    ensures HasAt(a, length, p, i, value(p, i))
  {
    SlicesFollow(length, p, i, pairs);
    assert a[Entry(length, p, i)] == Some(value(p, i));
  }

  /** Every value of every kept pair is in its place. */
  lemma {:induction false} KeepWritten(a: seq<Option<Stored>>, was: seq<Option<Stored>>, layout: KeepLayout, isCreator: bool,
                                       durations: seq<int>, bellStates: seq<int>)
    requires |durations| == |bellStates|
    requires Written(a, was, layout.length, KeepValues(layout, isCreator, durations, bellStates), |bellStates|)
    ensures KeepSlices(a, layout, isCreator, durations, bellStates)
  {
    forall p: nat | p < |bellStates|
      ensures KeepSlice(a, layout, isCreator, p, durations[p], bellStates[p])
    {
      forall i: nat | i < layout.length
        ensures HasAt(a, layout.length, p, i, KeepValue(layout, isCreator, i, durations[p], bellStates[p]))
      {
        WrittenAt(a, was, layout.length, KeepValues(layout, isCreator, durations, bellStates), |bellStates|, p, i);
      }
      KeepSliceIs(a, layout, isCreator, p, durations[p], bellStates[p]);
    }
  }

  lemma KeepSliceIs(a: seq<Option<Stored>>, layout: KeepLayout, isCreator: bool, p: nat, duration: int, bellState: int)
    requires forall i: nat | i < layout.length ::
               HasAt(a, layout.length, p, i, KeepValue(layout, isCreator, i, duration, bellState))
    ensures KeepSlice(a, layout, isCreator, p, duration, bellState)
  {
    assert KeepValue(layout, isCreator, layout.bellState, duration, bellState)
        == if isCreator then Member(bellState) else Number(bellState);
    if layout.goodness != layout.bellState {
      assert KeepValue(layout, isCreator, layout.goodness, duration, bellState) == Number(duration);
    }
    forall i: nat | i < layout.length && i != layout.goodness && i != layout.bellState
      ensures HasAt(a, layout.length, p, i, Number(-1))
    {
      assert KeepValue(layout, isCreator, i, duration, bellState) == Number(-1);
    }
  }

  /** Every value of every measured pair is in its place. */
  lemma {:induction false} MeasureWritten(a: seq<Option<Stored>>, was: seq<Option<Stored>>, layout: MeasureLayout, results: seq<Measured>)
    requires Written(a, was, layout.length, MeasureValues(layout, results), |results|)
    ensures MeasureSlices(a, layout, results)
  {
    forall p: nat | p < |results|
      ensures MeasureSlice(a, layout, p, results[p])
    {
      forall i: nat | i < layout.length
        ensures HasAt(a, layout.length, p, i, MeasureValue(layout, i, results[p]))
      {
        WrittenAt(a, was, layout.length, MeasureValues(layout, results), |results|, p, i);
      }
      MeasureSliceIs(a, layout, p, results[p]);
    }
  }

  lemma MeasureSliceIs(a: seq<Option<Stored>>, layout: MeasureLayout, p: nat, result: Measured)
    requires forall i: nat | i < layout.length :: HasAt(a, layout.length, p, i, MeasureValue(layout, i, result))
    ensures MeasureSlice(a, layout, p, result)
  {
    assert MeasureValue(layout, layout.outcome, result) == Number(result.outcome);
    if layout.basis != layout.outcome {
      assert MeasureValue(layout, layout.basis, result) == Number(result.basis);
      if layout.bellState != layout.outcome && layout.bellState != layout.basis {
        assert MeasureValue(layout, layout.bellState, result) == Number(result.bellState);
      }
    }
    forall i: nat | i < layout.length && i != layout.outcome && i != layout.basis && i != layout.bellState
      ensures HasAt(a, layout.length, p, i, Number(-1))
    {
      assert MeasureValue(layout, i, result) == Number(-1);
    }
  }

  /** A keep request at either end: one pair after the other. */
  method FulfilKeep(a: array<Option<Stored>>, layout: KeepLayout, isCreator: bool, durations: seq<int>, bellStates: seq<int>)
    requires |durations| == |bellStates| && Entry(layout.length, |bellStates|, 0) <= a.Length
    modifies a
    ensures Written(a[..], old(a[..]), layout.length, KeepValues(layout, isCreator, durations, bellStates), |bellStates|)
    ensures KeepSlices(a[..], layout, isCreator, durations, bellStates)
    ensures forall k :: layout.length * |bellStates| <= k < a.Length ==> a[k] == old(a[k])
  {
    ghost var value := KeepValues(layout, isCreator, durations, bellStates);
    for pair := 0 to |bellStates|
      invariant Written(a[..], old(a[..]), layout.length, value, pair)
    {
      MultiplyMonotone(layout.length, pair + 1, |bellStates|);
      ghost var before := a[..];
      WriteKeepSlice(a, layout, isCreator, pair, durations[pair], bellStates[pair]);
      WrittenExtends(a[..], before, old(a[..]), layout.length, value, pair);
    }
    KeepWritten(a[..], old(a[..]), layout, isCreator, durations, bellStates);
  }

  /** All measure-directly results are written after the last pair. */
  method FulfilMeasure(a: array<Option<Stored>>, layout: MeasureLayout, results: seq<Measured>)
    requires Entry(layout.length, |results|, 0) <= a.Length
    modifies a
    ensures Written(a[..], old(a[..]), layout.length, MeasureValues(layout, results), |results|)
    ensures MeasureSlices(a[..], layout, results)
    ensures forall k :: layout.length * |results| <= k < a.Length ==> a[k] == old(a[k])
  {
    ghost var value := MeasureValues(layout, results);
    for pair := 0 to |results|
      invariant Written(a[..], old(a[..]), layout.length, value, pair)
    {
      MultiplyMonotone(layout.length, pair + 1, |results|);
      ghost var before := a[..];
      WriteMeasureSlice(a, layout, pair, results[pair]);
      WrittenExtends(a[..], before, old(a[..]), layout.length, value, pair);
    }
    MeasureWritten(a[..], old(a[..]), layout, results);
  }

  /** Every entry of every pair's slice is defined, not just the meaningful ones. */
  lemma AllEntriesDefined(a: seq<Option<Stored>>, was: seq<Option<Stored>>, length: nat, value: (nat, nat) -> Stored, pairs: nat)
    requires Written(a, was, length, value, pairs)
    ensures forall k :: 0 <= k < Entry(length, pairs, 0) ==> a[k].Some?
  {
    forall k | 0 <= k < Entry(length, pairs, 0)
      ensures a[k].Some?
    {
      IndexIsEntry(length, k, pairs);
      assert a[Entry(length, k / length, k % length)] == Some(value(k / length, k % length));
    }
  }

  lemma {:induction false} IndexIsEntry(length: nat, k: nat, pairs: nat)
    requires k < Entry(length, pairs, 0)
    ensures length > 0 && k == Entry(length, k / length, k % length) && k / length < pairs
  {
    if k / length >= pairs {
      MultiplyMonotone(length, pairs, k / length);
    }
  }

  /** A run of all nodes that cannot go on. */
  ghost predicate IsFinishedRun(reqs: seq<Handshake.Request>, n: nat, steps: seq<Handshake.Step>, end: Handshake.Net) {
    && Handshake.ValidRequests(reqs, n) && Handshake.IsRun(reqs, Handshake.Initial(reqs, n), steps, end)
    && Handshake.Sized(reqs, end) && forall step :: !Handshake.Enabled(reqs, end, step)
  }

  /** The array of one end of a keep request, written with the labels that this end got in a
      run of all nodes; nothing is said about the other end. */
  ghost predicate HoldsKeptPairs(a: seq<Option<Stored>>, layout: KeepLayout, isCreator: bool, labels: seq<int>) {
    exists was, durations :: |durations| == |labels|
      && Written(a, was, layout.length, KeepValues(layout, isCreator, durations, labels), |labels|)
  }

  lemma LabelStored(a: seq<Option<Stored>>, layout: KeepLayout, isCreator: bool, labels: seq<int>, pair: nat)
    requires HoldsKeptPairs(a, layout, isCreator, labels) && pair < |labels| && layout.bellState < layout.length
    ensures var k := Entry(layout.length, pair, layout.bellState);
            k < |a| && a[k] == Some(if isCreator then Member(labels[pair]) else Number(labels[pair]))
  {
    var was, durations :| |durations| == |labels|
      && Written(a, was, layout.length, KeepValues(layout, isCreator, durations, labels), |labels|);
    SlicesFollow(layout.length, pair, layout.bellState, |labels|);
  }

  /** After any finished run, the arrays of the two ends of a keep request hold the same Bell
      state for every pair. The stored entries are equal exactly if the enumeration's members
      are integers, and only then can the creator's be read. */
  lemma BellStatesAgree(reqs: seq<Handshake.Request>, n: nat, steps: seq<Handshake.Step>, end: Handshake.Net, i: nat,
                        a: seq<Option<Stored>>, b: seq<Option<Stored>>, layout: KeepLayout, pair: nat, membersAreInts: bool)
    requires IsFinishedRun(reqs, n, steps, end) && i < |reqs| && pair < reqs[i].number && layout.bellState < layout.length
    requires HoldsKeptPairs(a, layout, true, Handshake.Results(end, reqs[i].creator, i))
    requires HoldsKeptPairs(b, layout, false, Handshake.Results(end, reqs[i].receiver, i))
    ensures var k := Entry(layout.length, pair, layout.bellState);
            && k < |a| && k < |b| && a[k].Some? && b[k].Some?
            && a[k].value.value == b[k].value.value
            && (Equal(a[k].value, b[k].value, membersAreInts) <==> membersAreInts)
            && (IsReadable(a[k].value, membersAreInts) <==> membersAreInts) && IsReadable(b[k].value, membersAreInts)
  {
    Handshake.EveryRunCompletes(reqs, n, steps, end);
    LabelStored(a, layout, true, Handshake.Results(end, reqs[i].creator, i), pair);
    LabelStored(b, layout, false, Handshake.Results(end, reqs[i].receiver, i), pair);
  }

  /** The array of one end of a measure-directly request. */
  ghost predicate HoldsMeasuredPairs(a: seq<Option<Stored>>, layout: MeasureLayout, labels: seq<int>) {
    exists was, results: seq<Measured> :: |results| == |labels|
      && (forall p :: 0 <= p < |labels| ==> results[p].bellState == labels[p])
      && Written(a, was, layout.length, MeasureValues(layout, results), |labels|)
  }

  lemma MeasuredLabelStored(a: seq<Option<Stored>>, layout: MeasureLayout, labels: seq<int>, pair: nat)
    requires HoldsMeasuredPairs(a, layout, labels) && pair < |labels|
    requires layout.bellState < layout.length && layout.bellState != layout.outcome && layout.bellState != layout.basis
    ensures var k := Entry(layout.length, pair, layout.bellState);
            k < |a| && a[k] == Some(Number(labels[pair]))
  {
    var was, results: seq<Measured> :| |results| == |labels|
      && (forall p :: 0 <= p < |labels| ==> results[p].bellState == labels[p])
      && Written(a, was, layout.length, MeasureValues(layout, results), |labels|);
    SlicesFollow(layout.length, pair, layout.bellState, |labels|);
  }

  /** The same for a measure-directly request, where both ends store numbers: the entries are
      equal. */
  lemma MeasuredBellStatesAgree(reqs: seq<Handshake.Request>, n: nat, steps: seq<Handshake.Step>, end: Handshake.Net, i: nat,
                                a: seq<Option<Stored>>, b: seq<Option<Stored>>, layout: MeasureLayout, pair: nat)
    requires IsFinishedRun(reqs, n, steps, end) && i < |reqs| && pair < reqs[i].number
    requires layout.bellState < layout.length && layout.bellState != layout.outcome && layout.bellState != layout.basis
    requires HoldsMeasuredPairs(a, layout, Handshake.Results(end, reqs[i].creator, i))
    requires HoldsMeasuredPairs(b, layout, Handshake.Results(end, reqs[i].receiver, i))
    ensures var k := Entry(layout.length, pair, layout.bellState);
            k < |a| && k < |b| && a[k].Some? && a[k] == b[k]
  {
    Handshake.EveryRunCompletes(reqs, n, steps, end);
    MeasuredLabelStored(a, layout, Handshake.Results(end, reqs[i].creator, i), pair);
    MeasuredLabelStored(b, layout, Handshake.Results(end, reqs[i].receiver, i), pair);
  }
}
