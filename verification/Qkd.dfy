/** Sifting and error estimation of the key distribution routine, at both ends. */
module Qkd {
  import opened Options

  /** What a node knows about one pair; the optional parts are filled in step by step. */
  datatype PairInfo = PairInfo(index: nat, basis: nat, outcome: nat, sameBasis: Option<bool>,
                               testOutcome: Option<bool>, sameOutcome: Option<bool>)

  predicate Numbered(pairs: seq<PairInfo>) {
    forall i :: 0 <= i < |pairs| ==> pairs[i].index == i
  }

  /** The parts of a pair that the measurement fixed. */
  predicate SameMeasurements(a: seq<PairInfo>, b: seq<PairInfo>) {
    |a| == |b| && forall i :: 0 <= i < |a| ==>
                    a[i].index == b[i].index && a[i].basis == b[i].basis && a[i].outcome == b[i].outcome
  }

  function Bases(pairs: seq<PairInfo>): seq<(nat, nat)> {
    seq(|pairs|, i requires 0 <= i < |pairs| => (i, pairs[i].basis))
  }

  predicate IsOptTrue(x: Option<bool>) {
    x == Some(true)
  }

  /** Marks the pairs that both nodes measured in the same basis. */
  method FilterBases(pairs: array<PairInfo>, remoteBases: seq<(nat, nat)>)
    requires |remoteBases| == pairs.Length && forall i :: 0 <= i < |remoteBases| ==> remoteBases[i].0 == i
    modifies pairs
    ensures SameMeasurements(pairs[..], old(pairs[..]))
    ensures forall i :: 0 <= i < pairs.Length ==> pairs[i].sameBasis == Some(pairs[i].basis == remoteBases[i].1)
  {
    for i := 0 to pairs.Length
      invariant SameMeasurements(pairs[..], old(pairs[..]))
      invariant forall j :: 0 <= j < i ==> pairs[j].sameBasis == Some(pairs[j].basis == remoteBases[j].1)
    {
      pairs[i] := pairs[i].(sameBasis := Some(pairs[i].basis == remoteBases[i].1));
    }
  }

  /** The pairs with equal bases, which the initiator samples its tests from. */
  function SameBasisSet(pairs: seq<PairInfo>): set<nat> {
    set i: nat | i < |pairs| && IsOptTrue(pairs[i].sameBasis)
  }

  function Min(a: nat, b: nat): nat {
    if a < b then a else b
  }

  ghost predicate IsSample(sample: seq<nat>, population: set<nat>, size: nat) {
    |sample| == size && Distinct(sample) && Elements(sample) <= population
  }

  method MarkTests(pairs: array<PairInfo>, testIndices: seq<nat>)
    requires Numbered(pairs[..])
    modifies pairs
    ensures SameMeasurements(pairs[..], old(pairs[..])) && Numbered(pairs[..])
    ensures forall i :: 0 <= i < pairs.Length ==>
              pairs[i].testOutcome == Some(i in testIndices) && pairs[i].sameBasis == old(pairs[i].sameBasis)
  {
    for i := 0 to pairs.Length
      invariant SameMeasurements(pairs[..], old(pairs[..]))
      invariant forall j :: 0 <= j < pairs.Length ==> pairs[j].sameBasis == old(pairs[j].sameBasis)
      invariant forall j :: 0 <= j < i ==> pairs[j].testOutcome == Some(j in testIndices)
    {
      assert pairs[..][i].index == i;
      pairs[i] := pairs[i].(testOutcome := Some(pairs[i].index in testIndices));
    }
  }

  function TestOutcomes(pairs: seq<PairInfo>, testIndices: seq<nat>): seq<(nat, nat)>
    requires forall i :: 0 <= i < |testIndices| ==> testIndices[i] < |pairs|
  {
    seq(|testIndices|, k requires 0 <= k < |testIndices| => (testIndices[k], pairs[testIndices[k]].outcome))
  }

  function DropLast<T>(s: seq<T>): seq<T>
    requires s != []
  {
    s[..|s| - 1]
  }

  function Last<T>(s: seq<T>): T
    requires s != []
  {
    s[|s| - 1]
  }

  /** How many entries of two lists of test outcomes differ. */
  function Differences(own: seq<(nat, nat)>, remote: seq<(nat, nat)>): nat
    requires |own| == |remote|
  {
    if own == [] then 0
    else Differences(DropLast(own), DropLast(remote)) + if Last(own).1 != Last(remote).1 then 1 else 0
  }

  lemma {:induction false} DifferencesSymmetric(own: seq<(nat, nat)>, remote: seq<(nat, nat)>)
    requires |own| == |remote|
    ensures Differences(own, remote) == Differences(remote, own) <= |own|
  {
    if own != [] {
      DifferencesSymmetric(DropLast(own), DropLast(remote));
    }
  }

  predicate IndicesDiffer(tests: seq<(nat, nat)>) {
    forall k, l :: 0 <= k < l < |tests| ==> tests[k].0 != tests[l].0
  }

  /** The first `n` tests are compared: their pairs are marked by whether the outcomes are
      equal, and no other pair is marked anew. */
  predicate Compared(pairs: seq<PairInfo>, was: seq<PairInfo>, own: seq<(nat, nat)>, remote: seq<(nat, nat)>, n: nat)
    requires n <= |own| == |remote| && |pairs| == |was|
  {
    && (forall k :: 0 <= k < n ==> own[k].0 < |pairs| && pairs[own[k].0].sameOutcome == Some(own[k].1 == remote[k].1))
    && forall i: nat | i < |pairs| && i !in TestedUpTo(own, n) :: pairs[i].sameOutcome == was[i].sameOutcome
  }

  function TestedUpTo(tests: seq<(nat, nat)>, n: nat): set<nat>
    requires n <= |tests|
  {
    set k | 0 <= k < n :: tests[k].0
  }

  lemma ComparedExtends(before: seq<PairInfo>, pairs: seq<PairInfo>, was: seq<PairInfo>, own: seq<(nat, nat)>,
                        remote: seq<(nat, nat)>, k: nat)
    requires k < |own| == |remote| && |before| == |was| && own[k].0 < |was| && IndicesDiffer(own)
    requires Compared(before, was, own, remote, k)
    requires pairs == before[own[k].0 := before[own[k].0].(sameOutcome := Some(own[k].1 == remote[k].1))]
    ensures Compared(pairs, was, own, remote, k + 1)
  {
    forall i: nat | i < |pairs| && i !in TestedUpTo(own, k + 1)
      ensures pairs[i].sameOutcome == was[i].sameOutcome
    {
      assert own[k].0 in TestedUpTo(own, k + 1);
      assert forall l :: 0 <= l < k ==> own[l].0 in TestedUpTo(own, k + 1);
      assert i !in TestedUpTo(own, k);
    }
  }

  /** Compares the two lists of test outcomes and counts the differences. */
  method CountErrors(pairs: array<PairInfo>, own: seq<(nat, nat)>, remote: seq<(nat, nat)>) returns (errors: nat)
    requires |own| == |remote| && forall k :: 0 <= k < |own| ==> own[k].0 == remote[k].0 < pairs.Length
    modifies pairs
    ensures SameMeasurements(pairs[..], old(pairs[..]))
    ensures forall i :: 0 <= i < pairs.Length ==>
              pairs[i].testOutcome == old(pairs[i].testOutcome) && pairs[i].sameBasis == old(pairs[i].sameBasis)
    ensures errors == Differences(own, remote)
    ensures IndicesDiffer(own) ==> Compared(pairs[..], old(pairs[..]), own, remote, |own|)
  {
    errors := 0;
    for k := 0 to |own|
      invariant SameMeasurements(pairs[..], old(pairs[..]))
      invariant forall i :: 0 <= i < pairs.Length ==>
                  pairs[i].testOutcome == old(pairs[i].testOutcome) && pairs[i].sameBasis == old(pairs[i].sameBasis)
      invariant errors == Differences(own[..k], remote[..k])
      invariant IndicesDiffer(own) ==> Compared(pairs[..], old(pairs[..]), own, remote, k)
    {
      var i := own[k].0;
      ghost var before := pairs[..];
      assert DropLast(own[..k + 1]) == own[..k] && DropLast(remote[..k + 1]) == remote[..k];
      if own[k].1 != remote[k].1 {
        errors := errors + 1;
        pairs[i] := pairs[i].(sameOutcome := Some(false));
      } else {
        pairs[i] := pairs[i].(sameOutcome := Some(true));
      }
      if IndicesDiffer(own) {
        ComparedExtends(before, pairs[..], old(pairs[..]), own, remote, k);
      }
    }
    assert own[..|own|] == own && remote[..|remote|] == remote;
  }

  /** A pair that goes into the key. */
  predicate InKey(pair: PairInfo) {
    IsOptTrue(pair.sameBasis) && !IsOptTrue(pair.testOutcome)
  }

  /** The outcomes of the pairs in the key, in order. */
  function RawKey(pairs: seq<PairInfo>): seq<nat> {
    if pairs == [] then [] else RawKey(DropLast(pairs)) + if InKey(Last(pairs)) then [Last(pairs).outcome] else []
  }

  /** The number of places where two keys differ. */
  function Distance(a: seq<nat>, b: seq<nat>): nat
    requires |a| == |b|
  {
    if a == [] then 0 else Distance(DropLast(a), DropLast(b)) + if Last(a) != Last(b) then 1 else 0
  }

  function KeyPositions(pairs: seq<PairInfo>): set<nat> {
    set i: nat | i < |pairs| && InKey(pairs[i])
  }

  function KeyMismatches(a: seq<PairInfo>, b: seq<PairInfo>): set<nat>
    requires |a| == |b|
  {
    set i: nat | i < |a| && InKey(a[i]) && a[i].outcome != b[i].outcome
  }

  lemma PositionsExtend(a: seq<PairInfo>)
    requires |a| > 0
    ensures |KeyPositions(a)| == |KeyPositions(DropLast(a))| + if InKey(Last(a)) then 1 else 0
  {
    assert KeyPositions(a) == KeyPositions(DropLast(a)) + if InKey(Last(a)) then {|a| - 1} else {};
  }

  /** The key has a bit for every key position, in increasing order of the positions: the bit
      of position `i` comes after as many bits as there are key positions below `i`. */
  predicate IsKeyOf(key: seq<nat>, pairs: seq<PairInfo>) {
    && |key| == |KeyPositions(pairs)|
    && forall i: nat | i < |pairs| && InKey(pairs[i]) ::
         |KeyPositions(pairs[..i])| < |key| && key[|KeyPositions(pairs[..i])|] == pairs[i].outcome
  }

  lemma {:induction false} RawKeyIsKey(pairs: seq<PairInfo>)
    ensures IsKeyOf(RawKey(pairs), pairs)
  {
    if pairs != [] {
      var rest := DropLast(pairs);
      RawKeyIsKey(rest);
      PositionsExtend(pairs);
      forall i: nat | i < |pairs| && InKey(pairs[i])
        ensures |KeyPositions(pairs[..i])| < |RawKey(pairs)| && RawKey(pairs)[|KeyPositions(pairs[..i])|] == pairs[i].outcome
      {
        if i < |rest| {
          assert pairs[..i] == rest[..i] && pairs[i] == rest[i];
        }
      }
    }
  }

  lemma {:induction false} DistanceExtends(a: seq<nat>, b: seq<nat>, x: nat, y: nat)
    requires |a| == |b|
    ensures Distance(a + [x], b + [y]) == Distance(a, b) + if x != y then 1 else 0
  {
    assert DropLast(a + [x]) == a && DropLast(b + [y]) == b;
  }

  lemma MismatchesExtend(a: seq<PairInfo>, b: seq<PairInfo>)
    requires |a| == |b| > 0
    ensures |KeyMismatches(a, b)| == |KeyMismatches(DropLast(a), DropLast(b))|
                                     + if InKey(Last(a)) && Last(a).outcome != Last(b).outcome then 1 else 0
  {
    assert KeyMismatches(a, b) == KeyMismatches(DropLast(a), DropLast(b)) +
                                  if InKey(Last(a)) && Last(a).outcome != Last(b).outcome then {|a| - 1} else {};
  }

  /** The keys of two nodes with the same key positions: one bit per position, and they differ
      where the outcomes of those pairs differ. */
  lemma {:induction false} KeysCompared(a: seq<PairInfo>, b: seq<PairInfo>)
    requires |a| == |b| && forall i :: 0 <= i < |a| ==> (InKey(a[i]) <==> InKey(b[i]))
    ensures |RawKey(a)| == |RawKey(b)| == |KeyPositions(a)|
    ensures Distance(RawKey(a), RawKey(b)) == |KeyMismatches(a, b)|
  {
    if a != [] {
      KeysCompared(DropLast(a), DropLast(b));
      PositionsExtend(a);
      MismatchesExtend(a, b);
      if InKey(Last(a)) {
        DistanceExtends(RawKey(DropLast(a)), RawKey(DropLast(b)), Last(a).outcome, Last(b).outcome);
      } else {
        assert RawKey(a) == RawKey(DropLast(a)) && RawKey(b) == RawKey(DropLast(b));
      }
    }
  }

  /** The pairs with equal bases whose outcomes differ. */
  function Mismatches(a: seq<PairInfo>, b: seq<PairInfo>): set<nat>
    requires |a| == |b|
  {
    set i: nat | i < |a| && IsOptTrue(a[i].sameBasis) && a[i].outcome != b[i].outcome
  }

  function Elements(s: seq<nat>): set<nat> {
    set x | x in s
  }

  lemma {:induction false} ElementsExtend(s: seq<nat>)
    requires s != []
    ensures Elements(s) == Elements(DropLast(s)) + {Last(s)}
  {
    assert s == DropLast(s) + [Last(s)];
  }

  predicate Distinct(s: seq<nat>) {
    forall i, j :: 0 <= i < j < |s| ==> s[i] != s[j]
  }

  lemma {:induction false} DistinctSize(s: seq<nat>)
    requires Distinct(s)
    ensures |Elements(s)| == |s|
  {
    if s != [] {
      DistinctSize(DropLast(s));
      ElementsExtend(s);
    }
  }

  predicate InRange(sample: seq<nat>, n: nat) {
    forall i :: 0 <= i < |sample| ==> sample[i] < n
  }

  /** The pairs whose outcomes differ, whatever their bases. */
  function Unequal(a: seq<PairInfo>, b: seq<PairInfo>): set<nat>
    requires |a| == |b|
  {
    set i: nat | i < |a| && a[i].outcome != b[i].outcome
  }

  lemma HitsExtend(s: set<nat>, x: nat, bad: set<nat>)
    requires x !in s
    ensures |(s + {x}) * bad| == |s * bad| + if x in bad then 1 else 0
  {
    assert (s + {x}) * bad == (s * bad) + if x in bad then {x} else {};
  }

  /** The errors counted over a list of distinct tests are the unequal pairs among them. */
  lemma {:induction false} ErrorsAreMismatches(a: seq<PairInfo>, b: seq<PairInfo>, sample: seq<nat>)
    requires |a| == |b| && InRange(sample, |a|) && Distinct(sample)
    ensures Differences(TestOutcomes(a, sample), TestOutcomes(b, sample)) == |Elements(sample) * Unequal(a, b)|
  {
    if sample != [] {
      var rest, x, bad := DropLast(sample), Last(sample), Unequal(a, b);
      ErrorsAreMismatches(a, b, rest);
      assert DropLast(TestOutcomes(a, sample)) == TestOutcomes(a, rest);
      assert DropLast(TestOutcomes(b, sample)) == TestOutcomes(b, rest);
      ElementsExtend(sample);
      assert x !in Elements(rest);
      HitsExtend(Elements(rest), x, bad);
    }
  }

  lemma {:induction false} DifferenceSize<T>(all: set<T>, part: set<T>)
    requires part <= all
    ensures |all - part| == |all| - |part|
  {
    assert all == part + (all - part);
  }

  /** What the two nodes share after the routine: `a` and `b` are their pairs, `sample` the
      tests, `errors` the count of both. */
  ghost predicate Agreed(a: seq<PairInfo>, b: seq<PairInfo>, sample: seq<nat>, errors: nat)
    requires |a| == |b|
  {
    && SameBasisSet(a) == SameBasisSet(b)
    && KeyPositions(a) == KeyPositions(b) == SameBasisSet(a) - Elements(sample)
    && |RawKey(a)| == |RawKey(b)| == |SameBasisSet(a)| - |sample|
    && Distance(RawKey(a), RawKey(b)) == |Mismatches(a, b)| - errors
  }

  /** Both ends have marked the pairs by the same bases and tests. */
  predicate Marked(a: seq<PairInfo>, b: seq<PairInfo>, sample: seq<nat>)
    requires |a| == |b|
  {
    forall i :: 0 <= i < |a| ==>
      a[i].sameBasis == b[i].sameBasis == Some(a[i].basis == b[i].basis)
      && a[i].testOutcome == b[i].testOutcome == Some(i in sample)
  }

  lemma KeySets(a: seq<PairInfo>, b: seq<PairInfo>, sample: seq<nat>)
    requires |a| == |b| && Marked(a, b, sample) && Elements(sample) <= SameBasisSet(a)
    ensures SameBasisSet(a) == SameBasisSet(b)
    ensures KeyPositions(a) == KeyPositions(b) == SameBasisSet(a) - Elements(sample)
    ensures KeyMismatches(a, b) == Mismatches(a, b) - Elements(sample) * Unequal(a, b)
    ensures Elements(sample) * Unequal(a, b) <= Mismatches(a, b)
  {
  }

  /** Once both ends have marked their pairs, they agree on everything but the errors. */
  lemma EndsAgree(a: seq<PairInfo>, b: seq<PairInfo>, sample: seq<nat>)
    requires |a| == |b| && Marked(a, b, sample)
    requires InRange(sample, |a|) && Distinct(sample) && Elements(sample) <= SameBasisSet(a)
    ensures Agreed(a, b, sample, Differences(TestOutcomes(a, sample), TestOutcomes(b, sample)))
  {
    KeySets(a, b, sample);
    KeysCompared(a, b);
    ErrorsAreMismatches(a, b, sample);
    DistinctSize(sample);
    DifferenceSize(SameBasisSet(a), Elements(sample));
    DifferenceSize(Mismatches(a, b), Elements(sample) * Unequal(a, b));
  }

  lemma SampleInRange(sample: seq<nat>, population: set<nat>, n: nat)
    requires Elements(sample) <= population && forall x :: x in population ==> x < n
    ensures InRange(sample, n)
  {
    assert forall i :: 0 <= i < |sample| ==> sample[i] in Elements(sample);
  }

  /** `rate` is the share of errors among the tests asked for, and lies between 0 and 1; without
      test bits the source divides by zero. */
  predicate IsRate(rate: Option<real>, errors: nat, numTestBits: nat) {
    match rate
    case None => numTestBits == 0
    case Some(r) => numTestBits > 0 && r * numTestBits as real == errors as real && 0.0 <= r <= 1.0
  }

  method ErrorRate(errors: nat, numTestBits: nat) returns (rate: Option<real>)
    requires errors <= numTestBits
    ensures IsRate(rate, errors, numTestBits)
  {
    if numTestBits == 0 {
      return None;
    }
    rate := Some(errors as real / numTestBits as real);
  }

  /** Exchange of the bases and of the tests: marks the pairs at both ends. */
  method MarkBoth(a: array<PairInfo>, b: array<PairInfo>, sample: seq<nat>)
    requires a != b && a.Length == b.Length && Numbered(a[..]) && Numbered(b[..])
    modifies a, b
    ensures SameMeasurements(a[..], old(a[..])) && SameMeasurements(b[..], old(b[..]))
    ensures Marked(a[..], b[..], sample)
  {
    var basesA, basesB := Bases(a[..]), Bases(b[..]);
    FilterBases(a, basesB);
    FilterBases(b, basesA);
    MarkTests(a, sample);
    MarkTests(b, sample);
  }

  /** Exchange of the test outcomes: both ends count the same errors. */
  method CountBoth(a: array<PairInfo>, b: array<PairInfo>, sample: seq<nat>) returns (errorsA: nat, errorsB: nat)
    requires a != b && a.Length == b.Length && InRange(sample, a.Length) && Marked(a[..], b[..], sample)
    modifies a, b
    ensures SameMeasurements(a[..], old(a[..])) && SameMeasurements(b[..], old(b[..])) && Marked(a[..], b[..], sample)
    ensures errorsA == errorsB == Differences(TestOutcomes(a[..], sample), TestOutcomes(b[..], sample)) <= |sample|
  {
    var testsA, testsB := TestOutcomes(a[..], sample), TestOutcomes(b[..], sample);
    errorsA := CountErrors(a, testsA, testsB);
    errorsB := CountErrors(b, testsB, testsA);
    DifferencesSymmetric(testsA, testsB);
    assert testsA == TestOutcomes(a[..], sample) && testsB == TestOutcomes(b[..], sample);
  }

  lemma MarkedPopulation(a: seq<PairInfo>, b: seq<PairInfo>, a0: seq<PairInfo>, b0: seq<PairInfo>, sample: seq<nat>,
                         population: set<nat>)
    requires |a| == |b| && SameMeasurements(a, a0) && SameMeasurements(b, b0) && Marked(a, b, sample)
    requires population == set i: nat | i < |a0| && a0[i].basis == b0[i].basis
    ensures SameBasisSet(a) == population
  {
  }

  /** The routine at both ends, message by message: the initiator's pairs are `a`, and `sample`
      is its random choice among the pairs with equal bases. Both get the same error rate. */
  method RunBoth(a: array<PairInfo>, b: array<PairInfo>, numTestBits: nat, ghost population: set<nat>, sample: seq<nat>)
    returns (keyA: seq<nat>, keyB: seq<nat>, errorsA: nat, errorsB: nat, rate: Option<real>)
    requires a != b && a.Length == b.Length && Numbered(a[..]) && Numbered(b[..])
    requires population == set i: nat | i < a.Length && a[..][i].basis == b[..][i].basis
    requires IsSample(sample, population, Min(numTestBits, |population|))
    modifies a, b
    ensures SameMeasurements(a[..], old(a[..])) && SameMeasurements(b[..], old(b[..]))
    ensures Marked(a[..], b[..], sample)
    ensures keyA == RawKey(a[..]) && keyB == RawKey(b[..]) && IsKeyOf(keyA, a[..]) && IsKeyOf(keyB, b[..])
    ensures errorsA == errorsB <= Min(numTestBits, |population|)
    ensures Agreed(a[..], b[..], sample, errorsA)
    ensures IsRate(rate, errorsA, numTestBits)
  {
    ghost var a0, b0 := a[..], b[..];
    SampleInRange(sample, population, a.Length);
    MarkBoth(a, b, sample);
    errorsA, errorsB := CountBoth(a, b, sample);
    keyA, keyB := RawKey(a[..]), RawKey(b[..]);
    RawKeyIsKey(a[..]);
    RawKeyIsKey(b[..]);
    MarkedPopulation(a[..], b[..], a0, b0, sample, population);
    EndsAgree(a[..], b[..], sample);
    rate := ErrorRate(errorsA, numTestBits);
  }
}
