/** The purpose IDs that the two ends of a circuit use in their link layer requests. */
module PurposeIds {
  import opened Options

  datatype Address = Address(node: nat, socket: nat)

  /** One end's view of a circuit: own node, other node, own socket. */
  datatype Key = Key(node: nat, remote: nat, socket: nat)

  datatype Call = Call(local: Address, remote: Address) {
    function LocalKey(): Key {
      Key(local.node, remote.node, local.socket)
    }

    function RemoteKey(): Key {
      Key(remote.node, local.node, remote.socket)
    }

    predicate HasEnd(k: Key) {
      k == LocalKey() || k == RemoteKey()
    }

    predicate SharesEnd(other: Call) {
      HasEnd(other.LocalKey()) || HasEnd(other.RemoteKey())
    }

    /** The same two ends, seen from either side. */
    predicate SameCircuit(other: Call) {
      || (LocalKey() == other.LocalKey() && RemoteKey() == other.RemoteKey())
      || (LocalKey() == other.RemoteKey() && RemoteKey() == other.LocalKey())
    }
  }

  datatype Table = Table(ids: map<Key, nat>, next: nat)

  /** The ID found for a circuit: that of the remote key if both keys have one. */
  function Found(ids: map<Key, nat>, call: Call): Option<nat> {
    if call.RemoteKey() in ids then Some(ids[call.RemoteKey()])
    else if call.LocalKey() in ids then Some(ids[call.LocalKey()])
    else None
  }

  function Assign(t: Table, call: Call): Table {
    var id := match Found(t.ids, call) case Some(i) => i case None => t.next;
    Table(t.ids[call.LocalKey() := id][call.RemoteKey() := id], if Found(t.ids, call).None? then t.next + 1 else t.next)
  }

  /** Two calls that share an end are calls for the same circuit. */
  predicate IsMatching(calls: seq<Call>) {
    forall i, j :: 0 <= i < |calls| && 0 <= j < |calls| && calls[i].SharesEnd(calls[j]) ==> calls[i].SameCircuit(calls[j])
  }

  function AssignAll(t: Table, calls: seq<Call>): Table {
    if calls == [] then t else Assign(AssignAll(t, calls[..|calls| - 1]), calls[|calls| - 1])
  }

  function Ends(calls: seq<Call>): set<Key> {
    if calls == [] then {}
    else Ends(calls[..|calls| - 1]) + {calls[|calls| - 1].LocalKey(), calls[|calls| - 1].RemoteKey()}
  }

  lemma {:induction false} CallWithEnd(calls: seq<Call>, k: Key) returns (i: nat)
    requires k in Ends(calls)
    ensures i < |calls| && calls[i].HasEnd(k)
  {
    var last := |calls| - 1;
    if calls[last].HasEnd(k) {
      i := last;
    } else {
      i := CallWithEnd(calls[..last], k);
    }
  }

  /** After these calls: the keys with an ID are the ends of the calls, both ends of a circuit
      have the same ID, different circuits have different IDs, and the IDs are those below the counter. */
  predicate Consistent(t: Table, calls: seq<Call>) {
    && t.ids.Keys == Ends(calls)
    && (forall k :: k in t.ids ==> t.ids[k] < t.next)
    && (forall i :: 0 <= i < |calls| ==>
          calls[i].LocalKey() in t.ids && calls[i].RemoteKey() in t.ids
          && t.ids[calls[i].LocalKey()] == t.ids[calls[i].RemoteKey()])
    && (forall i, j :: 0 <= i < |calls| && 0 <= j < |calls| && t.ids[calls[i].LocalKey()] == t.ids[calls[j].LocalKey()] ==>
          calls[i].SameCircuit(calls[j]))
    && (forall n: nat :: n < t.next ==> IsUsed(t, n))
  }

  predicate IsUsed(t: Table, id: nat) {
    exists k :: k in t.ids && t.ids[k] == id
  }

  /** The table `t'` has all IDs of `t`, unchanged. */
  predicate Extends(t: Table, t': Table) {
    t.next <= t'.next && forall k :: k in t.ids ==> k in t'.ids && t'.ids[k] == t.ids[k]
  }

  /** Exactly: a call changes an ID that was given out only if its two ends had different ones. */
  lemma {:induction false} AssignExtends(t: Table, call: Call)
    ensures Extends(t, Assign(t, call)) <==>
            (call.LocalKey() in t.ids && call.RemoteKey() in t.ids ==> t.ids[call.LocalKey()] == t.ids[call.RemoteKey()])
  {
    if call.LocalKey() in t.ids && call.RemoteKey() in t.ids {
      assert Assign(t, call).ids[call.LocalKey()] == t.ids[call.RemoteKey()];
    }
  }

  lemma AssignKeepsConsistent(t: Table, calls: seq<Call>, call: Call)
    requires Consistent(t, calls) && IsMatching(calls + [call])
    ensures Consistent(Assign(t, call), calls + [call]) && Extends(t, Assign(t, call))
  {
    if Found(t.ids, call).Some? {
      var k := if call.RemoteKey() in t.ids then call.RemoteKey() else call.LocalKey();
      var i := CallWithEnd(calls, k);
      assert (calls + [call])[i] == calls[i] && (calls + [call])[|calls|] == call;
      KnownCircuit(t, calls, call, i);
    } else {
      NewCircuit(t, calls, call);
    }
  }

  lemma {:induction false} EndsExtend(calls: seq<Call>, call: Call)
    ensures Ends(calls + [call]) == Ends(calls) + {call.LocalKey(), call.RemoteKey()}
  {
    assert (calls + [call])[..|calls|] == calls;
  }

  /** A known circuit: nothing changes. */
  lemma {:induction false} KnownCircuit(t: Table, calls: seq<Call>, call: Call, i: nat)
    requires Consistent(t, calls) && i < |calls| && call.SameCircuit(calls[i])
    ensures Assign(t, call) == t && Consistent(t, calls + [call])
  {
    EndsExtend(calls, call);
    assert t.ids[call.LocalKey()] == t.ids[call.RemoteKey()] == t.ids[calls[i].LocalKey()];
    assert Assign(t, call).ids == t.ids;
    forall j | 0 <= j < |calls| && t.ids[call.LocalKey()] == t.ids[calls[j].LocalKey()]
      ensures call.SameCircuit(calls[j]) && calls[j].SameCircuit(call)
    {
      assert calls[i].SameCircuit(calls[j]);
    }
  }

  /** A new circuit: a new ID for both of its keys. */
  lemma {:induction false} NewCircuit(t: Table, calls: seq<Call>, call: Call)
    requires Consistent(t, calls) && call.LocalKey() !in t.ids && call.RemoteKey() !in t.ids
    ensures Consistent(Assign(t, call), calls + [call]) && Extends(t, Assign(t, call))
  {
    EndsExtend(calls, call);
    UsedExtends(t, call);
  }

  lemma {:induction false} UsedExtends(t: Table, call: Call)
    requires forall n: nat :: n < t.next ==> IsUsed(t, n)
    requires call.LocalKey() !in t.ids && call.RemoteKey() !in t.ids
    ensures forall n: nat :: n < Assign(t, call).next ==> IsUsed(Assign(t, call), n)
  {
    var t' := Assign(t, call);
    forall n: nat | n < t'.next
      ensures IsUsed(t', n)
    {
      if n < t.next {
        assert IsUsed(t, n);
        var k :| k in t.ids && t.ids[k] == n;
        assert k in t'.ids && t'.ids[k] == n;
      } else {
        assert call.LocalKey() in t'.ids && t'.ids[call.LocalKey()] == n;
      }
    }
  }

  /** For any calls, from either end and in any order, over a fixed matching of the ends: the
      table is consistent at all times, and an ID once given out never changes. */
  lemma {:induction false} MatchedCallsAreConsistent(calls: seq<Call>)
    requires IsMatching(calls)
    ensures Consistent(AssignAll(Table(map[], 0), calls), calls)
    ensures forall n :: 0 <= n <= |calls| ==>
              Extends(AssignAll(Table(map[], 0), calls[..n]), AssignAll(Table(map[], 0), calls))
  {
    var t0 := Table(map[], 0);
    if calls == [] {
      assert calls[..0] == calls;
    } else {
      var before, last := calls[..|calls| - 1], calls[|calls| - 1];
      assert calls == before + [last];
      MatchedCallsAreConsistent(before);
      AssignKeepsConsistent(AssignAll(t0, before), before, last);
      forall n | 0 <= n <= |calls|
        ensures Extends(AssignAll(t0, calls[..n]), AssignAll(t0, calls))
      {
        if n == |calls| {
          assert calls[..n] == calls;
        } else {
          assert calls[..n] == before[..n];
        }
      }
    }
  }

  // The same in terms of addresses.

  /** Two calls name the same two addresses, in either order. */
  predicate SamePair(c: Call, d: Call) {
    c == d || c == Call(d.remote, d.local)
  }

  /** The end at address `a` of a circuit to node `b`, as the table lists it. */
  function End(a: Address, b: Address): Key {
    Key(a.node, b.node, a.socket)
  }

  /** A socket connects to one socket of another node: calls that agree in one address and in
      the node of the other agree in both addresses. */
  predicate IsAddressMatching(calls: seq<Call>) {
    forall i, j :: 0 <= i < |calls| && 0 <= j < |calls| ==>
      var c, d := calls[i], calls[j];
      && (c.local == d.local && c.remote.node == d.remote.node ==> SamePair(c, d))
      && (c.local == d.remote && c.remote.node == d.local.node ==> SamePair(c, d))
      && (c.remote == d.local && c.local.node == d.remote.node ==> SamePair(c, d))
      && (c.remote == d.remote && c.local.node == d.local.node ==> SamePair(c, d))
  }

  lemma {:induction false} MatchingOfAddresses(calls: seq<Call>)
    requires IsAddressMatching(calls)
    ensures IsMatching(calls)
  {
    forall i, j | 0 <= i < |calls| && 0 <= j < |calls| && calls[i].SharesEnd(calls[j])
      ensures calls[i].SameCircuit(calls[j])
    {
      assert SamePair(calls[i], calls[j]);
    }
  }

  /** What the ends of call `i` find in the table. */
  predicate FindsItsId(t: Table, calls: seq<Call>, i: nat)
    requires i < |calls|
  {
    var a, b := calls[i].local, calls[i].remote;
    && End(a, b) in t.ids && End(b, a) in t.ids && t.ids[End(a, b)] == t.ids[End(b, a)] < t.next
    && forall j: nat | j < |calls| ::
         var c := calls[j];
         End(c.local, c.remote) in t.ids && (t.ids[End(c.local, c.remote)] == t.ids[End(a, b)] <==> SamePair(calls[i], c))
  }

  lemma SameCircuitIsSamePair(c: Call, d: Call)
    ensures c.SameCircuit(d) <==> SamePair(c, d)
    ensures c.LocalKey() == End(c.local, c.remote) && c.RemoteKey() == End(c.remote, c.local)
  {
  }

  lemma {:induction false} ConsistentFinds(t: Table, calls: seq<Call>, i: nat)
    requires Consistent(t, calls) && i < |calls|
    ensures FindsItsId(t, calls, i)
  {
    SameCircuitIsSamePair(calls[i], calls[i]);
    forall j: nat | j < |calls|
      ensures var c := calls[j];
              End(c.local, c.remote) in t.ids
              && (t.ids[End(c.local, c.remote)] == t.ids[End(calls[i].local, calls[i].remote)] <==> SamePair(calls[i], c))
    {
      SameCircuitIsSamePair(calls[i], calls[j]);
      SameCircuitIsSamePair(calls[j], calls[i]);
    }
  }

  /** The table lists nothing but ends of calls. */
  predicate OnlyEndsOf(t: Table, calls: seq<Call>) {
    forall k :: k in t.ids ==>
      exists j :: 0 <= j < |calls| && (k == End(calls[j].local, calls[j].remote) || k == End(calls[j].remote, calls[j].local))
  }

  lemma {:induction false} ConsistentListsEnds(t: Table, calls: seq<Call>)
    requires Consistent(t, calls)
    ensures OnlyEndsOf(t, calls)
  {
    forall k | k in t.ids
      ensures exists j :: 0 <= j < |calls| && (k == End(calls[j].local, calls[j].remote) || k == End(calls[j].remote, calls[j].local))
    {
      var j := CallWithEnd(calls, k);
      SameCircuitIsSamePair(calls[j], calls[j]);
    }
  }

  /** For any calls from either end, in any order and number, over a fixed matching of sockets:
      both ends of a circuit find the same ID, whoever called; different circuits find different
      IDs; no other ends have IDs; and the IDs are exactly the numbers below the counter. */
  lemma {:induction false} EndsFindTheSameId(calls: seq<Call>)
    requires IsAddressMatching(calls)
    ensures var t := AssignAll(Table(map[], 0), calls);
            && (forall i: nat :: i < |calls| ==> FindsItsId(t, calls, i)) && OnlyEndsOf(t, calls)
            && (forall id: nat :: id < t.next <==> IsUsed(t, id))
  {
    MatchingOfAddresses(calls);
    MatchedCallsAreConsistent(calls);
    var t := AssignAll(Table(map[], 0), calls);
    forall i: nat | i < |calls|
      ensures FindsItsId(t, calls, i)
    {
      ConsistentFinds(t, calls, i);
    }
    ConsistentListsEnds(t, calls);
  }

  /** What an end finds after its call, it finds after all later calls. */
  lemma {:induction false} FoundIdsStay(calls: seq<Call>, i: nat, n: nat)
    requires IsAddressMatching(calls) && i < n <= |calls|
    ensures var before, after := AssignAll(Table(map[], 0), calls[..n]), AssignAll(Table(map[], 0), calls);
            var end := End(calls[i].local, calls[i].remote);
            end in before.ids && end in after.ids && before.ids[end] == after.ids[end]
  {
    MatchingOfAddresses(calls);
    MatchedCallsAreConsistent(calls);
    assert calls[..n][i] == calls[i];
    EndsFindTheSameId(calls[..n]);
    assert FindsItsId(AssignAll(Table(map[], 0), calls[..n]), calls[..n], i);
  }

  class SignalingProtocol {
    var purposeIds: map<Key, nat>
    var nextPurposeId: nat

    ghost function State(): Table
      reads this
    {
      Table(purposeIds, nextPurposeId)
    }

    constructor ()
      ensures State() == Table(map[], 0)
    {
      purposeIds, nextPurposeId := map[], 0;
    }

    /** Looks up both keys, takes a new ID if neither has one, and writes both. */
    method AssignPurposeId(call: Call)
      modifies this
      ensures State() == Assign(old(State()), call)
    {
      var keys := [call.LocalKey(), call.RemoteKey()];
      var purposeId: Option<nat> := None;
      for i := 0 to |keys|
        invariant purposeId == if i == 0 || (i == 1 && keys[0] !in purposeIds) then None
                               else if i == 1 then Some(purposeIds[keys[0]]) else Found(purposeIds, call)
      {
        if keys[i] in purposeIds {
          purposeId := Some(purposeIds[keys[i]]);
        }
      }
      var id;
      if purposeId.None? {
        id := nextPurposeId;
        nextPurposeId := nextPurposeId + 1;
      } else {
        id := purposeId.value;
      }
      for i := 0 to |keys|
        invariant nextPurposeId == Assign(old(State()), call).next
        invariant purposeIds == if i == 0 then old(purposeIds)
                                else if i == 1 then old(purposeIds)[keys[0] := id]
                                else old(purposeIds)[keys[0] := id][keys[1] := id]
      {
        purposeIds := purposeIds[keys[i] := id];
      }
    }
  }
}
