/** The memory objects of one node: the physical qubit allocator and, per application, the
    map from virtual to physical qubits. */
module Memory {
  import opened Options
  import opened NodeState

  function Including<T>(s: set<T>, x: Option<T>): set<T> {
    match x
    case None => s
    case Some(v) => s + {v}
  }

  class PhysicalQuantumMemory {
    const qubitCount: nat
    const commIds: set<nat>
    var taken: set<nat>

    constructor (qubitCount: nat, commIds: set<nat>)
      ensures this.qubitCount == qubitCount && this.commIds == commIds && taken == {}
    {
      this.qubitCount := qubitCount;
      this.commIds := commIds;
      taken := {};
    }

    method Allocate() returns (r: Option<nat>)
      modifies this
      ensures r == LowestFree(qubitCount, commIds, old(taken), AnyQubit, 0)
      ensures taken == Including(old(taken), r)
    {
      for i := 0 to qubitCount
        invariant taken == old(taken)
        invariant LowestFree(qubitCount, commIds, taken, AnyQubit, 0) == LowestFree(qubitCount, commIds, taken, AnyQubit, i)
      {
        if i !in taken {
          taken := taken + {i};
          return Some(i);
        }
      }
      return None;
    }

    method AllocateComm() returns (r: Option<nat>)
      modifies this
      ensures r == LowestFree(qubitCount, commIds, old(taken), CommQubit, 0)
      ensures taken == Including(old(taken), r)
    {
      for i := 0 to qubitCount
        invariant taken == old(taken)
        invariant LowestFree(qubitCount, commIds, taken, CommQubit, 0) == LowestFree(qubitCount, commIds, taken, CommQubit, i)
      {
        if i !in taken && i in commIds {
          taken := taken + {i};
          return Some(i);
        }
      }
      return None;
    }

    method AllocateMem() returns (r: Option<nat>)
      modifies this
      ensures r == LowestFree(qubitCount, commIds, old(taken), MemQubit, 0)
      ensures taken == Including(old(taken), r)
    {
      for i := 0 to qubitCount
        invariant taken == old(taken)
        invariant LowestFree(qubitCount, commIds, taken, MemQubit, 0) == LowestFree(qubitCount, commIds, taken, MemQubit, i)
      {
        if i !in taken && i !in commIds {
          taken := taken + {i};
          return Some(i);
        }
      }
      return None;
    }

    /** `ok` is false where the source raises, for a qubit that is not allocated. */
    method Free(id: nat) returns (ok: bool)
      modifies this
      ensures ok == (id in old(taken)) && taken == old(taken) - {id}
    {
      ok := id in taken;
      taken := taken - {id};
    }

    predicate IsAllocated(id: nat)
      reads this
    {
      id in taken
    }
  }

  class AppMemory {
    const appId: nat
    var virt: Mapping

    constructor (appId: nat, maxQubits: nat)
      ensures this.appId == appId && virt == FreshMapping(maxQubits)
    {
      this.appId := appId;
      virt := FreshMapping(maxQubits);
    }

    method MapVirtId(v: int, p: nat)
      modifies this
      ensures virt == old(virt)[v := Some(p)]
    {
      virt := virt[v := Some(p)];
    }

    method UnmapVirtId(v: int)
      modifies this
      ensures virt == old(virt)[v := None]
    {
      virt := virt[v := None];
    }

    /** The physical qubit of a virtual one: absent both for an unmapped and an unknown ID. */
    function PhysIdFor(v: int): Option<nat>
      reads this
    {
      if v in virt then virt[v] else None
    }

    /** The search finds a virtual qubit exactly when one is mapped to `p`. */
    method VirtIdFor(p: nat) returns (r: Option<int>)
      ensures r.Some? ==> r.value in virt && virt[r.value] == Some(p)
      ensures r.None? ==> forall v :: v in virt ==> virt[v] != Some(p)
    {
      var todo := virt.Keys;
      while todo != {}
        invariant todo <= virt.Keys
        invariant forall v :: v in virt && v !in todo ==> virt[v] != Some(p)
      {
        var v := AnyOf(todo);
        if virt[v] == Some(p) {
          return Some(v);
        }
        todo := todo - {v};
      }
      return None;
    }

    method UnmapAll()
      modifies this
      ensures virt.Keys == old(virt).Keys && forall v :: v in virt ==> virt[v].None?
    {
      var todo := virt.Keys;
      while todo != {}
        invariant todo <= virt.Keys == old(virt).Keys
        invariant forall v :: v in virt && v !in todo ==> virt[v].None?
      {
        var v := AnyOf(todo);
        virt := virt[v := None];
        todo := todo - {v};
      }
    }
  }
}
