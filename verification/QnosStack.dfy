/**
 One quantum node operating system: the processor, the network stack and the handler work on
 the same allocator and the same application memories. Every method is one stretch of code
 between two yields of its coroutine and is proved to be one step of `NodeState`.
 */
module QnosStack {
  import opened Options
  import opened NodeState
  import opened Memory
  import opened Amplitudes
  import opened QDevice
  import opened NvCircuits
  import opened NvMeasurement

  class Qnos {
    const nv: bool
    const memory: PhysicalQuantumMemory
    const device: QuantumDevice
    var appMemories: map<nat, AppMemory>
    var processor: Processor
    var netstack: Netstack
    var signalled: bool

    ghost predicate Valid()
      reads this
    {
      forall a :: a in appMemories ==> appMemories[a].appId == a
    }

    ghost function Mappings(): Apps
      reads this, appMemories.Values
    {
      map a | a in appMemories :: appMemories[a].virt
    }

    /** The bookkeeping of the node as one value. */
    ghost function State(): Node
      reads this, memory, appMemories.Values
    {
      Node(nv, memory.qubitCount, memory.commIds, memory.taken, Mappings(), processor, netstack, signalled)
    }

    constructor (nv: bool, memory: PhysicalQuantumMemory, device: QuantumDevice)
      requires memory.taken == {}
      ensures Valid() && this.device == device
      ensures State() == Boot(nv, memory.qubitCount, memory.commIds)
    {
      this.nv := nv;
      this.memory := memory;
      this.device := device;
      appMemories := map[];
      processor := Idle;
      netstack := Ready;
      signalled := false;
    }

    /** The owner of a physical qubit, found exactly when some application maps it. */
    method GetVirtQubitForPhysId(p: nat) returns (r: Option<(nat, int)>)
      ensures r.Some? ==> Maps(Mappings(), r.value.0, r.value.1, p)
      ensures r.None? ==> !IsMapped(Mappings(), p)
    {
      var todo := appMemories.Keys;
      while todo != {}
        invariant todo <= appMemories.Keys
        invariant forall a, v :: a in appMemories && a !in todo ==> !Maps(Mappings(), a, v, p)
      {
        var a := AnyOf(todo);
        var virt := appMemories[a].VirtIdFor(p);
        if virt.Some? {
          return Some((a, virt.value));
        }
        todo := todo - {a};
      }
      return None;
    }

    /** Rewrites one entry of an application's map; no other application's map changes. */
    method SetMapping(app: nat, virt: int, target: Option<nat>)
      requires Valid() && app in appMemories
      modifies appMemories[app]
      ensures Mappings() == MapTo(old(Mappings()), app, virt, target)
      ensures State() == old(State()).(apps := MapTo(old(State()).apps, app, virt, target))
    {
      var appMem := appMemories[app];
      match target
      case Some(p) => appMem.MapVirtId(virt, p);
      case None => appMem.UnmapVirtId(virt);
    }

    method AllocateFor(virt: int) returns (p: Option<nat>)
      modifies memory
      ensures p == Free(old(State()), KindFor(old(State()), virt))
      ensures memory.taken == Including(old(memory.taken), p)
    {
      if !nv {
        p := memory.Allocate();
      } else if virt > 0 {
        p := memory.AllocateMem();
      } else {
        p := memory.AllocateComm();
      }
    }

    /** Allocation by hardware: a generic node takes any qubit, an NV node the electron for
        virtual ID 0 and a carbon for the others. */
    method InterpretQAlloc(app: nat, virt: int) returns (ok: bool)
      requires Valid() && processor.Idle?
      modifies memory, appMemories.Values
      ensures Valid() && ok == Enabled(old(State()), QAlloc(app, virt))
      ensures State() == if ok then After(old(State()), QAlloc(app, virt)) else old(State())
      ensures ok ==> TakesLowest(old(State()), State(), app, virt)
      ensures !ok && app in appMemories ==>
                forall q: nat :: q < memory.qubitCount && IsOnSide(State(), virt, q) ==> q in memory.taken
    {
      if app !in appMemories {
        return false;
      }
      QAllocTakesLowest(State(), app, virt);
      var p := AllocateFor(virt);
      if p.None? {
        return false;
      }
      SetMapping(app, virt, p);
      return true;
    }

    /** Frees a qubit, signals it, and marks the device position as unused. */
    method FreeQubit(p: nat)
      requires p in memory.taken
      modifies this`signalled, memory, device`inUse
      ensures memory.taken == old(memory.taken) - {p} && signalled
      ensures State() == old(State()).(taken := old(memory.taken) - {p}, signalled := true)
      ensures device.inUse == old(device.inUse) - {p}
    {
      var _ := memory.Free(p);
      signalled := true;
      device.Release(p);
    }

    method InterpretQFree(app: nat, virt: int) returns (ok: bool)
      requires Valid() && processor.Idle? && Conserved(State())
      modifies this`signalled, memory, appMemories.Values, device`inUse
      ensures Valid() && ok == Enabled(old(State()), QFree(app, virt))
      ensures State() == if ok then After(old(State()), QFree(app, virt)) else old(State())
      ensures ok ==> device.inUse == old(device.inUse - {appMemories[app].virt[virt].value})
      ensures !ok ==> device.inUse == old(device.inUse)
    {
      if app !in appMemories {
        return false;
      }
      var p := appMemories[app].PhysIdFor(virt);
      if p.None? {
        return false;
      }
      assert Maps(Mappings(), app, virt, p.value);
      assert IsMapped(Mappings(), p.value);
      SetMapping(app, virt, None);
      FreeQubit(p.value);
      return true;
    }

    /** The carbon is what the measurement frees next. */
    method EndTransit(carbon: nat)
      modifies this`processor
      ensures State() == old(State()).(processor := Clearing(carbon))
    {
      processor := Clearing(carbon);
    }

    /** Any qubit will do as the spare one that the electron is moved to. */
    method TakeSpare(app: nat, virt: int, carbon: nat) returns (ok: bool)
      modifies this`processor, memory
      ensures ok == Free(old(State()), AnyQubit).Some?
      ensures State() == if !ok then old(State()) else
                         var spare := Free(old(State()), AnyQubit).value;
                         old(State()).(taken := old(memory.taken) + {spare}, processor := Relocating(app, virt, carbon, spare))
    {
      var spare := memory.Allocate();
      if spare.None? {
        return false;
      }
      processor := Relocating(app, virt, carbon, spare.value);
      return true;
    }

    /** The electron is free and takes over the measured virtual qubit. */
    method TakeElectron(app: nat, virt: int, carbon: nat)
      requires Valid() && IsNv(State()) && app in appMemories && ELECTRON !in memory.taken
      modifies this`processor, memory, appMemories[app]
      ensures Valid()
      ensures State() == old(State()).(taken := old(memory.taken) + {ELECTRON}, processor := Clearing(carbon),
                                       apps := MapTo(old(State()).apps, app, virt, Some(ELECTRON)))
    {
      var _ := memory.AllocateComm();
      SetMapping(app, virt, Some(ELECTRON));
      EndTransit(carbon);
    }

    /** The first stretch of a measurement on NV hardware, up to the first move circuit. */
    method MeasureStart(app: nat, virt: int) returns (ok: bool)
      requires Valid() && processor.Idle? && IsNv(State())
      modifies this`processor, memory, appMemories.Values
      ensures Valid() && ok == Enabled(old(State()), MeasStart(app, virt))
      ensures State() == if ok then After(old(State()), MeasStart(app, virt)) else old(State())
    {
      if app !in appMemories {
        return false;
      }
      var p := appMemories[app].PhysIdFor(virt);
      if p.None? {
        return false;
      }
      if p.value == ELECTRON {
        return true;
      }
      if memory.IsAllocated(ELECTRON) {
        ok := TakeSpare(app, virt, p.value);
      } else {
        TakeElectron(app, virt, p.value);
        return true;
      }
    }

    /** The electron's owner gets the spare qubit, and the measured virtual qubit the electron. */
    method SwapOwners(elecApp: nat, elecVirt: int)
      requires Valid() && processor.Relocating? && processor.app in appMemories
      requires Maps(Mappings(), elecApp, elecVirt, ELECTRON)
      modifies this`processor, appMemories.Values
      ensures Valid() && State() == After(old(State()), MeasRelocate(elecApp, elecVirt))
    {
      SetMapping(elecApp, elecVirt, Some(processor.spare));
      SetMapping(processor.app, processor.virt, Some(ELECTRON));
      EndTransit(processor.carbon);
    }

    /** The second stretch: the electron's owner gets the spare qubit and the measured virtual
        qubit gets the electron. It fails when nobody owns the electron. */
    method MeasureRelocate() returns (r: Option<(nat, int)>)
      requires Valid() && processor.Relocating? && processor.app in appMemories
      modifies this`processor, appMemories.Values
      ensures Valid()
      ensures r.Some? ==> Enabled(old(State()), MeasRelocate(r.value.0, r.value.1))
                          && State() == After(old(State()), MeasRelocate(r.value.0, r.value.1))
      ensures r.Some? == IsMapped(old(State()).apps, ELECTRON) && (r.None? ==> State() == old(State()))
    {
      r := GetVirtQubitForPhysId(ELECTRON);
      if r.Some? {
        assert IsMapped(State().apps, ELECTRON);
        SwapOwners(r.value.0, r.value.1);
      }
    }

    /** The last stretch that touches the bookkeeping. */
    method MeasureFree()
      requires Valid() && processor.Clearing? && processor.carbon in memory.taken
      modifies this`processor, this`signalled, memory, device`inUse
      ensures Valid() && State() == After(old(State()), MeasFree)
      ensures device.inUse == old(device.inUse - {processor.carbon})
    {
      FreeQubit(processor.carbon);
      processor := Idle;
    }

    method MeasureElectron(nature: bool) returns (outcome: bool)
      modifies device
      ensures outcome == nature && device.psi == Project(ELECTRON, nature, old(device.psi))
      ensures State() == old(State())
    {
      outcome := device.Measure(ELECTRON, nature);
    }

    method MoveToElectron(carbon: nat)
      modifies device
      ensures device.psi == CarbonToElectron(carbon, old(device.psi))
      ensures State() == old(State())
    {
      MoveCarbonToElectron(device, carbon);
    }

    method MoveToSpare(carbon: nat)
      modifies device
      ensures device.psi == ElectronToCarbon(carbon, old(device.psi))
      ensures State() == old(State())
    {
      MoveElectronToCarbon(device, carbon);
    }

    /** Moves the carbon to the electron, gives it free and measures the electron. */
    method MeasureOnElectron(nature: bool) returns (outcome: bool)
      requires Valid() && processor.Clearing? && processor.carbon in memory.taken
      modifies this`processor, this`signalled, memory, device
      ensures Valid() && State() == After(old(State()), MeasFree) && outcome == nature
      ensures device.psi == StateAfter(ToElectron(old(processor.carbon)), nature, old(device.psi))
    {
      MoveToElectron(processor.carbon);
      MeasureFree();
      outcome := MeasureElectron(nature);
    }

    /** Moves the electron to the spare qubit and then looks for its owner. */
    method RelocateElectron() returns (r: Option<(nat, int)>)
      requires Valid() && processor.Relocating? && processor.app in appMemories
      modifies this`processor, appMemories.Values, device
      ensures Valid() && r.Some? == IsMapped(old(State()).apps, ELECTRON)
      ensures r.Some? ==> Maps(old(State()).apps, r.value.0, r.value.1, ELECTRON)
                          && State() == After(old(State()), MeasRelocate(r.value.0, r.value.1))
      ensures device.psi == ElectronToCarbon(old(processor.spare), old(device.psi))
    {
      MoveToSpare(processor.spare);
      r := MeasureRelocate();
    }

    /** Moves the electron out of the way first. */
    method MeasureViaSpare(nature: bool) returns (r: Option<bool>, ghost owner: (nat, int))
      requires Valid() && processor.Relocating? && Started(State())
      modifies this`processor, this`signalled, memory, appMemories.Values, device
      ensures Valid() && r == if IsMapped(old(State()).apps, ELECTRON) then Some(nature) else None
      ensures r.Some? ==>
                && Maps(old(State()).apps, owner.0, owner.1, ELECTRON)
                && State() == Finished(old(State()), owner.0, owner.1)
                && device.psi == StateAfter(ViaSpare(old(processor.carbon), old(processor.spare)), nature, old(device.psi))
    {
      ghost var psi, c, s := device.psi, processor.carbon, processor.spare;
      var found := RelocateElectron();
      if found.None? {
        return None, (0, 0);
      }
      ghost var moved := device.psi;
      var outcome := MeasureOnElectron(nature);
      CircuitsCompose(c, s, nature, psi, moved, device.psi);
      return Some(outcome), found.value;
    }

    method FinishMeas(nature: bool) returns (r: Option<bool>, ghost owner: (nat, int))
      requires Valid() && Started(State())
      modifies this`processor, this`signalled, memory, appMemories.Values, device
      ensures Valid()
      ensures r == if old(State()).processor.Relocating? && !IsMapped(old(State()).apps, ELECTRON) then None else Some(nature)
      ensures r.Some? && old(processor).Relocating? ==> Maps(old(State()).apps, owner.0, owner.1, ELECTRON)
      ensures r.Some? ==> State() == Finished(old(State()), owner.0, owner.1)
      ensures r.Some? ==> device.psi == StateAfter(RouteOf(old(processor)), nature, old(device.psi))
    {
      var outcome;
      r, owner := None, (0, 0);
      match processor
      case Idle =>
        outcome := MeasureElectron(nature);
        r := Some(outcome);
      case Clearing(_) =>
        outcome := MeasureOnElectron(nature);
        r := Some(outcome);
      case Relocating(_, _, _, _) =>
        r, owner := MeasureViaSpare(nature);
    }

    /** A whole measurement on NV hardware, without steps of other coroutines in between. It
        gives nature's outcome, unless the virtual qubit is not mapped, no spare qubit is left
        for the electron, or nobody owns the electron. */
    method InterpretMeas(app: nat, virt: int, nature: bool) returns (r: Option<bool>, ghost owner: (nat, int))
      requires Valid() && processor.Idle? && IsNv(State()) && Conserved(State())
      modifies this`processor, this`signalled, memory, appMemories.Values, device
      ensures Valid() && r == if CanMeasure(old(State()), app, virt) then Some(nature) else None
      ensures r.Some? && RouteFor(old(State()), app, virt).ViaSpare? ==> Maps(old(State()).apps, owner.0, owner.1, ELECTRON)
      ensures r.Some? ==> State() == Measured(old(State()), app, virt, owner.0, owner.1)
      ensures r.Some? ==> device.psi == StateAfter(RouteFor(old(State()), app, virt), nature, old(device.psi))
    {
      r, owner := None, (0, 0);
      ghost var was := State();
      var started := MeasureStart(app, virt);
      if started {
        StartedState(was, app, virt);
        r, owner := FinishMeas(nature);
      }
    }

    /** The retry loop of the network stack, up to the next yield. */
    method TryAllocComm(app: nat)
      requires Valid() && (netstack.Ready? || netstack == Waiting(app))
      modifies this`netstack, memory
      ensures Valid() && State() == TryComm(old(State()), app)
    {
      var p := memory.AllocateComm();
      netstack := if p.Some? then Holding(app, p.value) else Waiting(app);
    }

    method NetstackAllocKeep(app: nat)
      requires Valid() && netstack.Ready?
      modifies this`netstack, memory
      ensures Valid() && State() == After(old(State()), NetAllocKeep(app))
      ensures netstack == Waiting(app) || (netstack.Holding? && netstack.app == app && netstack.phys in memory.commIds)
    {
      TryAllocComm(app);
    }

    /** Measure-directly requests do not wait: without a free qubit they raise. */
    method NetstackAllocMeasure(app: nat) returns (ok: bool)
      requires Valid() && netstack.Ready?
      modifies this`netstack, memory
      ensures Valid() && ok == Enabled(old(State()), NetAllocMeasure(app))
      ensures State() == if ok then After(old(State()), NetAllocMeasure(app)) else old(State())
    {
      var p := memory.AllocateComm();
      if p.None? {
        return false;
      }
      netstack := Holding(app, p.value);
      return true;
    }

    method OnMemoryFreed()
      requires Valid() && signalled
      modifies this`netstack, this`signalled, memory
      ensures Valid() && State() == After(old(State()), DeliverSignal)
    {
      signalled := false;
      if netstack.Waiting? {
        TryAllocComm(netstack.app);
      }
    }

    /** A delivered pair: the virtual ID gets the qubit that was held for it. */
    method NetstackMap(virt: int)
      requires Valid() && netstack.Holding?
      modifies this`netstack, appMemories.Values
      ensures Valid() && State() == After(old(State()), NetMap(virt))
    {
      if netstack.app in appMemories {
        SetMapping(netstack.app, virt, Some(netstack.phys));
      }
      netstack := Ready;
    }

    method NetstackFree()
      requires Valid() && netstack.Holding? && netstack.phys in memory.taken
      modifies this`netstack, memory
      ensures Valid() && State() == After(old(State()), NetFree)
    {
      var _ := memory.Free(netstack.phys);
      netstack := Ready;
    }

    /** Gives a new application a memory that maps nothing. */
    method AddAppMemory(app: nat)
      requires Valid() && app !in appMemories
      modifies this`appMemories
      ensures Valid() && app in appMemories && fresh(appMemories[app])
      ensures appMemories == old(appMemories)[app := appMemories[app]]
      ensures State() == After(old(State()), InitApp(app))
    {
      var appMem := new AppMemory(app, memory.qubitCount);
      appMemories := appMemories[app := appMem];
    }

    /** Unmaps every virtual qubit of an application and frees its physical qubit, which is
        allocated whenever it is this one's turn. */
    method ReleaseAll(appMem: AppMemory)
      requires IsOneToOne(appMem.virt)
      requires MappedBy(appMem.virt) <= memory.taken
      modifies memory, appMem
      ensures memory.taken == old(memory.taken) - MappedBy(old(appMem.virt))
    {
      var todo := appMem.virt.Keys;
      while todo != {}
        invariant todo <= old(appMem.virt).Keys == appMem.virt.Keys
        invariant forall v :: v in todo ==> appMem.virt[v] == old(appMem.virt)[v]
        invariant forall v :: v in todo && appMem.virt[v].Some? ==> appMem.virt[v].value in memory.taken
        invariant memory.taken == old(memory.taken) - MappedBy(old(appMem.virt) - todo)
      {
        var v := AnyOf(todo);
        var p := appMem.PhysIdFor(v);
        appMem.UnmapVirtId(v);
        MappedByMore(old(appMem.virt), todo, v);
        if p.Some? {
          var ok := memory.Free(p.value);
          assert ok;
        }
        todo := todo - {v};
      }
      assert old(appMem.virt) - {} == old(appMem.virt);
    }

    /** Frees everything an application maps, and forgets the application. */
    method ClearApplication(app: nat)
      requires Valid() && Conserved(State()) && Enabled(State(), StopApp(app))
      modifies this`appMemories, memory, appMemories[app]
      ensures Valid() && State() == After(old(State()), StopApp(app))
      ensures appMemories == old(appMemories) - {app}
    {
      ConservedIsOneToOne(State(), app);
      ReleaseMemory(app);
      assert Mappings() - {app} == old(Mappings()) - {app};
      ForgetMemory(app);
    }

    method ReleaseMemory(app: nat)
      requires Valid() && app in appMemories && IsOneToOne(Mappings()[app]) && MappedBy(Mappings()[app]) <= memory.taken
      modifies memory, appMemories[app]
      ensures Valid()
      ensures State() == old(State()).(taken := old(memory.taken) - MappedBy(old(Mappings()[app])),
                                       apps := old(Mappings())[app := Mappings()[app]])
    {
      ReleaseAll(appMemories[app]);
      assert Mappings() == old(Mappings())[app := Mappings()[app]];
    }

    method ForgetMemory(app: nat)
      requires Valid() && app in appMemories
      modifies this`appMemories
      ensures Valid() && appMemories == old(appMemories) - {app}
      ensures State() == old(State()).(apps := old(State()).apps - {app})
    {
      appMemories := appMemories - {app};
    }
  }

  /** No two virtual qubits share a physical one. */
  predicate IsOneToOne(m: Mapping) {
    forall v, w :: v in m && w in m && m[v].Some? && m[v] == m[w] ==> v == w
  }

  lemma ConservedIsOneToOne(s: Node, app: nat)
    requires Conserved(s) && app in s.apps
    ensures IsOneToOne(s.apps[app])
  {
    var m := s.apps[app];
    forall v, w | v in m && w in m && m[v].Some? && m[v] == m[w]
      ensures v == w
    {
      assert Maps(s.apps, app, v, m[v].value) && Maps(s.apps, app, w, m[v].value);
    }
  }

  lemma MappedByMore(m: Mapping, todo: set<int>, v: int)
    requires v in todo && todo <= m.Keys
    ensures MappedBy(m - (todo - {v})) == MappedBy(m - todo) + if m[v].Some? then {m[v].value} else {}
  {
    var more, less := m - (todo - {v}), m - todo;
    forall w | w in more
      ensures w == v || (w in less && less[w] == more[w])
    {
    }
    assert forall w :: w in less ==> w in more && more[w] == less[w];
    if m[v].Some? {
      assert more[v] == m[v];
    }
  }

  /** Stopping an application is always possible while the processor is idle. */
  lemma CanStop(s: Node, a: nat)
    requires Conserved(s) && a in s.apps && s.processor.Idle?
    ensures Enabled(s, StopApp(a))
  {
    DropUnmaps(s.apps, a);
  }
}
