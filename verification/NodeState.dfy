/**
 The qubit bookkeeping of one node: the allocator, the virtual-to-physical maps of all
 applications, and the qubits that the processor or the network stack has in hand.
 Processor, network stack and handler are coroutines; every step below is one stretch of
 code between two yields, and a run is any interleaving of such steps.
 */
module NodeState {
  import opened Options
  import opened QDevice

  type Mapping = map<int, Option<nat>>
  type Apps = map<nat, Mapping>

  /** Where the processor stands in a measurement: during the move of the electron to a
      spare carbon, or during the move of the measured carbon to the electron. */
  datatype Processor = Idle | Relocating(app: nat, virt: int, carbon: nat, spare: nat) | Clearing(carbon: nat)

  /** Where the network stack stands: without a qubit, blocked because no communication
      qubit was free, or holding one while the link layer works. */
  datatype Netstack = Ready | Waiting(app: nat) | Holding(app: nat, phys: nat)

  datatype Node = Node(nv: bool, count: nat, comm: set<nat>, taken: set<nat>, apps: Apps,
                       processor: Processor, netstack: Netstack, signalled: bool)

  datatype Kind = AnyQubit | CommQubit | MemQubit

  datatype Event =
    | InitApp(app: nat)
    | StopApp(app: nat)
    | QAlloc(app: nat, virt: int)
    | QFree(app: nat, virt: int)
    | MeasStart(app: nat, virt: int)
    | MeasRelocate(elecApp: nat, elecVirt: int)
    | MeasFree
    | NetAllocKeep(app: nat)
    | NetAllocMeasure(app: nat)
    | DeliverSignal
    | NetMap(virt: int)
    | NetFree

  predicate IsNv(s: Node) {
    s.nv && s.count > 0 && s.comm == {ELECTRON}
  }

  predicate Eligible(comm: set<nat>, kind: Kind, i: nat) {
    match kind
    case AnyQubit => true
    case CommQubit => i in comm
    case MemQubit => i !in comm
  }

  /** The scan of the three allocation functions, from qubit `i` upwards. */
  function LowestFree(count: nat, comm: set<nat>, taken: set<nat>, kind: Kind, i: nat): (r: Option<nat>)
    ensures r.Some? ==> i <= r.value < count && r.value !in taken && Eligible(comm, kind, r.value)
    ensures forall j: nat :: i <= j < (if r.Some? then r.value else count) ==> j in taken || !Eligible(comm, kind, j)
    decreases count - i
  {
    if i >= count then None
    else if i !in taken && Eligible(comm, kind, i) then Some(i)
    else LowestFree(count, comm, taken, kind, i + 1)
  }

  function Free(s: Node, kind: Kind): Option<nat> {
    LowestFree(s.count, s.comm, s.taken, kind, 0)
  }

  predicate Maps(apps: Apps, a: nat, v: int, p: nat) {
    a in apps && v in apps[a] && apps[a][v] == Some(p)
  }

  ghost predicate IsMapped(apps: Apps, p: nat) {
    exists a, v :: Maps(apps, a, v, p)
  }

  predicate Unmapped(apps: Apps, a: nat, v: int) {
    a in apps && (v in apps[a] ==> apps[a][v].None?)
  }

  function MapTo(apps: Apps, a: nat, v: int, target: Option<nat>): Apps
    requires a in apps
  {
    apps[a := apps[a][v := target]]
  }

  /** The virtual qubits of a new application, all unmapped. */
  function FreshMapping(count: nat): (m: Mapping)
    ensures forall v :: v in m <==> 0 <= v < count
    ensures forall v :: v in m ==> m[v].None?
  {
    if count == 0 then map[] else FreshMapping(count - 1)[count - 1 := None]
  }

  /** Everything an application maps. */
  function MappedBy(m: Mapping): set<nat> {
    set v | v in m && m[v].Some? :: m[v].value
  }

  /** On NV hardware virtual ID 0 is a communication qubit and larger IDs are memory. */
  function KindFor(s: Node, virt: int): Kind {
    if !s.nv then AnyQubit else if virt > 0 then MemQubit else CommQubit
  }

  /** When the code of a step runs through without an exception. */
  predicate Enabled(s: Node, event: Event) {
    match event
    case InitApp(a) => a !in s.apps
    case StopApp(a) => a in s.apps && s.processor.Idle? && MappedBy(s.apps[a]) <= s.taken
    case QAlloc(a, v) => a in s.apps && s.processor.Idle? && Free(s, KindFor(s, v)).Some?
    case QFree(a, v) =>
      s.processor.Idle? && a in s.apps && v in s.apps[a] && s.apps[a][v].Some? && s.apps[a][v].value in s.taken
    case MeasStart(a, v) =>
      && IsNv(s) && s.processor.Idle? && a in s.apps && v in s.apps[a] && s.apps[a][v].Some?
      && (s.apps[a][v].value != ELECTRON && ELECTRON in s.taken ==> Free(s, AnyQubit).Some?)
    case MeasRelocate(ea, ev) =>
      s.processor.Relocating? && Maps(s.apps, ea, ev, ELECTRON) && s.processor.app in s.apps
    case MeasFree => s.processor.Clearing? && s.processor.carbon in s.taken
    case NetAllocKeep(a) => s.netstack.Ready?
    case NetAllocMeasure(a) => s.netstack.Ready? && Free(s, CommQubit).Some?
    case DeliverSignal => s.signalled
    case NetMap(v) => s.netstack.Holding?
    case NetFree => s.netstack.Holding? && s.netstack.phys in s.taken
  }

  /** `allocate_comm` in the retry loop of the network stack. */
  function TryComm(s: Node, app: nat): Node {
    match Free(s, CommQubit)
    case None => s.(netstack := Waiting(app))
    case Some(q) => s.(netstack := Holding(app, q), taken := s.taken + {q})
  }

  function After(s: Node, event: Event): Node
    requires Enabled(s, event)
  {
    match event
    case InitApp(a) => s.(apps := s.apps[a := FreshMapping(s.count)])
    case StopApp(a) => s.(apps := s.apps - {a}, taken := s.taken - MappedBy(s.apps[a]))
    case QAlloc(a, v) =>
      var p := Free(s, KindFor(s, v)).value;
      s.(taken := s.taken + {p}, apps := MapTo(s.apps, a, v, Some(p)))
    case QFree(a, v) =>
      s.(taken := s.taken - {s.apps[a][v].value}, apps := MapTo(s.apps, a, v, None), signalled := true)
    case MeasStart(a, v) =>
      var p := s.apps[a][v].value;
      if p == ELECTRON then s
      else if ELECTRON in s.taken then
        var spare := Free(s, AnyQubit).value;
        s.(taken := s.taken + {spare}, processor := Relocating(a, v, p, spare))
      else
        s.(taken := s.taken + {ELECTRON}, apps := MapTo(s.apps, a, v, Some(ELECTRON)), processor := Clearing(p))
    case MeasRelocate(ea, ev) =>
      var moved := MapTo(s.apps, ea, ev, Some(s.processor.spare));
      s.(apps := MapTo(moved, s.processor.app, s.processor.virt, Some(ELECTRON)),
         processor := Clearing(s.processor.carbon))
    case MeasFree =>
      s.(taken := s.taken - {s.processor.carbon}, processor := Idle, signalled := true)
    case NetAllocKeep(a) => TryComm(s, a)
    case NetAllocMeasure(a) => TryComm(s, a)
    case DeliverSignal =>
      var woken := s.(signalled := false);
      if s.netstack.Waiting? then TryComm(woken, s.netstack.app) else woken
    case NetMap(v) =>
      var a := s.netstack.app;
      // A stopped application's memory is no longer listed: the mapping is lost with it.
      s.(netstack := Ready, apps := if a in s.apps then MapTo(s.apps, a, v, Some(s.netstack.phys)) else s.apps)
    case NetFree => s.(netstack := Ready, taken := s.taken - {s.netstack.phys})
  }

  function InTransit(processor: Processor): set<nat> {
    match processor
    case Idle => {}
    case Relocating(_, _, _, spare) => {spare}
    case Clearing(carbon) => {carbon}
  }

  function Held(netstack: Netstack): set<nat> {
    if netstack.Holding? then {netstack.phys} else {}
  }

  ghost predicate Injective(apps: Apps) {
    forall a, v, a2, v2, p :: Maps(apps, a, v, p) && Maps(apps, a2, v2, p) ==> a == a2 && v == v2
  }

  /** The allocated qubits are the disjoint union of those mapped by some application, those
      in transit in a measurement and those the network stack holds; none is mapped twice. */
  ghost predicate Conserved(s: Node) {
    && InTransit(s.processor) + Held(s.netstack) <= s.taken
    && InTransit(s.processor) !! Held(s.netstack)
    && (forall p :: p in s.taken ==> p < s.count)
    && (forall p :: p in s.taken ==> p in InTransit(s.processor) || p in Held(s.netstack) || IsMapped(s.apps, p))
    && (forall p :: IsMapped(s.apps, p) ==> p in s.taken && p !in InTransit(s.processor) && p !in Held(s.netstack))
    && Injective(s.apps)
    && (s.processor.Relocating? ==>
          && s.processor.carbon != ELECTRON && s.processor.spare != ELECTRON
          && Maps(s.apps, s.processor.app, s.processor.virt, s.processor.carbon))
  }

  /** A step that maps a virtual ID maps one that is unmapped, of an application that runs. */
  predicate MapsUnmapped(s: Node, event: Event) {
    match event
    case QAlloc(a, v) => Unmapped(s.apps, a, v)
    case NetMap(v) => s.netstack.Holding? ==> Unmapped(s.apps, s.netstack.app, v)
    case _ => true
  }

  lemma MapToMaps(apps: Apps, a: nat, v: int, target: Option<nat>)
    requires a in apps
    ensures forall a2: nat, v2, p: nat :: Maps(MapTo(apps, a, v, target), a2, v2, p) <==>
              if a2 == a && v2 == v then target == Some(p) else Maps(apps, a2, v2, p)
  {
  }

  /** Mapping an unmapped ID adds the one qubit to the mapped ones. */
  lemma MapAdds(apps: Apps, a: nat, v: int, q: nat)
    requires Unmapped(apps, a, v) && Injective(apps) && !IsMapped(apps, q)
    ensures Injective(MapTo(apps, a, v, Some(q)))
    ensures forall p: nat :: IsMapped(MapTo(apps, a, v, Some(q)), p) <==> p == q || IsMapped(apps, p)
  {
    var apps' := MapTo(apps, a, v, Some(q));
    MapToMaps(apps, a, v, Some(q));
    assert Maps(apps', a, v, q);
    forall p | IsMapped(apps, p)
      ensures IsMapped(apps', p)
    {
      var a2, v2 :| Maps(apps, a2, v2, p);
      assert Maps(apps', a2, v2, p);
    }
  }

  /** Redirecting a mapped ID to an unmapped qubit exchanges the two qubits. */
  lemma MapExchanges(apps: Apps, a: nat, v: int, was: nat, target: Option<nat>)
    requires Maps(apps, a, v, was) && Injective(apps)
    requires target.Some? ==> !IsMapped(apps, target.value)
    ensures Injective(MapTo(apps, a, v, target))
    ensures forall p: nat :: IsMapped(MapTo(apps, a, v, target), p) <==> target == Some(p) || (IsMapped(apps, p) && p != was)
  {
    var apps' := MapTo(apps, a, v, target);
    MapToMaps(apps, a, v, target);
    assert target.Some? ==> Maps(apps', a, v, target.value);
    forall p | IsMapped(apps, p) && p != was
      ensures IsMapped(apps', p)
    {
      var a2, v2 :| Maps(apps, a2, v2, p);
      assert Maps(apps', a2, v2, p);
    }
  }

  /** Dropping an application unmaps exactly the qubits it mapped. */
  lemma DropUnmaps(apps: Apps, a: nat)
    requires a in apps && Injective(apps)
    ensures Injective(apps - {a})
    ensures forall p: nat :: p in MappedBy(apps[a]) ==> IsMapped(apps, p)
    ensures forall p: nat :: IsMapped(apps - {a}, p) <==> IsMapped(apps, p) && p !in MappedBy(apps[a])
  {
    forall a2: nat, v2, p: nat
      ensures Maps(apps - {a}, a2, v2, p) <==> Maps(apps, a2, v2, p) && a2 != a
    {
    }
    forall p: nat | p in MappedBy(apps[a])
      ensures IsMapped(apps, p)
    {
      var v :| v in apps[a] && apps[a][v] == Some(p);
      assert Maps(apps, a, v, p);
    }
    forall p: nat | IsMapped(apps - {a}, p)
      ensures IsMapped(apps, p) && p !in MappedBy(apps[a])
    {
      var a2, v2 :| Maps(apps - {a}, a2, v2, p);
      assert Maps(apps, a2, v2, p);
      if p in MappedBy(apps[a]) {
        var v :| v in apps[a] && apps[a][v] == Some(p);
        assert Maps(apps, a, v, p);
        assert false;
      }
    }
    forall p | IsMapped(apps, p) && p !in MappedBy(apps[a])
      ensures IsMapped(apps - {a}, p)
    {
      var a2, v2 :| Maps(apps, a2, v2, p);
      assert Maps(apps - {a}, a2, v2, p);
    }
  }

  lemma InitKeeps(apps: Apps, a: nat, count: nat)
    requires a !in apps && Injective(apps)
    ensures Injective(apps[a := FreshMapping(count)])
    ensures forall p: nat :: IsMapped(apps[a := FreshMapping(count)], p) <==> IsMapped(apps, p)
  {
    var apps' := apps[a := FreshMapping(count)];
    forall a2: nat, v2, p: nat
      ensures Maps(apps', a2, v2, p) <==> Maps(apps, a2, v2, p)
    {
    }
  }

  lemma QAllocConserves(s: Node, a: nat, v: int)
    requires Conserved(s) && Enabled(s, QAlloc(a, v)) && Unmapped(s.apps, a, v)
    ensures Conserved(After(s, QAlloc(a, v)))
  {
    MapAdds(s.apps, a, v, Free(s, KindFor(s, v)).value);
  }

  lemma QFreeConserves(s: Node, a: nat, v: int)
    requires Conserved(s) && Enabled(s, QFree(a, v))
    ensures Conserved(After(s, QFree(a, v)))
  {
    assert Maps(s.apps, a, v, s.apps[a][v].value);
    MapExchanges(s.apps, a, v, s.apps[a][v].value, None);
  }

  lemma MeasStartConserves(s: Node, a: nat, v: int)
    requires Conserved(s) && Enabled(s, MeasStart(a, v))
    ensures Conserved(After(s, MeasStart(a, v)))
  {
    var p := s.apps[a][v].value;
    assert Maps(s.apps, a, v, p);
    assert IsMapped(s.apps, p);
    if p != ELECTRON && ELECTRON !in s.taken {
      MapExchanges(s.apps, a, v, p, Some(ELECTRON));
    }
  }

  lemma MeasRelocateConserves(s: Node, ea: nat, ev: int)
    requires Conserved(s) && Enabled(s, MeasRelocate(ea, ev))
    ensures Conserved(After(s, MeasRelocate(ea, ev)))
  {
    var r := s.processor;
    var moved := MapTo(s.apps, ea, ev, Some(r.spare));
    assert IsMapped(s.apps, r.carbon);
    MapExchanges(s.apps, ea, ev, ELECTRON, Some(r.spare));
    MapToMaps(s.apps, ea, ev, Some(r.spare));
    MapExchanges(moved, r.app, r.virt, r.carbon, Some(ELECTRON));
  }

  lemma NetMapConserves(s: Node, v: int)
    requires Conserved(s) && s.netstack.Holding? && Unmapped(s.apps, s.netstack.app, v)
    ensures Conserved(After(s, NetMap(v)))
  {
    MapAdds(s.apps, s.netstack.app, v, s.netstack.phys);
    MapToMaps(s.apps, s.netstack.app, v, Some(s.netstack.phys));
  }

  lemma TryCommConserves(s: Node, app: nat)
    requires Conserved(s) && !s.netstack.Holding?
    ensures Conserved(TryComm(s, app))
  {
  }

  /** The network stack's steps other than mapping. */
  lemma NetConserves(s: Node, event: Event)
    requires Conserved(s) && Enabled(s, event)
    requires event.NetAllocKeep? || event.NetAllocMeasure? || event.DeliverSignal? || event.NetFree?
    ensures Conserved(After(s, event))
  {
    match event
    case NetAllocKeep(a) => TryCommConserves(s, a);
    case NetAllocMeasure(a) => TryCommConserves(s, a);
    case DeliverSignal =>
      if s.netstack.Waiting? {
        TryCommConserves(s.(signalled := false), s.netstack.app);
      }
    case NetFree =>
  }

  /** Every step that maps no mapped ID keeps the bookkeeping exact. */
  lemma StepConserves(s: Node, event: Event)
    requires Conserved(s) && Enabled(s, event) && MapsUnmapped(s, event)
    ensures Conserved(After(s, event))
  {
    match event
    case InitApp(a) => InitKeeps(s.apps, a, s.count);
    case StopApp(a) => DropUnmaps(s.apps, a);
    case QAlloc(a, v) => QAllocConserves(s, a, v);
    case QFree(a, v) => QFreeConserves(s, a, v);
    case MeasStart(a, v) => MeasStartConserves(s, a, v);
    case MeasRelocate(ea, ev) => MeasRelocateConserves(s, ea, ev);
    case MeasFree =>
    case NetMap(v) => NetMapConserves(s, v);
    case _ => NetConserves(s, event);
  }

  /** Exactly: a mapping step that hits a mapped ID, or the ID of a stopped application,
      loses a qubit for good. */
  lemma RemapLosesQubit(s: Node, event: Event)
    requires Conserved(s) && Enabled(s, event)
    ensures Conserved(After(s, event)) <==> MapsUnmapped(s, event)
  {
    if MapsUnmapped(s, event) {
      StepConserves(s, event);
    } else if event.QAlloc? {
      RemapUnmaps(s.apps, event.app, event.virt, Free(s, KindFor(s, event.virt)).value);
    } else if s.netstack.app in s.apps {
      RemapUnmaps(s.apps, s.netstack.app, event.virt, s.netstack.phys);
    }
  }

  lemma RemapUnmaps(apps: Apps, a: nat, v: int, q: nat)
    requires a in apps && v in apps[a] && apps[a][v].Some? && Injective(apps) && !IsMapped(apps, q)
    ensures IsMapped(apps, apps[a][v].value) && !IsMapped(MapTo(apps, a, v, Some(q)), apps[a][v].value)
  {
    assert Maps(apps, a, v, apps[a][v].value);
    MapToMaps(apps, a, v, Some(q));
  }

  /** A blocked network stack has no free communication qubit, or is about to be woken. */
  predicate NoLostWakeup(s: Node) {
    s.netstack.Waiting? ==> s.signalled || Free(s, CommQubit).None?
  }

  /** Stopping an application frees its qubits without a signal. */
  predicate StopsQuietly(s: Node, event: Event) {
    event.StopApp? && event.app in s.apps ==>
      s.netstack.Waiting? && !s.signalled ==> forall q :: q in MappedBy(s.apps[event.app]) && q < s.count ==> q !in s.comm
  }

  lemma NoCommFree(s: Node)
    ensures Free(s, CommQubit).None? <==> forall q :: q in s.comm && q < s.count ==> q in s.taken
  {
  }

  /** Exactly: only an application that is stopped with a communication qubit while the
      network stack is blocked loses a wake-up. */
  lemma {:induction false} StepKeepsWakeup(s: Node, event: Event)
    requires NoLostWakeup(s) && Enabled(s, event)
    ensures NoLostWakeup(After(s, event)) <==> StopsQuietly(s, event)
  {
    NoCommFree(s);
    NoCommFree(After(s, event));
  }

  /** A signal that reaches a blocked network stack makes it retry: it takes a free
      communication qubit if there is one, and blocks again if the signal was spurious. */
  lemma {:induction false} SignalRetries(s: Node)
    requires s.netstack.Waiting? && s.signalled
    ensures var s' := After(s, DeliverSignal);
            && s'.apps == s.apps && s'.processor == s.processor && !s'.signalled
            && ((exists q :: q in s.comm && q < s.count && q !in s.taken) <==> s'.netstack.Holding?)
            && (s'.netstack.Holding? ==>
                  s'.netstack.app == s.netstack.app && s'.netstack.phys in s.comm - s.taken
                  && s'.taken == s.taken + {s'.netstack.phys})
            && (!s'.netstack.Holding? ==> s'.netstack == s.netstack && s'.taken == s.taken)
  {
    NoCommFree(s);
  }

  /** The electron that a measurement is moving out of the way belongs to an application. */
  ghost predicate ElectronOwned(s: Node) {
    s.processor.Relocating? ==> IsMapped(s.apps, ELECTRON)
  }

  /** No measurement of a carbon starts while the network stack holds the electron. */
  predicate ElectronNotHeld(s: Node, event: Event) {
    event.MeasStart? ==> Maps(s.apps, event.app, event.virt, ELECTRON) || ELECTRON !in Held(s.netstack)
  }

  lemma StepKeepsElectronOwned(s: Node, event: Event)
    requires Conserved(s) && ElectronOwned(s) && Enabled(s, event) && MapsUnmapped(s, event)
    requires ElectronNotHeld(s, event)
    ensures ElectronOwned(After(s, event))
  {
    match event
    case InitApp(a) => InitKeeps(s.apps, a, s.count);
    case NetMap(v) => MapAdds(s.apps, s.netstack.app, v, s.netstack.phys);
    case _ =>
  }

  /** At the moment of the search: it succeeds exactly when the electron is allocated and not in
      the network stack's hands. */
  lemma SearchSucceedsNow(s: Node)
    requires Conserved(s) && s.processor.Relocating?
    ensures (exists ea, ev :: Enabled(s, MeasRelocate(ea, ev))) <==> ELECTRON in s.taken && ELECTRON !in Held(s.netstack)
  {
    if ELECTRON in s.taken && ELECTRON !in Held(s.netstack) {
      var ea, ev :| Maps(s.apps, ea, ev, ELECTRON);
      assert Enabled(s, MeasRelocate(ea, ev));
    }
  }

  // What the steps do to qubits and mappings.

  /** The qubits that an allocation for virtual ID `v` may take: on NV hardware communication
      qubits for IDs up to 0, and memory qubits for larger ones. */
  predicate IsOnSide(s: Node, v: int, q: nat) {
    s.nv ==> (q in s.comm <==> v <= 0)
  }

  /** Of all virtual qubits, only `v` of application `a` is mapped differently: to `target`. */
  ghost predicate OnlyRemaps(apps: Apps, apps': Apps, a: nat, v: int, target: Option<nat>) {
    && apps'.Keys == apps.Keys
    && forall a2, v2, q: nat ::
         Maps(apps', a2, v2, q) <==> if a2 == a && v2 == v then target == Some(q) else Maps(apps, a2, v2, q)
  }

  /** Virtual ID `v` of application `a` gets the lowest free qubit of its side. */
  ghost predicate TakesLowest(s: Node, s': Node, a: nat, v: int) {
    exists q: nat ::
      && q < s.count && q !in s.taken && IsOnSide(s, v, q)
      && (forall j: nat :: j < q && IsOnSide(s, v, j) ==> j in s.taken)
      && s' == s.(taken := s.taken + {q}, apps := s'.apps) && OnlyRemaps(s.apps, s'.apps, a, v, Some(q))
  }

  /** An allocation takes the right kind of qubit, and is refused only when there is none. */
  lemma QAllocTakesLowest(s: Node, a: nat, v: int)
    requires a in s.apps && s.processor.Idle?
    ensures Enabled(s, QAlloc(a, v)) <==> exists q: nat :: q < s.count && IsOnSide(s, v, q) && q !in s.taken
    ensures Enabled(s, QAlloc(a, v)) ==> TakesLowest(s, After(s, QAlloc(a, v)), a, v)
  {
    if Enabled(s, QAlloc(a, v)) {
      var q := Free(s, KindFor(s, v)).value;
      MapToMaps(s.apps, a, v, Some(q));
      assert IsOnSide(s, v, q);
    }
  }

  /** Freeing gives back the qubit that the virtual ID was mapped to, and signals it. */
  lemma QFreeReleases(s: Node, a: nat, v: int, q: nat)
    requires Enabled(s, QFree(a, v)) && Maps(s.apps, a, v, q)
    ensures var s' := After(s, QFree(a, v));
            s' == s.(taken := s.taken - {q}, apps := s'.apps, signalled := true) && OnlyRemaps(s.apps, s'.apps, a, v, None)
  {
    MapToMaps(s.apps, a, v, None);
  }

  /** Stopping forgets one application and gives back exactly the qubits that it mapped. */
  lemma StopReleases(s: Node, a: nat)
    requires Enabled(s, StopApp(a))
    ensures var s' := After(s, StopApp(a));
            && s' == s.(taken := s'.taken, apps := s'.apps) && s'.apps.Keys == s.apps.Keys - {a}
            && (forall a2, v, q :: Maps(s'.apps, a2, v, q) <==> a2 != a && Maps(s.apps, a2, v, q))
            && (forall q: nat :: q in s'.taken <==> q in s.taken && !exists v :: Maps(s.apps, a, v, q))
  {
    forall q: nat
      ensures q in MappedBy(s.apps[a]) <==> exists v :: Maps(s.apps, a, v, q)
    {
      if q in MappedBy(s.apps[a]) {
        var v :| v in s.apps[a] && s.apps[a][v] == Some(q);
        assert Maps(s.apps, a, v, q);
      }
    }
  }

  /** A new application has one virtual qubit per physical one, none of them mapped. */
  lemma InitMapsNothing(s: Node, a: nat)
    requires Enabled(s, InitApp(a))
    ensures var s' := After(s, InitApp(a));
            && s' == s.(apps := s'.apps) && s'.apps.Keys == s.apps.Keys + {a}
            && (forall v :: v in s'.apps[a] <==> 0 <= v < s.count)
            && (forall a2, v, q :: Maps(s'.apps, a2, v, q) <==> Maps(s.apps, a2, v, q))
  {
  }

  // Runs.

  /** What the code relies on its callers for, step by step. */
  predicate Disciplined(s: Node, event: Event) {
    MapsUnmapped(s, event) && StopsQuietly(s, event) && ElectronNotHeld(s, event)
  }

  /** Any interleaving of steps that raise no exception. */
  predicate IsRun(s: Node, events: seq<Event>)
    decreases |events|
  {
    events == [] || (Enabled(s, events[0]) && IsRun(After(s, events[0]), events[1..]))
  }

  function Final(s: Node, events: seq<Event>): Node
    requires IsRun(s, events)
    decreases |events|
  {
    if events == [] then s else Final(After(s, events[0]), events[1..])
  }

  /** A run in which the callers keep to what the code relies on. */
  predicate IsDisciplined(s: Node, events: seq<Event>)
    requires IsRun(s, events)
    decreases |events|
  {
    events == [] || (Disciplined(s, events[0]) && IsDisciplined(After(s, events[0]), events[1..]))
  }

  lemma OneMore(s: Node, first: Event, more: seq<Event>)
    requires Enabled(s, first) && IsRun(After(s, first), more)
    ensures IsRun(s, [first] + more) && Final(s, [first] + more) == Final(After(s, first), more)
    ensures IsDisciplined(s, [first] + more) <==> Disciplined(s, first) && IsDisciplined(After(s, first), more)
  {
    assert ([first] + more)[1..] == more;
  }

  ghost predicate Good(s: Node) {
    Conserved(s) && NoLostWakeup(s) && ElectronOwned(s)
  }

  lemma {:induction false} RunKeepsGood(s: Node, events: seq<Event>)
    requires Good(s) && IsRun(s, events) && IsDisciplined(s, events)
    ensures Good(Final(s, events))
    decreases |events|
  {
    if events != [] {
      StepConserves(s, events[0]);
      StepKeepsWakeup(s, events[0]);
      StepKeepsElectronOwned(s, events[0]);
      RunKeepsGood(After(s, events[0]), events[1..]);
    }
  }

  function Boot(nv: bool, count: nat, comm: set<nat>): Node {
    Node(nv, count, comm, {}, map[], Idle, Ready, false)
  }

  /** After any disciplined interleaving from boot: the allocated qubits are exactly accounted
      for, a measurement under way can go on, a blocked network stack that could go on is about
      to be woken, and a node without applications at rest has every qubit free. */
  lemma EveryRunIsGood(nv: bool, count: nat, comm: set<nat>, events: seq<Event>)
    requires IsRun(Boot(nv, count, comm), events) && IsDisciplined(Boot(nv, count, comm), events)
    ensures var s := Final(Boot(nv, count, comm), events);
            && Conserved(s)
            && (s.processor.Relocating? ==> exists ea, ev :: Enabled(s, MeasRelocate(ea, ev)))
            && (s.processor.Clearing? ==> Enabled(s, MeasFree))
            && (s.netstack.Waiting? && Free(s, CommQubit).Some? ==> Enabled(s, DeliverSignal))
            && (s.apps == map[] && s.processor.Idle? && s.netstack.Ready? ==> s.taken == {})
  {
    RunKeepsGood(Boot(nv, count, comm), events);
    var s := Final(Boot(nv, count, comm), events);
    if s.processor.Relocating? {
      var ea, ev :| Maps(s.apps, ea, ev, ELECTRON);
      assert Enabled(s, MeasRelocate(ea, ev));
    }
  }

  // What a request for a pair does.

  /** The network stack waits for a communication qubit, or holds one, on behalf of `a`. */
  predicate WorksFor(s: Node, a: nat) {
    match s.netstack
    case Ready => false
    case Waiting(b) => b == a
    case Holding(b, q) => b == a && q in s.comm && q < s.count
  }

  /** The first step of a request takes the lowest free communication qubit for the application
      that asked, or waits for one if none is free. */
  lemma RequestBegins(s: Node, a: nat)
    requires Enabled(s, NetAllocKeep(a))
    ensures var s' := After(s, NetAllocKeep(a));
            if exists q: nat :: q in s.comm && q < s.count && q !in s.taken then
              exists q: nat ::
                && q in s.comm && q < s.count && q !in s.taken && (forall j: nat :: j < q && j in s.comm ==> j in s.taken)
                && s' == s.(netstack := Holding(a, q), taken := s.taken + {q})
            else s' == s.(netstack := Waiting(a))
  {
    NoCommFree(s);
  }

  /** The steps of processor and handler, and signals, while the network stack is busy; the
      application that it works for is not stopped. */
  predicate LeavesRequest(event: Event, a: nat) {
    && !event.NetAllocKeep? && !event.NetAllocMeasure? && !event.NetMap? && !event.NetFree?
    && event != StopApp(a)
  }

  predicate OnlyLeaveRequest(events: seq<Event>, a: nat) {
    forall i :: 0 <= i < |events| ==> LeavesRequest(events[i], a)
  }

  lemma {:induction false} RequestIsLeft(s: Node, events: seq<Event>, a: nat)
    requires IsRun(s, events) && OnlyLeaveRequest(events, a) && WorksFor(s, a) && a in s.apps
    ensures var s' := Final(s, events);
            WorksFor(s', a) && a in s'.apps && s'.comm == s.comm && s'.count == s.count
            && (s.netstack.Holding? ==> s'.netstack == s.netstack)
    decreases |events|
  {
    if events != [] {
      RequestIsLeft(After(s, events[0]), events[1..], a);
    }
  }

  /** A delivery maps the qubit that is held, for the application that it is held for. */
  lemma {:induction false} DeliveryMaps(s: Node, a: nat, v: int, q: nat)
    requires s.netstack == Holding(a, q) && a in s.apps
    ensures var s' := After(s, NetMap(v));
            s' == s.(netstack := Ready, apps := s'.apps) && OnlyRemaps(s.apps, s'.apps, a, v, Some(q))
  {
    MapToMaps(s.apps, a, v, Some(q));
  }

  /** The pair of a keep request reaches the application that asked for it: whatever processor
      and handler do between the request and the delivery, the delivery maps the virtual ID to
      the communication qubit taken for the request, and changes no other mapping. */
  lemma PairReachesApp(s: Node, a: nat, events: seq<Event>, v: int)
    requires a in s.apps && Enabled(s, NetAllocKeep(a))
    requires IsRun(After(s, NetAllocKeep(a)), events) && OnlyLeaveRequest(events, a)
    requires Enabled(Final(After(s, NetAllocKeep(a)), events), NetMap(v))
    ensures var s1 := After(s, NetAllocKeep(a));
            var s2 := Final(s1, events);
            var s3 := After(s2, NetMap(v));
            exists q: nat ::
              && q in s.comm && q < s.count && s2.netstack == Holding(a, q)
              && (s1.netstack.Holding? ==> q !in s.taken && s1.netstack == s2.netstack)
              && s3 == s2.(netstack := Ready, apps := s3.apps) && OnlyRemaps(s2.apps, s3.apps, a, v, Some(q))
  {
    RequestBegins(s, a);
    RequestIsLeft(After(s, NetAllocKeep(a)), events, a);
    var s2 := Final(After(s, NetAllocKeep(a)), events);
    DeliveryMaps(s2, a, v, s2.netstack.phys);
  }

  /** And that qubit is then nobody else's. */
  lemma PairIsNobodyElses(s: Node, a: nat, events: seq<Event>, v: int)
    requires Conserved(s) && a in s.apps && Enabled(s, NetAllocKeep(a))
    requires IsRun(After(s, NetAllocKeep(a)), events) && OnlyLeaveRequest(events, a)
    requires IsDisciplined(After(s, NetAllocKeep(a)), events)
    requires Enabled(Final(After(s, NetAllocKeep(a)), events), NetMap(v))
    ensures var s2 := Final(After(s, NetAllocKeep(a)), events);
            s2.netstack.Holding? && s2.netstack.phys in s2.taken
            && forall a2, v2 :: Maps(After(s2, NetMap(v)).apps, a2, v2, s2.netstack.phys) <==> a2 == a && v2 == v
  {
    PairReachesApp(s, a, events, v);
    StepConserves(s, NetAllocKeep(a));
    DisciplinedConserves(After(s, NetAllocKeep(a)), events);
    var s2 := Final(After(s, NetAllocKeep(a)), events);
    assert s2.netstack.phys in Held(s2.netstack) && !IsMapped(s2.apps, s2.netstack.phys);
  }

  lemma {:induction false} DisciplinedConserves(s: Node, events: seq<Event>)
    requires Conserved(s) && IsRun(s, events) && IsDisciplined(s, events)
    ensures Conserved(Final(s, events))
    decreases |events|
  {
    if events != [] {
      StepConserves(s, events[0]);
      DisciplinedConserves(After(s, events[0]), events[1..]);
    }
  }

  /** A measure-directly request takes a communication qubit and gives the same one back, with
      every mapping as the other coroutines left it. */
  lemma MeasuredPairReturns(s: Node, a: nat, events: seq<Event>)
    requires a in s.apps && Enabled(s, NetAllocMeasure(a))
    requires IsRun(After(s, NetAllocMeasure(a)), events) && OnlyLeaveRequest(events, a)
    requires Enabled(Final(After(s, NetAllocMeasure(a)), events), NetFree)
    ensures var s2 := Final(After(s, NetAllocMeasure(a)), events);
            exists q: nat ::
              && q in s.comm && q < s.count && q !in s.taken && (forall j: nat :: j < q && j in s.comm ==> j in s.taken)
              && s2.netstack == Holding(a, q) && After(s2, NetFree) == s2.(netstack := Ready, taken := s2.taken - {q})
  {
    RequestIsLeft(After(s, NetAllocMeasure(a)), events, a);
  }

  // What other coroutines do during a measurement.

  /** The steps of the network stack and the handler. */
  predicate ByOthers(event: Event) {
    !event.QAlloc? && !event.QFree? && !event.MeasStart? && !event.MeasRelocate? && !event.MeasFree?
  }

  predicate OnlyOthers(events: seq<Event>) {
    forall i :: 0 <= i < |events| ==> ByOthers(events[i])
  }

  /** What is left alone: the processor's own state, every mapping that exists, and every qubit
      that is allocated and not in the network stack's hands. */
  ghost predicate LeftAlone(s: Node, s': Node) {
    && s'.processor == s.processor
    && (forall a, v, q :: Maps(s.apps, a, v, q) ==> Maps(s'.apps, a, v, q))
    && (forall q :: q in s.taken && q !in Held(s.netstack) ==> q in s'.taken && q !in Held(s'.netstack))
  }

  lemma OthersLeaveAlone(s: Node, event: Event)
    requires Conserved(s) && !s.processor.Idle? && Enabled(s, event) && ByOthers(event) && MapsUnmapped(s, event)
    ensures LeftAlone(s, After(s, event))
  {
    if event.NetMap? && s.netstack.app in s.apps {
      MapToMaps(s.apps, s.netstack.app, event.virt, Some(s.netstack.phys));
    }
  }

  /** While a measurement is under way, no run of other coroutines touches its qubits. */
  lemma {:induction false} OtherRunsLeaveAlone(s: Node, events: seq<Event>)
    requires Conserved(s) && !s.processor.Idle?
    requires IsRun(s, events) && IsDisciplined(s, events) && OnlyOthers(events)
    ensures Conserved(Final(s, events)) && LeftAlone(s, Final(s, events))
    decreases |events|
  {
    if events != [] {
      StepConserves(s, events[0]);
      OthersLeaveAlone(s, events[0]);
      OtherRunsLeaveAlone(After(s, events[0]), events[1..]);
    }
  }

  /** At the start of a measurement of a carbon with the electron in the way: the search for the
      electron's owner succeeds after every disciplined run of the other coroutines, if and only
      if the network stack does not hold the electron. */
  lemma SearchSucceeds(s: Node, a: nat, v: int)
    requires Conserved(s) && Enabled(s, MeasStart(a, v)) && s.apps[a][v].value != ELECTRON && ELECTRON in s.taken
    ensures var s' := After(s, MeasStart(a, v));
            (forall events :: IsRun(s', events) && IsDisciplined(s', events) && OnlyOthers(events) ==>
               exists ea, ev :: Enabled(Final(s', events), MeasRelocate(ea, ev)))
            <==> ELECTRON !in Held(s.netstack)
  {
    var s' := After(s, MeasStart(a, v));
    MeasStartConserves(s, a, v);
    if ELECTRON in Held(s.netstack) {
      SearchSucceedsNow(s');
      assert IsRun(s', []) && IsDisciplined(s', []) && OnlyOthers([]) && Final(s', []) == s';
    } else {
      forall events | IsRun(s', events) && IsDisciplined(s', events) && OnlyOthers(events)
        ensures exists ea, ev :: Enabled(Final(s', events), MeasRelocate(ea, ev))
      {
        OtherRunsLeaveAlone(s', events);
        SearchSucceedsNow(Final(s', events));
      }
    }
  }

  // Runs that fail.

  /** A qubit that is allocated for ever: nobody maps it, holds it or has it in transit. */
  ghost predicate Lost(s: Node, q: nat) {
    && q in s.taken && !IsMapped(s.apps, q) && q !in InTransit(s.processor) && q !in Held(s.netstack)
    && (s.processor.Relocating? ==> s.processor.carbon != q)
  }

  /** No step whatever brings a lost qubit back. */
  lemma LostStaysLost(s: Node, event: Event, q: nat)
    requires Lost(s, q) && Enabled(s, event)
    ensures Lost(After(s, event), q)
  {
    var s' := After(s, event);
    forall a: nat, v | Maps(s'.apps, a, v, q)
      ensures Maps(s.apps, a, v, q)
    {
    }
    if event.StopApp? && q in MappedBy(s.apps[event.app]) {
      var v :| v in s.apps[event.app] && s.apps[event.app][v] == Some(q);
      assert Maps(s.apps, event.app, v, q);
    }
    if event.QFree? || event.MeasStart? {
      assert Maps(s.apps, event.app, event.virt, s.apps[event.app][event.virt].value);
    }
  }

  lemma {:induction false} LostForGood(s: Node, events: seq<Event>, q: nat)
    requires Lost(s, q) && IsRun(s, events)
    ensures Lost(Final(s, events), q)
    decreases |events|
  {
    if events != [] {
      LostStaysLost(s, events[0], q);
      LostForGood(After(s, events[0]), events[1..], q);
    }
  }

  lemma ThreeSteps(s0: Node, e0: Event, s1: Node, e1: Event, s2: Node, e2: Event, s3: Node)
    requires Enabled(s0, e0) && After(s0, e0) == s1 && Enabled(s1, e1) && After(s1, e1) == s2
    requires Enabled(s2, e2) && After(s2, e2) == s3
    ensures IsRun(s0, [e0] + ([e1] + [e2])) && Final(s0, [e0] + ([e1] + [e2])) == s3
    ensures IsDisciplined(s0, [e0] + ([e1] + [e2])) <==> Disciplined(s0, e0) && Disciplined(s1, e1) && Disciplined(s2, e2)
  {
    OneMore(s2, e2, []);
    assert [e2] + [] == [e2];
    OneMore(s1, e1, [e2]);
    OneMore(s0, e0, [e1] + [e2]);
  }

  /** A run that allocates the same virtual ID twice: the first qubit is lost. */
  lemma RemapCanLoseQubit(nv: bool)
    ensures exists events, q :: IsRun(Boot(nv, 3, {ELECTRON}), events) && Lost(Final(Boot(nv, 3, {ELECTRON}), events), q)
  {
    var s0 := Boot(nv, 3, {ELECTRON});
    var s1 := After(s0, InitApp(0));
    var first, second := if nv then 1 else 0, if nv then 2 else 1;
    assert Free(s1, KindFor(s1, 1)) == Some(first);
    var s2 := After(s1, QAlloc(0, 1));
    assert s2.taken == {first} && Free(s2, KindFor(s2, 1)) == Some(second);
    var s3 := After(s2, QAlloc(0, 1));
    ThreeSteps(s0, InitApp(0), s1, QAlloc(0, 1), s2, QAlloc(0, 1), s3);
    assert s3.apps[0][1] == Some(second);
    assert Lost(s3, first);
  }

  lemma {:induction false} OneMoreAtEnd(s: Node, events: seq<Event>, last: Event)
    requires IsRun(s, events) && Enabled(Final(s, events), last)
    ensures IsRun(s, events + [last]) && Final(s, events + [last]) == After(Final(s, events), last)
    decreases |events|
  {
    if events == [] {
      OneMore(s, last, []);
      assert [] + [last] == [last] + [];
    } else {
      OneMoreAtEnd(After(s, events[0]), events[1..], last);
      OneMore(s, events[0], events[1..] + [last]);
      assert events + [last] == [events[0]] + (events[1..] + [last]);
    }
  }

  /** The network stack holds the electron, and an application maps a carbon. */
  lemma ElectronHeld() returns (events: seq<Event>)
    ensures IsRun(Boot(true, 3, {ELECTRON}), events) && IsDisciplined(Boot(true, 3, {ELECTRON}), events)
    ensures var s := Final(Boot(true, 3, {ELECTRON}), events);
            s.netstack == Holding(0, ELECTRON) && Enabled(s, MeasStart(0, 1)) && s.apps[0][1] == Some(1)
  {
    var s0 := Boot(true, 3, {ELECTRON});
    var s1 := After(s0, InitApp(0));
    assert Free(s1, MemQubit) == Some(1);
    var s2 := After(s1, QAlloc(0, 1));
    assert s2.taken == {1} && Free(s2, CommQubit) == Some(ELECTRON);
    var s3 := After(s2, NetAllocKeep(0));
    assert s3.taken == {ELECTRON, 1} && Free(s3, AnyQubit) == Some(2);
    ThreeSteps(s0, InitApp(0), s1, QAlloc(0, 1), s2, NetAllocKeep(0), s3);
    events := [InitApp(0)] + ([QAlloc(0, 1)] + [NetAllocKeep(0)]);
  }

  /** A run in which a carbon is measured while the network stack holds the electron: nobody
      owns the electron. */
  lemma RelocationCanFail()
    ensures exists events ::
              && IsRun(Boot(true, 3, {ELECTRON}), events)
              && var s := Final(Boot(true, 3, {ELECTRON}), events);
                 s.processor.Relocating? && forall ea, ev :: !Enabled(s, MeasRelocate(ea, ev))
  {
    var events := ElectronHeld();
    var s := Final(Boot(true, 3, {ELECTRON}), events);
    RunKeepsGood(Boot(true, 3, {ELECTRON}), events);
    OneMoreAtEnd(Boot(true, 3, {ELECTRON}), events, MeasStart(0, 1));
    MeasStartConserves(s, 0, 1);
    SearchSucceedsNow(After(s, MeasStart(0, 1)));
  }

  /** The network stack is blocked, and an application maps the only communication qubit. */
  lemma BlockedByApplication(nv: bool) returns (events: seq<Event>)
    ensures IsRun(Boot(nv, 1, {ELECTRON}), events)
    ensures var s := Final(Boot(nv, 1, {ELECTRON}), events);
            && s.count == 1 && s.comm == {ELECTRON} && s.taken == {ELECTRON} && s.processor.Idle?
            && s.netstack == Waiting(0) && !s.signalled && 0 in s.apps && MappedBy(s.apps[0]) == {ELECTRON}
  {
    var s0 := Boot(nv, 1, {ELECTRON});
    var s1 := After(s0, InitApp(0));
    assert Free(s1, KindFor(s1, 0)) == Some(ELECTRON);
    var s2 := After(s1, QAlloc(0, 0));
    assert s2.taken == {ELECTRON} && Free(s2, CommQubit).None?;
    var s3 := After(s2, NetAllocKeep(0));
    assert MappedBy(s3.apps[0]) == {ELECTRON} by { assert s3.apps[0][0] == Some(ELECTRON); }
    ThreeSteps(s0, InitApp(0), s1, QAlloc(0, 0), s2, NetAllocKeep(0), s3);
    events := [InitApp(0)] + ([QAlloc(0, 0)] + [NetAllocKeep(0)]);
  }

  /** A run that stops an application while the network stack waits for the qubit that this
      frees: nothing wakes the network stack. */
  lemma StopCanLoseWakeup(nv: bool)
    ensures exists events ::
              && IsRun(Boot(nv, 1, {ELECTRON}), events)
              && var s := Final(Boot(nv, 1, {ELECTRON}), events);
                 s.netstack == Waiting(0) && Free(s, CommQubit) == Some(ELECTRON) && !Enabled(s, DeliverSignal)
  {
    var events := BlockedByApplication(nv);
    OneMoreAtEnd(Boot(nv, 1, {ELECTRON}), events, StopApp(0));
  }
}
