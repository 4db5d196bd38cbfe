/**
 A measurement on NV hardware, where only the electron can be measured, is an ideal
 measurement of the virtual qubit: applications cannot see that qubits were relocated.
 */
module NvMeasurement {
  import opened Options
  import opened Amplitudes
  import opened QDevice
  import opened NvCircuits
  import opened NodeState

  /** The three ways to measure: the electron itself, a carbon when the electron is free, and
      a carbon when the electron has to move to a spare carbon first. */
  datatype Route = Direct | ToElectron(carbon: nat) | ViaSpare(carbon: nat, spare: nat)

  function StateAfter(route: Route, outcome: bool, psi: State): State {
    match route
    case Direct => Project(ELECTRON, outcome, psi)
    case ToElectron(c) => Project(ELECTRON, outcome, CarbonToElectron(c, psi))
    case ViaSpare(c, s) => Project(ELECTRON, outcome, CarbonToElectron(c, ElectronToCarbon(s, psi)))
  }

  datatype Spot = Nowhere | Spot(b: Basis, e: Env)

  /** The basis state and environment that an amplitude after the measurement comes from. */
  function Origin(route: Route, b: Basis, e: Env): Spot {
    match route
    case Direct => Spot(b, e)
    case ToElectron(c) =>
      if e.Outside? || c in b then Nowhere
      else Spot(With(With(b, c, ELECTRON in b), ELECTRON, e.bit), e.rest)
    case ViaSpare(c, s) =>
      if e.Outside? || e.rest.Outside? || c in b then Nowhere
      else Spot(With(With(With(b, c, ELECTRON in b), ELECTRON, s in b), s, e.rest.bit), e.rest.rest)
  }

  /** Where an amplitude goes; `scrap` is the value of the electron when it is reset, which
      the circuits leave undetermined once its state has moved to the spare carbon. */
  function Image(route: Route, b: Basis, e: Env, scrap: bool): Spot {
    match route
    case Direct => Spot(b, e)
    case ToElectron(c) => Spot(With(With(b, ELECTRON, c in b), c, false), Discarded(ELECTRON in b, e))
    case ViaSpare(c, s) =>
      Spot(With(With(With(b, s, ELECTRON in b), ELECTRON, c in b), c, false), Discarded(scrap, Discarded(s in b, e)))
  }

  function Source(route: Route): nat {
    match route
    case Direct => ELECTRON
    case ToElectron(c) => c
    case ViaSpare(c, _) => c
  }

  predicate ValidRoute(route: Route) {
    match route
    case Direct => true
    case ToElectron(c) => c != ELECTRON
    case ViaSpare(c, s) => c != ELECTRON && s != ELECTRON && c != s
  }

  /** The scale and phase that the circuits introduce: they depend on the outcome only. */
  function Scaled(route: Route, outcome: bool, psi: State, b: Basis, e: Env, p: Part): real {
    match route
    case Direct => psi(b, e, p)
    case ToElectron(_) => (if outcome then -4.0 else 4.0) * psi(b, e, p) + 4.0 * TimesI(psi, b, e, p)
    case ViaSpare(_, _) => if outcome then -16.0 * psi(b, e, p) else 16.0 * TimesI(psi, b, e, p)
  }

  function WeightFactor(route: Route): real {
    match route
    case Direct => 1.0
    case ToElectron(_) => 32.0
    case ViaSpare(_, _) => 256.0
  }

  function IdealAt(route: Route, outcome: bool, psi: State, b: Basis, e: Env, p: Part): real {
    match Origin(route, b, e)
    case Nowhere => 0.0
    case Spot(b0, e0) => Scaled(route, outcome, Project(Source(route), outcome, psi), b0, e0, p)
  }

  /** The state after the measurement is the ideal post-measurement state of the source qubit,
      with the qubits in other places, times one factor for all amplitudes. */
  ghost predicate IsIdeal(route: Route, outcome: bool, psi: State, psi': State) {
    forall b, e, p ::
      psi'(b, e, p) == IdealAt(route, outcome, psi, b, e, p)
  }

  lemma ToElectronAt(c: nat, outcome: bool, psi: State, b: Basis, was: bool, e: Env, p: Part)
    requires c != ELECTRON
    ensures var b0 := With(With(b, c, ELECTRON in b), ELECTRON, was);
            StateAfter(ToElectron(c), outcome, psi)(b, Discarded(was, e), p) ==
            if c in b then 0.0 else Scaled(ToElectron(c), outcome, Project(c, outcome, psi), b0, e, p)
  {
    CarbonToElectronMoves(c, psi, b, was, e, p);
    assert Corner(b, c, was, ELECTRON in b) == With(With(b, c, ELECTRON in b), ELECTRON, was);
  }

  /** The second circuit after the first, on any state that holds the factor 2+2i of it. */
  lemma AfterSpareAt(c: nat, outcome: bool, moved: State, re: real, im: real,
                     b: Basis, scrap: bool, e: Env, p: Part)
    requires c != ELECTRON
    requires var b1 := Corner(b, c, scrap, ELECTRON in b);
             moved(b1, e, Re) == 2.0 * re - 2.0 * im && moved(b1, e, Im) == 2.0 * im + 2.0 * re
    ensures Project(ELECTRON, outcome, CarbonToElectron(c, moved))(b, Discarded(scrap, e), p) ==
            if c in b || (ELECTRON in b) != outcome then 0.0
            else if outcome then -16.0 * (if p.Re? then re else im)
            else 16.0 * (if p.Re? then -im else re)
  {
    CarbonToElectronMoves(c, moved, b, scrap, e, p);
  }

  lemma ViaSpareAt(c: nat, s: nat, outcome: bool, psi: State, b: Basis, scrap: bool, was: bool, e: Env, p: Part)
    requires ValidRoute(ViaSpare(c, s))
    ensures StateAfter(ViaSpare(c, s), outcome, psi)(b, Discarded(scrap, Discarded(was, e)), p)
         == IdealAt(ViaSpare(c, s), outcome, psi, b, Discarded(scrap, Discarded(was, e)), p)
  {
    var b1 := Corner(b, c, scrap, ELECTRON in b);
    var b0 := With(With(With(b, c, ELECTRON in b), ELECTRON, s in b), s, was);
    assert Corner(b1, s, s in b1, was) == b0;
    SpareHolds(s, psi, b1, b0, was, e);
    ViaMovedAt(c, s, outcome, psi, ElectronToCarbon(s, psi), b, b0, scrap, was, e, p);
  }

  lemma ViaMovedAt(c: nat, s: nat, outcome: bool, psi: State, moved: State, b: Basis, b0: Basis,
                   scrap: bool, was: bool, e: Env, p: Part)
    requires ValidRoute(ViaSpare(c, s))
    requires b0 == With(With(With(b, c, ELECTRON in b), ELECTRON, s in b), s, was)
    requires moved(Corner(b, c, scrap, ELECTRON in b), Discarded(was, e), Re) == 2.0 * psi(b0, e, Re) - 2.0 * psi(b0, e, Im)
    requires moved(Corner(b, c, scrap, ELECTRON in b), Discarded(was, e), Im) == 2.0 * psi(b0, e, Im) + 2.0 * psi(b0, e, Re)
    ensures Project(ELECTRON, outcome, CarbonToElectron(c, moved))(b, Discarded(scrap, Discarded(was, e)), p)
         == IdealAt(ViaSpare(c, s), outcome, psi, b, Discarded(scrap, Discarded(was, e)), p)
  {
    AfterSpareAt(c, outcome, moved, psi(b0, e, Re), psi(b0, e, Im), b, scrap, Discarded(was, e), p);
    assert (c in b0) == (ELECTRON in b);
    SpareIdeal(c, s, outcome, psi, b, b0, scrap, was, e, p);
  }

  lemma SpareHolds(s: nat, psi: State, b1: Basis, b0: Basis, was: bool, e: Env)
    requires s != ELECTRON && Corner(b1, s, s in b1, was) == b0
    ensures ElectronToCarbon(s, psi)(b1, Discarded(was, e), Re) == 2.0 * psi(b0, e, Re) - 2.0 * psi(b0, e, Im)
    ensures ElectronToCarbon(s, psi)(b1, Discarded(was, e), Im) == 2.0 * psi(b0, e, Im) + 2.0 * psi(b0, e, Re)
  {
    ElectronToCarbonMoves(s, psi, b1, was, e, Re);
    ElectronToCarbonMoves(s, psi, b1, was, e, Im);
  }

  lemma SpareIdeal(c: nat, s: nat, outcome: bool, psi: State, b: Basis, b0: Basis, scrap: bool, was: bool, e: Env, p: Part)
    requires b0 == With(With(With(b, c, ELECTRON in b), ELECTRON, s in b), s, was) && (c in b0) == (ELECTRON in b)
    ensures IdealAt(ViaSpare(c, s), outcome, psi, b, Discarded(scrap, Discarded(was, e)), p) ==
            if c in b || (ELECTRON in b) != outcome then 0.0
            else if outcome then -16.0 * psi(b0, e, p)
            else 16.0 * TimesI(psi, b0, e, p)
  {
  }

  lemma NoOrigin(route: Route, outcome: bool, psi: State, b: Basis, e: Env, p: Part)
    requires ValidRoute(route) && !route.Direct?
    requires e.Outside? || (route.ViaSpare? && e.rest.Outside?)
    ensures StateAfter(route, outcome, psi)(b, e, p) == 0.0
  {
    if e.Outside? {
      NothingOutside(route.carbon, if route.ViaSpare? then ElectronToCarbon(route.spare, psi) else psi, b, e.index, p);
    } else {
      var moved := ElectronToCarbon(route.spare, psi);
      CarbonToElectronMoves(route.carbon, moved, b, e.bit, e.rest, p);
      var b1 := Corner(b, route.carbon, e.bit, ELECTRON in b);
      NothingOutside(route.spare, psi, b1, e.rest.index, Re);
      NothingOutside(route.spare, psi, b1, e.rest.index, Im);
    }
  }

  /** Measuring on NV hardware is an ideal measurement, whatever the joint state is. */
  lemma MeasurementIsIdeal(route: Route, outcome: bool, psi: State)
    requires ValidRoute(route)
    ensures IsIdeal(route, outcome, psi, StateAfter(route, outcome, psi))
  {
    forall b, e, p
      ensures StateAfter(route, outcome, psi)(b, e, p) == IdealAt(route, outcome, psi, b, e, p)
    {
      if route.Direct? {
      } else if e.Outside? || (route.ViaSpare? && e.rest.Outside?) {
        NoOrigin(route, outcome, psi, b, e, p);
      } else if route.ToElectron? {
        ToElectronAt(route.carbon, outcome, psi, b, e.bit, e.rest, p);
      } else {
        ViaSpareAt(route.carbon, route.spare, outcome, psi, b, e.bit, e.rest.bit, e.rest.rest, p);
      }
    }
  }

  /** Every amplitude of the ideal post-measurement state arrives somewhere: together with
      `MeasurementIsIdeal` this is a bijection, up to the scrapped value. */
  lemma ImageHasOrigin(route: Route, b: Basis, e: Env, scrap: bool)
    requires ValidRoute(route)
    ensures var image := Image(route, b, e, scrap);
            image.Spot? && Origin(route, image.b, image.e) == Spot(b, e)
            && (ELECTRON in image.b) == (Source(route) in b)
  {
  }

  lemma OriginHasImage(route: Route, b: Basis, e: Env)
    requires ValidRoute(route) && Origin(route, b, e).Spot?
    ensures var origin := Origin(route, b, e);
            Image(route, origin.b, origin.e, e.Discarded? && e.bit) == Spot(b, e)
  {
  }

  /** The Born weight of every amplitude is the ideal one times a factor that does not depend
      on the outcome, so the outcome probabilities are the ideal ones. */
  lemma WeightsAreIdeal(route: Route, outcome: bool, psi: State, b: Basis, e: Env)
    requires ValidRoute(route) && Origin(route, b, e).Spot?
    ensures var origin := Origin(route, b, e);
            Weight(StateAfter(route, outcome, psi), b, e)
            == WeightFactor(route) * Weight(Project(Source(route), outcome, psi), origin.b, origin.e)
  {
    MeasurementIsIdeal(route, outcome, psi);
    IdealWeight(route, outcome, psi, StateAfter(route, outcome, psi), b, e);
  }

  lemma {:induction false} IdealWeight(route: Route, outcome: bool, psi: State, after: State, b: Basis, e: Env)
    requires IsIdeal(route, outcome, psi, after) && Origin(route, b, e).Spot?
    ensures var origin := Origin(route, b, e);
            Weight(after, b, e)
            == WeightFactor(route) * Weight(Project(Source(route), outcome, psi), origin.b, origin.e)
  {
    var o := Origin(route, b, e);
    ScaledWeight(route, outcome, Project(Source(route), outcome, psi), o.b, o.e);
    assert after(b, e, Re) == IdealAt(route, outcome, psi, b, e, Re);
    assert after(b, e, Im) == IdealAt(route, outcome, psi, b, e, Im);
  }

  lemma ScaledWeight(route: Route, outcome: bool, psi: State, b: Basis, e: Env)
    ensures var re, im := Scaled(route, outcome, psi, b, e, Re), Scaled(route, outcome, psi, b, e, Im);
            re * re + im * im == WeightFactor(route) * Weight(psi, b, e)
  {
  }

  /** The route that a measurement takes from the point where it has started. */
  function RouteOf(processor: Processor): Route {
    match processor
    case Idle => Direct
    case Clearing(c) => ToElectron(c)
    case Relocating(_, _, c, s) => ViaSpare(c, s)
  }

  function RouteFor(s: Node, a: nat, v: int): Route
    requires Enabled(s, MeasStart(a, v))
  {
    RouteOf(After(s, MeasStart(a, v)).processor)
  }

  /** Where a measurement leaves the state of a physical qubit. */
  function Moved(route: Route, q: nat): nat {
    match route
    case Direct => q
    case ToElectron(c) => if q == c then ELECTRON else q
    case ViaSpare(c, s) => if q == c then ELECTRON else if q == ELECTRON then s else q
  }

  /** A measurement can run to its end: the virtual qubit is mapped, and an electron that is
      in the way belongs to an application and has a spare qubit to go to. */
  predicate CanMeasure(s: Node, a: nat, v: int) {
    && Enabled(s, MeasStart(a, v))
    && (s.apps[a][v].value != ELECTRON ==> ELECTRON !in Held(s.netstack))
  }

  /** A started measurement has its carbon in hand, and the application it is for. */
  predicate Started(s: Node) {
    match s.processor
    case Idle => true
    case Clearing(c) => c in s.taken
    case Relocating(app, _, c, _) => app in s.apps && c in s.taken
  }

  /** The rest of a started measurement; `ea` and `ev` own the electron, if it is moved. */
  function Finished(s: Node, ea: nat, ev: int): Node
    requires Started(s) && (s.processor.Relocating? ==> Maps(s.apps, ea, ev, ELECTRON))
  {
    match s.processor
    case Idle => s
    case Clearing(_) => After(s, MeasFree)
    case Relocating(_, _, _, _) => After(After(s, MeasRelocate(ea, ev)), MeasFree)
  }

  /** The node after all steps of a measurement. */
  function Measured(s: Node, a: nat, v: int, ea: nat, ev: int): Node
    requires Conserved(s) && CanMeasure(s, a, v)
    requires RouteFor(s, a, v).ViaSpare? ==> Maps(s.apps, ea, ev, ELECTRON)
  {
    StartedState(s, a, v);
    Finished(After(s, MeasStart(a, v)), ea, ev)
  }

  lemma RouteIsValid(s: Node, a: nat, v: int)
    requires Conserved(s) && Enabled(s, MeasStart(a, v))
    ensures ValidRoute(RouteFor(s, a, v)) && Source(RouteFor(s, a, v)) in s.taken
    ensures Maps(s.apps, a, v, Source(RouteFor(s, a, v)))
    ensures match RouteFor(s, a, v)
            case Direct => true
            case ToElectron(_) => ELECTRON !in s.taken
            case ViaSpare(_, spare) => ELECTRON in s.taken && spare !in s.taken
  {
    assert Maps(s.apps, a, v, s.apps[a][v].value);
    assert IsMapped(s.apps, s.apps[a][v].value);
  }

  /** Every virtual qubit is still there, at the place its state has moved to. */
  lemma MappingFollows(s: Node, a: nat, v: int, ea: nat, ev: int)
    requires Conserved(s) && CanMeasure(s, a, v)
    requires RouteFor(s, a, v).ViaSpare? ==> Maps(s.apps, ea, ev, ELECTRON)
    ensures forall a2, v2, q :: Maps(s.apps, a2, v2, q) ==>
              Maps(Measured(s, a, v, ea, ev).apps, a2, v2, Moved(RouteFor(s, a, v), q))
    ensures forall a2, v2, q :: Maps(Measured(s, a, v, ea, ev).apps, a2, v2, q) ==> !Unmapped(s.apps, a2, v2)
  {
    RouteIsValid(s, a, v);
  }

  lemma MeasuredConserves(s: Node, a: nat, v: int, ea: nat, ev: int)
    requires Conserved(s) && CanMeasure(s, a, v)
    requires RouteFor(s, a, v).ViaSpare? ==> Maps(s.apps, ea, ev, ELECTRON)
    ensures Conserved(Measured(s, a, v, ea, ev))
  {
    var started := After(s, MeasStart(a, v));
    StepConserves(s, MeasStart(a, v));
    if RouteFor(s, a, v).ViaSpare? {
      StepConserves(started, MeasRelocate(ea, ev));
      StepConserves(After(started, MeasRelocate(ea, ev)), MeasFree);
    } else if RouteFor(s, a, v).ToElectron? {
      StepConserves(started, MeasFree);
    }
  }

  /** Reading the qubits through the new mapping gives the bits of the origin through the old
      one, also for a qubit the network stack holds. */
  lemma {:induction false} BitsFollow(s: Node, a: nat, v: int, b: Basis, e: Env, q: nat)
    requires Conserved(s) && CanMeasure(s, a, v) && q in s.taken
    requires Origin(RouteFor(s, a, v), b, e).Spot?
    ensures q in Origin(RouteFor(s, a, v), b, e).b <==> Moved(RouteFor(s, a, v), q) in b
  {
    RouteIsValid(s, a, v);
  }

  lemma CircuitsCompose(c: nat, s: nat, outcome: bool, psi: State, moved: State, psi': State)
    requires moved == ElectronToCarbon(s, psi) && psi' == StateAfter(ToElectron(c), outcome, moved)
    ensures psi' == StateAfter(ViaSpare(c, s), outcome, psi)
  {
  }

  /** Every virtual qubit reads the same: its bit in `b` through the old mapping is its bit in
      `b'` through the new one. */
  ghost predicate ReadsSame(apps: Apps, b: Basis, apps': Apps, b': Basis) {
    forall a, v, q :: Maps(apps, a, v, q) ==> exists q' :: Maps(apps', a, v, q') && (q in b <==> q' in b')
  }

  /** Applications do not see the relocation: a basis state after the measurement reads, for
      every virtual qubit of every application, as the one it comes from read before. Together
      with `MeasurementIsIdeal` and `WeightsAreIdeal` this makes the measurement an ideal one of
      the virtual qubits. */
  lemma MeasurementIsInvisible(s: Node, a: nat, v: int, ea: nat, ev: int, b: Basis, e: Env)
    requires Conserved(s) && CanMeasure(s, a, v)
    requires RouteFor(s, a, v).ViaSpare? ==> Maps(s.apps, ea, ev, ELECTRON)
    requires Origin(RouteFor(s, a, v), b, e).Spot?
    ensures ReadsSame(s.apps, Origin(RouteFor(s, a, v), b, e).b, Measured(s, a, v, ea, ev).apps, b)
  {
    MappingFollows(s, a, v, ea, ev);
    forall a2, v2, q | Maps(s.apps, a2, v2, q)
      ensures exists q' :: Maps(Measured(s, a, v, ea, ev).apps, a2, v2, q')
                           && (q in Origin(RouteFor(s, a, v), b, e).b <==> q' in b)
    {
      assert IsMapped(s.apps, q);
      BitsFollow(s, a, v, b, e, q);
      assert Maps(Measured(s, a, v, ea, ev).apps, a2, v2, Moved(RouteFor(s, a, v), q));
    }
  }

  /** A measurement that other coroutines interrupt: `before` runs during the move of the
      electron, if it has to move, and `after` during the move of the carbon. */
  ghost predicate IsInterleaved(s: Node, a: nat, v: int, before: seq<Event>, ea: nat, ev: int, after: seq<Event>, end: Node)
    requires Enabled(s, MeasStart(a, v))
  {
    var s1 := After(s, MeasStart(a, v));
    match s1.processor
    case Idle => end == s1
    case Clearing(_) => IsLastPart(s1, after, end)
    case Relocating(_, _, _, _) =>
      && OnlyOthers(before) && IsRun(s1, before) && IsDisciplined(s1, before)
      && Enabled(Final(s1, before), MeasRelocate(ea, ev))
      && IsLastPart(After(Final(s1, before), MeasRelocate(ea, ev)), after, end)
  }

  ghost predicate IsLastPart(s: Node, events: seq<Event>, end: Node) {
    && OnlyOthers(events) && IsRun(s, events) && IsDisciplined(s, events)
    && Enabled(Final(s, events), MeasFree) && end == After(Final(s, events), MeasFree)
  }

  lemma LastPartLeavesAlone(s: Node, events: seq<Event>, end: Node)
    requires Conserved(s) && s.processor.Clearing? && IsLastPart(s, events, end)
    ensures Conserved(end) && forall a, v, q :: Maps(s.apps, a, v, q) ==> Maps(end.apps, a, v, q)
    ensures forall q :: q in s.taken && q !in Held(s.netstack) ==> q !in Held(end.netstack)
  {
    OtherRunsLeaveAlone(s, events);
    StepConserves(Final(s, events), MeasFree);
  }

  /** However the other coroutines interrupt a measurement, every virtual qubit that was mapped
      when it began is mapped at its end, to where its state has moved; and no qubit that was
      allocated then, the electron, the carbon and the spare among them, gets into the hands of
      the network stack, unless it was there. */
  lemma InterleavedMappingFollows(s: Node, a: nat, v: int, before: seq<Event>, ea: nat, ev: int,
                                  after: seq<Event>, end: Node)
    requires Conserved(s) && CanMeasure(s, a, v) && IsInterleaved(s, a, v, before, ea, ev, after, end)
    ensures Conserved(end)
    ensures forall a2, v2, q :: Maps(s.apps, a2, v2, q) ==> Maps(end.apps, a2, v2, Moved(RouteFor(s, a, v), q))
    ensures forall q :: q in After(s, MeasStart(a, v)).taken && q !in Held(s.netstack) ==> q !in Held(end.netstack)
  {
    RouteIsValid(s, a, v);
    MeasStartConserves(s, a, v);
    var s1 := After(s, MeasStart(a, v));
    match s1.processor
    case Idle =>
    case Clearing(_) => LastPartLeavesAlone(s1, after, end);
    case Relocating(_, _, _, _) =>
      OtherRunsLeaveAlone(s1, before);
      RelocatedMaps(s1, Final(s1, before), ea, ev);
      MeasRelocateConserves(Final(s1, before), ea, ev);
      LastPartLeavesAlone(After(Final(s1, before), MeasRelocate(ea, ev)), after, end);
  }

  /** The relocation after an interruption does what it would have done without. */
  lemma RelocatedMaps(s: Node, s': Node, ea: nat, ev: int)
    requires Conserved(s) && Conserved(s') && s.processor.Relocating? && LeftAlone(s, s') && Enabled(s', MeasRelocate(ea, ev))
    ensures forall a, v, q :: Maps(s.apps, a, v, q) ==>
              Maps(After(s', MeasRelocate(ea, ev)).apps, a, v, Moved(RouteOf(s.processor), q))
  {
    var r := s.processor;
    var moved := MapTo(s'.apps, ea, ev, Some(r.spare));
    MapToMaps(s'.apps, ea, ev, Some(r.spare));
    MapToMaps(moved, r.app, r.virt, Some(ELECTRON));
  }

  /** What the first stretch of a measurement leaves for the rest of it. */
  lemma StartedState(s: Node, a: nat, v: int)
    requires Conserved(s) && Enabled(s, MeasStart(a, v))
    ensures var s' := After(s, MeasStart(a, v));
            && Started(s')
            && (s'.processor.Relocating? ==> s'.apps == s.apps)
            && (CanMeasure(s, a, v) <==> (s'.processor.Relocating? ==> IsMapped(s'.apps, ELECTRON)))
  {
    RouteIsValid(s, a, v);
  }

  /** The executor of the other simulator: it measures a carbon through the electron, which it
      gives free again, and needs no spare qubit because it never keeps the electron. */
  method DoMeas(device: QuantumDevice, position: nat, nature: bool) returns (outcome: bool)
    modifies device
    ensures outcome == nature
    ensures IsIdeal(if position == ELECTRON then Direct else ToElectron(position), outcome, old(device.psi), device.psi)
    ensures device.inUse == if position == ELECTRON then old(device.inUse) else old(device.inUse) - {ELECTRON}
  {
    MeasurementIsIdeal(if position == ELECTRON then Direct else ToElectron(position), nature, device.psi);
    if position != ELECTRON {
      MoveCarbonToElectron(device, position);
      device.Release(ELECTRON);
    }
    outcome := device.Measure(ELECTRON, nature);
  }
}
