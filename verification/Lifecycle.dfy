/**
 Host, handler and processor over any number of program runs. The host registers an
 application, opens its sockets, commits its subroutines one by one, and stops it; the
 handler gives subroutines to the processor and answers the host. All messages travel in
 FIFO channels, and the three coroutines may be interleaved in any way.
 */
module Lifecycle {
  import opened Options

  datatype Subroutine = Subroutine(app: nat, index: nat)

  /** What one run of the program will do: how many sockets it opens and how many subroutines
      it commits. */
  datatype Plan = Plan(sockets: nat, subroutines: nat)

  datatype HostMsg = InitNewApp | OpenSocket(app: nat, socket: nat) | Commit(sub: Subroutine) | StopApp(app: nat)

  datatype Answer = AppId(app: nat) | Reply(sub: Subroutine)

  datatype HostPhase =
    | Between(run: nat)
    | AwaitAppId(run: nat)
    | Running(run: nat, app: nat, done: nat)
    | AwaitReply(run: nat, app: nat, done: nat)

  datatype HandlerPhase = Ready | AwaitProcessor(sub: Subroutine)

  datatype ProcessorPhase = Idle | Busy(sub: Subroutine)

  /** The handler's own state: applications in the order of their registration, each with its
      list of pending subroutines. */
  datatype Registry = Registry(clear: bool, counter: nat, apps: seq<nat>, pending: map<nat, seq<Subroutine>>,
                               memories: set<nat>, sockets: set<(nat, nat)>)

  datatype System = System(plans: seq<Plan>, host: HostPhase, toHandler: seq<HostMsg>, toHost: seq<Answer>,
                           handler: HandlerPhase, registry: Registry, toProcessor: seq<Subroutine>,
                           processor: ProcessorPhase, doneMsgs: nat,
                           committed: seq<Subroutine>, answered: seq<Subroutine>)

  datatype Step = HostStart | HostGetApp | HostCommit | HostGetReply | HostStop
                | HandlerTake | HandlerDone | ProcessorTake | ProcessorDone

  /** `next_subroutine` takes the youngest subroutine of the application registered first. */
  function NextSubroutine(reg: Registry): Option<Subroutine> {
    if reg.apps == [] || reg.apps[0] !in reg.pending || reg.pending[reg.apps[0]] == [] then None
    else Some(reg.pending[reg.apps[0]][|reg.pending[reg.apps[0]]| - 1])
  }

  function TakeNext(reg: Registry): Registry
    requires NextSubroutine(reg).Some?
  {
    var list := reg.pending[reg.apps[0]];
    reg.(pending := reg.pending[reg.apps[0] := list[..|list| - 1]])
  }

  function Remove(apps: seq<nat>, app: nat): seq<nat> {
    if apps == [] then [] else if apps[0] == app then apps[1..] else [apps[0]] + Remove(apps[1..], app)
  }

  /** When the handler can react to a message: looking up an unknown application raises. */
  predicate CanHandle(reg: Registry, msg: HostMsg) {
    match msg
    case Commit(sub) => sub.app in reg.pending
    case StopApp(app) => reg.clear ==> app in reg.memories && app in reg.pending
    case _ => true
  }

  /** The handler's reaction to a message from the host. */
  function Handle(reg: Registry, msg: HostMsg): Registry
    requires CanHandle(reg, msg)
  {
    match msg
    case InitNewApp =>
      reg.(counter := reg.counter + 1, apps := reg.apps + [reg.counter], pending := reg.pending[reg.counter := []],
           memories := reg.memories + {reg.counter})
    case OpenSocket(app, socket) => reg.(sockets := reg.sockets + {(app, socket)})
    case Commit(sub) => reg.(pending := reg.pending[sub.app := reg.pending[sub.app] + [sub]])
    case StopApp(app) =>
      if reg.clear then
        reg.(apps := Remove(reg.apps, app), pending := reg.pending - {app}, memories := reg.memories - {app})
      else reg
  }

  /** Subroutines committed one after the other for the application registered first are taken
      in the opposite order, and then the registry is as it was before. */
  lemma {:induction false} YoungestFirst(reg: Registry, older: Subroutine, younger: Subroutine)
    requires reg.apps != [] && reg.apps[0] in reg.pending && older.app == younger.app == reg.apps[0]
    ensures var reg' := Handle(Handle(reg, Commit(older)), Commit(younger));
            && NextSubroutine(reg') == Some(younger) && NextSubroutine(TakeNext(reg')) == Some(older)
            && TakeNext(TakeNext(reg')) == reg
  {
    var list := reg.pending[reg.apps[0]];
    var reg' := Handle(Handle(reg, Commit(older)), Commit(younger));
    assert reg'.pending[reg.apps[0]] == list + [older] + [younger];
    assert (list + [older] + [younger])[..|list| + 1] == list + [older];
    assert (list + [older])[..|list|] == list;
    assert reg.pending[reg.apps[0] := list] == reg.pending;
  }

  /** As long as the application registered first has nothing pending, nothing is taken. */
  lemma OnlyOldestIsServed(reg: Registry)
    requires reg.apps != [] && reg.apps[0] in reg.pending
    ensures NextSubroutine(reg).None? <==> reg.pending[reg.apps[0]] == []
    ensures NextSubroutine(reg).Some? ==> exists rest ::
              reg.pending[reg.apps[0]] == rest + [NextSubroutine(reg).value]
              && TakeNext(reg) == reg.(pending := reg.pending[reg.apps[0] := rest])
  {
    var list := reg.pending[reg.apps[0]];
    if list != [] {
      assert list == list[..|list| - 1] + [list[|list| - 1]];
    }
  }

  function Opens(app: nat, from: nat, to: nat): seq<HostMsg>
    decreases if from < to then to - from else 0
  {
    if from >= to then [] else [OpenSocket(app, from)] + Opens(app, from + 1, to)
  }

  predicate Enabled(s: System, step: Step) {
    match step
    case HostStart => s.host.Between? && s.host.run < |s.plans|
    case HostGetApp => s.host.AwaitAppId? && s.host.run < |s.plans| && s.toHost != [] && s.toHost[0].AppId?
    case HostCommit => s.host.Running? && s.host.run < |s.plans| && s.host.done < s.plans[s.host.run].subroutines
    case HostGetReply => s.host.AwaitReply? && s.toHost != []
    case HostStop => s.host.Running? && s.host.run < |s.plans| && s.host.done == s.plans[s.host.run].subroutines
    case HandlerTake => s.handler.Ready? && s.toHandler != [] && CanHandle(s.registry, s.toHandler[0])
    case HandlerDone => s.handler.AwaitProcessor? && s.doneMsgs > 0 && s.handler.sub.app in s.registry.memories
    case ProcessorTake => s.processor.Idle? && s.toProcessor != [] && s.toProcessor[0].app in s.registry.memories
    case ProcessorDone => s.processor.Busy?
  }

  /** The handler gives the next pending subroutine to the processor, if there is one. */
  function Dispatch(s: System, reg: Registry): System {
    match NextSubroutine(reg)
    case None => s.(registry := reg, handler := Ready)
    case Some(sub) =>
      s.(registry := TakeNext(reg), toProcessor := s.toProcessor + [sub], handler := AwaitProcessor(sub))
  }

  function After(s: System, step: Step): System
    requires Enabled(s, step)
  {
    match step
    case HostStart => s.(host := AwaitAppId(s.host.run), toHandler := s.toHandler + [InitNewApp])
    case HostGetApp =>
      var app := s.toHost[0].app;
      s.(host := Running(s.host.run, app, 0), toHost := s.toHost[1..],
         toHandler := s.toHandler + Opens(app, 0, s.plans[s.host.run].sockets))
    case HostCommit =>
      var sub := Subroutine(s.host.app, s.host.done);
      s.(host := AwaitReply(s.host.run, s.host.app, s.host.done), toHandler := s.toHandler + [Commit(sub)],
         committed := s.committed + [sub])
    case HostGetReply => s.(host := Running(s.host.run, s.host.app, s.host.done + 1), toHost := s.toHost[1..])
    case HostStop => s.(host := Between(s.host.run + 1), toHandler := s.toHandler + [StopApp(s.host.app)])
    case HandlerTake =>
      var msg := s.toHandler[0];
      var taken := s.(toHandler := s.toHandler[1..],
                      toHost := if msg.InitNewApp? then s.toHost + [AppId(s.registry.counter)] else s.toHost);
      Dispatch(taken, Handle(s.registry, msg))
    case HandlerDone =>
      var replied := s.(doneMsgs := s.doneMsgs - 1, toHost := s.toHost + [Reply(s.handler.sub)],
                        answered := s.answered + [s.handler.sub]);
      Dispatch(replied, s.registry)
    case ProcessorTake => s.(processor := Busy(s.toProcessor[0]), toProcessor := s.toProcessor[1..])
    case ProcessorDone => s.(processor := Idle, doneMsgs := s.doneMsgs + 1)
  }

  function Start(clear: bool, plans: seq<Plan>): System {
    System(plans, Between(0), [], [], Ready, Registry(clear, 0, [], map[], {}, {}), [], Idle, 0, [], [])
  }

  function UpTo(n: nat): seq<nat> {
    seq(n, i requires i >= 0 => i)
  }

  /** The applications registered after `started` were registered and `stopped` were stopped. */
  function LiveApps(clear: bool, stopped: nat, started: nat): seq<nat> {
    if !clear then UpTo(started) else if stopped < started then [started - 1] else []
  }

  /** Registry contents: the counter is the number of applications so far, the applications
      that live have a memory and a list of pending subroutines, all empty but `stuck`. */
  ghost predicate RegistryIs(reg: Registry, stopped: nat, started: nat, stuck: Option<Subroutine>) {
    && reg.counter == started
    && reg.apps == LiveApps(reg.clear, stopped, started)
    && (forall a :: a in reg.pending <==> a in reg.apps)
    && (forall a :: a in reg.memories <==> a in reg.apps)
    && (forall a :: a in reg.pending ==>
          reg.pending[a] == if stuck.Some? && stuck.value.app == a then [stuck.value] else [])
  }

  /** The sockets below `n` of an application are open. */
  ghost predicate SocketsOpen(reg: Registry, app: nat, n: nat) {
    forall i: nat :: i < n ==> (app, i) in reg.sockets
  }

  ghost predicate Quiet(s: System) {
    s.handler.Ready? && s.toProcessor == [] && s.processor.Idle? && s.doneMsgs == 0
  }

  /** The subroutine is with the processor: under way to it, executed, or just done. */
  ghost predicate WithProcessor(s: System, sub: Subroutine) {
    && s.handler == AwaitProcessor(sub)
    && ((s.toProcessor == [sub] && s.processor.Idle? && s.doneMsgs == 0)
        || (s.toProcessor == [] && s.processor == Busy(sub) && s.doneMsgs == 0)
        || (s.toProcessor == [] && s.processor.Idle? && s.doneMsgs == 1))
  }

  /** The host's queue to the handler starts with sockets still to be opened, then `tail`. */
  ghost predicate QueueIs(s: System, app: nat, sockets: nat, tail: seq<HostMsg>) {
    && |tail| <= |s.toHandler| <= |tail| + sockets
    && s.toHandler == Opens(app, sockets + |tail| - |s.toHandler|, sockets) + tail
    && SocketsOpen(s.registry, app, sockets + |tail| - |s.toHandler|)
  }

  /** Stopping run `r` is still under way: its sockets may be, too. */
  ghost predicate Stopping(s: System, r: nat, tail: seq<HostMsg>) {
    r > 0 && r <= |s.plans| && RegistryIs(s.registry, r - 1, r, None)
    && QueueIs(s, r - 1, s.plans[r - 1].sockets, [StopApp(r - 1)] + tail)
  }

  ghost predicate BetweenOk(s: System, r: nat) {
    && r <= |s.plans| && Quiet(s) && s.toHost == [] && s.answered == s.committed
    && (Stopping(s, r, []) || (s.toHandler == [] && RegistryIs(s.registry, r, r, None)))
  }

  ghost predicate AwaitAppIdOk(s: System, r: nat) {
    && r < |s.plans| && Quiet(s) && s.answered == s.committed
    && ((s.toHost == [] && Stopping(s, r, [InitNewApp]))
        || (s.toHost == [] && s.toHandler == [InitNewApp] && RegistryIs(s.registry, r, r, None))
        || (s.toHost == [AppId(r)] && s.toHandler == [] && RegistryIs(s.registry, r, r + 1, None)))
  }

  ghost predicate RunningOk(s: System, r: nat, k: nat) {
    && r < |s.plans| && k <= s.plans[r].subroutines && Quiet(s) && s.toHost == [] && s.answered == s.committed
    && RegistryIs(s.registry, r, r + 1, None) && QueueIs(s, r, s.plans[r].sockets, [])
    && (k > 0 ==> s.registry.clear || r == 0)
  }

  /** A committed subroutine is under way to the handler, with the processor, or answered;
      or the handler looks for work at an older application only. */
  ghost predicate AwaitReplyOk(s: System, r: nat, k: nat) {
    var sub := Subroutine(r, k);
    && r < |s.plans| && k < s.plans[r].subroutines
    && ((Quiet(s) && s.toHost == [] && s.committed == s.answered + [sub] && RegistryIs(s.registry, r, r + 1, None)
         && QueueIs(s, r, s.plans[r].sockets, [Commit(sub)]))
        || (WithProcessor(s, sub) && s.toHost == [] && s.toHandler == [] && s.committed == s.answered + [sub]
            && RegistryIs(s.registry, r, r + 1, None) && SocketsOpen(s.registry, r, s.plans[r].sockets)
            && (s.registry.clear || r == 0))
        || (Quiet(s) && s.toHost == [Reply(sub)] && s.toHandler == [] && s.committed == s.answered
            && RegistryIs(s.registry, r, r + 1, None) && SocketsOpen(s.registry, r, s.plans[r].sockets)
            && (s.registry.clear || r == 0))
        || Stuck(s, r, k))
    && (k > 0 ==> s.registry.clear || r == 0)
  }

  /** The handler never looks at the application that has work. */
  ghost predicate Stuck(s: System, r: nat, k: nat) {
    && Quiet(s) && s.toHost == [] && s.toHandler == [] && !s.registry.clear && r > 0
    && s.committed == s.answered + [Subroutine(r, k)]
    && RegistryIs(s.registry, r, r + 1, Some(Subroutine(r, k)))
  }

  /** Without clearing, runs after the first got by only because they committed nothing. */
  ghost predicate EarlierRunsOk(s: System, r: nat) {
    s.registry.clear || forall i :: 0 < i < r && i < |s.plans| ==> s.plans[i].subroutines == 0
  }

  ghost predicate Inv(s: System) {
    && EarlierRunsOk(s, s.host.run)
    && match s.host
       case Between(r) => BetweenOk(s, r)
       case AwaitAppId(r) => AwaitAppIdOk(s, r)
       case Running(r, app, k) => app == r && RunningOk(s, r, k)
       case AwaitReply(r, app, k) => app == r && AwaitReplyOk(s, r, k)
  }

  lemma {:induction false} OpensLength(app: nat, from: nat, to: nat)
    requires from <= to
    ensures |Opens(app, from, to)| == to - from
    decreases |Opens(app, from, to)|
  {
    if from < to {
      OpensLength(app, from + 1, to);
    }
  }

  lemma {:induction false} LiveAppsSteps(clear: bool, r: nat)
    ensures LiveApps(clear, r, r) + [r] == LiveApps(clear, r, r + 1)
    ensures clear ==> Remove(LiveApps(clear, r, r + 1), r) == []
    ensures r in LiveApps(clear, r, r + 1) && r !in LiveApps(clear, r, r)
    ensures |LiveApps(clear, r, r + 1)| > 0 && (LiveApps(clear, r, r + 1)[0] == r <==> clear || r == 0)
  {
    if !clear {
      assert r == LiveApps(clear, r, r + 1)[r];
    }
  }

  /** Without work in any list, the handler only updates its registry. */
  lemma NoWork(s: System, reg: Registry, stopped: nat, started: nat)
    requires RegistryIs(reg, stopped, started, None)
    ensures Dispatch(s, reg) == s.(registry := reg, handler := Ready)
  {
  }

  /** Taking a message that opens a socket. */
  lemma {:induction false} TakeOpen(s: System, app: nat, sockets: nat, tail: seq<HostMsg>, stopped: nat, started: nat)
    requires Enabled(s, HandlerTake)
    requires Quiet(s) && QueueIs(s, app, sockets, tail) && |s.toHandler| > |tail|
    requires RegistryIs(s.registry, stopped, started, None)
    ensures var s' := After(s, HandlerTake);
            && s' == s.(registry := s'.registry, toHandler := s.toHandler[1..])
            && Quiet(s') && QueueIs(s', app, sockets, tail) && RegistryIs(s'.registry, stopped, started, None)
            && s'.registry.clear == s.registry.clear
  {
    var i := sockets + |tail| - |s.toHandler|;
    assert s.toHandler == [OpenSocket(app, i)] + (Opens(app, i + 1, sockets) + tail);
    NoWork(s, Handle(s.registry, s.toHandler[0]), stopped, started);
  }

  /** When the sockets are open, the queue is the tail. */
  lemma OpensDone(s: System, app: nat, sockets: nat, tail: seq<HostMsg>)
    requires QueueIs(s, app, sockets, tail) && |s.toHandler| == |tail|
    ensures s.toHandler == tail && SocketsOpen(s.registry, app, sockets)
  {
  }

  lemma {:induction false} TakeStop(s: System, r: nat, tail: seq<HostMsg>)
    requires Enabled(s, HandlerTake)
    requires Quiet(s) && r > 0 && s.toHandler == [StopApp(r - 1)] + tail && RegistryIs(s.registry, r - 1, r, None)
    ensures var s' := After(s, HandlerTake);
            && s' == s.(registry := s'.registry, toHandler := tail) && RegistryIs(s'.registry, r, r, None)
            && s'.registry.clear == s.registry.clear
  {
    LiveAppsSteps(s.registry.clear, r - 1);
    NoWork(s, Handle(s.registry, s.toHandler[0]), r, r);
  }

  lemma {:induction false} TakeInit(s: System, r: nat)
    requires Enabled(s, HandlerTake)
    requires Quiet(s) && s.toHandler == [InitNewApp] && RegistryIs(s.registry, r, r, None)
    ensures var s' := After(s, HandlerTake);
            && s' == s.(registry := s'.registry, toHandler := [], toHost := s.toHost + [AppId(r)])
            && RegistryIs(s'.registry, r, r + 1, None) && s'.registry.clear == s.registry.clear
  {
    LiveAppsSteps(s.registry.clear, r);
    NoWork(s.(toHandler := [], toHost := s.toHost + [AppId(r)]), Handle(s.registry, InitNewApp), r, r + 1);
  }

  lemma CommitAdds(reg: Registry, r: nat, sub: Subroutine)
    requires RegistryIs(reg, r, r + 1, None) && sub.app == r && CanHandle(reg, Commit(sub))
    ensures RegistryIs(Handle(reg, Commit(sub)), r, r + 1, Some(sub))
  {
  }

  /** The handler finds the subroutine if its application is the oldest one. */
  lemma CommitServed(reg: Registry, r: nat, sub: Subroutine)
    requires RegistryIs(reg, r, r + 1, Some(sub)) && sub.app == r
    ensures if reg.clear || r == 0 then NextSubroutine(reg) == Some(sub) && RegistryIs(TakeNext(reg), r, r + 1, None)
            else NextSubroutine(reg) == None
  {
    LiveAppsSteps(reg.clear, r);
  }

  lemma {:induction false} TakeCommit(s: System, r: nat, k: nat)
    requires Enabled(s, HandlerTake)
    requires Quiet(s) && s.toHandler == [Commit(Subroutine(r, k))] && RegistryIs(s.registry, r, r + 1, None)
    ensures var s' := After(s, HandlerTake);
            && s' == s.(registry := s'.registry, toHandler := [], handler := s'.handler, toProcessor := s'.toProcessor)
            && s'.registry.clear == s.registry.clear && s'.registry.sockets == s.registry.sockets
            && (s.registry.clear || r == 0 ==>
                  RegistryIs(s'.registry, r, r + 1, None) && WithProcessor(s', Subroutine(r, k)))
            && (!(s.registry.clear || r == 0) ==>
                  RegistryIs(s'.registry, r, r + 1, Some(Subroutine(r, k))) && Quiet(s'))
  {
    CommitAdds(s.registry, r, Subroutine(r, k));
    CommitServed(Handle(s.registry, s.toHandler[0]), r, Subroutine(r, k));
  }

  /** What taking a message changes besides the registry. */
  ghost predicate TakesOne(s: System, s': System)
    requires s.toHandler != []
  {
    && s'.plans == s.plans && s'.host == s.host && s'.toHandler == s.toHandler[1..]
    && s'.processor == s.processor && s'.doneMsgs == s.doneMsgs
    && |s'.toHost| == |s.toHost| + (if s.toHandler[0].InitNewApp? then 1 else 0)
    && |s'.toProcessor| <= |s.toProcessor| + (if s.toHandler[0].Commit? then 1 else 0)
  }

  lemma HandlerTakeKeepsInv(s: System)
    requires Inv(s) && Enabled(s, HandlerTake)
    ensures Inv(After(s, HandlerTake)) && TakesOne(s, After(s, HandlerTake))
  {
    match s.host
    case Between(r) => TakeWhileStopping(s, r, []);
    case AwaitAppId(r) => TakeInAwaitAppId(s, r);
    case Running(r, _, k) =>
      TakeOpen(s, r, s.plans[r].sockets, [], r, r + 1);
      assert RunningOk(After(s, HandlerTake), r, k);
    case AwaitReply(r, _, k) => TakeInAwaitReply(s, r, k);
  }

  lemma TakeInAwaitAppId(s: System, r: nat)
    requires AwaitAppIdOk(s, r) && Enabled(s, HandlerTake)
    ensures AwaitAppIdOk(After(s, HandlerTake), r) && TakesOne(s, After(s, HandlerTake))
    ensures After(s, HandlerTake).registry.clear == s.registry.clear
  {
    if s.toHandler == [InitNewApp] && !Stopping(s, r, [InitNewApp]) {
      TakeInit(s, r);
    } else {
      TakeWhileStopping(s, r, [InitNewApp]);
    }
  }

  lemma TakeInAwaitReply(s: System, r: nat, k: nat)
    requires AwaitReplyOk(s, r, k) && Enabled(s, HandlerTake)
    ensures AwaitReplyOk(After(s, HandlerTake), r, k) && TakesOne(s, After(s, HandlerTake))
    ensures After(s, HandlerTake).registry.clear == s.registry.clear
  {
    var tail := [Commit(Subroutine(r, k))];
    if |s.toHandler| > 1 {
      TakeOpen(s, r, s.plans[r].sockets, tail, r, r + 1);
    } else {
      OpensDone(s, r, s.plans[r].sockets, tail);
      TakeCommit(s, r, k);
    }
  }

  lemma {:induction false} TakeWhileStopping(s: System, r: nat, tail: seq<HostMsg>)
    requires Enabled(s, HandlerTake)
    requires Quiet(s) && Stopping(s, r, tail) && (tail == [] || tail == [InitNewApp]) && s.toHandler != []
    ensures TakesOne(s, After(s, HandlerTake))
    ensures var s' := After(s, HandlerTake);
            && s' == s.(registry := s'.registry, toHandler := s.toHandler[1..]) && s'.registry.clear == s.registry.clear
            && (Stopping(s', r, tail) || (s'.toHandler == tail && RegistryIs(s'.registry, r, r, None)))
  {
    if |s.toHandler| > 1 + |tail| {
      TakeOpen(s, r - 1, s.plans[r - 1].sockets, [StopApp(r - 1)] + tail, r - 1, r);
    } else {
      OpensDone(s, r - 1, s.plans[r - 1].sockets, [StopApp(r - 1)] + tail);
      TakeStop(s, r, tail);
    }
  }

  lemma {:induction false} HandlerDoneKeepsInv(s: System)
    requires Inv(s) && Enabled(s, HandlerDone)
    ensures Inv(After(s, HandlerDone))
    ensures var s' := After(s, HandlerDone);
            && s'.plans == s.plans && s'.host == s.host && s'.toHandler == s.toHandler && s'.processor == s.processor
            && s'.toProcessor == s.toProcessor && s'.doneMsgs == s.doneMsgs - 1 && |s'.toHost| == |s.toHost| + 1
  {
    var sub := s.handler.sub;
    NoWork(s.(doneMsgs := s.doneMsgs - 1, toHost := s.toHost + [Reply(sub)], answered := s.answered + [sub]),
           s.registry, sub.app, sub.app + 1);
  }

  lemma HostStartKeepsInv(s: System)
    requires Inv(s) && Enabled(s, HostStart)
    ensures Inv(After(s, HostStart))
  {
    if Stopping(s, s.host.run, []) {
      var r := s.host.run - 1;
      Enqueue(s, r, s.plans[r].sockets, [StopApp(r)], InitNewApp, [StopApp(r)] + [InitNewApp], After(s, HostStart));
    }
  }

  lemma HostGetAppKeepsInv(s: System)
    requires Inv(s) && Enabled(s, HostGetApp)
    ensures Inv(After(s, HostGetApp))
  {
    OpensLength(s.host.run, 0, s.plans[s.host.run].sockets);
  }

  lemma HostCommitKeepsInv(s: System)
    requires Inv(s) && Enabled(s, HostCommit)
    ensures Inv(After(s, HostCommit))
  {
    var r := s.host.run;
    Enqueue(s, r, s.plans[r].sockets, [], Commit(Subroutine(r, s.host.done)), [Commit(Subroutine(r, s.host.done))],
            After(s, HostCommit));
  }

  lemma HostStopKeepsInv(s: System)
    requires Inv(s) && Enabled(s, HostStop)
    ensures Inv(After(s, HostStop))
  {
    var r := s.host.run;
    Enqueue(s, r, s.plans[r].sockets, [], StopApp(r), [StopApp(r)] + [], After(s, HostStop));
  }

  lemma Enqueue(s: System, app: nat, sockets: nat, tail: seq<HostMsg>, msg: HostMsg, tail': seq<HostMsg>, s': System)
    requires QueueIs(s, app, sockets, tail) && s'.toHandler == s.toHandler + [msg] && s'.registry == s.registry
    requires tail' == tail + [msg]
    ensures QueueIs(s', app, sockets, tail')
  {
  }

  lemma StepKeepsInv(s: System, step: Step)
    requires Inv(s) && Enabled(s, step)
    ensures Inv(After(s, step))
  {
    match step
    case HandlerTake => HandlerTakeKeepsInv(s);
    case HandlerDone => HandlerDoneKeepsInv(s);
    case ProcessorTake =>
    case ProcessorDone =>
    case HostStart => HostStartKeepsInv(s);
    case HostGetApp => HostGetAppKeepsInv(s);
    case HostCommit => HostCommitKeepsInv(s);
    case HostGetReply =>
    case HostStop => HostStopKeepsInv(s);
  }

  /** Every run has stopped and the handler has seen it. */
  ghost predicate AllDone(s: System) {
    && s.host == Between(|s.plans|) && s.toHandler == [] && Quiet(s)
    && RegistryIs(s.registry, |s.plans|, |s.plans|, None)
  }

  ghost predicate IsStuck(s: System) {
    s.host.AwaitReply? && s.host.app == s.host.run && Stuck(s, s.host.run, s.host.done)
  }

  /** No message ever makes the handler raise. */
  lemma HeadCanBeHandled(s: System)
    requires Inv(s) && s.handler.Ready? && s.toHandler != []
    ensures Enabled(s, HandlerTake)
  {
    match s.host
    case Between(r) => StoppingHead(s, r, []);
    case AwaitAppId(r) =>
      if Stopping(s, r, [InitNewApp]) {
        StoppingHead(s, r, [InitNewApp]);
      }
    case Running(r, _, _) => OpenHead(s, r, s.plans[r].sockets, []);
    case AwaitReply(r, _, k) =>
      LiveAppsSteps(s.registry.clear, r);
      OpenHead(s, r, s.plans[r].sockets, [Commit(Subroutine(r, k))]);
  }

  lemma OpenHead(s: System, app: nat, sockets: nat, tail: seq<HostMsg>)
    requires QueueIs(s, app, sockets, tail) && s.toHandler != []
    ensures s.toHandler[0].OpenSocket? || s.toHandler == tail
  {
  }

  lemma StoppingHead(s: System, r: nat, tail: seq<HostMsg>)
    requires Stopping(s, r, tail) && s.toHandler != []
    ensures CanHandle(s.registry, s.toHandler[0])
  {
    LiveAppsSteps(s.registry.clear, r - 1);
    OpenHead(s, r - 1, s.plans[r - 1].sockets, [StopApp(r - 1)] + tail);
  }

  lemma SomeStepEnabled(s: System)
    requires Inv(s)
    ensures (exists step :: Enabled(s, step)) <==> !AllDone(s) && !IsStuck(s)
  {
    if AllDone(s) || IsStuck(s) {
      NoStepLeft(s);
    } else if s.handler.Ready? && s.toHandler != [] {
      HeadCanBeHandled(s);
    } else {
      StepWithoutMessage(s);
    }
  }

  lemma NoStepLeft(s: System)
    requires AllDone(s) || IsStuck(s)
    ensures forall step :: !Enabled(s, step)
  {
  }

  lemma StepWithoutMessage(s: System)
    requires Inv(s) && !AllDone(s) && !IsStuck(s) && (s.handler.Ready? ==> s.toHandler == [])
    ensures exists step :: Enabled(s, step)
  {
    match s.host
    case Between(_) => assert Enabled(s, HostStart);
    case AwaitAppId(_) => assert Enabled(s, HostGetApp);
    case Running(_, _, _) => assert Enabled(s, HostCommit) || Enabled(s, HostStop);
    case AwaitReply(r, _, k) => ReplyComesCloser(s, r, k);
  }

  lemma ReplyComesCloser(s: System, r: nat, k: nat)
    requires AwaitReplyOk(s, r, k) && s.host == AwaitReply(r, r, k) && !Stuck(s, r, k) && (s.handler.Ready? ==> s.toHandler == [])
    ensures exists step :: Enabled(s, step)
  {
    LiveAppsSteps(s.registry.clear, r);
    assert Enabled(s, ProcessorTake) || Enabled(s, ProcessorDone) || Enabled(s, HandlerDone) || Enabled(s, HostGetReply);
  }

  function MessageWork(msg: HostMsg): nat {
    if msg.Commit? then 5 else if msg.InitNewApp? then 2 else 1
  }

  function QueueWork(queue: seq<HostMsg>): nat {
    if queue == [] then 0 else MessageWork(queue[0]) + QueueWork(queue[1..])
  }

  lemma {:induction false} QueueWorkAppends(queue: seq<HostMsg>, more: seq<HostMsg>)
    ensures QueueWork(queue + more) == QueueWork(queue) + QueueWork(more)
  {
    if queue == [] {
      assert queue + more == more;
    } else {
      assert (queue + more)[1..] == queue[1..] + more;
      QueueWorkAppends(queue[1..], more);
    }
  }

  lemma {:induction false} OpensWork(app: nat, from: nat, to: nat)
    requires from <= to
    ensures QueueWork(Opens(app, from, to)) == to - from
    decreases |Opens(app, from, to)|
  {
    if from < to {
      OpensWork(app, from + 1, to);
      assert Opens(app, from, to)[1..] == Opens(app, from + 1, to);
    }
  }

  /** Work left in a run whose program still commits `left` subroutines. */
  function RunWork(left: int): nat {
    if left > 0 then 6 * left + 2 else 2
  }

  function PlansWork(plans: seq<Plan>, run: nat): nat
    decreases if run < |plans| then |plans| - run else 0
  {
    if run >= |plans| then 0
    else 3 + plans[run].sockets + RunWork(plans[run].subroutines) + PlansWork(plans, run + 1)
  }

  function HostWork(plans: seq<Plan>, host: HostPhase): nat {
    if host.run >= |plans| then 0 else
    match host
    case Between(r) => PlansWork(plans, r)
    case AwaitAppId(r) => plans[r].sockets + RunWork(plans[r].subroutines) + PlansWork(plans, r + 1)
    case Running(r, _, k) => RunWork(plans[r].subroutines - k) + PlansWork(plans, r + 1)
    case AwaitReply(r, _, k) => RunWork(plans[r].subroutines - k - 1) + PlansWork(plans, r + 1)
  }

  function Work(s: System): nat {
    HostWork(s.plans, s.host) + QueueWork(s.toHandler) + 4 * |s.toProcessor|
    + (if s.processor.Busy? then 3 else 0) + 2 * s.doneMsgs + |s.toHost|
  }

  lemma HostGetAppDoesWork(s: System)
    requires Inv(s) && Enabled(s, HostGetApp)
    ensures Work(After(s, HostGetApp)) < Work(s)
  {
    QueueWorkAppends(s.toHandler, Opens(s.toHost[0].app, 0, s.plans[s.host.run].sockets));
    OpensWork(s.toHost[0].app, 0, s.plans[s.host.run].sockets);
  }

  lemma HostStartDoesWork(s: System)
    requires Inv(s) && Enabled(s, HostStart)
    ensures Work(After(s, HostStart)) < Work(s)
  {
    QueueWorkAppends(s.toHandler, [InitNewApp]);
  }

  lemma HostCommitDoesWork(s: System)
    requires Inv(s) && Enabled(s, HostCommit)
    ensures Work(After(s, HostCommit)) < Work(s)
  {
    QueueWorkAppends(s.toHandler, [Commit(Subroutine(s.host.app, s.host.done))]);
  }

  lemma HostStopDoesWork(s: System)
    requires Inv(s) && Enabled(s, HostStop)
    ensures Work(After(s, HostStop)) < Work(s)
  {
    QueueWorkAppends(s.toHandler, [StopApp(s.host.app)]);
  }

  /** No run is infinite. */
  lemma StepDoesWork(s: System, step: Step)
    requires Inv(s) && Enabled(s, step)
    ensures Work(After(s, step)) < Work(s)
  {
    match step
    case HandlerTake => HandlerTakeKeepsInv(s);
    case HandlerDone => HandlerDoneKeepsInv(s);
    case ProcessorTake =>
    case ProcessorDone =>
    case HostStart => HostStartDoesWork(s);
    case HostGetApp => HostGetAppDoesWork(s);
    case HostCommit => HostCommitDoesWork(s);
    case HostGetReply =>
    case HostStop => HostStopDoesWork(s);
  }

  /** The first `k` subroutines of the application of run `r`. */
  function RunSubroutines(r: nat, k: nat): seq<Subroutine> {
    if k == 0 then [] else RunSubroutines(r, k - 1) + [Subroutine(r, k - 1)]
  }

  /** All subroutines of the first `r` runs, in order. */
  function AllSubroutines(plans: seq<Plan>, r: nat): seq<Subroutine>
    requires r <= |plans|
  {
    if r == 0 then [] else AllSubroutines(plans, r - 1) + RunSubroutines(r - 1, plans[r - 1].subroutines)
  }

  ghost predicate CommitsInOrder(s: System) {
    && s.host.run <= |s.plans|
    && s.committed == AllSubroutines(s.plans, s.host.run) +
                      match s.host
                      case Running(r, _, k) => RunSubroutines(r, k)
                      case AwaitReply(r, _, k) => RunSubroutines(r, k + 1)
                      case _ => []
  }

  lemma {:induction false} StepKeepsOrder(s: System, step: Step)
    requires Inv(s) && CommitsInOrder(s) && Enabled(s, step)
    ensures CommitsInOrder(After(s, step))
  {
    if step.HostCommit? {
      assert s.committed + [Subroutine(s.host.run, s.host.done)] ==
             AllSubroutines(s.plans, s.host.run) + RunSubroutines(s.host.run, s.host.done + 1);
    } else if step.HandlerTake? {
      HandlerTakeKeepsOrder(s);
    }
  }

  lemma HandlerTakeKeepsOrder(s: System)
    requires Enabled(s, HandlerTake)
    ensures After(s, HandlerTake).committed == s.committed && After(s, HandlerTake).host == s.host
    ensures After(s, HandlerTake).plans == s.plans && After(s, HandlerTake).registry.clear == s.registry.clear
  {
  }

  predicate IsRun(s: System, steps: seq<Step>)
    decreases |steps|
  {
    steps == [] || (Enabled(s, steps[0]) && IsRun(After(s, steps[0]), steps[1..]))
  }

  function Final(s: System, steps: seq<Step>): System
    requires IsRun(s, steps)
    decreases |steps|
  {
    if steps == [] then s else Final(After(s, steps[0]), steps[1..])
  }

  lemma {:induction false} RunKeepsInv(s: System, steps: seq<Step>)
    requires Inv(s) && CommitsInOrder(s) && IsRun(s, steps)
    ensures Inv(Final(s, steps)) && CommitsInOrder(Final(s, steps))
    ensures |steps| + Work(Final(s, steps)) <= Work(s)
    ensures Final(s, steps).plans == s.plans && Final(s, steps).registry.clear == s.registry.clear
    decreases |steps|
  {
    if steps != [] {
      StepKeepsInv(s, steps[0]);
      StepKeepsOrder(s, steps[0]);
      StepDoesWork(s, steps[0]);
      KeepsPlans(s, steps[0]);
      RunKeepsInv(After(s, steps[0]), steps[1..]);
    }
  }

  lemma KeepsPlans(s: System, step: Step)
    requires Enabled(s, step)
    ensures After(s, step).plans == s.plans && After(s, step).registry.clear == s.registry.clear
  {
  }

  /** Fresh application IDs, replies in order, subroutines that find what they need, and nothing
      left of a run once the handler has seen its stop. */
  ghost predicate Safe(s: System) {
    && s.answered <= s.committed && |s.committed| <= |s.answered| + 1
    && (s.host.Running? || s.host.AwaitReply? ==> s.host.app == s.host.run && s.registry.counter == s.host.run + 1)
    && (s.processor.Busy? ==>
          s.processor.sub.app in s.registry.memories && s.processor.sub.app < |s.plans|
          && SocketsOpen(s.registry, s.processor.sub.app, s.plans[s.processor.sub.app].sockets))
    && (s.host.Between? && s.toHandler == [] && s.registry.clear ==> IsCleared(s.registry))
    && (s.handler.Ready? && s.toHandler != [] ==> CanHandle(s.registry, s.toHandler[0]))
  }

  predicate IsCleared(reg: Registry) {
    reg.apps == [] && reg.memories == {} && reg.pending == map[]
  }

  lemma StateIsSafe(s: System)
    requires Inv(s)
    ensures Safe(s)
  {
    if s.processor.Busy? {
      LiveAppsSteps(s.registry.clear, s.host.run);
    }
    if s.handler.Ready? && s.toHandler != [] {
      HeadCanBeHandled(s);
    }
  }

  /** At any moment of any run: application IDs are the run numbers, so they are fresh; replies
      are in commit order with at most one outstanding; and the processor executes only with
      the application's memory there and all its sockets open. */
  lemma EveryStateIsSafe(clear: bool, plans: seq<Plan>, steps: seq<Step>)
    requires IsRun(Start(clear, plans), steps)
    ensures Safe(Final(Start(clear, plans), steps))
  {
    StartIsGood(clear, plans);
    RunKeepsInv(Start(clear, plans), steps);
    StateIsSafe(Final(Start(clear, plans), steps));
  }

  /** Whether the handler finds the work of every run: without clearing it only ever looks at
      the oldest application. */
  predicate RunsGetThrough(clear: bool, plans: seq<Plan>) {
    clear || forall r :: 0 < r < |plans| ==> plans[r].subroutines == 0
  }

  /** Every subroutine of every run was answered once and in order and, with clearing, no
      application or memory is left. */
  ghost predicate Completed(s: System) {
    && AllDone(s) && s.answered == s.committed == AllSubroutines(s.plans, |s.plans|)
    && s.registry.counter == |s.plans|
    && (s.registry.clear ==> IsCleared(s.registry))
  }

  ghost predicate AtRest(s: System) {
    forall step :: !Enabled(s, step)
  }

  /** Exactly: every run ends after boundedly many steps, completed if clearing is on or only
      the first run commits subroutines, and otherwise with the host waiting for a reply that
      the handler never gives. */
  lemma EveryRunEnds(clear: bool, plans: seq<Plan>, steps: seq<Step>)
    requires IsRun(Start(clear, plans), steps)
    ensures |steps| <= Work(Start(clear, plans))
    ensures var s := Final(Start(clear, plans), steps);
            AtRest(s) ==> if RunsGetThrough(clear, plans) then Completed(s) else IsStuck(s)
  {
    StartIsGood(clear, plans);
    RunKeepsInv(Start(clear, plans), steps);
    RestEnds(Final(Start(clear, plans), steps));
  }

  lemma StartIsGood(clear: bool, plans: seq<Plan>)
    ensures Inv(Start(clear, plans)) && CommitsInOrder(Start(clear, plans))
  {
  }

  lemma RestEnds(s: System)
    requires Inv(s) && CommitsInOrder(s)
    ensures AtRest(s) ==> if RunsGetThrough(s.registry.clear, s.plans) then Completed(s) else IsStuck(s)
  {
    SomeStepEnabled(s);
    if AllDone(s) {
      DoneMeans(s);
    } else if IsStuck(s) {
      StuckMeans(s);
    }
  }

  lemma DoneMeans(s: System)
    requires Inv(s) && CommitsInOrder(s) && AllDone(s)
    ensures RunsGetThrough(s.registry.clear, s.plans) && Completed(s)
  {
  }

  lemma {:induction false} StuckMeans(s: System)
    requires Inv(s) && IsStuck(s)
    ensures !RunsGetThrough(s.registry.clear, s.plans) && !AllDone(s)
  {
    assert s.plans[s.host.run].subroutines > 0;
  }

  lemma {:induction false} RemoveSkips(apps: seq<nat>, app: nat, i: nat)
    requires i <= |apps| && forall j :: 0 <= j < i ==> apps[j] != app
    ensures Remove(apps, app) == apps[..i] + Remove(apps[i..], app)
    decreases i
  {
    if i == 0 {
      assert apps[0..] == apps;
    } else {
      RemoveSkips(apps[1..], app, i - 1);
      assert apps[1..][i - 1..] == apps[i..];
      assert [apps[0]] + apps[1..][..i - 1] == apps[..i];
    }
  }
}
