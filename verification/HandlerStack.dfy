/**
 The handler as an object: it keeps its own registry, and it adds and clears the application
 memories of the node. Every method is the reaction of `Lifecycle` on the registry and, where
 the node's memories change, a step of `NodeState` on the node.
 */
module HandlerStack {
  import opened Options
  import opened Lifecycle
  import opened QnosStack
  import NodeState

  /** Drops the first entry that is `app`. */
  method Without(apps: seq<nat>, app: nat) returns (rest: seq<nat>)
    ensures rest == Remove(apps, app)
  {
    var i := 0;
    while i < |apps| && apps[i] != app
      invariant 0 <= i <= |apps|
      invariant forall j :: 0 <= j < i ==> apps[j] != app
    {
      i := i + 1;
    }
    RemoveSkips(apps, app, i);
    rest := if i == |apps| then apps else apps[..i] + apps[i + 1..];
  }

  /** What a message does to the node: registering and, with clearing on, stopping an application
      change its memories; the other messages do not concern it. */
  function NodeAfter(clear: bool, node: NodeState.Node, counter: nat, msg: HostMsg): NodeState.Node {
    match msg
    case InitNewApp =>
      if NodeState.Enabled(node, NodeState.InitApp(counter)) then NodeState.After(node, NodeState.InitApp(counter)) else node
    case StopApp(app) =>
      if clear && NodeState.Enabled(node, NodeState.StopApp(app)) then NodeState.After(node, NodeState.StopApp(app)) else node
    case _ => node
  }

  class Handler {
    const clear: bool
    const qnos: Qnos
    var appCounter: nat
    var applications: seq<nat>
    var pending: map<nat, seq<Subroutine>>
    var sockets: set<(nat, nat)>

    /** Every application has a memory and a list of subroutines, and an ID below the counter. */
    ghost predicate Valid()
      reads this, qnos
    {
      && qnos.Valid()
      && (forall a :: a in qnos.appMemories <==> a in pending)
      && (forall a :: a in pending ==> a < appCounter)
    }

    ghost function State(): Registry
      reads this, qnos
    {
      Registry(clear, appCounter, applications, pending, qnos.appMemories.Keys, sockets)
    }

    constructor (clear: bool, qnos: Qnos)
      requires qnos.Valid() && qnos.appMemories == map[]
      ensures Valid() && State() == Registry(clear, 0, [], map[], {}, {}) && this.qnos == qnos
    {
      this.clear := clear;
      this.qnos := qnos;
      appCounter, applications, pending, sockets := 0, [], map[], {};
    }

    /** Lists a new running application. */
    method Register()
      modifies this`appCounter, this`applications, this`pending
      ensures appCounter == old(appCounter) + 1 && applications == old(applications) + [old(appCounter)]
      ensures pending == old(pending)[old(appCounter) := []]
      ensures qnos.State() == old(qnos.State())
    {
      applications := applications + [appCounter];
      pending := pending[appCounter := []];
      appCounter := appCounter + 1;
    }

    /** Takes an application off the list. */
    method Forget(app: nat)
      modifies this`applications, this`pending
      ensures applications == Remove(old(applications), app) && pending == old(pending) - {app}
      ensures qnos.State() == old(qnos.State())
    {
      pending := pending - {app};
      applications := Without(applications, app);
    }

    /** Application IDs count up, so a new one was never used before. */
    method InitNewApp() returns (app: nat)
      requires Valid()
      modifies this, qnos`appMemories
      ensures Valid() && app == old(appCounter) && app !in old(qnos.appMemories)
      ensures State() == Handle(old(State()), HostMsg.InitNewApp)
      ensures qnos.State() == NodeState.After(old(qnos.State()), NodeState.InitApp(app))
    {
      app := appCounter;
      qnos.AddAppMemory(app);
      Register();
    }

    /** With clearing on, the application, its memory and its qubits are gone; otherwise nothing
        changes. An unknown application raises. */
    method StopApplication(app: nat) returns (ok: bool)
      requires Valid() && qnos.processor.Idle? && NodeState.Conserved(qnos.State())
      modifies this, qnos`appMemories, qnos.memory, qnos.appMemories.Values
      ensures Valid() && ok == CanHandle(old(State()), StopApp(app))
      ensures State() == if ok then Handle(old(State()), StopApp(app)) else old(State())
      ensures ok && clear ==> NodeState.Enabled(old(qnos.State()), NodeState.StopApp(app))
      ensures qnos.State() ==
              if ok && clear then NodeState.After(old(qnos.State()), NodeState.StopApp(app)) else old(qnos.State())
    {
      if !clear {
        return true;
      }
      if app !in qnos.appMemories {
        return false;
      }
      CanStop(qnos.State(), app);
      qnos.ClearApplication(app);
      Forget(app);
      return true;
    }

    /** The reaction to a message; registering an application is the only one answered at once. */
    method MsgFromHost(msg: HostMsg) returns (ok: bool, answer: Option<Answer>)
      requires Valid() && qnos.processor.Idle? && NodeState.Conserved(qnos.State())
      modifies this, qnos`appMemories, qnos.memory, qnos.appMemories.Values
      ensures Valid() && ok == CanHandle(old(State()), msg)
      ensures State() == if ok then Handle(old(State()), msg) else old(State())
      ensures answer == if msg.InitNewApp? then Some(AppId(old(appCounter))) else None
      ensures qnos.State() == NodeAfter(clear, old(qnos.State()), old(appCounter), msg)
    {
      ok, answer := true, None;
      match msg
      case InitNewApp =>
        var app := InitNewApp();
        answer := Some(AppId(app));
      case OpenSocket(app, socket) => sockets := sockets + {(app, socket)};
      case Commit(sub) =>
        if sub.app in pending {
          pending := pending[sub.app := pending[sub.app] + [sub]];
        } else {
          ok := false;
        }
      case StopApp(app) => ok := StopApplication(app);
    }

    /** Pops the youngest pending subroutine of the oldest application. */
    method NextPending() returns (sub: Option<Subroutine>)
      requires Valid()
      modifies this`pending
      ensures Valid() && sub == NextSubroutine(old(State()))
      ensures State() == if sub.Some? then TakeNext(old(State())) else old(State())
    {
      if applications == [] || applications[0] !in pending || pending[applications[0]] == [] {
        return None;
      }
      var list := pending[applications[0]];
      pending := pending[applications[0] := list[..|list| - 1]];
      return Some(list[|list| - 1]);
    }
  }

  /** When no application is registered any more and the node is at rest, every physical qubit
      is free. */
  lemma ClearedLeavesNoQubit(h: Handler)
    requires h.Valid() && IsCleared(h.State()) && NodeState.Conserved(h.qnos.State())
    requires h.qnos.processor.Idle? && h.qnos.netstack.Ready?
    ensures h.qnos.memory.taken == {}
  {
    var s := h.qnos.State();
    assert forall a :: a !in s.apps;
    assert forall q :: !NodeState.IsMapped(s.apps, q);
    assert s.taken == {};
  }
}
