/**
 The netstacks of many nodes creating entanglement with each other, as a state machine over
 their atomic steps in any order.

 `reqs` is one global list of requests. Every node handles the requests of `reqs` that involve it,
 one at a time and in that order. A request object travels by reference: its `number` field
 is shared by both ends, and the creator of a create-and-keep request overwrites it.
 */
module Handshake {
  datatype Kind = Keep | Measure

  datatype Request = Request(creator: nat, receiver: nat, kind: Kind, number: nat)

  /** Messages between netstacks: a request object, by its identity, or "ready". */
  datatype Msg = Create(request: nat) | Ready

  datatype Phase =
    | Idle
    | AwaitReady                                // creator: request sent
    | Allocating(done: nat, total: nat)         // needs a communication qubit for pair `done`
    | AwaitPair(done: nat, total: nat)          // its request for pair `done` is with the EGP
    | GotPair(done: nat, total: nat, bell: int) // pair `done` is delivered, not yet stored
  {
    predicate Handling() {
      Allocating? || AwaitPair? || GotPair?
    }
  }

  /** `pos[x]`: index in reqs of node x's first unfinished request. `number[i]`: the number field of
      request object i. `results`: Bell labels stored, per node and request. `delivered[i]`: what
      the EGP has delivered for request i. */
  datatype Net = Net(pos: seq<nat>, phase: seq<Phase>, number: seq<nat>,
                     chan: map<(nat, nat), seq<Msg>>, results: map<(nat, nat), seq<int>>,
                     delivered: seq<seq<int>>)

  predicate Involves(r: Request, x: nat) {
    r.creator == x || r.receiver == x
  }

  predicate ValidRequests(reqs: seq<Request>, n: nat) {
    forall i | 0 <= i < |reqs| :: reqs[i].creator < n && reqs[i].receiver < n && reqs[i].creator != reqs[i].receiver
  }

  /** The first request from `from` on that involves node x. */
  function NextFor(reqs: seq<Request>, x: nat, from: nat): (i: nat)
    requires from <= |reqs|
    ensures from <= i <= |reqs| && (i < |reqs| ==> Involves(reqs[i], x))
    ensures forall j | from <= j < i :: !Involves(reqs[j], x)
    decreases |reqs| - from
  {
    if from == |reqs| || Involves(reqs[from], x) then from else NextFor(reqs, x, from + 1)
  }

  predicate Sized(reqs: seq<Request>, s: Net) {
    && |s.pos| == |s.phase| && |s.number| == |s.delivered| == |reqs| && ValidRequests(reqs, |s.pos|)
    && forall x | 0 <= x < |s.pos| :: s.pos[x] <= |reqs|
  }

  function Initial(reqs: seq<Request>, n: nat): Net {
    Net(seq(n, (x: nat) => NextFor(reqs, x, 0)), seq(n, _ => Idle), seq(|reqs|, i requires 0 <= i < |reqs| => reqs[i].number),
        map[], map[], seq(|reqs|, _ => []))
  }

  function Chan(s: Net, x: nat, y: nat): seq<Msg> {
    if (x, y) in s.chan then s.chan[(x, y)] else []
  }

  function Results(s: Net, x: nat, i: nat): seq<int> {
    if (x, i) in s.results then s.results[(x, i)] else []
  }

  function Peer(r: Request, x: nat): nat {
    if r.creator == x then r.receiver else r.creator
  }

  datatype Step =
    | SendCreate(x: nat)
    | TakeCreate(x: nat)          // receiver: takes the peer's message, answers "ready"
    | TakeReady(x: nat)           // creator: takes the peer's message
    | Allocate(x: nat)            // a communication qubit is available
    | Deliver(x: nat, y: nat, bell: int)
    | Store(x: nat)

  predicate Enabled(reqs: seq<Request>, s: Net, step: Step)
    requires Sized(reqs, s)
  {
    && step.x < |s.pos| && s.pos[step.x] < |reqs|
    && var r := reqs[s.pos[step.x]];
    match step
    case SendCreate(x) => s.phase[x].Idle? && r.creator == x
    case TakeCreate(x) => s.phase[x].Idle? && r.receiver == x && Chan(s, r.creator, x) != []
    case TakeReady(x) => s.phase[x].AwaitReady? && Chan(s, r.receiver, x) != []
    case Allocate(x) => s.phase[x].Allocating?
    case Deliver(x, y, _) =>
      // The EGP matches the creator's request with the receiver's; it knows no request identity.
      && r.creator == x && r.receiver == y && s.phase[x].AwaitPair?
      && y < |s.pos| && s.pos[y] < |reqs| && reqs[s.pos[y]].receiver == y && reqs[s.pos[y]].creator == x && s.phase[y].AwaitPair?
    case Store(x) => s.phase[x].GotPair?
  }

  /** Node x goes on with pair `done` of `total`, or finishes its request. */
  function Continue(reqs: seq<Request>, s: Net, x: nat, done: nat, total: nat): Net
    requires Sized(reqs, s) && x < |s.pos| && s.pos[x] < |reqs|
  {
    if done < total then s.(phase := s.phase[x := Allocating(done, total)])
    else s.(phase := s.phase[x := Idle], pos := s.pos[x := NextFor(reqs, x, s.pos[x] + 1)])
  }

  function Send(s: Net, x: nat, y: nat, m: Msg): Net {
    s.(chan := s.chan[(x, y) := Chan(s, x, y) + [m]])
  }

  function Drop(s: Net, x: nat, y: nat): Net
    requires Chan(s, x, y) != []
  {
    s.(chan := s.chan[(x, y) := Chan(s, x, y)[1..]])
  }

  /** The number of pairs that the receiver will handle: it reads the request object it got. */
  function ReceiverTotal(s: Net, m: Msg): nat {
    if m.Create? && m.request < |s.number| then s.number[m.request] else 0
  }

  function Next(reqs: seq<Request>, s: Net, step: Step): Net
    requires Sized(reqs, s) && Enabled(reqs, s, step)
  {
    var i := s.pos[step.x];
    var r := reqs[i];
    match step
    case SendCreate(x) =>
      Send(s, x, r.receiver, Create(i)).(phase := s.phase[x := AwaitReady])
    case TakeCreate(x) =>
      var total := ReceiverTotal(s, Chan(s, r.creator, x)[0]);
      Continue(reqs, Send(Drop(s, r.creator, x), x, r.creator, Ready), x, 0, total)
    case TakeReady(x) =>
      var s' := Drop(s, r.receiver, x).(number := if r.kind.Keep? then s.number[i := 1] else s.number);
      Continue(reqs, s', x, 0, s.number[i])
    case Allocate(x) =>
      s.(phase := s.phase[x := AwaitPair(s.phase[x].done, s.phase[x].total)])
    case Deliver(x, y, bell) =>
      s.(phase := s.phase[x := GotPair(s.phase[x].done, s.phase[x].total, bell)]
                         [y := GotPair(s.phase[y].done, s.phase[y].total, bell)],
         delivered := s.delivered[i := s.delivered[i] + [bell]])
    case Store(x) =>
      var s' := s.(results := s.results[(x, i) := Results(s, x, i) + [s.phase[x].bell]]);
      Continue(reqs, s', x, s.phase[x].done + 1, s.phase[x].total)
  }

  // The invariant.

  /** Node x has taken its peer's message for request i. */
  ghost predicate Took(s: Net, x: nat, i: nat)
    requires x < |s.pos| == |s.phase|
  {
    s.pos[x] > i || (s.pos[x] == i && s.phase[x].Handling())
  }

  /** Node x has sent its own message for request i. */
  ghost predicate Sent(reqs: seq<Request>, s: Net, x: nat, i: nat)
    requires x < |s.pos| == |s.phase| && i < |reqs|
  {
    Took(s, x, i) || (s.pos[x] == i && s.phase[x].AwaitReady?)
  }

  /** How many pairs of request i the EGP has delivered to node x, and how many x has stored. */
  ghost function Count(reqs: seq<Request>, s: Net, x: nat, i: nat): nat
    requires x < |s.pos| == |s.phase| && i < |reqs|
  {
    if s.pos[x] > i then reqs[i].number
    else if s.pos[x] < i || !s.phase[x].Handling() then 0
    else if s.phase[x].GotPair? then s.phase[x].done + 1 else s.phase[x].done
  }

  ghost function Stored(reqs: seq<Request>, s: Net, x: nat, i: nat): nat
    requires x < |s.pos| == |s.phase| && i < |reqs|
  {
    if s.pos[x] > i then reqs[i].number
    else if s.pos[x] < i || !s.phase[x].Handling() then 0 else s.phase[x].done
  }

  ghost predicate Between(r: Request, x: nat, y: nat) {
    (r.creator == x && r.receiver == y) || (r.creator == y && r.receiver == x)
  }

  /** Requests for which a message from x to y is in transit. */
  ghost function Live(reqs: seq<Request>, s: Net, x: nat, y: nat): set<nat>
    requires Sized(reqs, s) && x < |s.pos| && y < |s.pos|
  {
    set i | 0 <= i < |reqs| && Between(reqs[i], x, y) && Sent(reqs, s, x, i) && !Took(s, y, i)
  }

  /** The messages of node x for the given requests, in the order of reqs. */
  ghost function Messages(reqs: seq<Request>, x: nat, live: set<nat>, i: nat): seq<Msg>
    requires i <= |reqs|
    decreases |reqs| - i
  {
    if i == |reqs| then []
    else if i in live then [if reqs[i].creator == x then Create(i) else Ready] + Messages(reqs, x, live, i + 1)
    else Messages(reqs, x, live, i + 1)
  }

  ghost predicate NodeOk(reqs: seq<Request>, s: Net, x: nat)
    requires Sized(reqs, s) && x < |s.pos|
  {
    var i, phase := s.pos[x], s.phase[x];
    && (i == |reqs| ==> phase.Idle?)
    && (i < |reqs| ==> Involves(reqs[i], x))
    && (phase.AwaitReady? ==> reqs[i].creator == x)
    && (phase.Handling() ==> phase.total == reqs[i].number && phase.done < phase.total)
    && (phase.GotPair? ==> phase.done < |s.delivered[i]| && phase.bell == s.delivered[i][phase.done])
  }

  /** How far the two ends of request i have got in their handshake. */
  ghost predicate HandshakeOk(reqs: seq<Request>, s: Net, i: nat)
    requires Sized(reqs, s) && i < |reqs|
  {
    var c, d := reqs[i].creator, reqs[i].receiver;
    && (Took(s, d, i) ==> Sent(reqs, s, c, i))
    && (Took(s, c, i) ==> Took(s, d, i))
    && s.number[i] == (if Took(s, c, i) && reqs[i].kind.Keep? then 1 else reqs[i].number)
  }

  /** The pairs of request i: delivered to both ends, stored by each end in order. */
  ghost predicate PairsOk(reqs: seq<Request>, s: Net, i: nat)
    requires Sized(reqs, s) && i < |reqs|
  {
    var c, d := reqs[i].creator, reqs[i].receiver;
    && |s.delivered[i]| == Count(reqs, s, c, i) == Count(reqs, s, d, i)
    && StoredOk(reqs, s, c, i) && StoredOk(reqs, s, d, i)
  }

  ghost predicate StoredOk(reqs: seq<Request>, s: Net, x: nat, i: nat)
    requires Sized(reqs, s) && i < |reqs| && x < |s.pos|
  {
    Stored(reqs, s, x, i) <= |s.delivered[i]| && Results(s, x, i) == s.delivered[i][..Stored(reqs, s, x, i)]
  }

  ghost predicate RequestOk(reqs: seq<Request>, s: Net, i: nat)
    requires Sized(reqs, s) && i < |reqs|
  {
    HandshakeOk(reqs, s, i) && PairsOk(reqs, s, i)
  }

  ghost predicate ChanOk(reqs: seq<Request>, s: Net, x: nat, y: nat)
    requires Sized(reqs, s) && x < |s.pos| && y < |s.pos|
  {
    Chan(s, x, y) == Messages(reqs, x, Live(reqs, s, x, y), 0)
  }

  ghost predicate Inv(reqs: seq<Request>, s: Net) {
    && Sized(reqs, s)
    && (forall x: nat :: x < |s.pos| ==> NodeOk(reqs, s, x))
    && (forall i: nat :: i < |reqs| ==> RequestOk(reqs, s, i))
    && (forall x: nat, y: nat :: x < |s.pos| && y < |s.pos| && x != y ==> ChanOk(reqs, s, x, y))
  }

  lemma {:induction false} MessagesNone(reqs: seq<Request>, x: nat, live: set<nat>, i: nat)
    requires i <= |reqs| && forall j :: j in live ==> j < i
    ensures Messages(reqs, x, live, i) == []
    decreases |reqs| - i
  {
    if i < |reqs| {
      MessagesNone(reqs, x, live, i + 1);
    }
  }

  /** A new last message is appended. */
  lemma {:induction false} MessagesAppend(reqs: seq<Request>, x: nat, live: set<nat>, k: nat, i: nat)
    requires i <= k < |reqs| && forall j :: j in live ==> j < k
    ensures Messages(reqs, x, live + {k}, i)
         == Messages(reqs, x, live, i) + [if reqs[k].creator == x then Create(k) else Ready]
    decreases |reqs| - i
  {
    if i == k {
      MessagesNone(reqs, x, live, i);
      MessagesNone(reqs, x, live + {k}, i + 1);
    } else {
      MessagesAppend(reqs, x, live, k, i + 1);
    }
  }

  /** The message of the lowest live request is at the head. */
  lemma {:induction false} MessagesHead(reqs: seq<Request>, x: nat, live: set<nat>, k: nat, i: nat)
    requires i <= k < |reqs| && k in live && forall j :: j in live ==> k <= j
    ensures Messages(reqs, x, live, i)
         == [if reqs[k].creator == x then Create(k) else Ready] + Messages(reqs, x, live - {k}, i)
    decreases |reqs| - i
  {
    if i == k {
      MessagesSame(reqs, x, live, live - {k}, i + 1);
    } else {
      MessagesHead(reqs, x, live, k, i + 1);
    }
  }

  lemma {:induction false} MessagesSame(reqs: seq<Request>, x: nat, live: set<nat>, live': set<nat>, i: nat)
    requires i <= |reqs| && forall j :: j >= i ==> (j in live <==> j in live')
    ensures Messages(reqs, x, live, i) == Messages(reqs, x, live', i)
    decreases |reqs| - i
  {
    if i < |reqs| {
      MessagesSame(reqs, x, live, live', i + 1);
    }
  }

  lemma InitialInv(reqs: seq<Request>, n: nat)
    requires ValidRequests(reqs, n)
    ensures Inv(reqs, Initial(reqs, n))
  {
    var s := Initial(reqs, n);
    forall x: nat, y: nat | x < n && y < n && x != y ensures ChanOk(reqs, s, x, y) {
      assert Live(reqs, s, x, y) == {};
      MessagesNone(reqs, x, {}, 0);
    }
    forall i: nat | i < |reqs| ensures RequestOk(reqs, s, i) {
    }
  }

  lemma LiveNonEmpty(reqs: seq<Request>, s: Net, x: nat, y: nat) returns (i: nat)
    requires Inv(reqs, s) && x < |s.pos| && y < |s.pos| && x != y && Chan(s, x, y) != []
    ensures i in Live(reqs, s, x, y)
  {
    assert ChanOk(reqs, s, x, y);
    if Live(reqs, s, x, y) == {} {
      MessagesNone(reqs, x, {}, 0);
      assert false;
    }
    i :| i in Live(reqs, s, x, y);
  }

  /** The message a node takes is the one for its own request: a request object for a receiver,
      "ready" for a creator. */
  lemma TakenMessage(reqs: seq<Request>, s: Net, x: nat)
    requires Inv(reqs, s) && x < |s.pos| && s.pos[x] < |reqs|
    requires s.phase[x].AwaitReady? || (s.phase[x].Idle? && reqs[s.pos[x]].receiver == x)
    requires Chan(s, Peer(reqs[s.pos[x]], x), x) != []
    ensures var i := s.pos[x]; var y := Peer(reqs[i], x);
            && i in Live(reqs, s, y, x) && y != x
            && Chan(s, y, x) == [if reqs[i].receiver == x then Create(i) else Ready] + Messages(reqs, y, Live(reqs, s, y, x) - {i}, 0)
  {
    var i := s.pos[x];
    var y := Peer(reqs[i], x);
    assert NodeOk(reqs, s, x) && RequestOk(reqs, s, i);
    var j := LiveNonEmpty(reqs, s, y, x);
    assert i in Live(reqs, s, y, x);
    assert ChanOk(reqs, s, y, x);
    MessagesHead(reqs, y, Live(reqs, s, y, x), i, 0);
  }

  /** The EGP pairs requests without knowing which request is which; they are always the two
      ends of the same request, and at the same pair. */
  lemma DeliverMatches(reqs: seq<Request>, s: Net, x: nat, y: nat, bell: int)
    requires Inv(reqs, s) && Enabled(reqs, s, Deliver(x, y, bell))
    ensures s.pos[y] == s.pos[x] && s.phase[y].done == s.phase[x].done && x != y
  {
    assert RequestOk(reqs, s, s.pos[x]) && RequestOk(reqs, s, s.pos[y]);
  }

  /** A receiver reads the number before its creator overwrites it. */
  lemma TotalsAgree(reqs: seq<Request>, s: Net, x: nat)
    requires Inv(reqs, s) && x < |s.pos|
    ensures Enabled(reqs, s, TakeCreate(x)) ==>
            ReceiverTotal(s, Chan(s, reqs[s.pos[x]].creator, x)[0]) == reqs[s.pos[x]].number
    ensures Enabled(reqs, s, TakeReady(x)) ==> s.number[s.pos[x]] == reqs[s.pos[x]].number
  {
    if Enabled(reqs, s, TakeCreate(x)) || Enabled(reqs, s, TakeReady(x)) {
      assert NodeOk(reqs, s, x);
      TakenMessage(reqs, s, x);
      assert RequestOk(reqs, s, s.pos[x]);
    }
  }

  /** What a step changes in the progress of node z with request j. */
  ghost predicate Progress(reqs: seq<Request>, s: Net, step: Step, s': Net, z: nat, j: nat)
    requires Sized(reqs, s) && Sized(reqs, s') && |s.pos| == |s'.pos| && z < |s.pos| && j < |reqs| && step.x < |s.pos|
  {
    var mine := z == step.x && j == s.pos[step.x];
    && (Took(s', z, j) <==> Took(s, z, j) || (mine && !step.SendCreate?))
    && (Sent(reqs, s', z, j) <==> Sent(reqs, s, z, j) || mine)
    && Count(reqs, s', z, j) == Count(reqs, s, z, j) + (if step.Deliver? && j == s.pos[step.x] then 1 else 0)
    && Stored(reqs, s', z, j) == Stored(reqs, s, z, j) + (if step.Store? && mine then 1 else 0)
  }

  lemma NextSized(reqs: seq<Request>, s: Net, step: Step)
    requires Inv(reqs, s) && Enabled(reqs, s, step)
    ensures Sized(reqs, Next(reqs, s, step)) && |Next(reqs, s, step).pos| == |s.pos|
  {
  }

  /** Node x alone moves on: it has taken exactly the messages up to its request, and has
      `done` pairs of it. */
  lemma ContinueProgress(reqs: seq<Request>, s: Net, x: nat, done: nat, total: nat, j: nat)
    requires Sized(reqs, s) && x < |s.pos| && s.pos[x] < |reqs| && j < |reqs| && Involves(reqs[j], x)
    requires done <= total == reqs[s.pos[x]].number
    requires Sized(reqs, Continue(reqs, s, x, done, total))
    ensures var s' := Continue(reqs, s, x, done, total);
            var count := if j < s.pos[x] then reqs[j].number else if j == s.pos[x] then done else 0;
            && (Took(s', x, j) <==> j <= s.pos[x]) && (Sent(reqs, s', x, j) <==> j <= s.pos[x])
            && Count(reqs, s', x, j) == Stored(reqs, s', x, j) == count
  {
  }

  lemma StepProgress(reqs: seq<Request>, s: Net, step: Step, z: nat, j: nat)
    requires Inv(reqs, s) && Enabled(reqs, s, step) && z < |s.pos| && j < |reqs| && Involves(reqs[j], z)
    requires Sized(reqs, Next(reqs, s, step))
    ensures Progress(reqs, s, step, Next(reqs, s, step), z, j)
  {
    var x := step.x;
    assert NodeOk(reqs, s, x);
    match step
    case SendCreate(_) =>
    case TakeCreate(_) => TotalsAgree(reqs, s, x); TakeCreateProgress(reqs, s, x, z, j);
    case TakeReady(_) => TotalsAgree(reqs, s, x); TakeReadyProgress(reqs, s, x, z, j);
    case Allocate(_) =>
    case Deliver(_, y, bell) => DeliverProgress(reqs, s, x, y, bell, z, j);
    case Store(_) => StoreProgress(reqs, s, x, z, j);
  }

  lemma {:induction false} TakeCreateProgress(reqs: seq<Request>, s: Net, x: nat, z: nat, j: nat)
    requires Sized(reqs, s) && Enabled(reqs, s, TakeCreate(x)) && z < |s.pos| && j < |reqs| && Involves(reqs[j], z)
    requires Sized(reqs, Next(reqs, s, TakeCreate(x)))
    requires ReceiverTotal(s, Chan(s, reqs[s.pos[x]].creator, x)[0]) == reqs[s.pos[x]].number
    ensures Progress(reqs, s, TakeCreate(x), Next(reqs, s, TakeCreate(x)), z, j)
  {
    if z == x {
      var c := reqs[s.pos[x]].creator;
      ContinueProgress(reqs, Send(Drop(s, c, x), x, c, Ready), x, 0, reqs[s.pos[x]].number, j);
    }
  }

  lemma {:induction false} TakeReadyProgress(reqs: seq<Request>, s: Net, x: nat, z: nat, j: nat)
    requires Sized(reqs, s) && Enabled(reqs, s, TakeReady(x)) && z < |s.pos| && j < |reqs| && Involves(reqs[j], z)
    requires Sized(reqs, Next(reqs, s, TakeReady(x))) && s.number[s.pos[x]] == reqs[s.pos[x]].number
    ensures Progress(reqs, s, TakeReady(x), Next(reqs, s, TakeReady(x)), z, j)
  {
    if z == x {
      var i := s.pos[x];
      var s' := Drop(s, reqs[i].receiver, x).(number := if reqs[i].kind.Keep? then s.number[i := 1] else s.number);
      ContinueProgress(reqs, s', x, 0, reqs[i].number, j);
    }
  }

  lemma DeliverProgress(reqs: seq<Request>, s: Net, x: nat, y: nat, bell: int, z: nat, j: nat)
    requires Inv(reqs, s) && Enabled(reqs, s, Deliver(x, y, bell)) && z < |s.pos| && j < |reqs| && Involves(reqs[j], z)
    requires Sized(reqs, Next(reqs, s, Deliver(x, y, bell)))
    ensures Progress(reqs, s, Deliver(x, y, bell), Next(reqs, s, Deliver(x, y, bell)), z, j)
  {
    DeliverMatches(reqs, s, x, y, bell);
  }

  lemma {:induction false} StoreProgress(reqs: seq<Request>, s: Net, x: nat, z: nat, j: nat)
    requires Sized(reqs, s) && Enabled(reqs, s, Store(x)) && NodeOk(reqs, s, x) && z < |s.pos| && j < |reqs| && Involves(reqs[j], z)
    requires Sized(reqs, Next(reqs, s, Store(x)))
    ensures Progress(reqs, s, Store(x), Next(reqs, s, Store(x)), z, j)
  {
    if z == x {
      StoreOwnProgress(reqs, s, x, j);
    }
  }

  lemma {:induction false} StoreOwnProgress(reqs: seq<Request>, s: Net, x: nat, j: nat)
    requires Sized(reqs, s) && Enabled(reqs, s, Store(x)) && NodeOk(reqs, s, x) && j < |reqs| && Involves(reqs[j], x)
    requires Sized(reqs, Next(reqs, s, Store(x)))
    ensures Progress(reqs, s, Store(x), Next(reqs, s, Store(x)), x, j)
  {
    var i := s.pos[x];
    var s' := s.(results := s.results[(x, i) := Results(s, x, i) + [s.phase[x].bell]]);
    ContinueProgress(reqs, s', x, s.phase[x].done + 1, s.phase[x].total, j);
  }

  /** What a step changes outside the nodes' own progress. */
  ghost predicate Effects(reqs: seq<Request>, s: Net, step: Step, s': Net)
    requires Sized(reqs, s) && Sized(reqs, s') && step.x < |s.pos| && s.pos[step.x] < |reqs|
  {
    var i := s.pos[step.x];
    && s'.delivered == (if step.Deliver? then s.delivered[i := s.delivered[i] + [step.bell]] else s.delivered)
    && s'.number == (if step.TakeReady? && reqs[i].kind.Keep? then s.number[i := 1] else s.number)
    && forall z: nat, j: nat :: Results(s', z, j) ==
         if step.Store? && z == step.x && j == i && s.phase[z].GotPair? then Results(s, z, j) + [s.phase[z].bell]
         else Results(s, z, j)
  }

  lemma StepEffects(reqs: seq<Request>, s: Net, step: Step)
    requires Sized(reqs, s) && Enabled(reqs, s, step) && Sized(reqs, Next(reqs, s, step))
    ensures Effects(reqs, s, step, Next(reqs, s, step))
  {
  }

  lemma HandshakeKept(reqs: seq<Request>, s: Net, step: Step, s': Net, j: nat)
    requires Inv(reqs, s) && Enabled(reqs, s, step) && j < |reqs| && Sized(reqs, s') && |s'.pos| == |s.pos|
    requires Effects(reqs, s, step, s')
    requires Progress(reqs, s, step, s', reqs[j].creator, j) && Progress(reqs, s, step, s', reqs[j].receiver, j)
    ensures HandshakeOk(reqs, s', j)
  {
    var x := step.x;
    assert RequestOk(reqs, s, j) && NodeOk(reqs, s, x) && NodeOk(reqs, s, reqs[j].receiver);
    if j == s.pos[x] && (step.TakeCreate? || step.TakeReady?) {
      TakenMessage(reqs, s, x);
    }
  }

  lemma PairsKept(reqs: seq<Request>, s: Net, step: Step, s': Net, j: nat, z: nat)
    requires Sized(reqs, s) && Enabled(reqs, s, step) && j < |reqs| && Sized(reqs, s') && |s'.pos| == |s.pos|
    requires NodeOk(reqs, s, step.x) && z < |s.pos| && |s.delivered[j]| == Count(reqs, s, z, j) && StoredOk(reqs, s, z, j)
    requires Effects(reqs, s, step, s') && Involves(reqs[j], z) && Progress(reqs, s, step, s', z, j)
    ensures |s'.delivered[j]| == Count(reqs, s', z, j) && StoredOk(reqs, s', z, j)
  {
  }

  lemma MovedNodeKept(reqs: seq<Request>, s: Net, step: Step)
    requires Inv(reqs, s) && Enabled(reqs, s, step) && Sized(reqs, Next(reqs, s, step))
    ensures NodeOk(reqs, Next(reqs, s, step), step.x)
  {
    var x := step.x;
    assert NodeOk(reqs, s, x) && RequestOk(reqs, s, s.pos[x]);
    if step.TakeCreate? || step.TakeReady? {
      TotalsAgree(reqs, s, x);
    }
    if step.Deliver? {
      DeliverMatches(reqs, s, x, step.y, step.bell);
    }
  }

  lemma DeliverNodeKept(reqs: seq<Request>, s: Net, x: nat, y: nat, bell: int, z: nat)
    requires Inv(reqs, s) && Enabled(reqs, s, Deliver(x, y, bell)) && z < |s.pos|
    requires Sized(reqs, Next(reqs, s, Deliver(x, y, bell)))
    ensures NodeOk(reqs, Next(reqs, s, Deliver(x, y, bell)), z)
  {
    DeliverMatches(reqs, s, x, y, bell);
    assert NodeOk(reqs, s, z) && RequestOk(reqs, s, s.pos[x]);
  }

  lemma OtherNodes(reqs: seq<Request>, s: Net, step: Step, z: nat)
    requires Sized(reqs, s) && Enabled(reqs, s, step) && !step.Deliver? && z < |s.pos| && z != step.x
    requires Sized(reqs, Next(reqs, s, step))
    ensures Next(reqs, s, step).pos[z] == s.pos[z] && Next(reqs, s, step).phase[z] == s.phase[z]
  {
  }

  lemma NodeKept(reqs: seq<Request>, s: Net, step: Step, z: nat)
    requires Inv(reqs, s) && Enabled(reqs, s, step) && z < |s.pos| && Sized(reqs, Next(reqs, s, step))
    ensures NodeOk(reqs, Next(reqs, s, step), z)
  {
    if z == step.x {
      MovedNodeKept(reqs, s, step);
    } else if step.Deliver? {
      DeliverNodeKept(reqs, s, step.x, step.y, step.bell, z);
    } else {
      assert NodeOk(reqs, s, z);
      StepEffects(reqs, s, step);
      OtherNodes(reqs, s, step, z);
    }
  }

  /** Which messages are in transit after a step. */
  lemma LiveKept(reqs: seq<Request>, s: Net, step: Step, s': Net, z: nat, w: nat)
    requires Inv(reqs, s) && Enabled(reqs, s, step) && z < |s.pos| && w < |s.pos| && z != w
    requires Sized(reqs, s') && |s'.pos| == |s.pos|
    requires forall j: nat :: j < |reqs| && Between(reqs[j], z, w) ==> Progress(reqs, s, step, s', z, j) && Progress(reqs, s, step, s', w, j)
    ensures var i := s.pos[step.x];
            var y := Peer(reqs[i], step.x);
            Live(reqs, s', z, w) ==
            if (z, w) == (step.x, y) && (step.SendCreate? || step.TakeCreate?) then Live(reqs, s, z, w) + {i}
            else if (z, w) == (y, step.x) && (step.TakeCreate? || step.TakeReady?) then Live(reqs, s, z, w) - {i}
            else Live(reqs, s, z, w)
  {
    var i := s.pos[step.x];
    assert NodeOk(reqs, s, step.x) && RequestOk(reqs, s, i);
    forall j: nat | j < |reqs| && Between(reqs[j], z, w)
      ensures j in Live(reqs, s', z, w) <==>
              (j in Live(reqs, s, z, w) || (z == step.x && j == i && (step.SendCreate? || step.TakeCreate?)))
              && !(w == step.x && j == i && !step.SendCreate?)
    {
    }
  }

  lemma LiveAfter(reqs: seq<Request>, s: Net, step: Step, z: nat, w: nat)
    requires Inv(reqs, s) && Enabled(reqs, s, step) && z < |s.pos| && w < |s.pos| && z != w && Sized(reqs, Next(reqs, s, step))
    ensures var i := s.pos[step.x];
            var y := Peer(reqs[i], step.x);
            Live(reqs, Next(reqs, s, step), z, w) ==
            if (z, w) == (step.x, y) && (step.SendCreate? || step.TakeCreate?) then Live(reqs, s, z, w) + {i}
            else if (z, w) == (y, step.x) && (step.TakeCreate? || step.TakeReady?) then Live(reqs, s, z, w) - {i}
            else Live(reqs, s, z, w)
  {
    forall j: nat | j < |reqs| && Between(reqs[j], z, w)
      ensures Progress(reqs, s, step, Next(reqs, s, step), z, j) && Progress(reqs, s, step, Next(reqs, s, step), w, j)
    {
      StepProgress(reqs, s, step, z, j);
      StepProgress(reqs, s, step, w, j);
    }
    LiveKept(reqs, s, step, Next(reqs, s, step), z, w);
  }

  /** What a step does to the messages in transit from z to w. */
  lemma ChanAfter(reqs: seq<Request>, s: Net, step: Step, z: nat, w: nat)
    requires Sized(reqs, s) && Enabled(reqs, s, step) && z != w
    requires step.TakeReady? ==> reqs[s.pos[step.x]].creator == step.x
    ensures var i := s.pos[step.x];
            var y := Peer(reqs[i], step.x);
            Chan(Next(reqs, s, step), z, w) ==
            if (z, w) == (step.x, y) && (step.SendCreate? || step.TakeCreate?)
            then Chan(s, z, w) + [if reqs[i].creator == z then Create(i) else Ready]
            else if (z, w) == (y, step.x) && (step.TakeCreate? || step.TakeReady?) then Chan(s, z, w)[1..]
            else Chan(s, z, w)
  {
  }

  lemma ChanKept(reqs: seq<Request>, s: Net, step: Step, z: nat, w: nat)
    requires Inv(reqs, s) && Enabled(reqs, s, step) && z < |s.pos| && w < |s.pos| && z != w && Sized(reqs, Next(reqs, s, step))
    ensures ChanOk(reqs, Next(reqs, s, step), z, w)
  {
    var x, i := step.x, s.pos[step.x];
    var y := Peer(reqs[i], x);
    assert ChanOk(reqs, s, z, w) && NodeOk(reqs, s, x);
    LiveAfter(reqs, s, step, z, w);
    ChanAfter(reqs, s, step, z, w);
    if (z, w) == (x, y) && (step.SendCreate? || step.TakeCreate?) {
      MessagesAppend(reqs, z, Live(reqs, s, z, w), i, 0);
    }
    if (z, w) == (y, x) && (step.TakeCreate? || step.TakeReady?) {
      TakenMessage(reqs, s, x);
    }
  }

  lemma RequestKept(reqs: seq<Request>, s: Net, step: Step, j: nat)
    requires Inv(reqs, s) && Enabled(reqs, s, step) && j < |reqs|
    requires Sized(reqs, Next(reqs, s, step)) && |Next(reqs, s, step).pos| == |s.pos|
    ensures RequestOk(reqs, Next(reqs, s, step), j)
  {
    var s' := Next(reqs, s, step);
    StepEffects(reqs, s, step);
    StepProgress(reqs, s, step, reqs[j].creator, j);
    StepProgress(reqs, s, step, reqs[j].receiver, j);
    HandshakeKept(reqs, s, step, s', j);
    assert NodeOk(reqs, s, step.x) && RequestOk(reqs, s, j);
    PairsKept(reqs, s, step, s', j, reqs[j].creator);
    PairsKept(reqs, s, step, s', j, reqs[j].receiver);
  }

  lemma StepKeepsInv(reqs: seq<Request>, s: Net, step: Step)
    requires Inv(reqs, s) && Enabled(reqs, s, step)
    ensures Inv(reqs, Next(reqs, s, step)) && |Next(reqs, s, step).pos| == |s.pos|
  {
    NextSized(reqs, s, step);
    forall z: nat | z < |s.pos| { NodeKept(reqs, s, step, z); }
    forall j: nat | j < |reqs| { RequestKept(reqs, s, step, j); }
    forall z: nat, w: nat | z < |s.pos| && w < |s.pos| && z != w { ChanKept(reqs, s, step, z, w); }
  }

  // Results: nobody gets stuck, every run ends, and both ends agree.

  ghost predicate Complete(reqs: seq<Request>, s: Net) {
    Sized(reqs, s) && forall x: nat :: x < |s.pos| ==> s.pos[x] == |reqs|
  }

  /** The oldest request that some node has not finished. */
  lemma {:induction false} OldestRequest(reqs: seq<Request>, s: Net, n: nat) returns (x: nat)
    requires Sized(reqs, s) && 0 < n <= |s.pos|
    ensures x < n && forall z: nat :: z < n ==> s.pos[x] <= s.pos[z]
  {
    x := n - 1;
    if n > 1 {
      var y := OldestRequest(reqs, s, n - 1);
      if s.pos[y] <= s.pos[x] {
        x := y;
      }
    }
  }

  /** Unless all requests are complete, some step is possible: one of the two nodes of the
      oldest unfinished request can go on. */
  lemma SomeStepEnabled(reqs: seq<Request>, s: Net) returns (step: Step)
    requires Inv(reqs, s) && !Complete(reqs, s)
    ensures Enabled(reqs, s, step)
  {
    var x := OldestRequest(reqs, s, |s.pos|);
    var i := s.pos[x];
    var c, d := reqs[i].creator, reqs[i].receiver;
    assert NodeOk(reqs, s, x) && NodeOk(reqs, s, c) && NodeOk(reqs, s, d) && RequestOk(reqs, s, i);
    if s.pos[c] == i && s.phase[c].Idle? {
      step := SendCreate(c);
    } else if s.pos[c] == i && s.phase[c].AwaitReady? {
      if Took(s, d, i) {
        InTransit(reqs, s, d, c, i);
        step := TakeReady(c);
      } else {
        InTransit(reqs, s, c, d, i);
        step := TakeCreate(d);
      }
    } else if s.pos[c] == i && s.phase[c].Allocating? {
      step := Allocate(c);
    } else if s.pos[c] == i && s.phase[c].GotPair? {
      step := Store(c);
    } else if s.phase[d].Allocating? {
      step := Allocate(d);
    } else if s.phase[d].GotPair? {
      step := Store(d);
    } else {
      step := Deliver(c, d, 0);
    }
  }

  lemma InTransit(reqs: seq<Request>, s: Net, x: nat, y: nat, i: nat)
    requires Inv(reqs, s) && x < |s.pos| && y < |s.pos| && x != y && i in Live(reqs, s, x, y)
    ensures Chan(s, x, y) != []
  {
    assert ChanOk(reqs, s, x, y);
    MessagesSome(reqs, x, Live(reqs, s, x, y), i, 0);
  }

  lemma {:induction false} MessagesSome(reqs: seq<Request>, x: nat, live: set<nat>, k: nat, i: nat)
    requires i <= k < |reqs| && k in live
    ensures Messages(reqs, x, live, i) != []
    decreases |reqs| - i
  {
    if i < k {
      MessagesSome(reqs, x, live, k, i + 1);
    }
  }

  /** Steps that node x has still to take, from request `from` on. */
  function Rest(reqs: seq<Request>, x: nat, from: nat): nat
    requires from <= |reqs|
    decreases |reqs| - from
  {
    if from == |reqs| then 0 else (if Involves(reqs[from], x) then 3 * reqs[from].number + 3 else 0) + Rest(reqs, x, from + 1)
  }

  function Level(phase: Phase): nat {
    match phase
    case Idle => 0
    case AwaitReady => 1
    case Allocating(done, _) => 3 * done + 2
    case AwaitPair(done, _) => 3 * done + 3
    case GotPair(done, _, _) => 3 * done + 4
  }

  function Work(reqs: seq<Request>, s: Net, x: nat): int
    requires Sized(reqs, s) && x < |s.pos|
  {
    Rest(reqs, x, s.pos[x]) - Level(s.phase[x])
  }

  function TotalWork(reqs: seq<Request>, s: Net, n: nat): int
    requires Sized(reqs, s) && n <= |s.pos|
  {
    if n == 0 then 0 else TotalWork(reqs, s, n - 1) + Work(reqs, s, n - 1)
  }

  lemma {:induction false} RestSkips(reqs: seq<Request>, x: nat, from: nat)
    requires from <= |reqs|
    ensures Rest(reqs, x, NextFor(reqs, x, from)) == Rest(reqs, x, from)
    decreases |reqs| - from
  {
    if from < |reqs| && !Involves(reqs[from], x) {
      RestSkips(reqs, x, from + 1);
    }
  }

  lemma WorkLeft(reqs: seq<Request>, s: Net, x: nat)
    requires Sized(reqs, s) && x < |s.pos| && NodeOk(reqs, s, x)
    ensures Work(reqs, s, x) >= 0
  {
  }

  lemma MovedNodeWorks(reqs: seq<Request>, s: Net, step: Step)
    requires Inv(reqs, s) && Enabled(reqs, s, step) && Sized(reqs, Next(reqs, s, step))
    ensures Work(reqs, Next(reqs, s, step), step.x) < Work(reqs, s, step.x)
  {
    var x := step.x;
    if step.TakeCreate? || step.TakeReady? {
      TotalsAgree(reqs, s, x);
    }
    if step.Deliver? {
      DeliverMatches(reqs, s, x, step.y, step.bell);
    }
    assert NodeOk(reqs, s, x);
    RestSkips(reqs, x, s.pos[x] + 1);
  }

  lemma {:induction false} OtherNodesWork(reqs: seq<Request>, s: Net, step: Step, z: nat)
    requires Inv(reqs, s) && Enabled(reqs, s, step) && Sized(reqs, Next(reqs, s, step)) && z < |s.pos| && z != step.x
    ensures Work(reqs, Next(reqs, s, step), z) <= Work(reqs, s, z)
  {
    if step.Deliver? {
      DeliverMatches(reqs, s, step.x, step.y, step.bell);
    } else {
      OtherNodes(reqs, s, step, z);
    }
  }

  lemma {:induction false} TotalDrops(reqs: seq<Request>, s: Net, step: Step, n: nat)
    requires Inv(reqs, s) && Enabled(reqs, s, step) && Sized(reqs, Next(reqs, s, step)) && |Next(reqs, s, step).pos| == |s.pos|
    requires n <= |s.pos|
    ensures TotalWork(reqs, Next(reqs, s, step), n) <= TotalWork(reqs, s, n)
    ensures step.x < n ==> TotalWork(reqs, Next(reqs, s, step), n) < TotalWork(reqs, s, n)
  {
    if n > 0 {
      TotalDrops(reqs, s, step, n - 1);
      if n - 1 == step.x {
        MovedNodeWorks(reqs, s, step);
      } else {
        OtherNodesWork(reqs, s, step, n - 1);
      }
    }
  }

  lemma {:induction false} TotalLeft(reqs: seq<Request>, s: Net, n: nat)
    requires Inv(reqs, s) && n <= |s.pos|
    ensures TotalWork(reqs, s, n) >= 0
  {
    if n > 0 {
      TotalLeft(reqs, s, n - 1);
      assert NodeOk(reqs, s, n - 1);
      WorkLeft(reqs, s, n - 1);
    }
  }

  ghost predicate IsRun(reqs: seq<Request>, s: Net, steps: seq<Step>, end: Net)
    requires Sized(reqs, s)
    decreases |steps|
  {
    if steps == [] then s == end
    else
      && Enabled(reqs, s, steps[0]) && Sized(reqs, Next(reqs, s, steps[0]))
      && IsRun(reqs, Next(reqs, s, steps[0]), steps[1..], end)
  }

  lemma {:induction false} RunKeepsInv(reqs: seq<Request>, s: Net, steps: seq<Step>, end: Net)
    requires Inv(reqs, s) && IsRun(reqs, s, steps, end)
    ensures Inv(reqs, end) && |end.pos| == |s.pos|
    ensures |steps| <= TotalWork(reqs, s, |s.pos|)
    decreases |steps|
  {
    if steps == [] {
      TotalLeft(reqs, s, |s.pos|);
    } else {
      StepKeepsInv(reqs, s, steps[0]);
      TotalDrops(reqs, s, steps[0], |s.pos|);
      RunKeepsInv(reqs, Next(reqs, s, steps[0]), steps[1..], end);
    }
  }

  /** The labels that the EGP delivers for request i in a run, in order: the creator of a pair's
      request is at that request. */
  ghost function Labels(reqs: seq<Request>, s: Net, steps: seq<Step>, end: Net, i: nat): seq<int>
    requires Sized(reqs, s) && IsRun(reqs, s, steps, end)
    decreases |steps|
  {
    if steps == [] then []
    else
      (if steps[0].Deliver? && s.pos[steps[0].x] == i then [steps[0].bell] else [])
      + Labels(reqs, Next(reqs, s, steps[0]), steps[1..], end, i)
  }

  lemma {:induction false} StepDelivers(reqs: seq<Request>, s: Net, step: Step, i: nat)
    requires Sized(reqs, s) && Enabled(reqs, s, step) && Sized(reqs, Next(reqs, s, step)) && i < |reqs|
    ensures Next(reqs, s, step).delivered[i] ==
            s.delivered[i] + if step.Deliver? && s.pos[step.x] == i then [step.bell] else []
  {
    StepEffects(reqs, s, step);
    assert s.delivered[i] + [] == s.delivered[i];
  }

  lemma ConcatAssociates(a: seq<int>, b: seq<int>, c: seq<int>)
    ensures (a + b) + c == a + (b + c)
  {
  }

  lemma {:induction false} LabelsDelivered(reqs: seq<Request>, s: Net, steps: seq<Step>, end: Net, i: nat)
    requires Sized(reqs, s) && IsRun(reqs, s, steps, end) && i < |reqs|
    ensures |end.delivered| == |reqs| && end.delivered[i] == s.delivered[i] + Labels(reqs, s, steps, end, i)
    decreases |steps|
  {
    if steps == [] {
      assert s.delivered[i] + [] == s.delivered[i];
    } else {
      var first := if steps[0].Deliver? && s.pos[steps[0].x] == i then [steps[0].bell] else [];
      var rest := Labels(reqs, Next(reqs, s, steps[0]), steps[1..], end, i);
      StepDelivers(reqs, s, steps[0], i);
      LabelsDelivered(reqs, Next(reqs, s, steps[0]), steps[1..], end, i);
      ConcatAssociates(s.delivered[i], first, rest);
    }
  }

  lemma CompleteMeansStored(reqs: seq<Request>, s: Net, i: nat)
    requires Inv(reqs, s) && Complete(reqs, s) && i < |reqs|
    ensures |Results(s, reqs[i].creator, i)| == reqs[i].number
    ensures Results(s, reqs[i].creator, i) == Results(s, reqs[i].receiver, i) == s.delivered[i]
  {
    assert RequestOk(reqs, s, i);
  }

  /** Every run is finite, and one that cannot go on has completed all requests. Then both ends
      of every request have stored exactly the labels that the EGP delivered for it, in order,
      one for each of the pairs that the creator asked for. */
  lemma EveryRunCompletes(reqs: seq<Request>, n: nat, steps: seq<Step>, end: Net)
    requires ValidRequests(reqs, n) && IsRun(reqs, Initial(reqs, n), steps, end)
    ensures |steps| <= TotalWork(reqs, Initial(reqs, n), n) && Sized(reqs, end)
    ensures (forall step :: !Enabled(reqs, end, step)) ==>
            Complete(reqs, end) &&
            forall i: nat :: i < |reqs| ==>
              && |Results(end, reqs[i].creator, i)| == reqs[i].number
              && Results(end, reqs[i].creator, i) == Results(end, reqs[i].receiver, i)
                 == Labels(reqs, Initial(reqs, n), steps, end, i)
  {
    InitialInv(reqs, n);
    RunKeepsInv(reqs, Initial(reqs, n), steps, end);
    if forall step :: !Enabled(reqs, end, step) {
      if !Complete(reqs, end) {
        var step := SomeStepEnabled(reqs, end);
        assert false;
      }
      forall i: nat | i < |reqs|
        ensures |Results(end, reqs[i].creator, i)| == reqs[i].number
        ensures Results(end, reqs[i].creator, i) == Results(end, reqs[i].receiver, i)
             == Labels(reqs, Initial(reqs, n), steps, end, i)
      {
        CompleteMeansStored(reqs, end, i);
        LabelsDelivered(reqs, Initial(reqs, n), steps, end, i);
      }
    }
  }
}
