/**
 A port, the listener that empties it into a buffer, and the coroutine that receives from
 the buffer: a FIFO channel whose notifications are signals.
 */
module Listeners {
  import opened Options

  /** `events` counts the port events that have not been waited for yet, `draining` those the
      listener still has to wait for before it signals, and `signals` the signals under way.
      `sent` and `received` record the history. */
  datatype Channel<T> = Channel(inputs: seq<seq<T>>, events: nat, buffer: seq<T>, draining: nat, signals: nat,
                                sent: seq<T>, received: seq<T>)

  function Flatten<T>(inputs: seq<seq<T>>): seq<T> {
    if inputs == [] then [] else inputs[0] + Flatten(inputs[1..])
  }

  lemma {:induction false} FlattenAppend<T>(inputs: seq<seq<T>>, items: seq<T>)
    ensures Flatten(inputs + [items]) == Flatten(inputs) + items
  {
    if inputs == [] {
      assert Flatten([items]) == items + Flatten([]);
    } else {
      FlattenAppend(inputs[1..], items);
      assert (inputs + [items])[1..] == inputs[1..] + [items];
    }
  }

  /** A message with some items reaches the port, which raises one event. */
  function Send<T>(c: Channel<T>, items: seq<T>): Channel<T> {
    c.(inputs := c.inputs + [items], events := c.events + 1, sent := c.sent + items)
  }

  /** The listener wakes up for one port event. */
  function OnPortEvent<T>(c: Channel<T>): Channel<T>
    requires c.events > 0
  {
    if c.draining > 0 then
      c.(events := c.events - 1, draining := c.draining - 1,
         signals := if c.draining == 1 then c.signals + 1 else c.signals)
    else
      var n := |c.inputs|;
      c.(events := c.events - 1, inputs := [], buffer := c.buffer + Flatten(c.inputs),
         draining := if n > 1 then n - 1 else 0,
         signals := if n > 1 then c.signals else c.signals + 1)
  }

  function Take<T>(c: Channel<T>, n: nat): Channel<T>
    requires n <= |c.buffer|
  {
    c.(buffer := c.buffer[n..], received := c.received + c.buffer[..n])
  }

  function SignalGone<T>(c: Channel<T>): Channel<T>
    requires c.signals > 0
  {
    c.(signals := c.signals - 1)
  }

  ghost predicate Fifo<T>(c: Channel<T>) {
    c.received + c.buffer + Flatten(c.inputs) == c.sent
  }

  /** Outstanding events are the unread inputs and those still to drain. */
  predicate EventsMatch<T>(c: Channel<T>) {
    c.events == |c.inputs| + c.draining
  }

  predicate NoEmptyInput<T>(c: Channel<T>) {
    forall i :: 0 <= i < |c.inputs| ==> c.inputs[i] != []
  }

  ghost predicate Sound<T>(c: Channel<T>) {
    Fifo(c) && EventsMatch(c) && NoEmptyInput(c)
  }

  predicate Notifying<T>(c: Channel<T>) {
    c.signals > 0 || c.draining > 0
  }

  lemma SendIsSound<T>(c: Channel<T>, items: seq<T>)
    requires Sound(c) && items != []
    ensures Sound(Send(c, items))
  {
    FlattenAppend(c.inputs, items);
    assert c.received + c.buffer + (Flatten(c.inputs) + items) == c.sent + items;
  }

  /** A port event leaves nothing unread when it starts a batch of n inputs, and then the
      batch takes n - 1 further events until the listener signals. */
  lemma {:induction false} PortEventIsSound<T>(c: Channel<T>)
    requires Sound(c) && c.events > 0
    ensures Sound(OnPortEvent(c))
    ensures Notifying(OnPortEvent(c))
    ensures c.draining == 0 ==> OnPortEvent(c).buffer != [] && OnPortEvent(c).events == |c.inputs| - 1
  {
    if c.draining == 0 {
      assert Flatten(c.inputs) == c.inputs[0] + Flatten(c.inputs[1..]);
      assert c.received + (c.buffer + Flatten(c.inputs)) + [] == c.sent;
    }
  }

  /** `n` port events in a row. */
  function PortEvents<T>(c: Channel<T>, n: nat): Channel<T>
    requires n <= c.events
    decreases n
  {
    if n == 0 then c else PortEvents(OnPortEvent(c), n - 1)
  }

  lemma {:induction false} DrainTakesItsEvents<T>(c: Channel<T>)
    requires c.events >= c.draining > 0
    ensures PortEvents(c, c.draining) == c.(events := c.events - c.draining, draining := 0, signals := c.signals + 1)
    decreases c.draining
  {
    if c.draining > 1 {
      DrainTakesItsEvents(OnPortEvent(c));
    } else {
      assert PortEvents(OnPortEvent(c), 0) == OnPortEvent(c);
    }
  }

  /** A batch of n inputs takes exactly the n events they raised, and gives one signal. */
  lemma BatchTakesItsEvents<T>(c: Channel<T>)
    requires Sound(c) && c.draining == 0 && c.inputs != []
    ensures PortEvents(c, |c.inputs|) ==
            c.(inputs := [], events := 0, buffer := c.buffer + Flatten(c.inputs), signals := c.signals + 1)
  {
    var c' := OnPortEvent(c);
    if c'.draining > 0 {
      DrainTakesItsEvents(c');
    } else {
      assert PortEvents(c', 0) == c';
    }
  }

  lemma {:induction false} TakeIsSound<T>(c: Channel<T>, n: nat)
    requires Sound(c) && n <= |c.buffer|
    ensures Sound(Take(c, n))
  {
    assert c.buffer == c.buffer[..n] + c.buffer[n..];
    assert c.received + c.buffer[..n] + c.buffer[n..] == c.received + c.buffer;
  }

  class PortListener<T(==)> {
    var inputs: seq<seq<T>>
    var events: nat
    var buffer: seq<T>
    var draining: nat
    var signals: nat
    ghost var sent: seq<T>
    ghost var received: seq<T>

    ghost function Contents(): Channel<T>
      reads this
    {
      Channel(inputs, events, buffer, draining, signals, sent, received)
    }

    constructor ()
      ensures Contents() == Channel([], 0, [], 0, 0, [], [])
    {
      inputs, events, buffer, draining, signals := [], 0, [], 0, 0;
      sent, received := [], [];
    }

    /** The sending side puts a message on the port. */
    method Transmit(items: seq<T>)
      modifies this
      ensures Contents() == Send(old(Contents()), items)
    {
      inputs := inputs + [items];
      events := events + 1;
      sent := sent + items;
    }

    /** What the listener does between two waits. */
    method OnPortInput()
      requires events > 0
      modifies this
      ensures Contents() == OnPortEvent(old(Contents()))
    {
      events := events - 1;
      if draining > 0 {
        draining := draining - 1;
        if draining > 0 {
          return;
        }
      } else {
        var counter := 0;
        while inputs != []
          invariant buffer + Flatten(inputs) == old(buffer) + Flatten(old(inputs))
          invariant counter + |inputs| == |old(inputs)|
          invariant events == old(events) - 1 && draining == 0 && signals == old(signals)
          invariant sent == old(sent) && received == old(received)
          decreases |inputs|
        {
          var input := inputs[0];
          inputs := inputs[1..];
          buffer := buffer + input;
          counter := counter + 1;
        }
        if counter > 1 {
          draining := counter - 1;
          return;
        }
      }
      signals := signals + 1;
    }

    method Pop() returns (item: T)
      requires buffer != []
      modifies this
      ensures Contents() == Take(old(Contents()), 1) && item == old(buffer)[0]
    {
      item := buffer[0];
      received := received + buffer[..1];
      buffer := buffer[1..];
    }

    method Flush()
      modifies this
      ensures Contents() == Take(old(Contents()), |old(buffer)|)
    {
      received := received + buffer;
      buffer := [];
    }
  }
}
