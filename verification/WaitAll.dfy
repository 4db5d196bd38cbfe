/**
 The instruction that waits until a slice of an array is defined. The network stack writes
 entries and sends a message in one go; the processor rechecks its slice after each message.
 */
module WaitAll {
  import opened Options
  import opened Listeners

  type Arrays = map<nat, seq<Option<int>>>

  datatype Slice = Slice(addr: nat, start: nat, end: nat)

  datatype Phase = Running | Blocked(slice: Slice) | Crashed

  datatype System = System(chan: Channel<nat>, arrays: Arrays, processor: Phase)

  /** The steps: the network stack changes entries and says so; the listener wakes up; its
      signal arrives; the processor, while running, changes entries itself or starts to wait. */
  datatype Step =
    | Write(arrays: Arrays, message: nat)
    | PortEvent
    | Signal
    | Compute(arrays: Arrays)
    | Wait(slice: Slice)

  predicate Defined(arrays: Arrays, s: Slice) {
    s.addr in arrays && forall i :: s.start <= i < s.end && i < |arrays[s.addr]| ==> arrays[s.addr][i].Some?
  }

  /** The loop of the instruction from a point where a message is about to be waited for: it
      takes messages and rechecks until the slice is defined or no message is left. Rechecks
      in the same stretch see the same arrays. */
  function Loop(s: System, slice: Slice): System {
    var chan := Take(s.chan, |s.chan.buffer|);
    if Defined(s.arrays, slice) then s.(chan := chan, processor := Running)
    else s.(chan := chan, processor := Blocked(slice))
  }

  predicate Enabled(s: System, step: Step) {
    match step
    case Write(arrays, _) => s.arrays.Keys <= arrays.Keys
    case PortEvent => s.chan.events > 0
    case Signal => s.chan.signals > 0
    case Compute(arrays) => s.processor.Running? && s.arrays.Keys <= arrays.Keys
    case Wait(slice) => s.processor.Running? && slice.addr in s.arrays
  }

  function After(s: System, step: Step): System
    requires Enabled(s, step)
  {
    match step
    case Write(arrays, m) => s.(arrays := arrays, chan := Send(s.chan, [m]))
    case PortEvent => s.(chan := OnPortEvent(s.chan))
    case Signal =>
      var woken := s.(chan := SignalGone(s.chan));
      if !s.processor.Blocked? then woken
      else if s.chan.buffer == [] then woken.(processor := Crashed)
      else Loop(woken, s.processor.slice)
    case Compute(arrays) => s.(arrays := arrays)
    case Wait(slice) => Loop(s, slice)
  }

  predicate MessageUnderWay(c: Channel<nat>) {
    c.buffer != [] || c.inputs != []
  }

  /** No processor is blocked on a defined slice without a message on its way to it, and a
      message in the buffer of a blocked processor is about to be announced. */
  ghost predicate NoLostWakeup(s: System) {
    && Sound(s.chan)
    && (s.processor.Blocked? ==>
          && (Defined(s.arrays, s.processor.slice) ==> MessageUnderWay(s.chan))
          && (s.chan.buffer != [] ==> Notifying(s.chan)))
  }

  lemma StepKeepsWakeup(s: System, step: Step)
    requires NoLostWakeup(s) && Enabled(s, step)
    ensures NoLostWakeup(After(s, step))
  {
    match step
    case Write(_, m) => SendIsSound(s.chan, [m]);
    case PortEvent => PortEventIsSound(s.chan);
    case Signal =>
      if s.processor.Blocked? && s.chan.buffer != [] {
        TakeIsSound(SignalGone(s.chan), |s.chan.buffer|);
      }
    case Wait(_) => TakeIsSound(s.chan, |s.chan.buffer|);
    case _ =>
  }

  function Least(a: nat, b: nat): nat {
    if a < b then a else b
  }

  /** The entries of a slice, cut off at the end of the array as Python does. */
  function Entries(arrays: Arrays, s: Slice): seq<Option<int>>
    requires s.addr in arrays
  {
    var a := arrays[s.addr];
    var end := Least(s.end, |a|);
    a[Least(s.start, end)..end]
  }

  lemma {:induction false} DefinedMeansValues(arrays: Arrays, s: Slice)
    requires s.addr in arrays
    ensures Defined(arrays, s) <==> None !in Entries(arrays, s)
  {
    var a, entries := arrays[s.addr], Entries(arrays, s);
    if !Defined(arrays, s) {
      var i :| s.start <= i < s.end && i < |a| && a[i].None?;
      assert entries[i - s.start].None?;
    }
  }

  /** The instruction ends only when its slice is defined, and then every message that was
      buffered has been dropped; otherwise it blocks with an empty buffer. */
  lemma WaitIsSound(s: System, step: Step)
    requires Enabled(s, step) && (step.Wait? || (step.Signal? && s.processor.Blocked?))
    ensures var slice := if step.Wait? then step.slice else s.processor.slice;
            var s' := After(s, step);
            && s'.arrays == s.arrays && s'.chan.buffer == []
            && (s'.processor.Running? ==> Defined(s'.arrays, slice))
            && (s'.processor.Blocked? ==> s'.processor.slice == slice && !Defined(s'.arrays, slice))
            && (slice.addr in s.arrays ==>
                  && (s'.processor.Running? ==> None !in Entries(s.arrays, slice))
                  && (s'.processor.Blocked? ==> None in Entries(s.arrays, slice)))
            && (s'.processor.Crashed? <==> step.Signal? && s.chan.buffer == [])
  {
    var slice := if step.Wait? then step.slice else s.processor.slice;
    if slice.addr in s.arrays {
      DefinedMeansValues(s.arrays, slice);
    }
  }

  /** Once the listener and the signals have come to rest, no processor is left blocked on a
      slice that is defined. */
  lemma RestMeansNotStuck(s: System)
    requires NoLostWakeup(s) && !Enabled(s, PortEvent) && !Enabled(s, Signal)
    ensures s.processor.Blocked? ==> !Defined(s.arrays, s.processor.slice) && s.chan.buffer == [] && s.chan.inputs == []
  {
  }

  /** A processor that blocks while a notification is still outstanding may be woken by it
      with nothing in the buffer. */
  predicate NotStale(s: System) {
    s.processor.Blocked? && s.chan.buffer == [] ==> !Notifying(s.chan)
  }

  /** No notification is outstanding when a wait blocks: beforehand, the slice is defined, or
      nothing is outstanding besides the signal that the step itself consumes. */
  predicate BlocksQuietly(s: System, step: Step) {
    match step
    case Wait(slice) => Defined(s.arrays, slice) || !Notifying(s.chan)
    case Signal =>
      s.processor.Blocked? && s.chan.buffer != [] ==>
        Defined(s.arrays, s.processor.slice) || (s.chan.signals == 1 && s.chan.draining == 0)
    case _ => true
  }

  /** Exactly: staleness comes from blocking while a notification is outstanding. */
  lemma {:induction false} StepKeepsNotStale(s: System, step: Step)
    requires NoLostWakeup(s) && NotStale(s) && Enabled(s, step) && !s.processor.Crashed?
    ensures NotStale(After(s, step)) <==> BlocksQuietly(s, step)
    ensures !After(s, step).processor.Crashed?
  {
    if step.PortEvent? {
      PortEventIsSound(s.chan);
    }
  }

  /** A stale processor can crash: the outstanding port events of the batch under way and one
      signal are enough, whatever has arrived at the port since. */
  lemma {:induction false} StaleCrashes(s: System)
    requires NoLostWakeup(s) && s.processor.Blocked? && !NotStale(s)
    ensures exists steps :: IsRun(s, steps) && Final(s, steps).processor.Crashed?
    decreases s.chan.draining
  {
    if s.chan.signals > 0 {
      assert IsRun(s, [Signal]) && Final(s, [Signal]).processor.Crashed? by {
        assert [Signal][1..] == [];
      }
    } else {
      var s' := After(s, PortEvent);
      StepKeepsWakeup(s, PortEvent);
      StaleCrashes(s');
      var steps :| IsRun(s', steps) && Final(s', steps).processor.Crashed?;
      assert ([PortEvent] + steps)[1..] == steps;
      assert IsRun(s, [PortEvent] + steps);
    }
  }

  predicate IsRun(s: System, steps: seq<Step>)
    decreases |steps|
  {
    steps == [] || (Enabled(s, steps[0]) && IsRun(After(s, steps[0]), steps[1..]))
  }

  function Final(s: System, steps: seq<Step>): System
    requires IsRun(s, steps)
    decreases |steps|
  {
    if steps == [] then s else Final(After(s, steps[0]), steps[1..])
  }

  /** A run in which no wait blocks while a notification is outstanding. */
  predicate IsQuietRun(s: System, steps: seq<Step>)
    requires IsRun(s, steps)
    decreases |steps|
  {
    steps == [] || (BlocksQuietly(s, steps[0]) && IsQuietRun(After(s, steps[0]), steps[1..]))
  }

  function Start(arrays: Arrays): System {
    System(Channel([], 0, [], 0, 0, [], []), arrays, Running)
  }

  lemma {:induction false} RunKeepsWakeup(s: System, steps: seq<Step>)
    requires NoLostWakeup(s) && IsRun(s, steps)
    ensures NoLostWakeup(Final(s, steps))
    ensures NotStale(s) && !s.processor.Crashed? && IsQuietRun(s, steps) ==>
              NotStale(Final(s, steps)) && !Final(s, steps).processor.Crashed?
    decreases |steps|
  {
    if steps != [] {
      StepKeepsWakeup(s, steps[0]);
      if NotStale(s) && !s.processor.Crashed? {
        StepKeepsNotStale(s, steps[0]);
      }
      RunKeepsWakeup(After(s, steps[0]), steps[1..]);
    }
  }

  /** Exactly: a quiet run does not crash, and a run that stops being quiet has a beginning with
      a continuation that crashes. */
  lemma {:induction false} UnquietRunCanCrash(s: System, steps: seq<Step>)
    requires NoLostWakeup(s) && NotStale(s) && !s.processor.Crashed? && IsRun(s, steps) && !IsQuietRun(s, steps)
    ensures exists n: nat, more :: n <= |steps| && IsRun(s, steps[..n] + more) && Final(s, steps[..n] + more).processor.Crashed?
    decreases |steps|
  {
    var first, s' := steps[0], After(s, steps[0]);
    StepKeepsWakeup(s, first);
    StepKeepsNotStale(s, first);
    if BlocksQuietly(s, first) {
      UnquietRunCanCrash(s', steps[1..]);
      var n: nat, more :| n <= |steps[1..]| && IsRun(s', steps[1..][..n] + more) && Final(s', steps[1..][..n] + more).processor.Crashed?;
      CrashAfter(s, first, steps[1..][..n] + more);
      assert steps[..n + 1] + more == [first] + (steps[1..][..n] + more);
    } else {
      StaleCrashes(s');
      var more :| IsRun(s', more) && Final(s', more).processor.Crashed?;
      CrashAfter(s, first, more);
      assert steps[..1] + more == [first] + more;
    }
  }

  lemma CrashAfter(s: System, first: Step, more: seq<Step>)
    requires Enabled(s, first) && IsRun(After(s, first), more)
    ensures IsRun(s, [first] + more) && Final(s, [first] + more) == Final(After(s, first), more)
  {
    assert ([first] + more)[1..] == more;
  }

  /** The failure is reachable: a message about another entry is read by the listener, the
      processor blocks and drops it before the signal arrives, and the signal finds nothing. */
  lemma StaleSignalIsReachable()
    ensures exists steps :: IsRun(Start(map[0 := [None]]), steps) && Final(Start(map[0 := [None]]), steps).processor.Crashed?
  {
    var s0 := Start(map[0 := [None]]);
    var slice := Slice(0, 0, 1);
    var s1 := After(s0, Write(s0.arrays, 0));
    var s2 := After(s1, PortEvent);
    var s3 := After(s2, Wait(slice));
    assert s2.chan.buffer == [0] by { assert Flatten([[0]]) == [0] + Flatten([]); }
    assert !Defined(s2.arrays, slice) by { assert s2.arrays[0][0].None?; }
    assert s3.processor == Blocked(slice) && s3.chan.signals == 1 && s3.chan.buffer == [];
    assert IsRun(After(s3, Signal), []);
    CrashAfter(s3, Signal, []);
    CrashAfter(s2, Wait(slice), [Signal] + []);
    CrashAfter(s1, PortEvent, [Wait(slice)] + ([Signal] + []));
    CrashAfter(s0, Write(s0.arrays, 0), [PortEvent] + ([Wait(slice)] + ([Signal] + [])));
  }

  predicate OnlyNotifications(steps: seq<Step>) {
    forall i :: 0 <= i < |steps| ==> steps[i].PortEvent? || steps[i].Signal?
  }

  /** A processor whose slice has become defined is woken: however the outstanding port events
      and signals are ordered, they are finitely many and end with the processor running. */
  lemma {:induction false} DefinedSliceWakes(s: System, steps: seq<Step>)
    requires NoLostWakeup(s) && NotStale(s) && !s.processor.Crashed?
    requires s.processor.Blocked? ==> Defined(s.arrays, s.processor.slice)
    requires IsRun(s, steps) && OnlyNotifications(steps)
    ensures |steps| <= 2 * s.chan.events + s.chan.signals
    ensures var s' := Final(s, steps); !Enabled(s', PortEvent) && !Enabled(s', Signal) ==> s'.processor.Running?
    decreases |steps|
  {
    if steps == [] {
      if !Enabled(s, PortEvent) && !Enabled(s, Signal) {
        RestMeansNotStuck(s);
      }
    } else {
      StepKeepsWakeup(s, steps[0]);
      StepKeepsNotStale(s, steps[0]);
      DefinedSliceWakes(After(s, steps[0]), steps[1..]);
    }
  }

  /** At the level of whole runs from the start: a run is quiet, and then it never crashes, or a
      beginning of it can be continued to a crash. */
  lemma CrashesExactly(arrays: Arrays, steps: seq<Step>)
    requires IsRun(Start(arrays), steps)
    ensures IsQuietRun(Start(arrays), steps) ==> !Final(Start(arrays), steps).processor.Crashed?
    ensures !IsQuietRun(Start(arrays), steps) ==>
              exists n: nat, more :: n <= |steps| && IsRun(Start(arrays), steps[..n] + more)
                                     && Final(Start(arrays), steps[..n] + more).processor.Crashed?
  {
    if IsQuietRun(Start(arrays), steps) {
      RunKeepsWakeup(Start(arrays), steps);
    } else {
      UnquietRunCanCrash(Start(arrays), steps);
    }
  }

  /** In every run, despite messages about other slices and the final flush: messages arrive
      in order, no wake-up is lost, and a run that never blocks with a notification
      outstanding never fails on an empty buffer. */
  lemma EveryRunWakesUp(arrays: Arrays, steps: seq<Step>)
    requires IsRun(Start(arrays), steps)
    ensures var s := Final(Start(arrays), steps);
            && s.chan.received + s.chan.buffer + Flatten(s.chan.inputs) == s.chan.sent
            && (s.processor.Blocked? && Defined(s.arrays, s.processor.slice) ==>
                  MessageUnderWay(s.chan) && (Enabled(s, PortEvent) || Enabled(s, Signal)))
            && (IsQuietRun(Start(arrays), steps) ==> !s.processor.Crashed?)
  {
    RunKeepsWakeup(Start(arrays), steps);
  }

  class Processor {
    const netstack: PortListener<nat>
    var arrays: Arrays
    var state: Phase

    ghost function State(): System
      reads this, netstack
    {
      System(netstack.Contents(), arrays, state)
    }

    constructor (netstack: PortListener<nat>, arrays: Arrays)
      ensures this.netstack == netstack && this.arrays == arrays && state == Running
    {
      this.netstack := netstack;
      this.arrays := arrays;
      state := Running;
    }

    /** Scans the slice for an entry without a value. */
    method AllDefined(slice: Slice) returns (r: bool)
      requires slice.addr in arrays
      ensures r == Defined(arrays, slice) && (r <==> None !in Entries(arrays, slice))
    {
      DefinedMeansValues(arrays, slice);
      var values := arrays[slice.addr];
      var i := slice.start;
      while i < slice.end && i < |values|
        invariant slice.start <= i
        invariant forall k :: slice.start <= k < i && k < |values| ==> values[k].Some?
      {
        if values[i].None? {
          return false;
        }
        i := i + 1;
      }
      return true;
    }

    /** The loop up to the point where it blocks or ends. */
    method RecheckLoop(slice: Slice)
      requires slice.addr in arrays
      modifies this`state, netstack
      ensures State() == Loop(old(State()), slice)
    {
      var ready := AllDefined(slice);
      while !ready && netstack.buffer != []
        invariant ready == Defined(arrays, slice) && arrays == old(arrays)
        invariant |netstack.buffer| <= |old(netstack.buffer)|
        invariant netstack.Contents() == Take(old(netstack.Contents()), |old(netstack.buffer)| - |netstack.buffer|)
        decreases |netstack.buffer|
      {
        var _ := netstack.Pop();
        ready := AllDefined(slice);
      }
      if ready {
        netstack.Flush();
        state := Running;
      } else {
        state := Blocked(slice);
      }
    }

    method InterpretWaitAll(slice: Slice)
      requires state.Running? && slice.addr in arrays
      modifies this`state, netstack
      ensures State() == After(old(State()), Wait(slice))
    {
      RecheckLoop(slice);
    }

    /** The signal of the listener arrives. */
    method OnSignal()
      requires netstack.signals > 0 && (state.Blocked? ==> state.slice.addr in arrays)
      modifies this`state, netstack
      ensures State() == After(old(State()), Signal)
    {
      netstack.signals := netstack.signals - 1;
      if state.Blocked? {
        var slice := state.slice;
        if netstack.buffer == [] {
          state := Crashed;
        } else {
          var _ := netstack.Pop();
          RecheckLoop(slice);
        }
      }
    }
  }
}
