/** The daemon's event loop (`process_event`), for any handler: it runs until nothing is pending. */
module EventLoop {
  import opened Wrappers
  import opened Core
  import opened Execution

  type Handler = (Machine, Event) -> Step

  /** `process_event`, cut after `fuel` events: it terminates when some fuel lets it finish. */
  datatype Processed = Finished(step: Step) | Interrupted(machine: Machine, pending: seq<Event>)

  function Loop(handle: Handler, m: Machine, pending: seq<Event>, fuel: nat): Processed
    decreases fuel
  {
    if pending == [] then Finished(Step(m, Ok([])))
    else if fuel == 0 then Interrupted(m, pending)
    else
      var last := |pending| - 1;
      var s := handle(m, pending[last]);
      match s.outcome
      case Err(_) => Finished(s)
      case Ok(events) => Loop(handle, s.machine, pending[..last] + events, fuel - 1)
  }

  /** At no point of the loop is more than one event pending. */
  ghost predicate OneAtATime(handle: Handler, m: Machine, pending: seq<Event>, fuel: nat)
    decreases fuel
  {
    && |pending| <= 1
    && (pending != [] && fuel > 0 ==>
          var s := handle(m, pending[|pending| - 1]);
          s.outcome.Ok? ==>
            OneAtATime(handle, s.machine, pending[..|pending| - 1] + s.outcome.value, fuel - 1))
  }

  /** Handlers that agree on every event run the same loop. */
  lemma {:induction false} LoopSame(f: Handler, g: Handler, m: Machine, pending: seq<Event>, fuel: nat)
    requires forall n: Machine, e: Event :: f(n, e) == g(n, e)
    ensures Loop(f, m, pending, fuel) == Loop(g, m, pending, fuel)
    ensures OneAtATime(f, m, pending, fuel) == OneAtATime(g, m, pending, fuel)
    decreases fuel
  {
    if pending != [] && fuel > 0 {
      var s := f(m, pending[|pending| - 1]);
      if s.outcome.Ok? {
        LoopSame(f, g, s.machine, pending[..|pending| - 1] + s.outcome.value, fuel - 1);
      }
    }
  }

  /** One turn of the loop. */
  lemma LoopTurn(handle: Handler, m: Machine, pending: seq<Event>, fuel: nat, s: Step)
    requires pending != [] && fuel > 0 && s == handle(m, pending[|pending| - 1])
    ensures s.outcome.Err? ==> Loop(handle, m, pending, fuel) == Finished(s)
    ensures s.outcome.Ok? ==>
      Loop(handle, m, pending, fuel)
      == Loop(handle, s.machine, pending[..|pending| - 1] + s.outcome.value, fuel - 1)
  {
  }

  /** The loop on a single pending event. */
  lemma LoopOne(handle: Handler, m: Machine, event: Event, fuel: nat, s: Step)
    requires fuel > 0 && s == handle(m, event)
    ensures s.outcome.Err? ==> Loop(handle, m, [event], fuel) == Finished(s)
    ensures s.outcome.Err? ==> OneAtATime(handle, m, [event], fuel)
    ensures s.outcome.Ok? ==>
      Loop(handle, m, [event], fuel) == Loop(handle, s.machine, s.outcome.value, fuel - 1)
    ensures s.outcome.Ok? ==>
      OneAtATime(handle, m, [event], fuel) == OneAtATime(handle, s.machine, s.outcome.value, fuel - 1)
  {
    assert [event][..0] == [];
    if s.outcome.Ok? {
      assert [event][..0] + s.outcome.value == s.outcome.value;
    }
  }

  /** The successive `handle_event` calls of a loop that only ever has one event pending. */
  ghost predicate Chain(handle: Handler, m: Machine, event: Event, steps: seq<Step>)
    decreases |steps|
  {
    && steps != []
    && steps[0] == handle(m, event)
    && steps[0].outcome.Ok?
    && if |steps| == 1 then steps[0].outcome.value == []
       else |steps[0].outcome.value| == 1 && Chain(handle, steps[0].machine, steps[0].outcome.value[0], steps[1..])
  }

  lemma ChainCons(handle: Handler, m: Machine, event: Event, s: Step, next: Event, steps: seq<Step>)
    requires s == handle(m, event) && s.outcome == Ok([next])
    requires Chain(handle, s.machine, next, steps)
    ensures Chain(handle, m, event, [s] + steps)
  {
    assert ([s] + steps)[1..] == steps;
  }

  lemma StillRunning(handle: Handler, m: Machine, event: Event, fuel: nat, s: Step, next: Event)
    requires fuel > 0 && s == handle(m, event) && s.outcome == Ok([next])
    requires Loop(handle, s.machine, [next], fuel - 1).Interrupted?
    ensures Loop(handle, m, [event], fuel).Interrupted?
  {
    LoopOne(handle, m, event, fuel, s);
  }

  lemma StillFinished(handle: Handler, m: Machine, event: Event, fuel: nat, s: Step, next: Event, last: Step)
    requires fuel > 0 && s == handle(m, event) && s.outcome == Ok([next])
    requires Loop(handle, s.machine, [next], fuel - 1) == Finished(last)
    ensures Loop(handle, m, [event], fuel) == Finished(last)
  {
    LoopOne(handle, m, event, fuel, s);
  }

  lemma LoopLast(handle: Handler, m: Machine, event: Event, fuel: nat, steps: seq<Step>)
    requires fuel > 0 && |steps| == 1 && Chain(handle, m, event, steps)
    ensures Loop(handle, m, [event], fuel) == Finished(steps[0])
  {
    LoopOne(handle, m, event, fuel, steps[0]);
  }

  lemma ChainSplit(handle: Handler, m: Machine, event: Event, steps: seq<Step>) returns (next: Event)
    requires Chain(handle, m, event, steps) && |steps| > 1
    ensures steps[0] == handle(m, event) && steps[0].outcome == Ok([next])
    ensures Chain(handle, steps[0].machine, next, steps[1..])
    ensures steps[1..][|steps| - 2] == steps[|steps| - 1]
  {
    next := steps[0].outcome.value[0];
    assert steps[0].outcome.value == [next];
  }

  /** A chain is the whole run of the loop, which takes as many calls as it has steps... */
  lemma {:induction false} ChainFinishes(handle: Handler, m: Machine, event: Event, steps: seq<Step>, fuel: nat)
    requires Chain(handle, m, event, steps) && fuel >= |steps|
    ensures Loop(handle, m, [event], fuel) == Finished(steps[|steps| - 1])
    decreases |steps|
  {
    if |steps| == 1 {
      LoopLast(handle, m, event, fuel, steps);
    } else {
      var next := ChainSplit(handle, m, event, steps);
      ChainFinishes(handle, steps[0].machine, next, steps[1..], fuel - 1);
      StillFinished(handle, m, event, fuel, steps[0], next, steps[|steps| - 1]);
    }
  }

  lemma NoFuel(handle: Handler, m: Machine, event: Event)
    ensures Loop(handle, m, [event], 0).Interrupted?
  {
  }

  /** ... and no fewer. */
  lemma {:induction false} ChainWaits(handle: Handler, m: Machine, event: Event, steps: seq<Step>, fuel: nat)
    requires Chain(handle, m, event, steps) && fuel < |steps|
    ensures Loop(handle, m, [event], fuel).Interrupted?
    decreases fuel
  {
    if fuel == 0 {
      NoFuel(handle, m, event);
      return;
    }
    var next := ChainSplit(handle, m, event, steps);
    ChainWaits(handle, steps[0].machine, next, steps[1..], fuel - 1);
    StillRunning(handle, m, event, fuel, steps[0], next);
  }

  /** What an event leads to is done before anything that was pending with it: from some number of calls on, the
      loop with more pending is at those, as the event alone leaves the machine. */
  lemma {:induction false} NewestFirst(handle: Handler, m: Machine, before: seq<Event>, pending: seq<Event>, fuel: nat,
                                       s: Step)
    returns (used: nat)
    requires Loop(handle, m, pending, fuel) == Finished(s)
    ensures used <= fuel
    ensures s.outcome.Ok? ==>
              forall more: nat ::
                Loop(handle, m, before + pending, used + more) == Loop(handle, s.machine, before, more)
    ensures s.outcome.Err? ==> Loop(handle, m, before + pending, used) == Finished(s)
    decreases fuel
  {
    used := 0;
    if pending == [] {
      assert before + pending == before;
    } else {
      var last := |pending| - 1;
      var t := handle(m, pending[last]);
      var both := before + pending;
      assert both[|both| - 1] == pending[last] && both[..|both| - 1] == before + pending[..last];
      LoopTurn(handle, m, pending, fuel, t);
      if t.outcome.Err? {
        used := 1;
        LoopTurn(handle, m, both, 1, t);
      } else {
        var rest := pending[..last] + t.outcome.value;
        var u := NewestFirst(handle, t.machine, before, rest, fuel - 1, s);
        used := u + 1;
        assert both[..|both| - 1] + t.outcome.value == before + rest;
        LoopTurn(handle, m, both, used, t);
        if s.outcome.Ok? {
          forall more: nat
            ensures Loop(handle, m, both, used + more) == Loop(handle, s.machine, before, more)
          {
            LoopTurn(handle, m, both, used + more, t);
            assert used + more - 1 == u + more;
          }
        }
      }
    }
  }

  /** One call, and again a single pending event with which `stuck` holds. */
  ghost predicate GoesOn(handle: Handler, stuck: (Machine, Event) -> bool, m: Machine, event: Event) {
    var s := handle(m, event);
    s.outcome.Ok? && |s.outcome.value| == 1 && stuck(s.machine, s.outcome.value[0])
  }

  /** A property of machine and pending event that every call re-establishes keeps the loop going. */
  lemma {:induction false} NeverEnds(handle: Handler, stuck: (Machine, Event) -> bool, m: Machine, event: Event,
                                     fuel: nat)
    requires stuck(m, event)
    requires forall n: Machine, e: Event :: stuck(n, e) ==> GoesOn(handle, stuck, n, e)
    ensures Loop(handle, m, [event], fuel).Interrupted?
    decreases fuel
  {
    if fuel > 0 {
      assert GoesOn(handle, stuck, m, event);
      var s := handle(m, event);
      var next := s.outcome.value[0];
      assert s.outcome.value == [next];
      NeverEnds(handle, stuck, s.machine, next, fuel - 1);
      StillRunning(handle, m, event, fuel, s, next);
    }
  }
}
