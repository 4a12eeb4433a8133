/** The daemon between crashes: it takes one call at a time, and an event is processed to its end, with
    all that it leads to, before anything else is heard. */
module Service {
  import opened Core
  import opened Runbook
  import opened Plans
  import opened Execution
  import opened Shapes
  import opened Safety
  import opened Routes
  import opened EventLoop
  import opened Quiescence
  import opened Termination

  /** The engine, and what `process_event` still has pending. */
  datatype Config = Config(machine: Machine, pending: seq<Event>)

  /** A call comes in; the loop calls the engine once; or the call at hand (with nothing pending, `call`) is
      cut short after `effects` effects and the daemon is started again. */
  datatype Turn = Arrive(call: Call) | Work | Crash(call: Call, effects: nat)

  /** One turn of the loop, for any handler. */
  function Turned(handle: Handler, c: Config): Config {
    if c.pending == [] then c
    else
      var last := |c.pending| - 1;
      var s := handle(c.machine, c.pending[last]);
      Config(s.machine, if s.outcome.Ok? then c.pending[..last] + s.outcome.value else [])
  }

  function Take(rb: Runbook, w: World, c: Config, turn: Turn): Config {
    match turn
    case Arrive(call) =>
      if c.pending != [] then c
      else if call.Deliver? then c.(pending := [call.event])
      else Config(Next(rb, w, c.machine, Complete(call)), [])
    case Work => Turned(EngineHandler(rb, w), c)
    case Crash(call, effects) =>
      var cut := if c.pending == [] then call else Deliver(c.pending[|c.pending| - 1]);
      Config(Next(rb, w, c.machine, CrashDuring(cut, effects)), [])
  }

  /** The daemon after a history, from its first start on. */
  function After(rb: Runbook, w: World, turns: seq<Turn>): Config
    decreases |turns|
  {
    if turns == [] then Config(INITIAL, [])
    else Take(rb, w, After(rb, w, turns[..|turns| - 1]), turns[|turns| - 1])
  }

  function Works(handle: Handler, c: Config, calls: nat): Config
    decreases calls
  {
    if calls == 0 then c else Works(handle, Turned(handle, c), calls - 1)
  }

  lemma {:induction false} IdleWorks(handle: Handler, c: Config, calls: nat)
    requires c.pending == []
    ensures Works(handle, c, calls) == c
    decreases calls
  {
    if calls > 0 {
      IdleWorks(handle, c, calls - 1);
    }
  }

  /** What the loop is at after some calls. */
  function Rest(p: Processed): Config {
    match p
    case Finished(step) => Config(step.machine, [])
    case Interrupted(machine, pending) => Config(machine, pending)
  }

  /** Taken together, the turns of the loop are `process_event`. */
  lemma {:induction false} WorkIsLoop(handle: Handler, c: Config, calls: nat)
    ensures Works(handle, c, calls) == Rest(Loop(handle, c.machine, c.pending, calls))
    decreases calls
  {
    if c.pending == [] {
      IdleWorks(handle, c, calls);
    } else if calls > 0 {
      var s := handle(c.machine, c.pending[|c.pending| - 1]);
      LoopTurn(handle, c.machine, c.pending, calls, s);
      if s.outcome.Ok? {
        WorkIsLoop(handle, Turned(handle, c), calls - 1);
      } else {
        IdleWorks(handle, Turned(handle, c), calls - 1);
      }
    }
  }

  /** A turn of the daemon's loop is a call of the engine. */
  lemma WorkTurn(rb: Runbook, w: World, c: Config, s: Step)
    requires c.pending != [] && s == Handle(rb, w, c.machine, c.pending[|c.pending| - 1])
    ensures Take(rb, w, c, Work)
         == Config(s.machine, if s.outcome.Ok? then c.pending[..|c.pending| - 1] + s.outcome.value else [])
  {
    EngineHandlerIsEngine(rb, w);
    assert Answers(EngineHandler(rb, w), rb, w, c.machine, c.pending[|c.pending| - 1]);
  }

  // ------------------------------------------------------------- what turns keep

  /** The invariants of runs, and never more than one event pending. */
  ghost predicate Serving(rb: Runbook, w: World, c: Config) {
    RouteInvariant(rb, w, c.machine) && |c.pending| <= 1
  }

  lemma CallLeavesOne(rb: Runbook, w: World, m: Machine, event: Event)
    requires RouteInvariant(rb, w, m)
    ensures var o := Handle(rb, w, m, event).outcome; o.Ok? ==> |o.value| <= 1
  {
    var s, phase, code := FirstEvent(rb, w, m, event);
  }

  lemma CallKeepsPlaces(rb: Runbook, w: World, m: Machine, event: Event)
    requires FreshIds(w) && RouteInvariant(rb, w, m)
    ensures RouteInvariant(rb, w, Handle(rb, w, m, event).machine)
  {
    NextKeepsPlaces(rb, w, m, Complete(Deliver(event)));
    assert Next(rb, w, m, Complete(Deliver(event))) == Handle(rb, w, m, event).machine;
  }

  lemma WorkKeepsServing(rb: Runbook, w: World, c: Config)
    requires FreshIds(w) && Serving(rb, w, c)
    ensures Serving(rb, w, Take(rb, w, c, Work))
  {
    if c.pending != [] {
      WorkTurn(rb, w, c, Handle(rb, w, c.machine, c.pending[0]));
      CallLeavesOne(rb, w, c.machine, c.pending[0]);
      CallKeepsPlaces(rb, w, c.machine, c.pending[0]);
    }
  }

  lemma TurnKeepsServing(rb: Runbook, w: World, c: Config, turn: Turn)
    requires FreshIds(w) && Serving(rb, w, c)
    ensures Serving(rb, w, Take(rb, w, c, turn))
  {
    match turn
    case Arrive(call) => NextKeepsPlaces(rb, w, c.machine, Complete(call));
    case Work => WorkKeepsServing(rb, w, c);
    case Crash(call, effects) =>
      var cut := if c.pending == [] then call else Deliver(c.pending[|c.pending| - 1]);
      NextKeepsPlaces(rb, w, c.machine, CrashDuring(cut, effects));
  }

  /** Main result: over any history of the daemon the invariants of runs hold, and at most one event is
      pending. */
  lemma {:induction false} HistoryKeepsServing(rb: Runbook, w: World, turns: seq<Turn>)
    requires FreshIds(w)
    ensures Serving(rb, w, After(rb, w, turns))
    decreases |turns|
  {
    if turns == [] {
      InitialInvariant(w);
    } else {
      var last := |turns| - 1;
      HistoryKeepsServing(rb, w, turns[..last]);
      TurnKeepsServing(rb, w, After(rb, w, turns[..last]), turns[last]);
    }
  }
}
