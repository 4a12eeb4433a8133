/** The daemon (`lifecycle.rs`): startup from the log, and the event loop around the engine. */
module Daemon {
  import opened Wrappers
  import opened Core
  import opened Runbook
  import opened State
  import opened Plans
  import opened Execution
  import opened EventLoop
  import opened Quiescence
  import opened Engine
  import Shapes
  import Wal
  import Scheduler

  /** What the loop came to, as its caller sees it. */
  ghost predicate Reports(p: Processed, m: Machine, r: Option<Outcome>) {
    match p
    case Finished(step) => r == Some(step.outcome) && m == step.machine
    case Interrupted(machine, _) => r == None && m == machine
  }

  /** Events processed one after the other, up to the first that fails or does not finish. */
  function Beat(handler: Handler, m: Machine, events: seq<Event>, fuel: nat): Machine
    decreases |events|
  {
    if events == [] then m
    else
      match Loop(handler, m, [events[0]], fuel)
      case Interrupted(machine, _) => machine
      case Finished(step) =>
        if step.outcome.Err? then step.machine else Beat(handler, step.machine, events[1..], fuel)
  }

  /** Each of these events is processed to its end without an error, one after the other. */
  ghost predicate Served(handler: Handler, m: Machine, events: seq<Event>, fuel: nat)
    decreases |events|
  {
    events != [] ==>
      var p := Loop(handler, m, [events[0]], fuel);
      p.Finished? && p.step.outcome.Ok? && Served(handler, p.step.machine, events[1..], fuel)
  }

  /** The first event that fails is the last one processed. */
  lemma {:induction false} FirstFailureStops(handler: Handler, m: Machine, before: seq<Event>, event: Event,
                                             after: seq<Event>, fuel: nat)
    requires Served(handler, m, before, fuel)
    requires var p := Loop(handler, Beat(handler, m, before, fuel), [event], fuel);
             p.Finished? ==> p.step.outcome.Err?
    ensures Beat(handler, m, before + [event] + after, fuel) == Beat(handler, m, before + [event], fuel)
    decreases |before|
  {
    var all, some := before + [event] + after, before + [event];
    assert all[0] == some[0];
    if before == [] {
      assert some[1..] == [] && Beat(handler, m, before, fuel) == m;
    } else {
      var p := Loop(handler, m, [before[0]], fuel);
      assert all[1..] == before[1..] + [event] + after && some[1..] == before[1..] + [event];
      assert Beat(handler, m, before, fuel) == Beat(handler, p.step.machine, before[1..], fuel);
      FirstFailureStops(handler, p.step.machine, before[1..], event, after, fuel);
    }
  }

  class Daemon {
    const runtime: Runtime
    /** Not the scheduler the engine fills. */
    const scheduler: Scheduler.Scheduler

    ghost predicate Valid()
      reads this, runtime, runtime.executor, runtime.executor.wal, runtime.executor.wal.file, runtime.executor.state,
            runtime.executor.scheduler
    {
      runtime.Valid() && scheduler != runtime.executor.scheduler
    }

    constructor (runtime: Runtime, scheduler: Scheduler.Scheduler)
      ensures this.runtime == runtime && this.scheduler == scheduler
    {
      this.runtime, this.scheduler := runtime, scheduler;
    }

    /** One call of the engine, seen as a step of the loop's handler. */
    method HandleNext(next: Event, ghost handler: Handler, ghost step: Step) returns (results: Outcome)
      requires Valid() && IsEngine(handler, runtime.runbook, runtime.executor.world)
      requires step == handler(runtime.View(), next)
      modifies runtime.executor, runtime.executor.wal, runtime.executor.wal.file, runtime.executor.state,
               runtime.executor.scheduler
      ensures Valid()
      ensures runtime.View() == step.machine && results == step.outcome
    {
      assert Answers(handler, runtime.runbook, runtime.executor.world, runtime.View(), next);
      results := runtime.HandleEvent(next);
    }

    /** `process_event`, for at most `fuel` events; None when some are still pending then. */
    method ProcessEvent(event: Event, fuel: nat) returns (r: Option<Outcome>)
      requires Valid()
      modifies runtime.executor, runtime.executor.wal, runtime.executor.wal.file, runtime.executor.state,
               runtime.executor.scheduler
      ensures Valid()
      ensures Reports(Process(runtime.runbook, runtime.executor.world, old(runtime.View()), [event], fuel),
                      runtime.View(), r)
    {
      ghost var handler := EngineHandler(runtime.runbook, runtime.executor.world);
      EngineHandlerIsEngine(runtime.runbook, runtime.executor.world);
      r := RunLoop(event, fuel, handler);
    }

    method RunLoop(event: Event, fuel: nat, ghost handler: Handler) returns (r: Option<Outcome>)
      requires Valid() && IsEngine(handler, runtime.runbook, runtime.executor.world)
      modifies runtime.executor, runtime.executor.wal, runtime.executor.wal.file, runtime.executor.state,
               runtime.executor.scheduler
      ensures Valid()
      ensures Reports(Loop(handler, old(runtime.View()), [event], fuel), runtime.View(), r)
    {
      var pending := [event];
      var left := fuel;
      ghost var m := runtime.View();
      ghost var whole := Loop(handler, m, pending, fuel);
      while pending != [] && left > 0
        invariant Valid() && runtime.View() == m
        invariant Loop(handler, m, pending, left) == whole
        decreases left
      {
        var next := pending[|pending| - 1];
        ghost var step := handler(m, next);
        LoopTurn(handler, m, pending, left, step);
        pending := pending[..|pending| - 1];
        var results := HandleNext(next, handler, step);
        m := step.machine;
        if results.Err? {
          return Some(results);
        }
        pending := pending + results.value;
        left := left - 1;
      }
      r := if pending == [] then Some(Ok([])) else None;
    }

    /** `check_heartbeats`: polls the daemon's own scheduler and processes what fired, in the order
        it came out, up to the first failure. */
    method CheckHeartbeats(now: int, fuel: nat) returns (ghost served: seq<Event>)
      requires Valid()
      modifies scheduler, runtime.executor, runtime.executor.wal, runtime.executor.wal.file, runtime.executor.state,
               runtime.executor.scheduler
      ensures Valid()
      ensures forall e :: e in served <==> e.Timer? && e.id in Scheduler.Fired(old(scheduler.timers), now)
      ensures forall i, j :: 0 <= i < j < |served| ==> served[i] != served[j]
      ensures scheduler.timers == old(scheduler.timers) - Scheduler.Fired(old(scheduler.timers), now)
      ensures runtime.View()
           == Beat(EngineHandler(runtime.runbook, runtime.executor.world), old(runtime.View()), served, fuel)
      ensures old(scheduler.timers) == map[] ==> runtime.View() == old(runtime.View())
    {
      ghost var handler := EngineHandler(runtime.runbook, runtime.executor.world);
      EngineHandlerIsEngine(runtime.runbook, runtime.executor.world);
      served := PollAndRun(now, fuel, handler);
    }

    method PollAndRun(now: int, fuel: nat, ghost handler: Handler) returns (ghost served: seq<Event>)
      requires Valid() && IsEngine(handler, runtime.runbook, runtime.executor.world)
      modifies scheduler, runtime.executor, runtime.executor.wal, runtime.executor.wal.file, runtime.executor.state,
               runtime.executor.scheduler
      ensures Valid()
      ensures forall e :: e in served <==> e.Timer? && e.id in Scheduler.Fired(old(scheduler.timers), now)
      ensures forall i, j :: 0 <= i < j < |served| ==> served[i] != served[j]
      ensures scheduler.timers == old(scheduler.timers) - Scheduler.Fired(old(scheduler.timers), now)
      ensures runtime.View() == Beat(handler, old(runtime.View()), served, fuel)
      ensures old(scheduler.timers) == map[] ==> runtime.View() == old(runtime.View())
    {
      var events := scheduler.Poll(now);
      served := events;
      assert events != [] ==> events[0] in events;
      ghost var whole := Beat(handler, runtime.View(), events, fuel);
      var i := 0;
      while i < |events|
        invariant Valid() && 0 <= i <= |events|
        invariant Beat(handler, runtime.View(), events[i..], fuel) == whole
        invariant events == [] ==> runtime.View() == old(runtime.View())
        invariant scheduler.timers == old(scheduler.timers) - Scheduler.Fired(old(scheduler.timers), now)
        decreases |events| - i
      {
        assert events[i..][0] == events[i] && events[i..][1..] == events[i + 1..];
        var done := RunLoop(events[i], fuel, handler);
        if done.None? || done.value.Err? {
          return;
        }
        i := i + 1;
      }
      assert events[|events|..] == [];
    }
  }

  /** The replay loop of `startup_inner`. */
  method Rebuild(ops: seq<Operation>) returns (state: MaterializedState)
    ensures fresh(state) && state.View() == Replay(ops)
  {
    state := new MaterializedState();
    for i := 0 to |ops|
      invariant fresh(state) && state.View() == Replay(ops[..i])
    {
      assert ops[..i + 1] == ops[..i] + [ops[i]];
      ApplyAllAppend(EMPTY, ops[..i], [ops[i]]);
      assert ApplyAll(state.View(), [ops[i]]) == ApplyAll(ApplyOp(state.View(), ops[i]), []);
      state.Apply(ops[i]);
    }
    assert ops[..|ops|] == ops;
  }

  /** `startup`, on any log file: it fails when a line does not decode, and otherwise the machine that
      results is the one a restart of an engine with that log yields; it runs as specified when what it
      appends starts a line of its own. The daemon keeps a scheduler of its own, which starts empty and
      which nothing in the engine ever fills. */
  method Startup(world: World, runbook: Runbook, codec: Wal.Codec, file: Wal.LogFile, tick: nat,
                 ghost before: Machine)
    returns (d: Option<Daemon>)
    requires Wal.ValidCodec(codec) && before.tick == tick
    ensures d.None? <==> Wal.Replayed(codec, file.text).None?
    ensures d.Some? ==>
      && (Wal.WholeLines(file.text) ==> d.value.Valid()) && d.value.scheduler.timers == map[]
      && d.value.runtime.executor.world == world && d.value.runtime.runbook == runbook
      && d.value.runtime.executor.wal.file == file
      && d.value.runtime.View() == Shapes.Restarted(before.(log := Wal.Replayed(codec, file.text).value))
  {
    var wal := new Wal.Log.Open(codec, file);
    var ops := Wal.ReplayFile(codec, file);
    if ops.None? {
      return None;
    }
    var state := Rebuild(ops.value);
    ApplyAllKeyed(EMPTY, ops.value);
    var scheduler := new Scheduler.Scheduler();
    var executor := new Executor(world, wal, state, scheduler, tick, before.trace, before.places);
    var runtime := new Runtime(executor, runbook);
    var own := new Scheduler.Scheduler();
    var daemon := new Daemon(runtime, own);
    d := Some(daemon);
  }
}
