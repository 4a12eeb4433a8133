/** The effect executor (`executor.rs`) as a function on machine values. */
module Execution {
  import opened Wrappers
  import opened Core
  import opened State
  import opened Plans
  import Runbook

  /** Where something of a pipeline was run, and whether an agent's own `cwd` decided that. */
  datatype Place = Place(id: string, dir: string, overridden: bool)

  /** The engine's state: the operations written to the log, the tables, the armed timers, the
      number of effects attempted, and (for specification) those effects in order and the
      directories that shell commands and sessions were given. */
  datatype Machine = Machine(
    log: seq<Operation>,
    tables: Tables,
    timers: map<string, int>,
    tick: nat,
    trace: seq<Effect>,
    places: seq<Place>)

  datatype Step = Step(machine: Machine, outcome: Outcome)

  /** The directory a shell command or a session is given: for a session the override, else the path
      in the workspace record as it is at that moment. */
  function PlacesOf(t: Tables, e: Effect): seq<Place> {
    match e
    case Shell(id, _, _, cwd) => [Place(id, cwd, false)]
    case Spawn(id, _, override) =>
      if id !in t.workspaces then []
      else [Place(id, if override.Some? then override.value else t.workspaces[id].path, override.Some?)]
    case _ => []
  }

  function Count(m: Machine, e: Effect): Machine {
    m.(tick := m.tick + 1, trace := m.trace + [e], places := m.places + PlacesOf(m.tables, e))
  }

  /** What a failed adapter call reports. */
  function AdapterError(e: Effect, a: Answer): Error {
    match e
    case Emit(_) => NotifyFailed
    case Prepare(agent, _) => if a.code == 0 then PromptError(agent) else ShellFailed
    case WorktreeAdd(_, _) => RepoFailed
    case WorktreeRemove(_) => RepoFailed
    case _ => SessionFailed
  }

  /** `execute_inner`. Each attempted effect consumes one answer of the world. */
  function Exec(w: World, m: Machine, e: Effect): Step {
    var a := w.answers(m.tick);
    var n := Count(m, e);
    match e
    case SetTimer(id, duration) => Step(n.(timers := n.timers[id := a.now + duration]), Ok([]))
    case CancelTimer(id) => Step(n.(timers := n.timers - {id}), Ok([]))
    case Persist(op) =>
      if a.ok then Step(n.(log := n.log + [op], tables := ApplyOp(n.tables, op)), Ok([]))
      else Step(n, Err(StorageFailed))
    case Spawn(workspace, _, _) =>
      Step(n, if workspace !in m.tables.workspaces then Err(WorkspaceNotFound(workspace))
              else if a.ok then Ok([]) else Err(SessionFailed))
    case Shell(id, phase, _, _) => Step(n, if a.ok then Ok([ShellCompleted(id, phase, a.code)]) else Err(ShellFailed))
    case Notify(_, _) => Step(n, Ok([]))
    case _ => Step(n, if a.ok then Ok([]) else Err(AdapterError(e, a)))
  }

  /** What comes of an effect: timers and notifications never fail; a session needs the record of its workspace; a
      shell command that could be run reports its exit code whatever it is; and each adapter that fails does so
      under its own name. */
  lemma OutcomesAre(w: World, m: Machine, e: Effect)
    ensures var a := w.answers(m.tick);
            var o := Exec(w, m, e).outcome;
            match e
            case SetTimer(_, _) => o == Ok([])
            case CancelTimer(_) => o == Ok([])
            case Notify(_, _) => o == Ok([])
            case Persist(_) => o == if a.ok then Ok([]) else Err(StorageFailed)
            case Spawn(workspace, _, _) =>
              o == if workspace !in m.tables.workspaces then Err(WorkspaceNotFound(workspace))
                   else if a.ok then Ok([]) else Err(SessionFailed)
            case Shell(id, phase, _, _) =>
              o == if a.ok then Ok([ShellCompleted(id, phase, a.code)]) else Err(ShellFailed)
            case Emit(_) => o == if a.ok then Ok([]) else Err(NotifyFailed)
            case Send(_, _) => o == if a.ok then Ok([]) else Err(SessionFailed)
            case Kill(_) => o == if a.ok then Ok([]) else Err(SessionFailed)
            case WorktreeAdd(_, _) => o == if a.ok then Ok([]) else Err(RepoFailed)
            case WorktreeRemove(_) => o == if a.ok then Ok([]) else Err(RepoFailed)
            case Prepare(agent, _) =>
              o == if a.ok then Ok([]) else if a.code == 0 then Err(PromptError(agent)) else Err(ShellFailed)
  {
  }

  /** A timer is armed for its time from now, cancelled when it is, and else left as it was. */
  lemma TimersAre(w: World, m: Machine, e: Effect)
    ensures var n := Exec(w, m, e).machine;
            match e
            case SetTimer(id, duration) => n.timers == m.timers[id := w.answers(m.tick).now + duration]
            case CancelTimer(id) => n.timers == m.timers - {id}
            case _ => n.timers == m.timers
  {
  }

  /** `execute_all`: stops at the first failure, keeping what was done. */
  function ExecAll(w: World, m: Machine, effects: seq<Effect>): Step
    decreases |effects|
  {
    if effects == [] then Step(m, Ok([]))
    else
      var first := Exec(w, m, effects[0]);
      if first.outcome.Err? then first
      else
        var rest := ExecAll(w, first.machine, effects[1..]);
        Step(rest.machine, Extend(first.outcome.value, rest.outcome))
  }

  function RunPlan(w: World, m: Machine, p: Plan): Step {
    var s := ExecAll(w, m, p.effects);
    if s.outcome.Ok? && p.fail.Some? then Step(s.machine, Err(p.fail.value)) else s
  }

  /** Continue with a plan once a step succeeded. */
  function AndThen(w: World, s: Step, p: Plan): Step {
    match s.outcome
    case Err(_) => s
    case Ok(events) =>
      var rest := RunPlan(w, s.machine, p);
      Step(rest.machine, Extend(events, rest.outcome))
  }

  /** One call of `handle_event`. */
  function Handle(rb: Runbook.Runbook, w: World, m: Machine, event: Event): Step {
    RunPlan(w, m, EventPlan(rb, w, m.tables, m.tick, event))
  }

  lemma {:induction false} ExecAllAppend(w: World, m: Machine, a: seq<Effect>, b: seq<Effect>)
    ensures ExecAll(w, m, a + b)
         == (var s := ExecAll(w, m, a);
             match s.outcome
             case Err(_) => s
             case Ok(events) =>
               var rest := ExecAll(w, s.machine, b);
               Step(rest.machine, Extend(events, rest.outcome)))
    decreases |a|
  {
    if a == [] {
      assert a + b == b;
      var rest := ExecAll(w, m, b);
      if rest.outcome.Ok? {
        assert [] + rest.outcome.value == rest.outcome.value;
      }
    } else {
      assert (a + b)[1..] == a[1..] + b;
      var first := Exec(w, m, a[0]);
      if first.outcome.Ok? {
        ExecAllAppend(w, first.machine, a[1..], b);
        var s := ExecAll(w, first.machine, a[1..]);
        if s.outcome.Ok? {
          var rest := ExecAll(w, s.machine, b);
          if rest.outcome.Ok? {
            assert first.outcome.value + (s.outcome.value + rest.outcome.value)
                == (first.outcome.value + s.outcome.value) + rest.outcome.value;
          }
        }
      }
    }
  }

  lemma ExecOne(w: World, m: Machine, e: Effect)
    ensures ExecAll(w, m, [e]) == Exec(w, m, e)
  {
    var first := Exec(w, m, e);
    assert [e][1..] == [];
    if first.outcome.Ok? {
      assert first.outcome.value + [] == first.outcome.value;
    }
  }

  /** Running a prefix of a plan and then the rest is running the plan. */
  lemma RunBefore(w: World, m: Machine, effects: seq<Effect>, p: Plan)
    ensures RunPlan(w, m, Before(effects, p)) == AndThen(w, ExecAll(w, m, effects), p)
  {
    ExecAllAppend(w, m, effects, p.effects);
  }

  function OpOf(e: Effect): seq<Operation> { if e.Persist? then [e.operation] else [] }

  /** The operations among some effects, in order. */
  function Ops(effects: seq<Effect>): seq<Operation> {
    if effects == [] then [] else OpOf(effects[0]) + Ops(effects[1..])
  }

  lemma {:induction false} OpsAppend(a: seq<Effect>, b: seq<Effect>)
    ensures Ops(a + b) == Ops(a) + Ops(b)
    decreases |a|
  {
    if a == [] {
      assert a + b == b;
    } else {
      assert (a + b)[1..] == a[1..] + b;
      OpsAppend(a[1..], b);
    }
  }

  /** Whatever happens, what a list of effects writes is the first `Written` of its operations:
      all of them when every effect succeeded. */
  function Written(w: World, m: Machine, effects: seq<Effect>): (n: nat)
    ensures n <= |Ops(effects)|
    decreases |effects|
  {
    if effects == [] then 0
    else
      var first := Exec(w, m, effects[0]);
      if first.outcome.Err? then 0
      else |OpOf(effects[0])| + Written(w, first.machine, effects[1..])
  }

  lemma ExecWrites(w: World, m: Machine, e: Effect)
    ensures var s := Exec(w, m, e);
            var ops := if s.outcome.Ok? then OpOf(e) else [];
            && s.machine.log == m.log + ops
            && s.machine.tables == ApplyAll(m.tables, ops)
            && s.machine.tick == m.tick + 1
  {
    if e.Persist? {
      assert ApplyAll(m.tables, [e.operation]) == ApplyAll(ApplyOp(m.tables, e.operation), []);
    }
  }

  lemma {:induction false} ExecAllWrites(w: World, m: Machine, effects: seq<Effect>)
    ensures var s := ExecAll(w, m, effects);
            var ops := Ops(effects)[..Written(w, m, effects)];
            && s.machine.log == m.log + ops
            && s.machine.tables == ApplyAll(m.tables, ops)
            && m.tick <= s.machine.tick
            && (effects != [] ==> m.tick < s.machine.tick)
    ensures ExecAll(w, m, effects).outcome.Ok? ==> Written(w, m, effects) == |Ops(effects)|
    decreases |effects|
  {
    if effects != [] {
      var first := Exec(w, m, effects[0]);
      ExecWrites(w, m, effects[0]);
      if first.outcome.Ok? {
        var head := OpOf(effects[0]);
        var n := Written(w, first.machine, effects[1..]);
        ExecAllWrites(w, first.machine, effects[1..]);
        assert Ops(effects)[..Written(w, m, effects)] == head + Ops(effects[1..])[..n];
        ApplyAllAppend(m.tables, head, Ops(effects[1..])[..n]);
      }
    }
  }

  /** The same for plans. */
  lemma PlanWrites(w: World, m: Machine, p: Plan)
    ensures var s := RunPlan(w, m, p);
            var ops := Ops(p.effects)[..Written(w, m, p.effects)];
            && s.machine.log == m.log + ops
            && s.machine.tables == ApplyAll(m.tables, ops)
            && m.tick <= s.machine.tick
            && (p.effects != [] ==> m.tick < s.machine.tick)
            && (s.outcome.Ok? ==> ops == Ops(p.effects) && p.fail.None?)
  {
    ExecAllWrites(w, m, p.effects);
  }
}
