/** Crash-anywhere safety: wherever a run stops, what the log replays to is sound. */
module Safety {
  import opened Core
  import opened Runbook
  import opened State
  import opened Plans
  import opened Execution
  import opened Shapes

  // ------------------------------------------------------------- sound tables

  ghost predicate SoundPipeline(w: World, t: Tables, id: string)
    requires id in t.pipelines
  {
    var p := t.pipelines[id];
    && p.id == id
    && p.status != Failed
    && (p.status == Completed ==> p.Terminal())
    && p.sessionId.None? && p.workspacePath.None?
    && id in t.workspaces
    && t.workspaces[id].path == Join(w.worktreeRoot, p.name)
  }

  ghost predicate Sound(w: World, t: Tables) {
    && (forall id :: id in t.pipelines ==> SoundPipeline(w, t, id))
    && (forall id :: id in t.workspaces ==> t.workspaces[id].id == id)
    && (forall id :: id in t.sessions ==> t.sessions[id].id == id && t.sessions[id].pipelineId in t.pipelines)
  }

  /** The operations a sound table can take. */
  ghost predicate OpAllowed(w: World, t: Tables, op: Operation) {
    match op
    case PipelineCreate(id, _, name, _, _) => id in t.workspaces && t.workspaces[id].path == Join(w.worktreeRoot, name)
    case PipelineTransition(id, _) => id in t.pipelines
    case PhaseStatusUpdate(id, status) =>
      id in t.pipelines && status != Failed && (status == Completed ==> t.pipelines[id].Terminal())
    case PipelineDelete(_) => false
    case SessionCreate(_, pipelineId) => pipelineId in t.pipelines
    case SessionDelete(_) => false
    case WorkspaceCreate(id, _, _) => id !in t.pipelines
    case WorkspaceDelete(_) => false
  }

  ghost predicate OpsAllowed(w: World, t: Tables, ops: seq<Operation>)
    decreases |ops|
  {
    ops != [] ==> OpAllowed(w, t, ops[0]) && OpsAllowed(w, ApplyOp(t, ops[0]), ops[1..])
  }

  lemma AllowedKeepsSound(w: World, t: Tables, op: Operation)
    requires Sound(w, t) && OpAllowed(w, t, op)
    ensures Sound(w, ApplyOp(t, op))
  {
  }

  // ---------------------------------------------------------------- safe logs

  /** Every prefix of the log, hence the log as any crash leaves it, replays to sound tables. */
  ghost predicate SafeLog(w: World, log: seq<Operation>) {
    forall k :: 0 <= k <= |log| ==> Sound(w, Replay(log[..k]))
  }

  lemma ReplayAppend(log: seq<Operation>, op: Operation)
    ensures Replay(log + [op]) == ApplyOp(Replay(log), op)
  {
    ApplyAllAppend(EMPTY, log, [op]);
    assert ApplyAll(Replay(log), [op]) == ApplyAll(ApplyOp(Replay(log), op), []);
  }

  lemma {:induction false} SafeLogExtends(w: World, log: seq<Operation>, ops: seq<Operation>)
    requires SafeLog(w, log) && OpsAllowed(w, Replay(log), ops)
    ensures SafeLog(w, log + ops)
    decreases |ops|
  {
    if ops == [] {
      assert log + ops == log;
    } else {
      var longer := log + [ops[0]];
      ReplayAppend(log, ops[0]);
      assert log[..|log|] == log;
      AllowedKeepsSound(w, Replay(log), ops[0]);
      forall k | 0 <= k <= |longer|
        ensures Sound(w, Replay(longer[..k]))
      {
        if k <= |log| {
          assert longer[..k] == log[..k];
        } else {
          assert longer[..k] == longer;
        }
      }
      SafeLogExtends(w, longer, ops[1..]);
      assert longer + ops[1..] == log + ops;
    }
  }

  lemma {:induction false} AllowedPrefix(w: World, t: Tables, ops: seq<Operation>, n: nat)
    requires OpsAllowed(w, t, ops) && n <= |ops|
    ensures OpsAllowed(w, t, ops[..n])
    decreases n
  {
    if n > 0 {
      AllowedPrefix(w, ApplyOp(t, ops[0]), ops[1..], n - 1);
      assert ops[..n][1..] == ops[1..][..n - 1];
    }
  }

  // -------------------------------------------- what the engine writes is allowed

  /** Ids handed out by the generator never repeat. */
  ghost predicate FreshIds(w: World) {
    forall i, j | 0 <= i < j :: w.ids(i) != w.ids(j)
  }

  /** Every workspace was created with an id handed out before. */
  ghost predicate IdsSpent(w: World, t: Tables, tick: nat) {
    forall id :: id in t.workspaces ==> exists k: nat :: k < tick && w.ids(k) == id
  }

  lemma Allowed2(w: World, t: Tables, a: Operation, b: Operation)
    requires OpAllowed(w, t, a) && OpAllowed(w, ApplyOp(t, a), b)
    ensures OpsAllowed(w, t, [a, b])
  {
    assert [a, b][1..] == [b];
    Allowed1(w, ApplyOp(t, a), b);
  }

  lemma Allowed1(w: World, t: Tables, a: Operation)
    requires OpAllowed(w, t, a)
    ensures OpsAllowed(w, t, [a])
  {
    assert [a][1..] == [];
  }

  lemma AllowedCons(w: World, t: Tables, a: Operation, rest: seq<Operation>)
    requires OpAllowed(w, t, a) && OpsAllowed(w, ApplyOp(t, a), rest)
    ensures OpsAllowed(w, t, [a] + rest)
  {
    assert ([a] + rest)[1..] == rest;
  }

  lemma StartAllowed(rb: Runbook, w: World, t: Tables, p: Pipeline, phase: string)
    requires p.id in t.pipelines
    ensures OpsAllowed(w, t, StartOps(rb, p, phase))
  {
    if HasPhase(rb, p.kind, phase) {
      var mark := PhaseStatusUpdate(p.id, Running);
      var run := RunOps(rb, p, rb.pipelines[p.kind].GetPhase(phase).value.run);
      if run != [] {
        Allowed1(w, ApplyOp(t, mark), run[0]);
      }
      AllowedCons(w, t, mark, run);
    }
  }

  lemma CompleteAllowed(w: World, t: Tables, p: Pipeline)
    requires p.id in t.pipelines && p.sessionId.None?
    requires p.Terminal() ==> t.pipelines[p.id].Terminal()
    ensures OpsAllowed(w, t, CompleteOps(p))
  {
    var done := PipelineTransition(p.id, "done");
    var mark := PhaseStatusUpdate(p.id, Completed);
    if p.Terminal() {
      assert CompleteOps(p) == [mark];
      Allowed1(w, t, mark);
    } else {
      assert CompleteOps(p) == [done, mark];
      Allowed2(w, t, done, mark);
    }
  }

  lemma AdvanceAllowed(rb: Runbook, w: World, t: Tables, p: Pipeline)
    requires p.id in t.pipelines && p.sessionId.None?
    requires p.Terminal() ==> t.pipelines[p.id].Terminal()
    ensures OpsAllowed(w, t, AdvanceOps(rb, p))
  {
    if p.Terminal() {
      CompleteAllowed(w, t, p);
    } else {
      var next := if NextPhaseName(rb, p).Some? then NextPhaseName(rb, p).value else "done";
      var move := PipelineTransition(p.id, next);
      CompleteAllowed(w, ApplyOp(t, move), p);
      StartAllowed(rb, w, ApplyOp(t, move), p, next);
      AllowedCons(w, t, move, CompleteOps(p));
      AllowedCons(w, t, move, StartOps(rb, p, next));
    }
  }

  lemma ShapeAllowed(rb: Runbook, w: World, t: Tables, tick: nat, s: Shape)
    requires Sound(w, t) && FreshIds(w) && IdsSpent(w, t, tick)
    requires Fits(rb, w, t, tick, s)
    ensures OpsAllowed(w, t, ShapeOps(rb, s))
  {
    match s
    case Nothing =>
    case Advances(p) => AdvanceAllowed(rb, w, t, p);
    case Fails(p) =>
      var target := if OnFail(rb, p).Some? then OnFail(rb, p).value else "failed";
      var move := PipelineTransition(p.id, target);
      StartAllowed(rb, w, ApplyOp(t, move), p, target);
      AllowedCons(w, t, move, StartOps(rb, p, target));
      Allowed1(w, t, move);
    case Spawns(p) => Allowed1(w, t, SessionCreate(p.id, p.id));
    case Marks(p, status) => Allowed1(w, t, PhaseStatusUpdate(p.id, status));
    case Exits(p) => Allowed1(w, t, PipelineTransition(p.id, "failed"));
    case Creates(id, kind, name, args, initial, path) =>
      assert id !in t.pipelines;
      CreateAllowed(rb, w, t, s);
  }

  lemma CreateAllowed(rb: Runbook, w: World, t: Tables, s: Shape)
    requires s.Creates? && s.id !in t.pipelines && s.kind in rb.pipelines && s.path == Join(w.worktreeRoot, s.name)
    ensures OpsAllowed(w, t, ShapeOps(rb, s))
  {
    var a := WorkspaceCreate(s.id, s.path, "feature/" + s.name);
    var b := PipelineCreate(s.id, s.kind, s.name, s.args, s.initial);
    var p := NewPipeline(s.id, s.name, s.kind, s.args, s.initial);
    var rest := if rb.pipelines[s.kind].phases != [] then StartOps(rb, p, s.initial) else [];
    StartAllowed(rb, w, ApplyOp(ApplyOp(t, a), b), p, s.initial);
    AllowedCons(w, ApplyOp(t, a), b, rest);
    AllowedCons(w, t, a, [b] + rest);
    assert ShapeOps(rb, s) == [a] + ([b] + rest);
  }

  // ------------------------------------------------------------------- runs

  /** The invariant of every run. */
  ghost predicate Invariant(w: World, m: Machine) {
    && m.tables == Replay(m.log)
    && SafeLog(w, m.log)
    && IdsSpent(w, m.tables, m.tick)
  }

  lemma InvariantIsSound(w: World, m: Machine)
    requires Invariant(w, m)
    ensures Sound(w, m.tables) && m.tables.Keyed()
  {
    assert m.log[..|m.log|] == m.log;
  }

  lemma {:induction false} SpentGrows(w: World, t: Tables, ops: seq<Operation>, before: nat, after: nat)
    requires IdsSpent(w, t, before) && before <= after
    requires forall op | op in ops && op.WorkspaceCreate? :: exists k: nat :: k < after && w.ids(k) == op.id
    ensures IdsSpent(w, ApplyAll(t, ops), after)
    decreases |ops|
  {
    if ops != [] {
      assert ops[0] in ops;
      SpentGrows(w, ApplyOp(t, ops[0]), ops[1..], after, after);
    }
  }

  lemma ShapeCreates(rb: Runbook, w: World, t: Tables, tick: nat, s: Shape)
    requires Fits(rb, w, t, tick, s)
    ensures forall op | op in ShapeOps(rb, s) && op.WorkspaceCreate? :: op.id == w.ids(tick)
  {
  }

  /** What an input really writes, all or part of what it set out to. */
  function InputOps(rb: Runbook, w: World, m: Machine, i: Input): seq<Operation> {
    var effects := InputPlan(rb, w, m, i).effects;
    Ops(effects)[..Written(w, m, effects)]
  }

  /** What an input leaves in the tables is what it wrote, restart or not. */
  lemma NextTables(rb: Runbook, w: World, m: Machine, i: Input)
    requires m.tables == Replay(m.log)
    ensures Next(rb, w, m, i).tables == ApplyAll(m.tables, InputOps(rb, w, m, i))
  {
    PlanWrites(w, m, InputPlan(rb, w, m, i));
    ApplyAllAppend(EMPTY, m.log, InputOps(rb, w, m, i));
  }

  lemma WritesAPrefix(rb: Runbook, w: World, m: Machine, i: Input) returns (s: Shape, k: nat)
    requires m.tables.Keyed()
    ensures Fits(rb, w, m.tables, m.tick, s) && (s.Nothing? || ShapeTarget(s) == Target(w, m, i))
    ensures k <= |ShapeOps(rb, s)| && InputOps(rb, w, m, i) == ShapeOps(rb, s)[..k]
  {
    var n;
    s, n := InputShape(rb, w, m, i);
    k := |InputOps(rb, w, m, i)|;
  }

  lemma InputAllowed(rb: Runbook, w: World, m: Machine, i: Input)
    requires FreshIds(w) && Invariant(w, m)
    ensures OpsAllowed(w, m.tables, InputOps(rb, w, m, i))
    ensures forall op | op in InputOps(rb, w, m, i) && op.WorkspaceCreate? :: op.id == w.ids(m.tick)
  {
    InvariantIsSound(w, m);
    var s, k := WritesAPrefix(rb, w, m, i);
    ShapeAllowed(rb, w, m.tables, m.tick, s);
    ShapeCreates(rb, w, m.tables, m.tick, s);
    assert forall op :: op in ShapeOps(rb, s)[..k] ==> op in ShapeOps(rb, s);
    AllowedPrefix(w, m.tables, ShapeOps(rb, s), k);
  }

  /** In reachable states nobody runs in a session and no check acts. */
  lemma SilentEvent(rb: Runbook, w: World, m: Machine, event: Event)
    requires Invariant(w, m) && (event.Timer? || event.SessionExited?)
    ensures EventPlan(rb, w, m.tables, m.tick, event).effects == []
  {
    InvariantIsSound(w, m);
    if event.Timer? {
      LookupIsStored(m.tables, TimerPipeline(event.id));
    } else {
      assert OwnerOf(w, m.tables, event.sessionId).None?;
    }
  }

  lemma NextKeepsInvariant(rb: Runbook, w: World, m: Machine, i: Input)
    requires FreshIds(w) && Invariant(w, m)
    ensures Invariant(w, Next(rb, w, m, i))
  {
    var plan := InputPlan(rb, w, m, i);
    var ops := InputOps(rb, w, m, i);
    var after := RunPlan(w, m, plan).machine;
    InputAllowed(rb, w, m, i);
    PlanWrites(w, m, plan);
    SafeLogExtends(w, m.log, ops);
    ApplyAllAppend(EMPTY, m.log, ops);
    forall op | op in ops && op.WorkspaceCreate?
      ensures exists k: nat :: k < after.tick && w.ids(k) == op.id
    {
      assert plan.effects != [];
      assert w.ids(m.tick) == op.id;
    }
    SpentGrows(w, m.tables, ops, m.tick, after.tick);
  }

  lemma {:induction false} RunKeepsInvariant(rb: Runbook, w: World, m: Machine, inputs: seq<Input>)
    requires FreshIds(w) && Invariant(w, m)
    ensures Invariant(w, Run(rb, w, m, inputs))
    decreases |inputs|
  {
    if inputs != [] {
      NextKeepsInvariant(rb, w, m, inputs[0]);
      RunKeepsInvariant(rb, w, Next(rb, w, m, inputs[0]), inputs[1..]);
    }
  }

  lemma InitialInvariant(w: World)
    ensures Invariant(w, INITIAL)
  {
  }

  /** Main result. Any runbook, any events, any failures of the outside world, handlers cut
      short anywhere: every prefix of the log replays to sound tables. */
  lemma CrashAnywhere(rb: Runbook, w: World, inputs: seq<Input>, k: nat)
    requires FreshIds(w)
    requires k <= |Run(rb, w, INITIAL, inputs).log|
    ensures Sound(w, Replay(Run(rb, w, INITIAL, inputs).log[..k]))
  {
    InitialInvariant(w);
    RunKeepsInvariant(rb, w, INITIAL, inputs);
  }
}
