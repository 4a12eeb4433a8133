/** When the daemon's event loop does not end: the exact condition, for every runbook, met by histories in
    which nothing fails. */
module Divergence {
  import opened Wrappers
  import opened Core
  import opened Runbook
  import opened State
  import opened Plans
  import opened Execution
  import opened Shapes
  import opened Safety
  import opened Walks
  import opened Routes
  import opened EventLoop
  import opened Quiescence
  import opened Termination
  import opened Cycles
  import opened DeadEnds
  import opened Past
  import opened Service
  import Sequential

  // ------------------------------------------------- what a history owes to the past

  /** The events that steer a pipeline: its creation, and reports of its agents and shells. */
  predicate Steers(e: Event) { e.CommandInvoked? || e.AgentDone? || e.AgentError? || e.ShellCompleted? }

  lemma InvokeAlike(rb: Runbook, u: World, v: World, command: string, args: map<string, string>, id: string)
    requires v == u.(answers := v.answers)
    ensures InvokePlan(rb, v, command, args, id) == InvokePlan(rb, u, command, args, id)
  {
    if command in rb.commands && rb.commands[command].run.RunPipeline?
      && rb.commands[command].run.pipeline in rb.pipelines
    {
      var kind := rb.commands[command].run.pipeline;
      var def := rb.pipelines[kind];
      var name := if "name" in args then args["name"] else id;
      if def.phases != [] {
        var first := def.phases[0].name;
        StartAlike(rb, u, v, NewPipeline(id, name, kind, args, first), first, args, Join(u.worktreeRoot, name));
      }
    }
  }

  lemma CallAlike(rb: Runbook, u: World, v: World, m: Machine, e: Event)
    requires Steers(e) && AlikeUntil(u, v, Handle(rb, u, m, e).machine.tick)
    ensures Handle(rb, v, m, e) == Handle(rb, u, m, e)
  {
    match e {
      case CommandInvoked(command, args) => InvokeAlike(rb, u, v, command, args, u.ids(m.tick));
      case AgentDone(ref) => AgentAlike(rb, u, v, m.tables, ref, None);
      case AgentError(ref, error) => AgentAlike(rb, u, v, m.tables, ref, Some(error));
      case ShellCompleted(id, phase, code) => ShellAlike(rb, u, v, m.tables, id, phase, code);
    }
    ExecAllAlike(u, v, m, EventPlan(rb, u, m.tables, m.tick, e).effects);
  }

  /** No crashes, no calls but events, and the loop handles only steering ones. */
  ghost predicate Steered(rb: Runbook, w: World, turns: seq<Turn>)
    decreases |turns|
  {
    turns != [] ==>
      var front, turn := turns[..|turns| - 1], turns[|turns| - 1];
      && Steered(rb, w, front)
      && (turn.Work? || (turn.Arrive? && turn.call.Deliver?))
      && (turn.Work? ==> forall e :: e in After(rb, w, front).pending ==> Steers(e))
  }

  lemma TurnTicks(rb: Runbook, w: World, c: Config, turn: Turn)
    requires turn.Work? || (turn.Arrive? && turn.call.Deliver?)
    ensures c.machine.tick <= Take(rb, w, c, turn).machine.tick
  {
    if turn.Work? && c.pending != [] {
      WorkTurn(rb, w, c, Handle(rb, w, c.machine, c.pending[|c.pending| - 1]));
      PlanWrites(w, c.machine, EventPlan(rb, w, c.machine.tables, c.machine.tick, c.pending[|c.pending| - 1]));
    }
  }

  lemma TurnAlike(rb: Runbook, u: World, v: World, c: Config, turn: Turn)
    requires turn.Work? || (turn.Arrive? && turn.call.Deliver?)
    requires turn.Work? ==> forall e :: e in c.pending ==> Steers(e)
    requires AlikeUntil(u, v, Take(rb, u, c, turn).machine.tick)
    ensures Take(rb, v, c, turn) == Take(rb, u, c, turn)
  {
    if turn.Work? && c.pending != [] {
      var e := c.pending[|c.pending| - 1];
      assert e in c.pending;
      WorkTurn(rb, u, c, Handle(rb, u, c.machine, e));
      WorkTurn(rb, v, c, Handle(rb, v, c.machine, e));
      CallAlike(rb, u, v, c.machine, e);
    }
  }

  /** A steered history depends only on the answers it consumed. */
  lemma {:induction false} HistoryAlike(rb: Runbook, u: World, v: World, turns: seq<Turn>)
    requires Steered(rb, u, turns) && AlikeUntil(u, v, After(rb, u, turns).machine.tick)
    ensures After(rb, v, turns) == After(rb, u, turns) && Steered(rb, v, turns)
    decreases |turns|
  {
    if turns != [] {
      var front, turn := turns[..|turns| - 1], turns[|turns| - 1];
      TurnTicks(rb, u, After(rb, u, front), turn);
      HistoryAlike(rb, u, v, front);
      TurnAlike(rb, u, v, After(rb, u, front), turn);
    }
  }

  // ---------------------------------------------------------------- one call lands

  ghost predicate AllOk(w: World) { forall t: nat :: w.answers(t).ok }

  /** When everything outside succeeds, only a missing workspace can stop effects. */
  lemma {:induction false} QuietErrors(w: World, m: Machine, effects: seq<Effect>)
    requires AllOk(w)
    ensures var o := ExecAll(w, m, effects).outcome; o.Err? ==> o.error.WorkspaceNotFound?
    decreases |effects|
  {
    if effects != [] && Exec(w, m, effects[0]).outcome.Ok? {
      QuietErrors(w, Exec(w, m, effects[0]).machine, effects[1..]);
    }
  }

  /** When everything outside succeeds, a call does all it sets out to do. */
  lemma CallDoesAll(rb: Runbook, w: World, m: Machine, e: Event)
    requires Invariant(w, m) && AllOk(w)
    ensures var plan := EventPlan(rb, w, m.tables, m.tick, e);
            && ExecAll(w, m, plan.effects).outcome.Ok?
            && Handle(rb, w, m, e).machine.tables == ApplyAll(m.tables, Ops(plan.effects))
  {
    var effects := EventPlan(rb, w, m.tables, m.tick, e).effects;
    QuietErrors(w, m, effects);
    WorkspaceIsNeverMissing(rb, w, m, Deliver(e));
    ExecAllWrites(w, m, effects);
    assert Ops(effects)[..|Ops(effects)|] == Ops(effects);
  }

  /** Where success and failure leave a pipeline, if every operation is written. */
  lemma AdvanceLands(rb: Runbook, t: Tables, p: Pipeline)
    requires AtHome(rb, t, p) && !p.Terminal()
    ensures var u := ApplyAll(t, AdvanceOps(rb, p));
            && p.id in u.pipelines && u.pipelines[p.id].kind == t.pipelines[p.id].kind
            && u.pipelines[p.id].phase == Landing(rb.pipelines[p.kind], p.phase)
  {
    NextIsSuccessTarget(rb, p);
    var next := SuccessTarget(rb.pipelines[p.kind], p.phase);
    if EndsHere(rb, p) {
      assert AdvanceOps(rb, p) == [PipelineTransition(p.id, next)] + CompleteOps(p);
      TerminalThenDone(t, p, next);
    } else {
      assert AdvanceOps(rb, p) == [PipelineTransition(p.id, next)] + StartOps(rb, p, next);
      MoveThen(t, p.id, next, StartOps(rb, p, next));
    }
  }

  lemma FailLands(rb: Runbook, t: Tables, p: Pipeline)
    requires AtHome(rb, t, p)
    ensures var u := ApplyAll(t, FailOps(rb, p));
            && p.id in u.pipelines && u.pipelines[p.id].kind == t.pipelines[p.id].kind
            && u.pipelines[p.id].phase == FailureTarget(rb.pipelines[p.kind], p.phase)
  {
    OnFailIsFailureTarget(rb, p);
    var target := FailureTarget(rb.pipelines[p.kind], p.phase);
    var rest := if OnFail(rb, p).Some? then StartOps(rb, p, target) else [];
    assert FailOps(rb, p) == [PipelineTransition(p.id, target)] + rest;
    MoveThen(t, p.id, target, rest);
  }

  /** The pipeline is of this kind and stands in this phase. */
  ghost predicate At(t: Tables, id: string, kind: string, phase: string) {
    id in t.pipelines && t.pipelines[id].kind == kind && t.pipelines[id].phase == phase
  }

  /** Whether success leads there; if not, failure has to. */
  predicate BySuccess(def: PipelineDef, a: string, b: string) { !IsTerminal(a) && b == Landing(def, a) }

  /** What the agent of a pipeline reports to take it there. */
  function Towards(def: PipelineDef, id: string, a: string, b: string): Event {
    if BySuccess(def, a, b) then AgentDone(id) else AgentError(id, "")
  }

  /** The exit code of a shell command that does. */
  function CodeTowards(def: PipelineDef, a: string, b: string): int { if BySuccess(def, a, b) then 0 else 1 }

  ghost predicate ReportsTowards(def: PipelineDef, e: Event, id: string, a: string, b: string) {
    e == Towards(def, id, a, b) || e == ShellCompleted(id, a, CodeTowards(def, a, b))
  }

  lemma ReportPlan(rb: Runbook, w: World, t: Tables, tick: nat, e: Event, id: string, b: string)
    requires t.Keyed() && id in t.pipelines && t.pipelines[id].kind in rb.pipelines
    requires ReportsTowards(rb.pipelines[t.pipelines[id].kind], e, id, t.pipelines[id].phase, b)
    ensures var p := t.pipelines[id];
            Ops(EventPlan(rb, w, t, tick, e).effects)
            == if BySuccess(rb.pipelines[p.kind], p.phase, b) then AdvanceOps(rb, p) else FailOps(rb, p)
  {
    var p := t.pipelines[id];
    AdvanceWrites(rb, w, p);
    if e.ShellCompleted? {
      FailWrites(rb, w, p, ShellError(1));
    } else {
      LookupIsExact(t, id, id);
      FailWrites(rb, w, p, "");
    }
  }

  lemma ReportLands(rb: Runbook, w: World, m: Machine, e: Event, id: string, kind: string, a: string, b: string)
    requires RouteInvariant(rb, w, m) && AllOk(w)
    requires At(m.tables, id, kind, a) && kind in rb.pipelines && Leads(rb.pipelines[kind], a, b)
    requires ReportsTowards(rb.pipelines[kind], e, id, a, b)
    ensures At(Handle(rb, w, m, e).machine.tables, id, kind, b)
  {
    var p := m.tables.pipelines[id];
    StoredStands(rb, w, m, id);
    InvariantIsSound(w, m);
    CallDoesAll(rb, w, m, e);
    ReportPlan(rb, w, m.tables, m.tick, e, id, b);
    if BySuccess(rb.pipelines[kind], a, b) {
      AdvanceLands(rb, m.tables, p);
    } else {
      FailLands(rb, m.tables, p);
    }
  }

  lemma CommandLands(rb: Runbook, w: World, command: string, kind: string)
    requires AllOk(w)
    requires command in rb.commands && rb.commands[command].run == RunPipeline(kind) && kind in rb.pipelines
    ensures At(Handle(rb, w, INITIAL, CommandInvoked(command, map[])).machine.tables, w.ids(0), kind,
               InitialPhase(rb.pipelines[kind]))
  {
    InitialInvariant(w);
    CallDoesAll(rb, w, INITIAL, CommandInvoked(command, map[]));
    var shape := CommandWrites(rb, w, kind, w.ids(0), map[]);
    CreatedTables(rb, EMPTY, shape);
  }

  /** From this tick on every exit code is `code`. */
  ghost predicate CodesFrom(w: World, tick: nat, code: int) { forall t: nat :: t >= tick ==> w.answers(t).code == code }

  lemma {:induction false} CodesReported(w: World, tick: nat, effects: seq<Effect>, code: int)
    requires CodesFrom(w, tick, code)
    ensures forall e :: e in EventsOf(w, tick, effects) ==> e.ShellCompleted? && e.exitCode == code
    decreases |effects|
  {
    if effects != [] {
      CodesReported(w, tick + 1, effects[1..], code);
    }
  }

  /** The loop has nothing more to do, or has the report of the shell phase in which the pipeline stands. */
  ghost predicate Waits(def: PipelineDef, c: Config, id: string, phase: string, code: int) {
    c.pending == [] || (IsShell(def, phase) && c.pending == [ShellCompleted(id, phase, code)])
  }

  /** One turn of the loop with one event, which is about this pipeline. */
  lemma WorkLeaves(rb: Runbook, w: World, c: Config, e: Event, id: string, kind: string, phase: string, code: int)
    returns (d: Config)
    requires RouteInvariant(rb, w, c.machine) && c.pending == [e] && CodesFrom(w, c.machine.tick, code)
    requires EventTarget(w, c.machine.tables, c.machine.tick, e) == id && kind in rb.pipelines
    requires At(Handle(rb, w, c.machine, e).machine.tables, id, kind, phase)
    ensures d == Take(rb, w, c, Work) && d.machine == Handle(rb, w, c.machine, e).machine
    ensures Waits(rb.pipelines[kind], d, id, phase, code)
  {
    var s, q, k := FirstEvent(rb, w, c.machine, e);
    var plan := EventPlan(rb, w, c.machine.tables, c.machine.tick, e);
    d := Take(rb, w, c, Work);
    WorkTurn(rb, w, c, s);
    PlanReturns(w, c.machine, plan);
    CodesReported(w, c.machine.tick, plan.effects, code);
    if s.outcome.Ok? && s.outcome.value != [] {
      assert s.outcome.value[0] in s.outcome.value;
    }
  }

  // ------------------------------------------------------------------- steering

  /** A world in which everything succeeds, and that otherwise is like `u`. */
  ghost predicate LikeButOk(u: World, w: World) { w == u.(answers := w.answers) && AllOk(w) }

  /** A history after which the pipeline stands in this phase, any report of it with this code. */
  ghost predicate DrivenTo(rb: Runbook, w: World, turns: seq<Turn>, kind: string, phase: string, code: int) {
    && AllOk(w) && Steered(rb, w, turns) && kind in rb.pipelines
    && var c := After(rb, w, turns);
       At(c.machine.tables, w.ids(0), kind, phase) && Waits(rb.pipelines[kind], c, w.ids(0), phase, code)
  }

  /** The same past, and from now on exit codes `code`. */
  function CodeFromNow(w: World, tick: nat, code: int): World {
    w.(answers := (t: nat) => if t < tick then w.answers(t) else Answer(true, code, 0, None))
  }

  lemma SteerFirst(rb: Runbook, u: World, command: string, kind: string, code: int) returns (w: World, turns: seq<Turn>)
    requires command in rb.commands && rb.commands[command].run == RunPipeline(kind) && kind in rb.pipelines
    ensures LikeButOk(u, w) && DrivenTo(rb, w, turns, kind, InitialPhase(rb.pipelines[kind]), code)
  {
    w := CodeFromNow(u, 0, code);
    var first := CommandInvoked(command, map[]);
    var arrive := Arrive(Deliver(first));
    turns := [arrive, Work];
    InitialInvariant(w);
    CommandLands(rb, w, command, kind);
    assert turns[..1] == [arrive] && [arrive][..0] == [];
    assert After(rb, w, [arrive]) == Config(INITIAL, [first]);
    var d := WorkLeaves(rb, w, Config(INITIAL, [first]), first, w.ids(0), kind, InitialPhase(rb.pipelines[kind]), code);
    assert Steered(rb, w, [arrive]);
  }

  /** With nothing pending, the agent reports. */
  lemma ReadyToStep(rb: Runbook, w: World, turns: seq<Turn>, kind: string, a: string, b: string)
    returns (ready: seq<Turn>, e: Event)
    requires kind in rb.pipelines && DrivenTo(rb, w, turns, kind, a, CodeTowards(rb.pipelines[kind], a, b))
    ensures Steered(rb, w, ready) && After(rb, w, ready) == Config(After(rb, w, turns).machine, [e])
    ensures ReportsTowards(rb.pipelines[kind], e, w.ids(0), a, b)
  {
    var c := After(rb, w, turns);
    if c.pending == [] {
      e := Towards(rb.pipelines[kind], w.ids(0), a, b);
      ready := turns + [Arrive(Deliver(e))];
      SteeredOneMore(rb, w, turns, Arrive(Deliver(e)));
    } else {
      ready, e := turns, c.pending[0];
    }
  }

  lemma ReportTarget(w: World, def: PipelineDef, t: Tables, tick: nat, e: Event, id: string, a: string, b: string)
    requires t.Keyed() && id in t.pipelines && ReportsTowards(def, e, id, a, b)
    ensures Steers(e) && EventTarget(w, t, tick, e) == id
  {
    LookupIsExact(t, id, id);
  }

  /** The loop's report, or else that of the agent, takes the pipeline one step on. */
  lemma SteerOn(rb: Runbook, w: World, turns: seq<Turn>, kind: string, a: string, b: string, code: int)
    returns (more: seq<Turn>)
    requires FreshIds(w) && kind in rb.pipelines && Leads(rb.pipelines[kind], a, b)
    requires DrivenTo(rb, w, turns, kind, a, CodeTowards(rb.pipelines[kind], a, b))
    requires CodesFrom(w, After(rb, w, turns).machine.tick, code)
    ensures DrivenTo(rb, w, more, kind, b, code)
  {
    var ready, e := ReadyToStep(rb, w, turns, kind, a, b);
    var m := After(rb, w, turns).machine;
    HistoryKeepsServing(rb, w, turns);
    var d := StepLands(rb, w, m, e, kind, a, b, code);
    more := ready + [Work];
    SteeredOneMore(rb, w, ready, Work);
  }

  lemma StepLands(rb: Runbook, w: World, m: Machine, e: Event, kind: string, a: string, b: string, code: int)
    returns (d: Config)
    requires RouteInvariant(rb, w, m) && AllOk(w) && CodesFrom(w, m.tick, code)
    requires kind in rb.pipelines && Leads(rb.pipelines[kind], a, b)
    requires At(m.tables, w.ids(0), kind, a) && ReportsTowards(rb.pipelines[kind], e, w.ids(0), a, b)
    ensures Steers(e) && d == Take(rb, w, Config(m, [e]), Work)
    ensures At(d.machine.tables, w.ids(0), kind, b) && Waits(rb.pipelines[kind], d, w.ids(0), b, code)
  {
    InvariantIsSound(w, m);
    ReportTarget(w, rb.pipelines[kind], m.tables, m.tick, e, w.ids(0), a, b);
    ReportLands(rb, w, m, e, w.ids(0), kind, a, b);
    d := WorkLeaves(rb, w, Config(m, [e]), e, w.ids(0), kind, b, code);
  }

  lemma SteeredOneMore(rb: Runbook, w: World, turns: seq<Turn>, turn: Turn)
    requires Steered(rb, w, turns)
    requires turn.Work? || (turn.Arrive? && turn.call.Deliver?)
    requires turn.Work? ==> forall e :: e in After(rb, w, turns).pending ==> Steers(e)
    ensures Steered(rb, w, turns + [turn])
    ensures After(rb, w, turns + [turn]) == Take(rb, w, After(rb, w, turns), turn)
  {
    assert (turns + [turn])[..|turns|] == turns;
  }

  lemma LaterIsAlike(rb: Runbook, u: World, w: World, turns: seq<Turn>, kind: string, phase: string, code: int)
    requires DrivenTo(rb, u, turns, kind, phase, code)
    requires AlikeUntil(u, w, After(rb, u, turns).machine.tick) && AllOk(w)
    ensures After(rb, w, turns) == After(rb, u, turns) && DrivenTo(rb, w, turns, kind, phase, code)
  {
    HistoryAlike(rb, u, w, turns);
  }

  lemma SameIds(u: World, w: World)
    requires FreshIds(u) && w.ids == u.ids
    ensures FreshIds(w)
  {
  }

  /** Any route can be driven from the start, whatever ids are handed out, with everything succeeding, by one
      command, reports of agents, and exit codes. */
  lemma {:induction false} Steer(rb: Runbook, u: World, command: string, kind: string, route: seq<string>, code: int)
    returns (w: World, turns: seq<Turn>)
    requires FreshIds(u)
    requires command in rb.commands && rb.commands[command].run == RunPipeline(kind) && kind in rb.pipelines
    requires Route(rb.pipelines[kind], route)
    ensures LikeButOk(u, w) && DrivenTo(rb, w, turns, kind, route[|route| - 1], code)
    decreases |route|
  {
    if |route| == 1 {
      w, turns := SteerFirst(rb, u, command, kind, code);
    } else {
      var last := |route| - 1;
      var a, b := route[last - 1], route[last];
      assert Leads(rb.pipelines[kind], a, b);
      RoutePart(rb.pipelines[kind], route);
      var v, before := Steer(rb, u, command, kind, route[..last], CodeTowards(rb.pipelines[kind], a, b));
      w, turns := SteerNext(rb, u, v, before, kind, a, b, code);
    }
  }

  lemma RoutePart(def: PipelineDef, route: seq<string>)
    requires Route(def, route) && |route| > 1
    ensures Route(def, route[..|route| - 1]) && route[..|route| - 1][|route| - 2] == route[|route| - 2]
  {
  }

  lemma SteerNext(rb: Runbook, u: World, v: World, before: seq<Turn>, kind: string, a: string, b: string, code: int)
    returns (w: World, turns: seq<Turn>)
    requires FreshIds(u) && LikeButOk(u, v) && kind in rb.pipelines && Leads(rb.pipelines[kind], a, b)
    requires DrivenTo(rb, v, before, kind, a, CodeTowards(rb.pipelines[kind], a, b))
    ensures LikeButOk(u, w) && DrivenTo(rb, w, turns, kind, b, code)
  {
    w := CodeFromNow(v, After(rb, v, before).machine.tick, code);
    LaterIsAlike(rb, v, w, before, kind, a, CodeTowards(rb.pipelines[kind], a, b));
    SameIds(u, w);
    turns := SteerOn(rb, w, before, kind, a, b, code);
  }

  // ------------------------------------------------------------------ main result

  /** Processing what is pending ends, however long it takes. */
  ghost predicate Ends(rb: Runbook, w: World, c: Config) {
    exists calls: nat :: Process(rb, w, c.machine, c.pending, calls).Finished?
  }

  /** Whatever is answered outside and whatever has happened since the start, crashes included, the daemon
      gets done with what it has at hand. The ids handed out and the environment are those of `u`. */
  ghost predicate AlwaysEnds(rb: Runbook, u: World) {
    forall w: World, turns: seq<Turn> :: w == u.(answers := w.answers) ==> Ends(rb, w, After(rb, w, turns))
  }

  /** No command leads, by any route, into shell phases that go round. */
  ghost predicate NoCycleIsReached(rb: Runbook) {
    forall kind :: kind in rb.pipelines && Invoked(rb, kind) ==> Acyclic(rb.pipelines[kind])
  }

  /** More calls than any of these pipelines has phases. */
  ghost function EnoughFor(pipelines: map<string, PipelineDef>): (fuel: nat)
    ensures fuel > 0 && forall kind :: kind in pipelines ==> fuel > |pipelines[kind].phases|
    decreases |pipelines|
  {
    if pipelines == map[] then 1
    else
      var kind :| kind in pipelines;
      var rest := EnoughFor(pipelines - {kind});
      assert forall k :: k in pipelines && k != kind ==> k in pipelines - {kind};
      if rest > |pipelines[kind].phases| then rest else |pipelines[kind].phases| + 1
  }

  lemma AcyclicEnds(rb: Runbook, w: World, turns: seq<Turn>)
    requires NoCycleIsReached(rb) && FreshIds(w)
    ensures Ends(rb, w, After(rb, w, turns))
  {
    var c := After(rb, w, turns);
    var fuel := EnoughFor(rb.pipelines);
    HistoryKeepsServing(rb, w, turns);
    if c.pending == [] {
      assert Process(rb, w, c.machine, c.pending, fuel).Finished?;
    } else {
      assert c.pending == [c.pending[0]];
      ProcessingSettles(rb, w, c.machine, c.pending[0], fuel);
      assert Process(rb, w, c.machine, c.pending, fuel).Finished?;
    }
  }

  /** The pipeline stands at the head of a cycle whose exit codes are about to follow, its report pending. */
  lemma RoundAndRound(rb: Runbook, w: World, c: Config, id: string, kind: string, path: seq<string>)
    requires kind in rb.pipelines && Cycle(rb.pipelines[kind], path)
    requires RouteInvariant(rb, w, c.machine) && At(c.machine.tables, id, kind, path[0])
    requires Follows(w, rb.pipelines[kind], path, c.machine.tick)
    requires c.pending == [Report(rb.pipelines[kind], id, path, 0)]
    ensures !Ends(rb, w, c)
  {
    var report := Report(rb.pipelines[kind], id, path, 0);
    StoredStands(rb, w, c.machine, id);
    assert OnCycle(rb, w, c.machine, id, kind, path, 0, c.machine.tick);
    assert GoingRound(rb, w, c.machine, report, id, kind, path, c.machine.tick);
    forall calls: nat
      ensures !Process(rb, w, c.machine, c.pending, calls).Finished?
    {
      CycleNeverEnds(rb, w, c.machine, report, id, kind, path, c.machine.tick, calls);
    }
  }

  /** A reachable shell cycle has a history, without a crash and with everything succeeding, after which the
      loop never ends: whatever ids are handed out, and whatever the environment. */
  lemma CycleDiverges(rb: Runbook, u: World, command: string, kind: string, path: seq<string>)
    returns (w: World, turns: seq<Turn>)
    requires FreshIds(u)
    requires command in rb.commands && rb.commands[command].run == RunPipeline(kind) && kind in rb.pipelines
    requires Cycle(rb.pipelines[kind], path) && Reachable(rb.pipelines[kind], path[0])
    ensures LikeButOk(u, w) && Steered(rb, w, turns) && !Ends(rb, w, After(rb, w, turns))
  {
    var def := rb.pipelines[kind];
    var route: seq<string> :| Route(def, route) && route[|route| - 1] == path[0];
    var v, before := Steer(rb, u, command, kind, route, EdgeCode(def, path, 0));
    var start := After(rb, v, before).machine.tick;
    w := v.(answers := LoopAnswers(v.answers, def, path, start));
    LaterIsAlike(rb, v, w, before, kind, path[0], EdgeCode(def, path, 0));
    LoopAnswersFollow(v.answers, w, def, path, start);
    SameIds(u, w);
    turns := before;
    if After(rb, w, before).pending == [] {
      var arrive := Arrive(Deliver(Report(def, w.ids(0), path, 0)));
      turns := before + [arrive];
      SteeredOneMore(rb, w, before, arrive);
    }
    HistoryKeepsServing(rb, w, turns);
    RoundAndRound(rb, w, After(rb, w, turns), w.ids(0), kind, path);
  }

  /** Main result: the condition is exact, for every runbook, every supply of fresh ids and every environment.
      The daemon gets done with every event, after every history and whatever is answered outside, if and only
      if no kind that a command runs has a cycle of shell phases that a route leads to. */
  lemma EndsIffAcyclic(rb: Runbook, u: World)
    requires FreshIds(u)
    ensures AlwaysEnds(rb, u) <==> NoCycleIsReached(rb)
  {
    if NoCycleIsReached(rb) {
      forall w: World, turns: seq<Turn> | w == u.(answers := w.answers)
        ensures Ends(rb, w, After(rb, w, turns))
      {
        SameIds(u, w);
        AcyclicEnds(rb, w, turns);
      }
    } else {
      var kind :| kind in rb.pipelines && Invoked(rb, kind) && !Acyclic(rb.pipelines[kind]);
      var path: seq<string> :| Cycle(rb.pipelines[kind], path) && Reachable(rb.pipelines[kind], path[0]);
      var command :| command in rb.commands && rb.commands[command].run == RunPipeline(kind);
      var w, turns := CycleDiverges(rb, u, command, kind, path);
      assert w == u.(answers := w.answers);
    }
  }

  // -------------------------------------------------------------- repeated names

  /** Shell phases named a, b, a, with nothing said about `next` and `on_fail`. */
  predicate NamedTwice(def: PipelineDef, a: string, b: string) {
    && |def.phases| == 3 && a != b && !IsTerminal(a) && !IsTerminal(b)
    && def.phases[0].name == a && def.phases[1].name == b && def.phases[2].name == a
    && forall i :: 0 <= i < 3 ==>
         def.phases[i].run.RunShell? && def.phases[i].next.None? && def.phases[i].onFail.None?
  }

  lemma NamedTwiceIsCycle(def: PipelineDef, a: string, b: string)
    requires NamedTwice(def, a, b)
    ensures Cycle(def, [a, b, a])
    ensures EdgeCode(def, [a, b, a], 0) == 0 && EdgeCode(def, [a, b, a], 1) == 0
  {
    assert def.IndexOf(a) == 0 && def.IndexOf(b) == 1;
    assert ShellEdge(def, a, b) && ShellEdge(def, b, a);
  }

  /** A repeated phase name, at its input: one command on such a pipeline, everything succeeding and every
      exit code zero, and the loop never ends; the last phase leads back to the second. */
  lemma RepeatedNameLoops(rb: Runbook, w: World, m: Machine, command: string, args: map<string, string>, kind: string,
                          a: string, b: string, fuel: nat)
    requires command in rb.commands && rb.commands[command].run == RunPipeline(kind)
    requires kind in rb.pipelines && NamedTwice(rb.pipelines[kind], a, b)
    requires forall t: nat :: w.answers(t).ok && w.answers(t).code == 0
    ensures Process(rb, w, m, [CommandInvoked(command, args)], fuel).Interrupted?
  {
    EngineHandlerIsEngine(rb, w);
    TwiceGoesRound(EngineHandler(rb, w), rb, w, m, command, args, kind, a, b, fuel);
  }

  lemma TwiceGoesRound(handle: Handler, rb: Runbook, w: World, m: Machine, command: string, args: map<string, string>,
                       kind: string, a: string, b: string, fuel: nat)
    requires IsEngine(handle, rb, w)
    requires command in rb.commands && rb.commands[command].run == RunPipeline(kind)
    requires kind in rb.pipelines && NamedTwice(rb.pipelines[kind], a, b)
    requires forall t: nat :: w.answers(t).ok && w.answers(t).code == 0
    ensures Loop(handle, m, [CommandInvoked(command, args)], fuel).Interrupted?
  {
    if fuel == 0 {
      NoFuel(handle, m, CommandInvoked(command, args));
    } else {
      var s, report := CallOfTwo(handle, rb, w, m, command, args, kind, a, b, fuel - 1);
      StillRunning(handle, m, CommandInvoked(command, args), fuel, s, report);
    }
  }

  lemma CallOfTwo(handle: Handler, rb: Runbook, w: World, m: Machine, command: string, args: map<string, string>,
                  kind: string, a: string, b: string, fuel: nat)
    returns (s: Step, report: Event)
    requires IsEngine(handle, rb, w)
    requires command in rb.commands && rb.commands[command].run == RunPipeline(kind)
    requires kind in rb.pipelines && NamedTwice(rb.pipelines[kind], a, b)
    requires forall t: nat :: w.answers(t).ok && w.answers(t).code == 0
    ensures s == handle(m, CommandInvoked(command, args)) && s.outcome == Ok([report])
    ensures Loop(handle, s.machine, [report], fuel).Interrupted?
  {
    s := FirstOfTwo(rb, w, m, command, args, kind, a, b);
    assert Answers(handle, rb, w, m, CommandInvoked(command, args));
    report := Report(rb.pipelines[kind], w.ids(m.tick), [a, b, a], 0);
    GoesRound(handle, rb, w, s.machine, w.ids(m.tick), kind, [a, b, a], fuel);
  }

  lemma GoesRound(handle: Handler, rb: Runbook, w: World, m: Machine, id: string, kind: string, path: seq<string>,
                  fuel: nat)
    requires IsEngine(handle, rb, w) && kind in rb.pipelines && Cycle(rb.pipelines[kind], path)
    requires OnCycle(rb, w, m, id, kind, path, 0, m.tick)
    ensures Loop(handle, m, [Report(rb.pipelines[kind], id, path, 0)], fuel).Interrupted?
  {
    var report := Report(rb.pipelines[kind], id, path, 0);
    assert GoingRound(rb, w, m, report, id, kind, path, m.tick);
    CycleNeverEnds(rb, w, m, report, id, kind, path, m.tick, fuel);
    SameAsEngine(handle, rb, w, m, [report], fuel);
  }

  lemma FirstOfTwo(rb: Runbook, w: World, m: Machine, command: string, args: map<string, string>, kind: string,
                   a: string, b: string)
    returns (s: Step)
    requires command in rb.commands && rb.commands[command].run == RunPipeline(kind)
    requires kind in rb.pipelines && NamedTwice(rb.pipelines[kind], a, b)
    requires forall t: nat :: w.answers(t).ok && w.answers(t).code == 0
    ensures s == Handle(rb, w, m, CommandInvoked(command, args))
    ensures s.outcome == Ok([Report(rb.pipelines[kind], w.ids(m.tick), [a, b, a], 0)])
    ensures Cycle(rb.pipelines[kind], [a, b, a])
    ensures OnCycle(rb, w, s.machine, w.ids(m.tick), kind, [a, b, a], 0, s.machine.tick)
  {
    var def := rb.pipelines[kind];
    var id := w.ids(m.tick);
    NamedTwiceIsCycle(def, a, b);
    var plan := CommandPlan(rb, w, kind, def, id, args);
    CommandEvents(rb, w, kind, id, args, m.tick);
    ShellCommandSpawnsNothing(rb, w, kind, id, args);
    s := MoveSucceeds(w, m, plan);
    CommandSettles(rb, w, m, kind, args);
    Sequential.CommandIsPlan(rb, w, m, command, args, kind);
    ZerosFollow(w, def, a, b, s.machine.tick);
  }

  lemma ZerosFollow(w: World, def: PipelineDef, a: string, b: string, start: nat)
    requires NamedTwice(def, a, b) && forall t: nat :: w.answers(t).ok && w.answers(t).code == 0
    ensures Follows(w, def, [a, b, a], start)
  {
    NamedTwiceIsCycle(def, a, b);
  }

  lemma ShellCommandSpawnsNothing(rb: Runbook, w: World, kind: string, id: string, args: map<string, string>)
    requires kind in rb.pipelines && rb.pipelines[kind].phases != []
    requires IsShell(rb.pipelines[kind], rb.pipelines[kind].phases[0].name)
    ensures forall e :: e in CommandPlan(rb, w, kind, rb.pipelines[kind], id, args).effects ==> !e.Spawn?
  {
    var def := rb.pipelines[kind];
    var name := if "name" in args then args["name"] else id;
    var first := def.phases[0].name;
    CommandStartsFirst(rb, w, kind, id, args);
    CreationSpawnsNothing(id, kind, name, args, first, Join(w.worktreeRoot, name));
    Sequential.StartRuns(rb, w, NewPipeline(id, name, kind, args, first), first, args, Join(w.worktreeRoot, name));
  }

  lemma CreationSpawnsNothing(id: string, kind: string, name: string, args: map<string, string>, initial: string,
                              path: string)
    ensures forall e :: e in CreateEffects(id, kind, name, args, initial, path) ==> !e.Spawn?
  {
  }
}
