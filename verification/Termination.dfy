/** The daemon's event loop terminates, from every reachable state, when no shell phase that can be
    reached leads back to itself through shell phases. */
module Termination {
  import opened Wrappers
  import opened Core
  import opened Runbook
  import opened State
  import opened Plans
  import opened Execution
  import opened Shapes
  import opened Safety
  import opened Walks
  import opened Routes
  import opened EventLoop
  import opened Quiescence

  lemma StoredStands(rb: Runbook, w: World, m: Machine, id: string)
    requires RouteInvariant(rb, w, m) && id in m.tables.pipelines
    ensures Standing(rb, m.tables, id)
  {
    InvariantIsSound(w, m);
  }

  // -------------------------------------------------------------- the first event

  /** The event moves or completes a pipeline, which it either addresses or creates. The one other event
      that touches a pipeline is "pipeline:resume", which moves none: see `ResumeStays`. */
  ghost predicate Acts(rb: Runbook, t: Tables, event: Event) {
    match event
    case CommandInvoked(_, _) => true
    case AgentDone(ref) => GetPipeline(t, ref).Some?
    case AgentError(ref, _) => GetPipeline(t, ref).Some?
    case ShellCompleted(id, phase, _) => id in t.pipelines && t.pipelines[id].phase == phase
    case SessionExited(_, _) => false
    case Timer(_) => false
    case Custom(_, _) => false
    case WorkerWake(_) => false
    case SessionStarted(_) => false
    case SessionOutput(_, _) => false
  }

  lemma CreatedTables(rb: Runbook, t: Tables, s: Shape)
    requires s.Creates? && s.kind in rb.pipelines
    ensures var u := ApplyAll(t, ShapeOps(rb, s));
            && s.id in u.pipelines
            && var p := NewPipeline(s.id, s.name, s.kind, s.args, s.initial);
               u.pipelines[s.id] == p.(status := u.pipelines[s.id].status)
  {
    var a := WorkspaceCreate(s.id, s.path, "feature/" + s.name);
    var b := PipelineCreate(s.id, s.kind, s.name, s.args, s.initial);
    var p := NewPipeline(s.id, s.name, s.kind, s.args, s.initial);
    var rest := if rb.pipelines[s.kind].phases != [] then StartOps(rb, p, s.initial) else [];
    assert ShapeOps(rb, s) == [a, b] + rest;
    ApplyAllAppend(t, [a, b], rest);
    assert [a, b][1..] == [b] && [b][1..] == [];
    assert ApplyAll(ApplyOp(t, a), [b]) == ApplyAll(ApplyOp(ApplyOp(t, a), b), []);
    SamePhaseOps(ApplyOp(ApplyOp(t, a), b), rest, s.id);
  }

  lemma CreationIsQuiet(w: World, id: string, kind: string, name: string, args: map<string, string>,
                        initial: string, path: string, tick: nat)
    ensures EventsOf(w, tick, CreateEffects(id, kind, name, args, initial, path)) == []
  {
    QuietEffects(w, tick, CreateEffects(id, kind, name, args, initial, path));
  }

  /** The plan of a command is creation, then the start of the first phase. */
  lemma CommandStartsFirst(rb: Runbook, w: World, kind: string, id: string, args: map<string, string>)
    requires kind in rb.pipelines && rb.pipelines[kind].phases != []
    ensures var def := rb.pipelines[kind];
            var name := if "name" in args then args["name"] else id;
            var path := Join(w.worktreeRoot, name);
            var first := def.phases[0].name;
            CommandPlan(rb, w, kind, def, id, args)
            == Before(CreateEffects(id, kind, name, args, first, path),
                      StartPlan(rb, w, NewPipeline(id, name, kind, args, first), first, args, path))
  {
  }

  lemma CreationThenStart(rb: Runbook, w: World, p: Pipeline, path: string, tick: nat)
    requires p.kind in rb.pipelines
    ensures var def := rb.pipelines[p.kind];
            var head := CreateEffects(p.id, p.kind, p.name, p.inputs, p.phase, path);
            var plan := Before(head, StartPlan(rb, w, p, p.phase, p.inputs, path));
            && EventsOf(w, tick, plan.effects)
                 == (if IsShell(def, p.phase) then [ShellCompleted(p.id, p.phase, w.answers(tick + 6).code)] else [])
            && (plan.fail.None? ==> IsShell(def, p.phase) || IsAgent(def, p.phase))
            && (IsShell(def, p.phase) ==> plan.fail.None? && |plan.effects| == 7)
  {
    var head := CreateEffects(p.id, p.kind, p.name, p.inputs, p.phase, path);
    var start := StartPlan(rb, w, p, p.phase, p.inputs, path);
    CreationIsQuiet(w, p.id, p.kind, p.name, p.inputs, p.phase, path, tick);
    StartEffects(rb, w, p, p.phase, p.inputs, path, tick + 4);
    EventsAppend(w, tick, head, start.effects);
  }

  lemma CommandEvents(rb: Runbook, w: World, kind: string, id: string, args: map<string, string>, tick: nat)
    requires kind in rb.pipelines
    ensures var def := rb.pipelines[kind];
            var first := InitialPhase(def);
            var plan := CommandPlan(rb, w, kind, def, id, args);
            && EventsOf(w, tick, plan.effects)
                 == (if IsShell(def, first) then [ShellCompleted(id, first, w.answers(tick + 6).code)] else [])
            && (plan.fail.None? ==> IsShell(def, first) || IsAgent(def, first) || def.phases == [])
            && (IsShell(def, first) ==> plan.fail.None? && |plan.effects| == 7)
  {
    var def := rb.pipelines[kind];
    var name := if "name" in args then args["name"] else id;
    var path := Join(w.worktreeRoot, name);
    if def.phases == [] {
      CreationIsQuiet(w, id, kind, name, args, "init", path, tick);
      var head := CreateEffects(id, kind, name, args, "init", path);
      assert head + [] == head;
    } else {
      CommandStartsFirst(rb, w, kind, id, args);
      CreationThenStart(rb, w, NewPipeline(id, name, kind, args, def.phases[0].name), path, tick);
    }
  }

  lemma CommandSettles(rb: Runbook, w: World, m: Machine, kind: string, args: map<string, string>)
    requires kind in rb.pipelines
    ensures var first := InitialPhase(rb.pipelines[kind]);
            var id := w.ids(m.tick);
            var s := RunPlan(w, m, CommandPlan(rb, w, kind, rb.pipelines[kind], id, args));
            s.outcome.Ok? ==>
              Settled(rb, s, id, kind, Some(first)) && s.machine.tables.pipelines[id].phase == first
  {
    var id := w.ids(m.tick);
    var plan := CommandPlan(rb, w, kind, rb.pipelines[kind], id, args);
    var shape := CommandWrites(rb, w, kind, id, args);
    PlanWrites(w, m, plan);
    PlanReturns(w, m, plan);
    CommandEvents(rb, w, kind, id, args, m.tick);
    CreatedTables(rb, m.tables, shape);
  }

  /** A handler's result either leaves its pipeline at rest or has one report pending, of the shell
      phase in which the pipeline now stands. */
  ghost predicate LeavesOne(rb: Runbook, s: Step, id: string, acts: bool, phase: string, code: int) {
    s.outcome.Ok? ==>
      || (s.outcome.value == [] && (acts ==> Quiescent(rb, s.machine.tables, id)))
      || (&& s.outcome.value == [ShellCompleted(id, phase, code)]
          && Standing(rb, s.machine.tables, id)
          && s.machine.tables.pipelines[id].phase == phase
          && IsShell(rb.pipelines[s.machine.tables.pipelines[id].kind], phase))
  }

  lemma SettledLeavesOne(rb: Runbook, s: Step, id: string, kind: string, started: Option<string>)
    returns (phase: string, code: int)
    requires s.outcome.Ok? ==> Settled(rb, s, id, kind, started)
    ensures LeavesOne(rb, s, id, true, phase, code)
  {
    phase, code := "", 0;
    if s.outcome.Ok? && s.outcome.value != [] {
      phase, code := s.outcome.value[0].phase, s.outcome.value[0].exitCode;
    }
  }

  lemma CommandLeavesOne(rb: Runbook, w: World, m: Machine, command: string, args: map<string, string>)
    returns (phase: string, code: int)
    ensures LeavesOne(rb, RunPlan(w, m, InvokePlan(rb, w, command, args, w.ids(m.tick))), w.ids(m.tick), true,
                      phase, code)
  {
    phase, code := "", 0;
    if command in rb.commands && rb.commands[command].run.RunPipeline?
      && rb.commands[command].run.pipeline in rb.pipelines
    {
      var kind := rb.commands[command].run.pipeline;
      var def := rb.pipelines[kind];
      CommandSettles(rb, w, m, kind, args);
      var s := RunPlan(w, m, CommandPlan(rb, w, kind, def, w.ids(m.tick), args));
      phase, code := SettledLeavesOne(rb, s, w.ids(m.tick), kind, Some(InitialPhase(def)));
    }
  }

  lemma AgentLeavesOne(rb: Runbook, w: World, m: Machine, ref: string, error: Option<string>)
    returns (phase: string, code: int)
    requires RouteInvariant(rb, w, m)
    ensures LeavesOne(rb, RunPlan(w, m, AgentPlan(rb, w, m.tables, ref, error)), Resolved(m.tables, ref),
                      GetPipeline(m.tables, ref).Some?, phase, code)
  {
    phase, code := "", 0;
    if GetPipeline(m.tables, ref).Some? {
      InvariantIsSound(w, m);
      LookupIsStored(m.tables, ref);
      var p := GetPipeline(m.tables, ref).value;
      StoredStands(rb, w, m, p.id);
      var def := rb.pipelines[p.kind];
      if error.None? {
        AdvanceSettles(rb, w, m, p.id);
        phase, code := SettledLeavesOne(rb, RunPlan(w, m, AdvancePlan(rb, w, p)), p.id, p.kind,
                                        SuccessStarts(def, p.phase));
      } else {
        FailSettles(rb, w, m, p.id, error.value);
        phase, code := SettledLeavesOne(rb, RunPlan(w, m, FailPlan(rb, w, p, error.value)), p.id, p.kind,
                                        FailureStarts(def, p.phase));
      }
    }
  }

  lemma ReportLeavesOne(rb: Runbook, w: World, m: Machine, id: string, reported: string, exit: int)
    returns (phase: string, code: int)
    requires RouteInvariant(rb, w, m)
    ensures LeavesOne(rb, RunPlan(w, m, ShellPlan(rb, w, m.tables, id, reported, exit)), id,
                      id in m.tables.pipelines && m.tables.pipelines[id].phase == reported, phase, code)
  {
    phase, code := "", 0;
    if id in m.tables.pipelines && m.tables.pipelines[id].phase == reported {
      StoredStands(rb, w, m, id);
      phase, code := CurrentLeavesOne(rb, w, m, id, exit);
    }
  }

  lemma CurrentLeavesOne(rb: Runbook, w: World, m: Machine, id: string, exit: int) returns (phase: string, code: int)
    requires Standing(rb, m.tables, id)
    ensures var s := RunPlan(w, m, ShellPlan(rb, w, m.tables, id, m.tables.pipelines[id].phase, exit));
            LeavesOne(rb, s, id, true, phase, code)
  {
    var p := m.tables.pipelines[id];
    var def := rb.pipelines[p.kind];
    var s := Handle(rb, w, m, ShellCompleted(id, p.phase, exit));
    ReportSettles(rb, w, m, id, exit);
    phase, code := SettledLeavesOne(rb, s, id, p.kind,
                                    if exit == 0 then SuccessStarts(def, p.phase) else FailureStarts(def, p.phase));
  }

  lemma CustomIsQuiet(rb: Runbook, w: World, m: Machine, name: string, data: map<string, string>)
    ensures var s := RunPlan(w, m, CustomPlan(m.tables, name, data)); s.outcome.Ok? ==> s.outcome.value == []
  {
    PlanReturns(w, m, CustomPlan(m.tables, name, data));
    QuietEffects(w, m.tick, CustomPlan(m.tables, name, data).effects);
  }

  /** A resumed pipeline is marked Running and stays in its phase, which may be a shell phase whose
      command is long over; nothing is pending afterwards. */
  lemma ResumeStays(rb: Runbook, w: World, m: Machine, ref: string)
    requires m.tables.Keyed() && GetPipeline(m.tables, ref).Some?
    ensures var p := GetPipeline(m.tables, ref).value;
            var s := Handle(rb, w, m, Custom("pipeline:resume", map["pipeline_id" := ref]));
            s.outcome.Ok? ==>
              && s.outcome.value == []
              && s.machine.tables == m.tables.(pipelines := m.tables.pipelines[p.id := p.(status := Running)])
  {
    var data := map["pipeline_id" := ref];
    var p := GetPipeline(m.tables, ref).value;
    var mark := PhaseStatusUpdate(p.id, Running);
    var effects := [Persist(mark), StartMonitor(p.id)];
    LookupIsStored(m.tables, ref);
    CustomIsQuiet(rb, w, m, "pipeline:resume", data);
    PlanWrites(w, m, Plan(effects, None));
    Ops2(effects[0], effects[1]);
    assert CustomPlan(m.tables, "pipeline:resume", data) == Plan(effects, None);
    assert ApplyAll(m.tables, [mark]) == ApplyAll(ApplyOp(m.tables, mark), []);
  }

  lemma FirstEvent(rb: Runbook, w: World, m: Machine, event: Event) returns (s: Step, phase: string, code: int)
    requires RouteInvariant(rb, w, m)
    ensures s == Handle(rb, w, m, event)
    ensures LeavesOne(rb, s, EventTarget(w, m.tables, m.tick, event), Acts(rb, m.tables, event), phase, code)
  {
    s := Handle(rb, w, m, event);
    phase, code := "", 0;
    match event {
      case CommandInvoked(command, args) => phase, code := CommandLeavesOne(rb, w, m, command, args);
      case AgentDone(ref) => phase, code := AgentLeavesOne(rb, w, m, ref, None);
      case AgentError(ref, error) => phase, code := AgentLeavesOne(rb, w, m, ref, Some(error));
      case ShellCompleted(id, reported, exit) => phase, code := ReportLeavesOne(rb, w, m, id, reported, exit);
      case Timer(tid) => TimersAreQuiet(rb, w, m, tid);
      case Custom(name, data) => CustomIsQuiet(rb, w, m, name, data);
      case SessionExited(session, exit) =>
        InvariantIsSound(w, m);
        assert OwnerOf(w, m.tables, session).None?;
      case WorkerWake(_) =>
      case SessionStarted(_) =>
      case SessionOutput(_, _) =>
    }
  }

  /** In reachable states no pipeline has a linked workspace, so the monitor does nothing. */
  lemma TimersAreQuiet(rb: Runbook, w: World, m: Machine, id: string)
    requires Invariant(w, m)
    ensures Handle(rb, w, m, Timer(id)).machine == m
    ensures Handle(rb, w, m, Timer(id)).outcome.Ok? ==> Handle(rb, w, m, Timer(id)).outcome.value == []
  {
    InvariantIsSound(w, m);
    var ref := TimerPipeline(id);
    LookupIsStored(m.tables, ref);
    assert EventPlan(rb, w, m.tables, m.tick, Timer(id)).effects == [];
  }

  // ------------------------------------------------------------------ main result

  /** The loop ended, and if `acts` and nothing failed the pipeline is at rest. */
  ghost predicate EndsWell(r: Processed, rb: Runbook, id: string, acts: bool) {
    r.Finished? && (r.step.outcome.Ok? && acts ==> Quiescent(rb, r.step.machine.tables, id))
  }

  /** Every kind that some command runs has acyclic shell phases, and fewer phases than `fuel`. */
  ghost predicate Shallow(rb: Runbook, fuel: nat) {
    forall kind :: kind in rb.pipelines && Invoked(rb, kind) ==>
      Acyclic(rb.pipelines[kind]) && fuel > |rb.pipelines[kind].phases|
  }

  /** The pipeline stands where one of its kind may, and some command runs this kind. */
  ghost predicate OnGraph(rb: Runbook, t: Tables, id: string) {
    id in t.pipelines ==>
      var p := t.pipelines[id];
      p.kind in rb.pipelines && Invoked(rb, p.kind) && MayStand(rb.pipelines[p.kind], p.phase)
  }

  lemma SameAsEngine(handle: Handler, rb: Runbook, w: World, m: Machine, pending: seq<Event>, fuel: nat)
    requires IsEngine(handle, rb, w)
    ensures Loop(handle, m, pending, fuel) == Process(rb, w, m, pending, fuel)
    ensures OneAtATime(handle, m, pending, fuel) == NeverQueues(rb, w, m, pending, fuel)
  {
    var engine := EngineHandler(rb, w);
    EngineHandlerIsEngine(rb, w);
    forall n: Machine, e: Event
      ensures handle(n, e) == engine(n, e)
    {
      assert Answers(handle, rb, w, n, e) && Answers(engine, rb, w, n, e);
    }
    LoopSame(handle, engine, m, pending, fuel);
  }

  /** What remains after a first call that left one report, or nothing. */
  lemma RestSettles(handle: Handler, rb: Runbook, w: World, s: Step, id: string, acts: bool, phase: string, code: int,
                    fuel: nat)
    requires IsEngine(handle, rb, w) && Shallow(rb, fuel + 1)
    requires s.outcome.Ok? && LeavesOne(rb, s, id, acts, phase, code) && OnGraph(rb, s.machine.tables, id)
    ensures EndsWell(Loop(handle, s.machine, s.outcome.value, fuel), rb, id, acts)
    ensures OneAtATime(handle, s.machine, s.outcome.value, fuel)
  {
    if s.outcome.value != [] {
      ChainSettles(rb, w, s.machine, id, code, [phase], fuel);
      SameAsEngine(handle, rb, w, s.machine, s.outcome.value, fuel);
    }
  }

  /** A call is an input of a run, so it leaves every pipeline on its graph. */
  lemma StaysOnGraph(rb: Runbook, w: World, m: Machine, event: Event, id: string)
    requires FreshIds(w) && RouteInvariant(rb, w, m)
    ensures OnGraph(rb, Handle(rb, w, m, event).machine.tables, id)
  {
    var call := Complete(Deliver(event));
    NextKeepsPlaces(rb, w, m, call);
    assert Next(rb, w, m, call) == Handle(rb, w, m, event).machine;
  }

  lemma FirstCall(handle: Handler, rb: Runbook, w: World, m: Machine, event: Event)
    returns (s: Step, phase: string, code: int)
    requires IsEngine(handle, rb, w) && FreshIds(w) && RouteInvariant(rb, w, m)
    ensures s == handle(m, event)
    ensures LeavesOne(rb, s, EventTarget(w, m.tables, m.tick, event), Acts(rb, m.tables, event), phase, code)
    ensures OnGraph(rb, s.machine.tables, EventTarget(w, m.tables, m.tick, event))
  {
    s, phase, code := FirstEvent(rb, w, m, event);
    assert Answers(handle, rb, w, m, event);
    StaysOnGraph(rb, w, m, event, EventTarget(w, m.tables, m.tick, event));
  }

  lemma LoopSettles(handle: Handler, rb: Runbook, w: World, m: Machine, event: Event, fuel: nat)
    requires IsEngine(handle, rb, w) && FreshIds(w) && RouteInvariant(rb, w, m)
    requires fuel > 0 && Shallow(rb, fuel)
    ensures EndsWell(Loop(handle, m, [event], fuel), rb, EventTarget(w, m.tables, m.tick, event),
                     Acts(rb, m.tables, event))
    ensures OneAtATime(handle, m, [event], fuel)
  {
    var s, phase, code := FirstCall(handle, rb, w, m, event);
    FromFirstCall(handle, rb, w, m, event, fuel - 1, s, EventTarget(w, m.tables, m.tick, event),
                  Acts(rb, m.tables, event), phase, code);
  }

  lemma FromFirstCall(handle: Handler, rb: Runbook, w: World, m: Machine, event: Event, rest: nat, s: Step, id: string,
                      acts: bool, phase: string, code: int)
    requires IsEngine(handle, rb, w) && Shallow(rb, rest + 1) && s == handle(m, event)
    requires LeavesOne(rb, s, id, acts, phase, code) && OnGraph(rb, s.machine.tables, id)
    ensures EndsWell(Loop(handle, m, [event], rest + 1), rb, id, acts) && OneAtATime(handle, m, [event], rest + 1)
  {
    if s.outcome.Ok? {
      RestSettles(handle, rb, w, s, id, acts, phase, code, rest);
    }
    OneCallMore(handle, rb, m, event, rest + 1, s, id, acts);
  }

  lemma OneCallMore(handle: Handler, rb: Runbook, m: Machine, event: Event, fuel: nat, s: Step, id: string, acts: bool)
    requires fuel > 0 && s == handle(m, event)
    requires s.outcome.Ok? ==>
      && EndsWell(Loop(handle, s.machine, s.outcome.value, fuel - 1), rb, id, acts)
      && OneAtATime(handle, s.machine, s.outcome.value, fuel - 1)
    ensures EndsWell(Loop(handle, m, [event], fuel), rb, id, acts) && OneAtATime(handle, m, [event], fuel)
  {
    LoopOne(handle, m, event, fuel, s);
  }

  /** Main result. For any runbook in which no shell cycle can be reached, from every reachable
      state and whatever the outside world does, processing an event ends after at most one more
      `handle_event` call than the largest pipeline has phases; never more than one event is
      pending; and if no error stopped it, the pipeline the event acted on is in a terminal
      phase or in an agent phase, or has no phases. */
  lemma ProcessingSettles(rb: Runbook, w: World, m: Machine, event: Event, fuel: nat)
    requires FreshIds(w) && RouteInvariant(rb, w, m)
    requires fuel > 0 && Shallow(rb, fuel)
    ensures EndsWell(Process(rb, w, m, [event], fuel), rb, EventTarget(w, m.tables, m.tick, event),
                     Acts(rb, m.tables, event))
    ensures NeverQueues(rb, w, m, [event], fuel)
  {
    EngineHandlerIsEngine(rb, w);
    LoopSettles(EngineHandler(rb, w), rb, w, m, event, fuel);
  }
}
