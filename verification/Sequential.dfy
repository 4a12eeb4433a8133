/** Sequential exactness: a plain list of shell phases is run in order, each phase once, up to
    the first failure or terminal phase, and nothing else decides the outcome. */
module Sequential {
  import opened Wrappers
  import opened Core
  import opened Runbook
  import opened State
  import opened Plans
  import opened Execution
  import opened Shapes
  import opened EventLoop
  import opened Quiescence
  import opened Termination
  import opened Cycles

  /** Distinct shell phases, in list order, with no `next` and no `on_fail`. */
  ghost predicate Plain(def: PipelineDef) {
    && def.phases != []
    && (forall i, j :: 0 <= i < j < |def.phases| ==> def.phases[i].name != def.phases[j].name)
    && (forall i :: 0 <= i < |def.phases| ==>
          def.phases[i].run.RunShell? && def.phases[i].next.None? && def.phases[i].onFail.None?)
  }

  /** The exit code of phase `i`, for a command handled at tick `start`. */
  function ExitCode(w: World, start: nat, i: nat): int { w.answers(start + 6 + 5 * i).code }

  /** The last phase to run: the first, from `i` on, that fails, is terminal or ends the list. */
  function StopAt(w: World, def: PipelineDef, start: nat, i: nat): (k: nat)
    requires i < |def.phases|
    ensures i <= k < |def.phases|
    ensures forall j :: i <= j < k ==> ExitCode(w, start, j) == 0 && !IsTerminal(def.phases[j].name)
    ensures ExitCode(w, start, k) != 0 || IsTerminal(def.phases[k].name) || k + 1 == |def.phases|
    decreases |def.phases| - i
  {
    if ExitCode(w, start, i) != 0 || IsTerminal(def.phases[i].name) || i + 1 == |def.phases| then i
    else StopAt(w, def, start, i + 1)
  }

  /** The phases whose shell command was run, in order. */
  function PhasesRun(effects: seq<Effect>): seq<string> {
    if effects == [] then [] else PhaseOfEffect(effects[0]) + PhasesRun(effects[1..])
  }

  function PhaseOfEffect(e: Effect): seq<string> { if e.Shell? then [e.phase] else [] }

  lemma {:induction false} PhasesRunAppend(a: seq<Effect>, b: seq<Effect>)
    ensures PhasesRun(a + b) == PhasesRun(a) + PhasesRun(b)
    decreases |a|
  {
    if a == [] {
      assert a + b == b;
    } else {
      assert (a + b)[0] == a[0] && (a + b)[1..] == a[1..] + b;
      PhasesRunAppend(a[1..], b);
      assert PhaseOfEffect(a[0]) + (PhasesRun(a[1..]) + PhasesRun(b))
          == (PhaseOfEffect(a[0]) + PhasesRun(a[1..])) + PhasesRun(b);
    }
  }

  lemma {:induction false} QuietRun(effects: seq<Effect>)
    requires forall e :: e in effects ==> !e.Shell?
    ensures PhasesRun(effects) == []
    decreases |effects|
  {
    if effects != [] {
      assert effects[0] in effects;
      QuietRun(effects[1..]);
    }
  }

  function Names(phases: seq<PhaseDef>): seq<string> {
    seq(|phases|, i requires 0 <= i < |phases| => phases[i].name)
  }

  lemma NamesSplit(phases: seq<PhaseDef>, i: nat, k: nat)
    requires i < k <= |phases|
    ensures Names(phases[i..k]) == [phases[i].name] + Names(phases[i + 1..k])
  {
  }

  lemma PlainIsShell(def: PipelineDef)
    requires Plain(def)
    ensures forall i :: 0 <= i < |def.phases| ==>
              def.IndexOf(def.phases[i].name) == i && IsShell(def, def.phases[i].name)
  {
    forall i | 0 <= i < |def.phases|
      ensures def.IndexOf(def.phases[i].name) == i
    {
      var k := def.IndexOf(def.phases[i].name);
      assert k < |def.phases| ==> k == i;
    }
  }

  /** The pipeline stands in phase `i`, whose report is the next event. */
  ghost predicate AtPhase(rb: Runbook, m: Machine, id: string, kind: string, start: nat, i: nat) {
    && kind in rb.pipelines && Plain(rb.pipelines[kind]) && i < |rb.pipelines[kind].phases|
    && Standing(rb, m.tables, id)
    && m.tables.pipelines[id].kind == kind
    && m.tables.pipelines[id].phase == rb.pipelines[kind].phases[i].name
    && m.tick == start + 7 + 5 * i
  }

  ghost predicate AllAnswersOk(w: World) { forall t: nat :: w.answers(t).ok }

  /** How a pipeline whose last phase was `phase` ends. */
  ghost predicate Ended(t: Tables, id: string, phase: string, code: int) {
    && id in t.pipelines
    && var p := t.pipelines[id];
       if code == 0 then p.status == Completed && p.phase == (if IsTerminal(phase) then phase else "done")
       else p.phase == "failed" && p.status == Pending
  }

  /** The report of the phase where the list stops. */
  lemma LastReport(rb: Runbook, w: World, m: Machine, id: string, kind: string, start: nat, k: nat) returns (s: Step)
    requires AtPhase(rb, m, id, kind, start, k) && AllAnswersOk(w)
    requires var def := rb.pipelines[kind];
             ExitCode(w, start, k) != 0 || IsTerminal(def.phases[k].name) || k + 1 == |def.phases|
    ensures s == Handle(rb, w, m, PhaseReport(w, rb.pipelines[kind], id, start, k))
    ensures s.outcome == Ok([])
    ensures PhasesRun(s.machine.trace) == PhasesRun(m.trace)
    ensures Ended(s.machine.tables, id, rb.pipelines[kind].phases[k].name, ExitCode(w, start, k))
  {
    var def := rb.pipelines[kind];
    var p := m.tables.pipelines[id];
    var code := ExitCode(w, start, k);
    PlainIsShell(def);
    assert def.phases[k].onFail.None? && def.phases[k].next.None?;
    var plan := if code != 0 then Plan(FailureEffects(p, ShellError(code)), None)
                else if p.Terminal() then CompletePlan(p)
                else Before(PhaseTransitionEffects(p, "done"), CompletePlan(p));
    assert ShellPlan(rb, w, m.tables, id, p.phase, code) == plan;
    s := FinalPlan(w, m, p, plan, code);
    if code != 0 {
      TransitionOps(p, "", ShellError(code));
      MoveThen(m.tables, id, "failed", []);
      assert [PipelineTransition(id, "failed")] + [] == [PipelineTransition(id, "failed")];
      assert ApplyAll(m.tables, [PipelineTransition(id, "failed")])
          == ApplyAll(ApplyOp(m.tables, PipelineTransition(id, "failed")), []);
    } else {
      CompleteWrites(p);
      if p.Terminal() {
        assert CompleteOps(p) == [PhaseStatusUpdate(id, Completed)];
        assert ApplyAll(m.tables, [PhaseStatusUpdate(id, Completed)])
            == ApplyAll(ApplyOp(m.tables, PhaseStatusUpdate(id, Completed)), []);
      } else {
        TransitionOps(p, "done", "");
        OpsBefore(PhaseTransitionEffects(p, "done"), CompletePlan(p));
        TerminalThenDone(m.tables, p, "done");
      }
    }
  }

  lemma FinalIsQuiet(p: Pipeline, code: int)
    ensures forall e :: e in FailureEffects(p, ShellError(code)) ==> !e.Shell? && !e.Spawn?
    ensures forall e :: e in CompletionEffects(p) ==> !e.Shell? && !e.Spawn?
    ensures forall e :: e in PhaseTransitionEffects(p, "done") ==> !e.Shell? && !e.Spawn?
  {
  }

  lemma FinalPlan(w: World, m: Machine, p: Pipeline, plan: Plan, code: int) returns (s: Step)
    requires AllAnswersOk(w)
    requires plan == Plan(FailureEffects(p, ShellError(code)), None)
          || plan == CompletePlan(p) || plan == Before(PhaseTransitionEffects(p, "done"), CompletePlan(p))
    ensures s == RunPlan(w, m, plan)
    ensures s.outcome == Ok([]) && s.machine.tables == ApplyAll(m.tables, Ops(plan.effects))
    ensures PhasesRun(s.machine.trace) == PhasesRun(m.trace)
  {
    FinalIsQuiet(p, code);
    assert forall e :: e in plan.effects ==> !e.Shell? && !e.Spawn?;
    s := QuietPlan(w, m, plan);
  }

  /** A plan that starts nothing, in a world where everything succeeds. */
  lemma QuietPlan(w: World, m: Machine, plan: Plan) returns (s: Step)
    requires AllAnswersOk(w) && plan.fail.None? && forall e :: e in plan.effects ==> !e.Shell? && !e.Spawn?
    ensures s == RunPlan(w, m, plan)
    ensures s.outcome == Ok([]) && s.machine.tables == ApplyAll(m.tables, Ops(plan.effects))
    ensures PhasesRun(s.machine.trace) == PhasesRun(m.trace)
  {
    s := MoveSucceeds(w, m, plan);
    PlanWrites(w, m, plan);
    PlanReturns(w, m, plan);
    QuietEffects(w, m.tick, plan.effects);
    QuietRun(plan.effects);
    PhasesRunAppend(m.trace, plan.effects);
  }

  lemma MoveIsRun(rb: Runbook, w: World, m: Machine, p: Pipeline, head: seq<Effect>, next: string)
    requires p.kind in rb.pipelines && IsShell(rb.pipelines[p.kind], next)
    requires |head| == 2 && !head[0].Shell? && !head[1].Shell?
    ensures var s := RunPlan(w, m, MovePlan(rb, w, p, head, next));
            s.outcome.Ok? ==> PhasesRun(s.machine.trace) == PhasesRun(m.trace) + [next]
  {
    var plan := MovePlan(rb, w, p, head, next);
    PlanReturns(w, m, plan);
    PhasesRunAppend(m.trace, plan.effects);
    MoveRuns(rb, w, p, head, next);
  }

  /** The report of a phase that leads to the next one is handled by the move there. */
  lemma ReportIsMove(rb: Runbook, w: World, m: Machine, id: string, kind: string, start: nat, i: nat)
    requires AtPhase(rb, m, id, kind, start, i)
    requires var def := rb.pipelines[kind];
             ExitCode(w, start, i) == 0 && !IsTerminal(def.phases[i].name) && i + 1 < |def.phases|
    ensures var p := m.tables.pipelines[id];
            var next := rb.pipelines[kind].phases[i + 1].name;
            Handle(rb, w, m, PhaseReport(w, rb.pipelines[kind], id, start, i))
            == RunPlan(w, m, MovePlan(rb, w, p, EdgeHead(p, next, 0), next))
  {
    var def := rb.pipelines[kind];
    PlainIsShell(def);
    assert def.phases[i].next.None?;
    EdgeIsMove(rb, w, m, id, def.phases[i + 1].name, 0);
  }

  lemma MoveOn(rb: Runbook, w: World, m: Machine, id: string, kind: string, start: nat, i: nat) returns (s: Step)
    requires AtPhase(rb, m, id, kind, start, i) && AllAnswersOk(w) && i + 1 < |rb.pipelines[kind].phases|
    ensures var p := m.tables.pipelines[id];
            var next := rb.pipelines[kind].phases[i + 1].name;
            s == RunPlan(w, m, MovePlan(rb, w, p, EdgeHead(p, next, 0), next))
    ensures AtPhase(rb, s.machine, id, kind, start, i + 1)
    ensures s.outcome == Ok([PhaseReport(w, rb.pipelines[kind], id, start, i + 1)])
  {
    var p := m.tables.pipelines[id];
    var next := rb.pipelines[kind].phases[i + 1].name;
    PlainIsShell(rb.pipelines[kind]);
    HeadIsMove(p, next, 0);
    s := EdgeStep(rb, w, m, id, EdgeHead(p, next, 0), next);
    NextReportIs(w, rb.pipelines[kind], id, start, i);
    OnePhaseOn(rb, m, s.machine, id, kind, start, i);
  }

  lemma NextReportIs(w: World, def: PipelineDef, id: string, start: nat, i: nat)
    requires i + 1 < |def.phases|
    ensures PhaseReport(w, def, id, start, i + 1)
         == ShellCompleted(id, def.phases[i + 1].name, w.answers(start + 7 + 5 * i + 4).code)
  {
  }

  lemma OnePhaseOn(rb: Runbook, m: Machine, n: Machine, id: string, kind: string, start: nat, i: nat)
    requires AtPhase(rb, m, id, kind, start, i) && i + 1 < |rb.pipelines[kind].phases|
    requires Standing(rb, n.tables, id) && n.tables.pipelines[id].kind == kind && n.tick == m.tick + 5
    requires n.tables.pipelines[id].phase == rb.pipelines[kind].phases[i + 1].name
    ensures AtPhase(rb, n, id, kind, start, i + 1)
  {
  }

  lemma NextReport(rb: Runbook, w: World, m: Machine, id: string, kind: string, start: nat, i: nat) returns (s: Step)
    requires AtPhase(rb, m, id, kind, start, i) && AllAnswersOk(w)
    requires var def := rb.pipelines[kind];
             ExitCode(w, start, i) == 0 && !IsTerminal(def.phases[i].name) && i + 1 < |def.phases|
    ensures s == Handle(rb, w, m, PhaseReport(w, rb.pipelines[kind], id, start, i))
    ensures AtPhase(rb, s.machine, id, kind, start, i + 1)
    ensures s.outcome == Ok([PhaseReport(w, rb.pipelines[kind], id, start, i + 1)])
    ensures PhasesRun(s.machine.trace) == PhasesRun(m.trace) + [rb.pipelines[kind].phases[i + 1].name]
  {
    ReportIsMove(rb, w, m, id, kind, start, i);
    s := MoveOn(rb, w, m, id, kind, start, i);
    MoveRunsNext(rb, w, m, id, kind, start, i);
  }

  lemma MoveRunsNext(rb: Runbook, w: World, m: Machine, id: string, kind: string, start: nat, i: nat)
    requires AtPhase(rb, m, id, kind, start, i) && i + 1 < |rb.pipelines[kind].phases|
    ensures var p := m.tables.pipelines[id];
            var next := rb.pipelines[kind].phases[i + 1].name;
            var s := RunPlan(w, m, MovePlan(rb, w, p, EdgeHead(p, next, 0), next));
            s.outcome.Ok? ==> PhasesRun(s.machine.trace) == PhasesRun(m.trace) + [next]
  {
    var p := m.tables.pipelines[id];
    var next := rb.pipelines[kind].phases[i + 1].name;
    PlainIsShell(rb.pipelines[kind]);
    HeadIsMove(p, next, 0);
    MoveIsRun(rb, w, m, p, EdgeHead(p, next, 0), next);
  }

  lemma StartRuns(rb: Runbook, w: World, p: Pipeline, phase: string, inputs: map<string, string>, workspace: string)
    requires p.kind in rb.pipelines && IsShell(rb.pipelines[p.kind], phase)
    ensures PhasesRun(StartPlan(rb, w, p, phase, inputs, workspace).effects) == [phase]
    ensures forall e :: e in StartPlan(rb, w, p, phase, inputs, workspace).effects ==> !e.Spawn?
  {
    var def := rb.pipelines[p.kind];
    var run := def.phases[def.IndexOf(phase)].run;
    var head := PhaseStartEffects(p.id, phase);
    var body := RunPlanOf(rb, w, p, phase, run, inputs, workspace);
    PhasesRunAppend(head, body.effects);
    QuietRun(head);
    assert body.effects[1..] == [];
  }

  lemma MoveRuns(rb: Runbook, w: World, p: Pipeline, head: seq<Effect>, next: string)
    requires p.kind in rb.pipelines && IsShell(rb.pipelines[p.kind], next)
    requires |head| == 2 && !head[0].Shell? && !head[1].Shell?
    ensures PhasesRun(MovePlan(rb, w, p, head, next).effects) == [next]
  {
    var start := StartPlan(rb, w, p, next, p.inputs, WorkspacePath(w, p));
    PhasesRunAppend(head, start.effects);
    QuietRun(head);
    StartRuns(rb, w, p, next, p.inputs, WorkspacePath(w, p));
  }

  function PhaseReport(w: World, def: PipelineDef, id: string, start: nat, i: nat): Event
    requires i < |def.phases|
  {
    ShellCompleted(id, def.phases[i].name, ExitCode(w, start, i))
  }

  /** The calls from the report of phase `i` on: one per phase up to the stopping one, which run
      the phases after `i`; and how they leave the pipeline. */
  ghost predicate InOrder(w: World, def: PipelineDef, steps: seq<Step>, before: seq<string>, id: string, start: nat,
                          i: nat)
    requires i < |def.phases|
  {
    var k := StopAt(w, def, start, i);
    && |steps| == k - i + 1
    && var last := steps[|steps| - 1];
       && last.outcome == Ok([])
       && PhasesRun(last.machine.trace) == before + Names(def.phases[i + 1..k + 1])
       && Ended(last.machine.tables, id, def.phases[k].name, ExitCode(w, start, k))
  }

  lemma InOrderStep(w: World, def: PipelineDef, s: Step, steps: seq<Step>, before: seq<string>, id: string,
                    start: nat, i: nat)
    requires i + 1 < |def.phases| && ExitCode(w, start, i) == 0 && !IsTerminal(def.phases[i].name)
    requires InOrder(w, def, steps, before + [def.phases[i + 1].name], id, start, i + 1)
    ensures InOrder(w, def, [s] + steps, before, id, start, i)
  {
    var k := StopAt(w, def, start, i + 1);
    NamesAfter(def.phases, before, i, k);
    assert ([s] + steps)[|steps|] == steps[|steps| - 1];
  }

  lemma NamesAfter(phases: seq<PhaseDef>, before: seq<string>, i: nat, k: nat)
    requires i < k < |phases|
    ensures before + Names(phases[i + 1..k + 1]) == (before + [phases[i + 1].name]) + Names(phases[i + 2..k + 1])
  {
    NamesSplit(phases, i + 1, k + 1);
    assert before + ([phases[i + 1].name] + Names(phases[i + 2..k + 1]))
        == (before + [phases[i + 1].name]) + Names(phases[i + 2..k + 1]);
  }

  /** From phase `i` on. */
  lemma {:induction false} RestInOrder(rb: Runbook, w: World, m: Machine, id: string, kind: string, start: nat, i: nat)
    returns (steps: seq<Step>)
    requires AtPhase(rb, m, id, kind, start, i) && AllAnswersOk(w)
    ensures Chain(EngineHandler(rb, w), m, PhaseReport(w, rb.pipelines[kind], id, start, i), steps)
    ensures InOrder(w, rb.pipelines[kind], steps, PhasesRun(m.trace), id, start, i)
    decreases |rb.pipelines[kind].phases| - i
  {
    var def := rb.pipelines[kind];
    if StopAt(w, def, start, i) == i {
      var s := LastReport(rb, w, m, id, kind, start, i);
      steps := [s];
      assert PhasesRun(m.trace) + Names(def.phases[i + 1..i + 1]) == PhasesRun(m.trace);
    } else {
      var s := NextReport(rb, w, m, id, kind, start, i);
      var rest := RestInOrder(rb, w, s.machine, id, kind, start, i + 1);
      steps := [s] + rest;
      ChainCons(EngineHandler(rb, w), m, PhaseReport(w, def, id, start, i), s,
                PhaseReport(w, def, id, start, i + 1), rest);
      InOrderStep(w, def, s, rest, PhasesRun(m.trace), id, start, i);
    }
  }

  lemma CommandIsPlan(rb: Runbook, w: World, m: Machine, command: string, args: map<string, string>, kind: string)
    requires command in rb.commands && rb.commands[command].run == RunPipeline(kind) && kind in rb.pipelines
    ensures Handle(rb, w, m, CommandInvoked(command, args))
         == RunPlan(w, m, CommandPlan(rb, w, kind, rb.pipelines[kind], w.ids(m.tick), args))
  {
  }

  /** The command itself: created, and the first phase run. */
  lemma CommandStarts(rb: Runbook, w: World, m: Machine, kind: string, args: map<string, string>) returns (s: Step)
    requires kind in rb.pipelines && Plain(rb.pipelines[kind]) && AllAnswersOk(w)
    ensures s == RunPlan(w, m, CommandPlan(rb, w, kind, rb.pipelines[kind], w.ids(m.tick), args))
    ensures AtPhase(rb, s.machine, w.ids(m.tick), kind, m.tick, 0)
    ensures s.outcome == Ok([PhaseReport(w, rb.pipelines[kind], w.ids(m.tick), m.tick, 0)])
    ensures PhasesRun(s.machine.trace) == PhasesRun(m.trace) + [rb.pipelines[kind].phases[0].name]
  {
    PlainIsShell(rb.pipelines[kind]);
    s := CommandReturns(rb, w, m, kind, args);
    CommandSettles(rb, w, m, kind, args);
    FirstAtPhase(rb, s.machine, w.ids(m.tick), kind, m.tick);
  }

  lemma CommandReturns(rb: Runbook, w: World, m: Machine, kind: string, args: map<string, string>) returns (s: Step)
    requires kind in rb.pipelines && Plain(rb.pipelines[kind]) && AllAnswersOk(w)
    ensures s == RunPlan(w, m, CommandPlan(rb, w, kind, rb.pipelines[kind], w.ids(m.tick), args))
    ensures s.machine.tick == m.tick + 7
    ensures s.outcome == Ok([PhaseReport(w, rb.pipelines[kind], w.ids(m.tick), m.tick, 0)])
    ensures PhasesRun(s.machine.trace) == PhasesRun(m.trace) + [rb.pipelines[kind].phases[0].name]
  {
    CommandFacts(rb, w, kind, w.ids(m.tick), args, m.tick);
    s := SucceedsWith(w, m, CommandPlan(rb, w, kind, rb.pipelines[kind], w.ids(m.tick), args),
                      PhaseReport(w, rb.pipelines[kind], w.ids(m.tick), m.tick, 0), rb.pipelines[kind].phases[0].name);
  }

  lemma CommandFacts(rb: Runbook, w: World, kind: string, id: string, args: map<string, string>, tick: nat)
    requires kind in rb.pipelines && Plain(rb.pipelines[kind])
    ensures var def := rb.pipelines[kind];
            RunsOne(w, tick, CommandPlan(rb, w, kind, def, id, args), PhaseReport(w, def, id, tick, 0),
                    def.phases[0].name)
  {
    PlainIsShell(rb.pipelines[kind]);
    CommandEvents(rb, w, kind, id, args, tick);
    CommandRuns(rb, w, kind, id, args);
    FirstReportIs(w, rb.pipelines[kind], id, tick);
  }

  /** Seven effects, none of them a session, that run one phase and return its report. */
  ghost predicate RunsOne(w: World, tick: nat, plan: Plan, report: Event, phase: string) {
    && plan.fail.None? && |plan.effects| == 7
    && (forall e :: e in plan.effects ==> !e.Spawn?)
    && EventsOf(w, tick, plan.effects) == [report]
    && PhasesRun(plan.effects) == [phase]
  }

  lemma SucceedsWith(w: World, m: Machine, plan: Plan, report: Event, phase: string) returns (s: Step)
    requires AllAnswersOk(w) && RunsOne(w, m.tick, plan, report, phase)
    ensures s == RunPlan(w, m, plan)
    ensures s.machine.tick == m.tick + 7 && s.outcome == Ok([report])
    ensures PhasesRun(s.machine.trace) == PhasesRun(m.trace) + [phase]
  {
    s := StartSucceeds(w, m, plan);
  }

  lemma FirstReportIs(w: World, def: PipelineDef, id: string, start: nat)
    requires def.phases != []
    ensures PhaseReport(w, def, id, start, 0) == ShellCompleted(id, def.phases[0].name, w.answers(start + 6).code)
  {
  }

  lemma FirstAtPhase(rb: Runbook, n: Machine, id: string, kind: string, start: nat)
    requires kind in rb.pipelines && Plain(rb.pipelines[kind])
    requires Standing(rb, n.tables, id) && n.tables.pipelines[id].kind == kind && n.tick == start + 7
    requires n.tables.pipelines[id].phase == rb.pipelines[kind].phases[0].name
    ensures AtPhase(rb, n, id, kind, start, 0)
  {
  }

  lemma CommandHandled(rb: Runbook, w: World, m: Machine, command: string, args: map<string, string>, kind: string)
    returns (s: Step)
    requires command in rb.commands && rb.commands[command].run == RunPipeline(kind)
    requires kind in rb.pipelines && Plain(rb.pipelines[kind]) && AllAnswersOk(w)
    ensures s == Handle(rb, w, m, CommandInvoked(command, args))
    ensures AtPhase(rb, s.machine, w.ids(m.tick), kind, m.tick, 0)
    ensures s.outcome == Ok([PhaseReport(w, rb.pipelines[kind], w.ids(m.tick), m.tick, 0)])
    ensures PhasesRun(s.machine.trace) == PhasesRun(m.trace) + [rb.pipelines[kind].phases[0].name]
  {
    CommandIsPlan(rb, w, m, command, args, kind);
    s := CommandStarts(rb, w, m, kind, args);
  }

  lemma StartSucceeds(w: World, m: Machine, plan: Plan) returns (s: Step)
    requires AllAnswersOk(w) && plan.fail.None? && forall e :: e in plan.effects ==> !e.Spawn?
    ensures s == RunPlan(w, m, plan)
    ensures s.outcome == Ok(EventsOf(w, m.tick, plan.effects))
    ensures s.machine.tick == m.tick + |plan.effects|
    ensures PhasesRun(s.machine.trace) == PhasesRun(m.trace) + PhasesRun(plan.effects)
  {
    s := MoveSucceeds(w, m, plan);
    PlanReturns(w, m, plan);
    PhasesRunAppend(m.trace, plan.effects);
  }

  lemma CommandRuns(rb: Runbook, w: World, kind: string, id: string, args: map<string, string>)
    requires kind in rb.pipelines && Plain(rb.pipelines[kind])
    ensures var def := rb.pipelines[kind];
            var plan := CommandPlan(rb, w, kind, def, id, args);
            && PhasesRun(plan.effects) == [def.phases[0].name]
            && |plan.effects| == 7 && plan.fail.None?
            && forall e :: e in plan.effects ==> !e.Spawn?
  {
    var def := rb.pipelines[kind];
    var name := if "name" in args then args["name"] else id;
    var path := Join(w.worktreeRoot, name);
    var first := def.phases[0].name;
    PlainIsShell(def);
    var p := NewPipeline(id, name, kind, args, first);
    var head := CreateEffects(id, kind, name, args, first, path);
    var start := StartPlan(rb, w, p, first, args, path);
    QuietRun(head);
    StartRuns(rb, w, p, first, args, path);
    PhasesRunAppend(head, start.effects);
    assert CommandPlan(rb, w, kind, def, id, args) == Before(head, start);
  }

  lemma CommandChain(rb: Runbook, w: World, m: Machine, command: string, args: map<string, string>, kind: string)
    returns (steps: seq<Step>)
    requires command in rb.commands && rb.commands[command].run == RunPipeline(kind)
    requires kind in rb.pipelines && Plain(rb.pipelines[kind]) && AllAnswersOk(w)
    ensures Chain(EngineHandler(rb, w), m, CommandInvoked(command, args), steps)
    ensures var def := rb.pipelines[kind];
            var k := StopAt(w, def, m.tick, 0);
            && |steps| == k + 2
            && Done(steps[k + 1], PhasesRun(m.trace) + Names(def.phases[..k + 1]),
                    w.ids(m.tick), def.phases[k].name, ExitCode(w, m.tick, k))
  {
    var s := CommandHandled(rb, w, m, command, args, kind);
    var rest := RestInOrder(rb, w, s.machine, w.ids(m.tick), kind, m.tick, 0);
    steps := [s] + rest;
    EngineIs(rb, w, m, CommandInvoked(command, args));
    ChainJoins(EngineHandler(rb, w), w, rb.pipelines[kind], m, CommandInvoked(command, args), s, rest, w.ids(m.tick));
  }

  lemma ChainJoins(handle: Handler, w: World, def: PipelineDef, m: Machine, event: Event, s: Step, rest: seq<Step>,
                   id: string)
    requires def.phases != [] && s == handle(m, event) && s.outcome == Ok([PhaseReport(w, def, id, m.tick, 0)])
    requires PhasesRun(s.machine.trace) == PhasesRun(m.trace) + [def.phases[0].name]
    requires Chain(handle, s.machine, PhaseReport(w, def, id, m.tick, 0), rest)
    requires InOrder(w, def, rest, PhasesRun(s.machine.trace), id, m.tick, 0)
    ensures Chain(handle, m, event, [s] + rest)
    ensures var k := StopAt(w, def, m.tick, 0);
            && |[s] + rest| == k + 2
            && Done(([s] + rest)[k + 1], PhasesRun(m.trace) + Names(def.phases[..k + 1]),
                    id, def.phases[k].name, ExitCode(w, m.tick, k))
  {
    ChainCons(handle, m, event, s, PhaseReport(w, def, id, m.tick, 0), rest);
    FirstInOrder(w, def, s, rest, PhasesRun(m.trace), id, m.tick);
  }

  lemma EngineIs(rb: Runbook, w: World, m: Machine, event: Event)
    ensures EngineHandler(rb, w)(m, event) == Handle(rb, w, m, event)
  {
  }

  lemma FirstInOrder(w: World, def: PipelineDef, s: Step, steps: seq<Step>, before: seq<string>, id: string, start: nat)
    requires def.phases != []
    requires InOrder(w, def, steps, before + [def.phases[0].name], id, start, 0)
    ensures var k := StopAt(w, def, start, 0);
            && |steps| == k + 1
            && Done(([s] + steps)[k + 1], before + Names(def.phases[..k + 1]),
                    id, def.phases[k].name, ExitCode(w, start, k))
  {
    var k := StopAt(w, def, start, 0);
    NamesSplit(def.phases, 0, k + 1);
    assert def.phases[..k + 1] == def.phases[0..k + 1];
    assert before + ([def.phases[0].name] + Names(def.phases[1..k + 1]))
        == (before + [def.phases[0].name]) + Names(def.phases[1..k + 1]);
  }

  /** No error, these phases run so far, and this is how the pipeline ends. */
  ghost predicate Done(s: Step, run: seq<string>, id: string, last: string, code: int) {
    s.outcome == Ok([]) && PhasesRun(s.machine.trace) == run && Ended(s.machine.tables, id, last, code)
  }

  /** Main result. One command on a plain pipeline, with every adapter call succeeding: where k is
      the index of the stopping phase, the loop is done without error after exactly k + 2, hence
      at most n + 1, `handle_event` calls; exactly the phases up to k were run, in list order and
      each once; the pipeline is Completed if the last exit code was zero and in phase "failed"
      otherwise. */
  lemma RunsInOrder(rb: Runbook, w: World, m: Machine, command: string, args: map<string, string>, kind: string,
                    fuel: nat)
    requires command in rb.commands && rb.commands[command].run == RunPipeline(kind)
    requires kind in rb.pipelines && Plain(rb.pipelines[kind]) && AllAnswersOk(w)
    ensures var def := rb.pipelines[kind];
            var k := StopAt(w, def, m.tick, 0);
            var r := Process(rb, w, m, [CommandInvoked(command, args)], fuel);
            && (r.Finished? <==> fuel >= k + 2)
            && (r.Finished? ==>
                  Done(r.step, PhasesRun(m.trace) + Names(def.phases[..k + 1]),
                       w.ids(m.tick), def.phases[k].name, ExitCode(w, m.tick, k)))
  {
    var steps := CommandChain(rb, w, m, command, args, kind);
    if fuel >= |steps| {
      ChainFinishes(EngineHandler(rb, w), m, CommandInvoked(command, args), steps, fuel);
    } else {
      ChainWaits(EngineHandler(rb, w), m, CommandInvoked(command, args), steps, fuel);
    }
  }
}
