/** Redelivery: the same shell report handled twice. */
module Redelivery {
  import opened Wrappers
  import opened Core
  import opened Runbook
  import opened State
  import opened Plans
  import opened Execution
  import opened Shapes
  import opened Quiescence
  import opened Past

  /** The report leads from the phase to the phase itself. */
  predicate SelfLoop(rb: Runbook, p: Pipeline, code: int) {
    if code == 0 then !p.Terminal() && NextPhaseName(rb, p) == Some(p.phase) else OnFail(rb, p) == Some(p.phase)
  }

  /** The phase a report leads to, unless it only completes the pipeline where it is. */
  function LeadsTo(rb: Runbook, p: Pipeline, code: int): string {
    if code == 0 then
      if p.Terminal() then p.phase
      else if NextPhaseName(rb, p).Some? then NextPhaseName(rb, p).value
      else "done"
    else if OnFail(rb, p).Some? then OnFail(rb, p).value
    else "failed"
  }

  function ReportOps(rb: Runbook, p: Pipeline, code: int): seq<Operation> {
    if code == 0 then AdvanceOps(rb, p) else FailOps(rb, p)
  }

  lemma ReportWrites(rb: Runbook, w: World, t: Tables, id: string, code: int)
    requires id in t.pipelines
    ensures var p := t.pipelines[id];
            var effects := ShellPlan(rb, w, t, id, p.phase, code).effects;
            && Ops(effects) == ReportOps(rb, p, code)
            && effects != [] && effects[0].Persist?
  {
    var p := t.pipelines[id];
    AdvanceWrites(rb, w, p);
    FailWrites(rb, w, p, ShellError(code));
  }

  /** These operations keep the pipeline and put it nowhere but in `a` or "done". */
  ghost predicate MovesWithin(ops: seq<Operation>, id: string, a: string) {
    forall op :: op in ops ==>
      && !op.PipelineCreate? && !op.PipelineDelete?
      && (op.PipelineTransition? && op.id == id ==> op.phase == a || op.phase == "done")
  }

  lemma {:induction false} StaysWithin(t: Tables, ops: seq<Operation>, id: string, a: string)
    requires id in t.pipelines && (t.pipelines[id].phase == a || t.pipelines[id].phase == "done")
    requires MovesWithin(ops, id, a)
    ensures var u := ApplyAll(t, ops);
            id in u.pipelines && (u.pipelines[id].phase == a || u.pipelines[id].phase == "done")
    decreases |ops|
  {
    if ops != [] {
      assert ops[0] in ops;
      StaysWithin(ApplyOp(t, ops[0]), ops[1..], id, a);
    }
  }

  /** After a report moved its pipeline to another phase, the pipeline is not where the report was about. */
  lemma MovedAway(rb: Runbook, t: Tables, id: string, code: int, n: nat)
    requires t.Keyed() && id in t.pipelines
    requires !(code == 0 && t.pipelines[id].Terminal())
    requires LeadsTo(rb, t.pipelines[id], code) != t.pipelines[id].phase
    requires 0 < n <= |ReportOps(rb, t.pipelines[id], code)|
    ensures var u := ApplyAll(t, ReportOps(rb, t.pipelines[id], code)[..n]);
            id in u.pipelines && u.pipelines[id].phase != t.pipelines[id].phase
  {
    var p := t.pipelines[id];
    var a := LeadsTo(rb, p, code);
    var ops := ReportOps(rb, p, code);
    var move := PipelineTransition(id, a);
    assert ops[0] == move;
    assert ops[..n][0] == ops[0];
    assert MovesWithin(ops, id, a);
    StaysWithin(ApplyOp(t, move), ops[..n][1..], id, a);
    if code != 0 && p.phase == "done" {
      assert MovesOnlyTo(ops, id, a);
      StaysAt(ApplyOp(t, move), ops[..n][1..], id, a);
    }
  }

  ghost predicate MovesOnlyTo(ops: seq<Operation>, id: string, a: string) {
    forall op :: op in ops ==>
      && !op.PipelineCreate? && !op.PipelineDelete?
      && (op.PipelineTransition? && op.id == id ==> op.phase == a)
  }

  lemma {:induction false} StaysAt(t: Tables, ops: seq<Operation>, id: string, a: string)
    requires id in t.pipelines && t.pipelines[id].phase == a
    requires MovesOnlyTo(ops, id, a)
    ensures id in ApplyAll(t, ops).pipelines && ApplyAll(t, ops).pipelines[id].phase == a
    decreases |ops|
  {
    if ops != [] {
      assert ops[0] in ops;
      StaysAt(ApplyOp(t, ops[0]), ops[1..], id, a);
    }
  }

  lemma FirstAppend(w: World, m: Machine, effects: seq<Effect>)
    requires effects != [] && effects[0].Persist?
    ensures w.answers(m.tick).ok ==> Written(w, m, effects) > 0
    ensures !w.answers(m.tick).ok ==> ExecAll(w, m, effects).outcome.Err? && Written(w, m, effects) == 0
  {
  }

  /** The two reports that leave a pipeline in its phase without a self-loop: success in a
      terminal phase, and failure in "failed" with no `on_fail`. Each writes one operation. */
  lemma InPlace(rb: Runbook, p: Pipeline, code: int)
    requires p.sessionId.None? && !SelfLoop(rb, p, code) && LeadsTo(rb, p, code) == p.phase
    ensures ReportOps(rb, p, code)
         == [if code == 0 then PhaseStatusUpdate(p.id, Completed) else PipelineTransition(p.id, "failed")]
    ensures code != 0 ==> p.phase == "failed" && OnFail(rb, p).None?
    ensures code == 0 ==> p.Terminal()
  {
  }

  /** Main result, any runbook and any failures. A report handled twice leaves the tables as
      handled once, unless it takes a self-loop or its first write to the log failed; and where the
      pipeline has moved away, the second delivery does nothing at all. */
  lemma TwiceIsOnce(rb: Runbook, w: World, m: Machine, id: string, code: int)
    requires m.tables.Keyed() && id in m.tables.pipelines && m.tables.pipelines[id].sessionId.None?
    requires !SelfLoop(rb, m.tables.pipelines[id], code)
    requires w.answers(m.tick).ok
    ensures var report := ShellCompleted(id, m.tables.pipelines[id].phase, code);
            var once := Handle(rb, w, m, report).machine;
            && Handle(rb, w, once, report).machine.tables == once.tables
            && (LeadsTo(rb, m.tables.pipelines[id], code) != m.tables.pipelines[id].phase ==>
                  Handle(rb, w, once, report) == Step(once, Ok([])))
  {
    var p := m.tables.pipelines[id];
    var once := Handle(rb, w, m, ShellCompleted(id, p.phase, code)).machine;
    var n := FirstDelivery(rb, w, m, id, code);
    if LeadsTo(rb, p, code) != p.phase {
      MovedAway(rb, m.tables, id, code, n);
      LeftBehind(rb, w, once, id, p.phase, code);
    } else {
      InPlace(rb, p, code);
      assert ReportOps(rb, p, code)[..n] == ReportOps(rb, p, code);
      InPlaceAgain(rb, w, m, once, id, code);
    }
  }

  /** What a first delivery that could append writes: some of the report's operations, the first at least. */
  lemma FirstDelivery(rb: Runbook, w: World, m: Machine, id: string, code: int) returns (n: nat)
    requires id in m.tables.pipelines && w.answers(m.tick).ok
    ensures var p := m.tables.pipelines[id];
            && 0 < n <= |ReportOps(rb, p, code)|
            && Handle(rb, w, m, ShellCompleted(id, p.phase, code)).machine.tables
               == ApplyAll(m.tables, ReportOps(rb, p, code)[..n])
  {
    var plan := ShellPlan(rb, w, m.tables, id, m.tables.pipelines[id].phase, code);
    ReportWrites(rb, w, m.tables, id, code);
    PlanWrites(w, m, plan);
    FirstAppend(w, m, plan.effects);
    n := Written(w, m, plan.effects);
  }

  lemma LeftBehind(rb: Runbook, w: World, m: Machine, id: string, phase: string, code: int)
    requires id in m.tables.pipelines && m.tables.pipelines[id].phase != phase
    ensures Handle(rb, w, m, ShellCompleted(id, phase, code)) == Step(m, Ok([]))
  {
  }

  lemma InPlaceAgain(rb: Runbook, w: World, m: Machine, once: Machine, id: string, code: int)
    requires m.tables.Keyed() && id in m.tables.pipelines && m.tables.pipelines[id].sessionId.None?
    requires !SelfLoop(rb, m.tables.pipelines[id], code)
    requires LeadsTo(rb, m.tables.pipelines[id], code) == m.tables.pipelines[id].phase
    requires once.tables == ApplyAll(m.tables, ReportOps(rb, m.tables.pipelines[id], code))
    ensures RunPlan(w, once, ShellPlan(rb, w, once.tables, id, m.tables.pipelines[id].phase, code)).machine.tables
         == once.tables
  {
    var p := m.tables.pipelines[id];
    InPlace(rb, p, code);
    var op := ReportOps(rb, p, code)[0];
    ApplyOne(m.tables, op);
    InPlace(rb, once.tables.pipelines[id], code);
    ReportWrites(rb, w, once.tables, id, code);
    OneOpAgain(w, once, ShellPlan(rb, w, once.tables, id, p.phase, code), op);
  }

  /** A plan that writes only what is already so leaves the tables as they are. */
  lemma OneOpAgain(w: World, m: Machine, plan: Plan, op: Operation)
    requires Ops(plan.effects) == [op] && ApplyOp(m.tables, op) == m.tables
    ensures RunPlan(w, m, plan).machine.tables == m.tables
  {
    PlanWrites(w, m, plan);
    ApplyOne(m.tables, op);
    assert [op][..0] == [] && [op][..1] == [op];
  }

  /** The other side of the condition: when the first write fails, the delivery had no effect on
      log or tables, so the second one is the first. */
  lemma FailedWriteIsNoDelivery(rb: Runbook, w: World, m: Machine, id: string, code: int)
    requires id in m.tables.pipelines && !w.answers(m.tick).ok
    ensures var s := Handle(rb, w, m, ShellCompleted(id, m.tables.pipelines[id].phase, code));
            s.outcome == Err(StorageFailed) && s.machine.tables == m.tables && s.machine.log == m.log
  {
    var effects := ShellPlan(rb, w, m.tables, id, m.tables.pipelines[id].phase, code).effects;
    ReportWrites(rb, w, m.tables, id, code);
    FirstFails(w, m, effects);
  }

  lemma FirstFails(w: World, m: Machine, effects: seq<Effect>)
    requires effects != [] && effects[0].Persist? && !w.answers(m.tick).ok
    ensures var s := ExecAll(w, m, effects);
            s.outcome == Err(StorageFailed) && s.machine.tables == m.tables && s.machine.log == m.log
  {
  }

  /** The plan for a report does not look at the status of the record. */
  lemma SamePlanAgain(rb: Runbook, w: World, t: Tables, u: Tables, id: string, phase: string, code: int)
    requires id in t.pipelines && id in u.pipelines
    requires u.pipelines[id] == t.pipelines[id].(status := u.pipelines[id].status)
    ensures ShellPlan(rb, w, u, id, phase, code) == ShellPlan(rb, w, t, id, phase, code)
  {
    StatusDoesNotMatter(rb, w, t.pipelines[id], u.pipelines[id].status, code);
  }

  /** The tables after a report that was handled without failure. */
  lemma HandledTables(rb: Runbook, w: World, m: Machine, id: string, code: int)
    requires id in m.tables.pipelines
    ensures var p := m.tables.pipelines[id];
            var s := Handle(rb, w, m, ShellCompleted(id, p.phase, code));
            s.outcome.Ok? ==> s.machine.tables == ApplyAll(m.tables, ReportOps(rb, p, code))
  {
    ReportWrites(rb, w, m.tables, id, code);
    PlanWrites(w, m, ShellPlan(rb, w, m.tables, id, m.tables.pipelines[id].phase, code));
  }

  /** ... and on a self-loop the second delivery asks for everything the first one did: the phase
      is started again. */
  lemma SelfLoopStartsAgain(rb: Runbook, w: World, m: Machine, id: string, code: int)
    requires m.tables.Keyed() && id in m.tables.pipelines
    requires SelfLoop(rb, m.tables.pipelines[id], code)
    ensures var p := m.tables.pipelines[id];
            var s := Handle(rb, w, m, ShellCompleted(id, p.phase, code));
            s.outcome.Ok? ==>
              ShellPlan(rb, w, s.machine.tables, id, p.phase, code) == ShellPlan(rb, w, m.tables, id, p.phase, code)
  {
    var p := m.tables.pipelines[id];
    HandledTables(rb, w, m, id, code);
    var u := Handle(rb, w, m, ShellCompleted(id, p.phase, code)).machine.tables;
    if u == ApplyAll(m.tables, ReportOps(rb, p, code)) {
      SelfLoopKeepsRecord(rb, m.tables, id, code);
      SamePlanAgain(rb, w, m.tables, u, id, p.phase, code);
    }
  }

  /** That plan begins the phase anew: its first write moves the pipeline to where it is. */
  lemma SelfLoopMoves(rb: Runbook, w: World, t: Tables, id: string, code: int)
    requires t.Keyed() && id in t.pipelines && SelfLoop(rb, t.pipelines[id], code)
    ensures var ops := Ops(ShellPlan(rb, w, t, id, t.pipelines[id].phase, code).effects);
            ops != [] && ops[0] == PipelineTransition(id, t.pipelines[id].phase)
  {
    ReportWrites(rb, w, t, id, code);
  }

  // ------------------------------------------------------- the exact condition

  /** A second delivery of the same report leaves the tables as the first one did. */
  ghost predicate HandledOnce(rb: Runbook, w: World, m: Machine, id: string, code: int)
    requires id in m.tables.pipelines
  {
    var report := ShellCompleted(id, m.tables.pipelines[id].phase, code);
    var once := Handle(rb, w, m, report).machine;
    Handle(rb, w, once, report).machine.tables == once.tables
  }

  /** Effects that first move a pipeline to a phase and mark it running there, and then create at most
      sessions. */
  ghost predicate Loops(effects: seq<Effect>, id: string, phase: string) {
    && |effects| >= 4
    && effects[0] == Persist(PipelineTransition(id, phase)) && effects[1].Emit?
    && effects[2] == Persist(PhaseStatusUpdate(id, Running)) && effects[3].Emit?
    && forall e :: e in effects[4..] ==> e.Persist? ==> e.operation.SessionCreate?
  }

  /** Starting a phase marks it running, and then creates at most a session. */
  lemma StartMarks(rb: Runbook, w: World, p: Pipeline, phase: string, inputs: map<string, string>, workspace: string)
    requires HasPhase(rb, p.kind, phase)
    ensures var effects := StartPlan(rb, w, p, phase, inputs, workspace).effects;
            && |effects| >= 2 && effects[..2] == PhaseStartEffects(p.id, phase)
            && forall e :: e in effects[2..] ==> e.Persist? ==> e.operation.SessionCreate?
  {
    var run := rb.pipelines[p.kind].GetPhase(phase).value.run;
    var body := RunPlanOf(rb, w, p, phase, run, inputs, workspace);
    var effects := StartPlan(rb, w, p, phase, inputs, workspace).effects;
    assert effects == PhaseStartEffects(p.id, phase) + body.effects;
    assert effects[2..] == body.effects;
  }

  lemma HeadThenStart(head: seq<Effect>, start: seq<Effect>, id: string, phase: string)
    requires |head| == 2 && head[0] == Persist(PipelineTransition(id, phase)) && head[1].Emit?
    requires |start| >= 2 && start[..2] == PhaseStartEffects(id, phase)
    requires forall e :: e in start[2..] ==> e.Persist? ==> e.operation.SessionCreate?
    ensures Loops(head + start, id, phase)
  {
    var effects := head + start;
    assert effects[2] == start[..2][0] && effects[3] == start[..2][1];
    assert effects[4..] == start[2..];
  }

  lemma SelfLoopEffects(rb: Runbook, w: World, t: Tables, id: string, code: int)
    requires t.Keyed() && id in t.pipelines && SelfLoop(rb, t.pipelines[id], code)
    ensures var phase := t.pipelines[id].phase;
            Loops(ShellPlan(rb, w, t, id, phase, code).effects, id, phase)
  {
    var p := t.pipelines[id];
    var start := StartPlan(rb, w, p, p.phase, p.inputs, WorkspacePath(w, p));
    var head := if code == 0 then PhaseTransitionEffects(p, p.phase)
                else FailureTransitionEffects(p, p.phase, ShellError(code));
    StartMarks(rb, w, p, p.phase, p.inputs, WorkspacePath(w, p));
    HeadThenStart(head, start.effects, id, p.phase);
  }

  /** Effects that write nothing but sessions leave every pipeline as it is. */
  lemma {:induction false} SessionsOnly(w: World, m: Machine, effects: seq<Effect>)
    requires forall e :: e in effects ==> e.Persist? ==> e.operation.SessionCreate?
    ensures ExecAll(w, m, effects).machine.tables.pipelines == m.tables.pipelines
    decreases |effects|
  {
    if effects != [] {
      assert effects[0] in effects;
      if Exec(w, m, effects[0]).outcome.Ok? {
        SessionsOnly(w, Exec(w, m, effects[0]).machine, effects[1..]);
      }
    }
  }

  /** The effects that a report on a self-loop performs, as far as it gets. */
  lemma SelfLoopRun(rb: Runbook, w: World, m: Machine, id: string, code: int) returns (effects: seq<Effect>)
    requires m.tables.Keyed() && id in m.tables.pipelines && SelfLoop(rb, m.tables.pipelines[id], code)
    ensures Handle(rb, w, m, ShellCompleted(id, m.tables.pipelines[id].phase, code)).machine
         == ExecAll(w, m, effects).machine
    ensures Loops(effects, id, m.tables.pipelines[id].phase)
  {
    effects := ShellPlan(rb, w, m.tables, id, m.tables.pipelines[id].phase, code).effects;
    SelfLoopEffects(rb, w, m.tables, id, code);
  }

  /** After a first delivery that met no failure up to there, the pipeline runs in its phase. */
  lemma RunsAgain(rb: Runbook, w: World, m: Machine, id: string, code: int)
    requires m.tables.Keyed() && id in m.tables.pipelines && SelfLoop(rb, m.tables.pipelines[id], code)
    requires forall t: nat :: t < m.tick + 4 ==> w.answers(t).ok
    ensures var p := m.tables.pipelines[id];
            var once := Handle(rb, w, m, ShellCompleted(id, p.phase, code)).machine;
            && once.tick >= m.tick + 4 && once.tables.Keyed()
            && id in once.tables.pipelines && once.tables.pipelines[id] == p.(status := Running)
  {
    var effects := SelfLoopRun(rb, w, m, id, code);
    FourAndMore(w, m, effects, id, m.tables.pipelines[id].phase);
  }

  lemma FourAndMore(w: World, m: Machine, effects: seq<Effect>, id: string, phase: string)
    requires m.tables.Keyed() && id in m.tables.pipelines && Loops(effects, id, phase)
    requires forall t: nat :: t < m.tick + 4 ==> w.answers(t).ok
    ensures var n := ExecAll(w, m, effects).machine;
            && n.tick >= m.tick + 4 && n.tables.Keyed()
            && n.tables.pipelines
               == m.tables.pipelines[id := m.tables.pipelines[id].(phase := phase, status := Running)]
  {
    assert effects == effects[..4] + effects[4..];
    ExecAllAppend(w, m, effects[..4], effects[4..]);
    var s := FourSteps(w, m, effects[..4], id, phase);
    ExecAllWrites(w, s.machine, effects[4..]);
    SessionsOnly(w, s.machine, effects[4..]);
  }

  lemma FourSteps(w: World, m: Machine, effects: seq<Effect>, id: string, phase: string) returns (s: Step)
    requires id in m.tables.pipelines && |effects| == 4
    requires effects[0] == Persist(PipelineTransition(id, phase)) && effects[1].Emit?
    requires effects[2] == Persist(PhaseStatusUpdate(id, Running)) && effects[3].Emit?
    requires forall t: nat :: t < m.tick + 4 ==> w.answers(t).ok
    ensures s == ExecAll(w, m, effects) && s.outcome.Ok? && s.machine.tick == m.tick + 4
    ensures s.machine.tables.pipelines
         == m.tables.pipelines[id := m.tables.pipelines[id].(phase := phase, status := Running)]
  {
    s := ExecAll(w, m, effects);
    var a := Exec(w, m, effects[0]);
    var b := Exec(w, a.machine, effects[1]);
    var c := Exec(w, b.machine, effects[2]);
    var d := Exec(w, c.machine, effects[3]);
    assert ExecAll(w, d.machine, effects[1..][1..][1..][1..]) == Step(d.machine, Ok([]));
    assert ExecAll(w, c.machine, effects[1..][1..][1..]).machine == d.machine;
    assert ExecAll(w, b.machine, effects[1..][1..]).machine == d.machine;
    assert ExecAll(w, a.machine, effects[1..]).machine == d.machine;
  }

  /** A second delivery whose move is written and whose announcement fails leaves the pipeline Pending. */
  lemma CutSecond(rb: Runbook, w: World, m: Machine, id: string, code: int)
    requires m.tables.Keyed() && id in m.tables.pipelines && SelfLoop(rb, m.tables.pipelines[id], code)
    requires w.answers(m.tick).ok && !w.answers(m.tick + 1).ok
    ensures var p := m.tables.pipelines[id];
            var s := Handle(rb, w, m, ShellCompleted(id, p.phase, code));
            id in s.machine.tables.pipelines && s.machine.tables.pipelines[id].status == Pending
  {
    var effects := SelfLoopRun(rb, w, m, id, code);
    CutAfterMove(w, m, effects, id, m.tables.pipelines[id].phase);
  }

  lemma CutAfterMove(w: World, m: Machine, effects: seq<Effect>, id: string, phase: string)
    requires id in m.tables.pipelines && Loops(effects, id, phase)
    requires w.answers(m.tick).ok && !w.answers(m.tick + 1).ok
    ensures var n := ExecAll(w, m, effects).machine;
            id in n.tables.pipelines && n.tables.pipelines[id].status == Pending
  {
    var a := Exec(w, m, effects[0]);
    assert ExecAll(w, a.machine, effects[1..]) == Exec(w, a.machine, effects[1..][0]);
  }

  /** Answers that fail once, at `tick`. */
  function FailingAt(tick: nat): nat -> Answer { (t: nat) => Answer(t != tick, 0, 0, None) }

  /** On a self-loop there are answers, the first append succeeding, for which two deliveries leave other
      tables than one: the first succeeds throughout, and the second is cut after its move. */
  lemma SelfLoopShows(rb: Runbook, w: World, m: Machine, id: string, code: int) returns (answers: nat -> Answer)
    requires m.tables.Keyed() && id in m.tables.pipelines && SelfLoop(rb, m.tables.pipelines[id], code)
    ensures answers(m.tick).ok && !HandledOnce(rb, w.(answers := answers), m, id, code)
  {
    var p := m.tables.pipelines[id];
    var report := ShellCompleted(id, p.phase, code);
    var quiet := w.(answers := (t: nat) => Answer(true, 0, 0, None));
    var once := Handle(rb, quiet, m, report).machine;
    RunsAgain(rb, quiet, m, id, code);
    answers := FailingAt(once.tick + 1);
    var v := w.(answers := answers);
    assert AlikeUntil(quiet, v, once.tick);
    ReportAlike(rb, quiet, v, m, id, code);
    SelfLoopStays(rb, p, Running, code);
    CutSecond(rb, v, once, id, code);
  }

  lemma ReportAlike(rb: Runbook, u: World, v: World, m: Machine, id: string, code: int)
    requires id in m.tables.pipelines
    requires AlikeUntil(u, v, Handle(rb, u, m, ShellCompleted(id, m.tables.pipelines[id].phase, code)).machine.tick)
    ensures var report := ShellCompleted(id, m.tables.pipelines[id].phase, code);
            Handle(rb, v, m, report) == Handle(rb, u, m, report)
  {
    var phase := m.tables.pipelines[id].phase;
    ShellAlike(rb, u, v, m.tables, id, phase, code);
    ExecAllAlike(u, v, m, ShellPlan(rb, u, m.tables, id, phase, code).effects);
  }

  lemma SelfLoopStays(rb: Runbook, p: Pipeline, status: PhaseStatus, code: int)
    requires SelfLoop(rb, p, code)
    ensures SelfLoop(rb, p.(status := status), code)
  {
  }

  /** Main result: the condition is exact. For a stored pipeline without a linked session, a report whose
      first append succeeds is handled once however often it is delivered, whatever the world answers, if
      and only if it takes no self-loop. */
  lemma OnceIffNoSelfLoop(rb: Runbook, w: World, m: Machine, id: string, code: int)
    requires m.tables.Keyed() && id in m.tables.pipelines && m.tables.pipelines[id].sessionId.None?
    ensures (forall answers: nat -> Answer :: answers(m.tick).ok ==>
               HandledOnce(rb, w.(answers := answers), m, id, code))
       <==> !SelfLoop(rb, m.tables.pipelines[id], code)
  {
    if SelfLoop(rb, m.tables.pipelines[id], code) {
      var answers := SelfLoopShows(rb, w, m, id, code);
    } else {
      forall answers: nat -> Answer | answers(m.tick).ok
        ensures HandledOnce(rb, w.(answers := answers), m, id, code)
      {
        TwiceIsOnce(rb, w.(answers := answers), m, id, code);
      }
    }
  }

  /** Two deliveries that both succeed leave the tables as one does, self-loop or not. */
  lemma BothSucceed(rb: Runbook, w: World, m: Machine, id: string, code: int)
    requires m.tables.Keyed() && id in m.tables.pipelines && m.tables.pipelines[id].sessionId.None?
    ensures var report := ShellCompleted(id, m.tables.pipelines[id].phase, code);
            var once := Handle(rb, w, m, report);
            once.outcome.Ok? && Handle(rb, w, once.machine, report).outcome.Ok? ==> HandledOnce(rb, w, m, id, code)
  {
    var p := m.tables.pipelines[id];
    var report := ShellCompleted(id, p.phase, code);
    var once := Handle(rb, w, m, report);
    if once.outcome.Ok? && Handle(rb, w, once.machine, report).outcome.Ok? {
      if SelfLoop(rb, p, code) {
        LoopTwice(rb, w, m, id, code);
      } else {
        ReportWrites(rb, w, m.tables, id, code);
        FirstAppend(w, m, ShellPlan(rb, w, m.tables, id, p.phase, code).effects);
        TwiceIsOnce(rb, w, m, id, code);
      }
    }
  }

  lemma LoopTwice(rb: Runbook, w: World, m: Machine, id: string, code: int)
    requires m.tables.Keyed() && id in m.tables.pipelines && SelfLoop(rb, m.tables.pipelines[id], code)
    requires var report := ShellCompleted(id, m.tables.pipelines[id].phase, code);
             var once := Handle(rb, w, m, report);
             once.outcome.Ok? && Handle(rb, w, once.machine, report).outcome.Ok?
    ensures HandledOnce(rb, w, m, id, code)
  {
    var p := m.tables.pipelines[id];
    var once := Handle(rb, w, m, ShellCompleted(id, p.phase, code)).machine;
    HandledTables(rb, w, m, id, code);
    SelfLoopKeepsRecord(rb, m.tables, id, code);
    HandledTables(rb, w, once, id, code);
    LoopOpsTwice(rb, m.tables, once.tables, id, code);
  }

  lemma LoopOpsTwice(rb: Runbook, t: Tables, u: Tables, id: string, code: int)
    requires t.Keyed() && id in t.pipelines && SelfLoop(rb, t.pipelines[id], code)
    requires u == ApplyAll(t, ReportOps(rb, t.pipelines[id], code))
    requires id in u.pipelines && u.pipelines[id] == t.pipelines[id].(status := u.pipelines[id].status)
    ensures ApplyAll(u, ReportOps(rb, u.pipelines[id], code)) == u
  {
    var p := t.pipelines[id];
    var rest := LoopOps(rb, p, p.status, code);
    var same := LoopOps(rb, p, u.pipelines[id].status, code);
    LoopReached(t, id, p.phase, rest);
    LoopFixed(u, id, p.phase, rest);
  }

  /** A self-loop's operations: the move, the mark, and perhaps a session; the status is not looked at. */
  lemma LoopOps(rb: Runbook, p: Pipeline, status: PhaseStatus, code: int) returns (rest: seq<Operation>)
    requires SelfLoop(rb, p, code)
    ensures rest == if HasPhase(rb, p.kind, p.phase)
                    then RunOps(rb, p, rb.pipelines[p.kind].GetPhase(p.phase).value.run) else []
    ensures rest == [] || rest == [SessionCreate(p.id, p.id)]
    ensures forall t :: ApplyAll(t, ReportOps(rb, p.(status := status), code)) == Looped(t, p.id, p.phase, rest)
  {
    rest := RunOps(rb, p, rb.pipelines[p.kind].GetPhase(p.phase).value.run);
    assert ReportOps(rb, p.(status := status), code)
        == [PipelineTransition(p.id, p.phase)] + ([PhaseStatusUpdate(p.id, Running)] + rest);
  }

  /** A self-loop's operations on any tables. */
  function Looped(t: Tables, id: string, phase: string, rest: seq<Operation>): Tables {
    ApplyAll(t, [PipelineTransition(id, phase)] + ([PhaseStatusUpdate(id, Running)] + rest))
  }

  lemma LoopSteps(t: Tables, id: string, phase: string, rest: seq<Operation>)
    ensures Looped(t, id, phase, rest)
         == ApplyAll(ApplyOp(ApplyOp(t, PipelineTransition(id, phase)), PhaseStatusUpdate(id, Running)), rest)
  {
    var move, mark := PipelineTransition(id, phase), PhaseStatusUpdate(id, Running);
    var marked := [mark] + rest;
    assert ([move] + marked)[1..] == marked && marked[1..] == rest;
    assert ApplyAll(t, [move] + marked) == ApplyAll(ApplyOp(t, move), marked);
  }

  lemma ApplyOne(t: Tables, op: Operation)
    ensures ApplyAll(t, [op]) == ApplyOp(t, op)
  {
    assert [op][1..] == [];
    assert ApplyAll(t, [op]) == ApplyAll(ApplyOp(t, op), []);
  }

  /** They leave the pipeline running in that phase, with its session if one was created. */
  lemma LoopReached(t: Tables, id: string, phase: string, rest: seq<Operation>)
    requires id in t.pipelines && (rest == [] || rest == [SessionCreate(id, id)])
    ensures var u := Looped(t, id, phase, rest);
            && id in u.pipelines && u.pipelines[id].phase == phase && u.pipelines[id].status == Running
            && (rest != [] ==> id in u.sessions && u.sessions[id] == Session(id, id))
  {
    LoopSteps(t, id, phase, rest);
    if rest != [] {
      ApplyOne(ApplyOp(ApplyOp(t, PipelineTransition(id, phase)), PhaseStatusUpdate(id, Running)), rest[0]);
    }
  }

  /** ... and from there change nothing. */
  lemma LoopFixed(u: Tables, id: string, phase: string, rest: seq<Operation>)
    requires id in u.pipelines && u.pipelines[id].phase == phase && u.pipelines[id].status == Running
    requires rest == [] || (rest == [SessionCreate(id, id)] && id in u.sessions && u.sessions[id] == Session(id, id))
    ensures Looped(u, id, phase, rest) == u
  {
    var v := ApplyOp(ApplyOp(u, PipelineTransition(id, phase)), PhaseStatusUpdate(id, Running));
    LoopSteps(u, id, phase, rest);
    assert v.pipelines == u.pipelines && v == u;
    if rest != [] {
      ApplyOne(v, rest[0]);
      assert u.sessions[id := Session(id, id)] == u.sessions;
    }
  }

  // ------------------------------------------------------------- stale reports

  /** The report of a phase that its pipeline has left. */
  predicate Stale(m: Machine, i: Input) {
    && i.Complete? && i.call.Deliver? && i.call.event.ShellCompleted?
    && i.call.event.pipelineId in m.tables.pipelines
    && m.tables.pipelines[i.call.event.pipelineId].phase != i.call.event.phase
  }

  /** A history without the reports that were stale when they came. */
  function WithoutStale(rb: Runbook, w: World, m: Machine, inputs: seq<Input>): seq<Input>
    decreases |inputs|
  {
    if inputs == [] then []
    else if Stale(m, inputs[0]) then WithoutStale(rb, w, m, inputs[1..])
    else [inputs[0]] + WithoutStale(rb, w, Next(rb, w, m, inputs[0]), inputs[1..])
  }

  /** Stale reports might as well not have come: wherever they occur in a history, dropping them all leads
      to the very same machine, down to timers, ticks and effects. */
  lemma {:induction false} StaleReportsDropOut(rb: Runbook, w: World, m: Machine, inputs: seq<Input>)
    ensures Run(rb, w, m, WithoutStale(rb, w, m, inputs)) == Run(rb, w, m, inputs)
    decreases |inputs|
  {
    if inputs != [] {
      if Stale(m, inputs[0]) {
        assert Next(rb, w, m, inputs[0]) == m;
        StaleReportsDropOut(rb, w, m, inputs[1..]);
      } else {
        var rest := WithoutStale(rb, w, Next(rb, w, m, inputs[0]), inputs[1..]);
        assert ([inputs[0]] + rest)[1..] == rest;
        StaleReportsDropOut(rb, w, Next(rb, w, m, inputs[0]), inputs[1..]);
      }
    }
  }

  // ------------------------------------------------------- plans and the status

  lemma StatusDoesNotMatter(rb: Runbook, w: World, p: Pipeline, status: PhaseStatus, code: int)
    ensures AdvancePlan(rb, w, p.(status := status)) == AdvancePlan(rb, w, p)
    ensures FailPlan(rb, w, p.(status := status), ShellError(code)) == FailPlan(rb, w, p, ShellError(code))
  {
    var q := p.(status := status);
    assert OnFail(rb, q) == OnFail(rb, p);
    assert NextPhaseName(rb, q) == NextPhaseName(rb, p);
    if OnFail(rb, p).Some? {
      StartIgnoresStatus(rb, w, p, status, OnFail(rb, p).value);
    }
    if NextPhaseName(rb, p).Some? {
      StartIgnoresStatus(rb, w, p, status, NextPhaseName(rb, p).value);
    }
  }

  lemma StartIgnoresStatus(rb: Runbook, w: World, p: Pipeline, status: PhaseStatus, phase: string)
    ensures var q := p.(status := status);
            StartPlan(rb, w, q, phase, q.inputs, WorkspacePath(w, q))
            == StartPlan(rb, w, p, phase, p.inputs, WorkspacePath(w, p))
  {
    if HasPhase(rb, p.kind, phase) {
      var run := rb.pipelines[p.kind].GetPhase(phase).value.run;
      assert RunPlanOf(rb, w, p.(status := status), phase, run, p.inputs, WorkspacePath(w, p))
          == RunPlanOf(rb, w, p, phase, run, p.inputs, WorkspacePath(w, p));
    }
  }

  lemma SelfLoopKeepsRecord(rb: Runbook, t: Tables, id: string, code: int)
    requires t.Keyed() && id in t.pipelines
    requires SelfLoop(rb, t.pipelines[id], code)
    ensures var u := ApplyAll(t, ReportOps(rb, t.pipelines[id], code));
            id in u.pipelines && u.pipelines[id] == t.pipelines[id].(status := u.pipelines[id].status)
  {
    var p := t.pipelines[id];
    var move := PipelineTransition(id, p.phase);
    var rest := StartOps(rb, p, p.phase);
    assert ReportOps(rb, p, code) == [move] + rest;
    assert ([move] + rest)[1..] == rest;
    SamePhaseOps(ApplyOp(t, move), rest, id);
  }
}
