/** Log refinement: the tables in memory are always the replay of the log, and a restart
    cannot be told from the log, the tables, the effects or the results of what follows. */
module Recovery {
  import opened Core
  import opened Runbook
  import opened State
  import opened Plans
  import opened Execution
  import opened Shapes

  /** After any effects, complete or cut short by a failure, live tables equal the replayed log. */
  lemma LiveIsReplay(w: World, m: Machine, effects: seq<Effect>)
    requires m.tables == Replay(m.log)
    ensures ExecAll(w, m, effects).machine.tables == Replay(ExecAll(w, m, effects).machine.log)
  {
    ExecAllWrites(w, m, effects);
    ApplyAllAppend(EMPTY, m.log, Ops(effects)[..Written(w, m, effects)]);
  }

  /** Over any run the log only grows, and memory is never ahead of it nor behind: what is in the log is
      all that is in the tables, so nothing has changed in memory that was not logged first. */
  lemma {:induction false} LogIsTheTruth(rb: Runbook, w: World, m: Machine, inputs: seq<Input>)
    requires m.tables == Replay(m.log)
    ensures var n := Run(rb, w, m, inputs);
            && n.tables == Replay(n.log)
            && m.log <= n.log
            && (n.log == m.log ==> n.tables == m.tables)
    decreases |inputs|
  {
    if inputs != [] {
      PlanWrites(w, m, InputPlan(rb, w, m, inputs[0]));
      LiveIsReplay(w, m, InputPlan(rb, w, m, inputs[0]).effects);
      LogIsTheTruth(rb, w, Next(rb, w, m, inputs[0]), inputs[1..]);
    }
  }

  /** Equal but for the armed timers, which a restart loses. */
  ghost predicate SameButTimers(a: Machine, b: Machine) { a == b.(timers := a.timers) }

  lemma {:induction false} ExecAllSame(w: World, a: Machine, b: Machine, effects: seq<Effect>)
    requires SameButTimers(a, b)
    ensures SameButTimers(ExecAll(w, a, effects).machine, ExecAll(w, b, effects).machine)
    ensures ExecAll(w, a, effects).outcome == ExecAll(w, b, effects).outcome
    decreases |effects|
  {
    if effects != [] && Exec(w, a, effects[0]).outcome.Ok? {
      ExecAllSame(w, Exec(w, a, effects[0]).machine, Exec(w, b, effects[0]).machine, effects[1..]);
    }
  }

  /** The results of a run, input by input. */
  function Outcomes(rb: Runbook, w: World, m: Machine, inputs: seq<Input>): seq<Outcome>
    decreases |inputs|
  {
    if inputs == [] then []
    else
      [RunPlan(w, m, InputPlan(rb, w, m, inputs[0])).outcome]
      + Outcomes(rb, w, Next(rb, w, m, inputs[0]), inputs[1..])
  }

  lemma {:induction false} RunSame(rb: Runbook, w: World, a: Machine, b: Machine, inputs: seq<Input>)
    requires SameButTimers(a, b)
    ensures SameButTimers(Run(rb, w, a, inputs), Run(rb, w, b, inputs))
    ensures Outcomes(rb, w, a, inputs) == Outcomes(rb, w, b, inputs)
    decreases |inputs|
  {
    if inputs != [] {
      var p := InputPlan(rb, w, a, inputs[0]);
      assert p == InputPlan(rb, w, b, inputs[0]);
      ExecAllSame(w, a, b, p.effects);
      RunSame(rb, w, Next(rb, w, a, inputs[0]), Next(rb, w, b, inputs[0]), inputs[1..]);
    }
  }

  /** Main result: restarting from the log changes nothing that later inputs can show. */
  lemma RestartIsInvisible(rb: Runbook, w: World, m: Machine, inputs: seq<Input>)
    requires m.tables == Replay(m.log)
    ensures SameButTimers(Run(rb, w, Restarted(m), inputs), Run(rb, w, m, inputs))
    ensures Outcomes(rb, w, Restarted(m), inputs) == Outcomes(rb, w, m, inputs)
  {
    RunSame(rb, w, Restarted(m), m, inputs);
  }
}
