# A verified model of the oj engine

oj runs *pipelines* of shell commands and coding agents. A daemon receives events, an engine turns each
event into an ordered list of effects, and every change of state is an operation that is appended to a
write-ahead log before it is applied in memory. This project models that machinery in Dafny and proves what
it keeps over whole runs, at every crash point, and for every behaviour of the outside world. Beside it are
the argument-spec parser and binder, template interpolation, the timer scheduler, the text of the log and
the framing of messages.

## How the model is built

- **Values.** `Core`, `Runbook` and `State` hold the data. `Plans` holds, as functions, the effects each
  handler sets out to perform on the state it finds, with the definitional error it ends in if there is one.
  `Execution` runs effects on a `Machine`: the log, the tables, the armed timers, the number of effects
  attempted, and their trace.
- **The outside world** is a value `World`: for every attempted effect, whether it succeeded, with which exit
  code, at what time and what the session log then showed; the ids handed out; the environment. Theorems
  quantify over all worlds, hence over all adapter failures, exit codes and clocks. Fresh ids are the only
  assumption about it. `Past` shows that what has been done so far depends only on the answers given so far,
  which is how the counterexamples choose their worlds.
- **Objects.** `Engine` (`Executor`, `Runtime`), `Daemon`, `State`, `Wal`, `Scheduler`, `Protocol` and
  `ArgSpec` contain the classes and loops of the program. Their methods follow the source's control flow,
  reading the live state where the source does, and are proved equal to the functions; the theorems are then
  about those functions.
- **Runs.** `Shapes` lists what may happen to a running engine: a call with any event, the two session-exit
  calls, a restart, and a crash after any number of the effects of any of these calls. It shows that what a
  call writes always has one of seven shapes, from which the invariants follow. `Service` is the daemon around
  it, which hears nothing else until the loop over an event and all it leads to is done or a crash cuts it
  short.

## What is proved

- **Crash-anywhere safety** (`Safety`). Every prefix of the log of every run replays to sound tables.
- **Log refinement** (`Recovery`). Live state is the replay of the log after every effect, and a restart
  cannot be told from what follows it.
- **Walks** (`Walks`, `Routes`) and **no dead ends** (`DeadEnds`). For any runbook the logged phases of a
  pipeline form a walk in its graph. Where all that commands run is defined, reports about a pipeline, the exit
  of its session or agent included, never fail for a missing definition.
- **Termination** (`EventLoop`, `Quiescence`, `Termination`, `Cycles`, `Service`, `Divergence`). For any
  runbook, any supply of fresh ids and any environment: the daemon gets done with every event, after every
  history from its first start, crashes included, and whatever is answered outside, if and only if no kind that
  a command runs has a cycle of shell phases that a route from its first phase leads to, by success and failure
  and through any phases. When the loop ends without an error, the pipeline that the event moved is at rest.
  Where there is such a cycle, a history in which nothing fails or crashes leads into it, by one command,
  reports of agents, and exit codes.
- **What is done** (`Deeds`, `Actions`). Over any run, every effect ever attempted is one that the runbook calls
  for: each shell command and each session is its phase's or agent's text, interpolated with the inputs of its
  pipeline and with its id, name and directory, behind the effects that start it and behind the adding of the
  worktree that the pipeline's record names. Call by call, what is set out to be done is stated in terms of the
  graph, the runbook's words and the data of the call, refusals included.
- **Sequential exactness** (`Sequential`), **isolation and addressing** (`Isolation`), **workspace
  agreement** (`Directories`), **no lost monitor** (`Monitor`).
- **Redelivery** (`Redelivery`). A shell report whose first append succeeds is handled once however often it
  comes, whatever the world answers, if and only if it takes no self-loop.
- **Argument specs.** Parsed specs are sound (`ArgSpec`), printing and parsing is a round trip
  (`ArgRoundTrip`), a text of arguments is accepted if and only if its arguments obey three laws, and otherwise
  the error names the first that does not (`ArgLaws`), and validation agrees with binding if and only if no required argument is shadowed by
  another of its name (`ArgBinding`).
- **Interpolation** (`Rewriting`, `Template`), with the exact condition for a second pass to change nothing;
  **log text** (`Wal`), **timers** (`Scheduler`), **framing** (`Protocol`).

## What the proofs found

- In every reachable state no pipeline has a linked session or workspace path, because nothing sets the first
  and the workspace record is written before the pipeline exists. A session check of a live pipeline therefore
  never acts: it ends in an error, at the latest "no workspace" (`Termination.TimersAreQuiet`), and a session
  exit finds no owner. `Monitor` states its result over arbitrary pipelines instead.
- The daemon polls a scheduler of its own, which the engine never fills; a heartbeat on it changes nothing
  (`Daemon.Daemon.CheckHeartbeats`).
- A failed append still takes a log number, so numbers are consecutive if and only if no session gets a write
  on file after a failed one (`Wal.LogOverSessions`).
- A write that stops within its line makes the log unreadable for good: no later start of the daemon succeeds
  (`Wal.TornIsForEver`). The exact condition for a log to replay is in `Wal.ReplayOfAnyHistory`.
- A shell report that takes a self-loop is not always handled once: if the first delivery succeeds and the
  second is cut after its first append, the pipeline is left Pending where it was Running
  (`Redelivery.OnceIffNoSelfLoop`). Two deliveries that both succeed agree even there
  (`Redelivery.BothSucceed`). When the first append failed, the first delivery was none
  (`Redelivery.FailedWriteIsNoDelivery`).
- An explicit `next = "failed"` without such a phase ends in phase "done" and Completed
  (`Quiescence.UndefinedTerminalCompletes`).
- A repeated phase name can make the loop run for ever: with shell phases a, b, a and nothing but successes,
  one command never finishes (`Divergence.RepeatedNameLoops`). Repeated names are no case of their own: names
  are looked up by their first phase, and the condition on reachable shell cycles covers them.
- "pipeline:resume" marks a pipeline Running and starts nothing: a pipeline in a shell phase whose command is
  over stays parked there (`Termination.ResumeStays`).
- Interpolating twice can differ from interpolating once, exactly where a brace that opens no placeholder
  stands before characters that could begin a name and run into a placeholder
  (`Template.IdempotentIffNotExposed`).
- A flag written without brackets swallows a following `<..>` (`ArgRoundTrip.FlagBeforeAngle`).
- Validation is exact for every parsed spec. The table form of a spec can repeat names, and then validation
  can refuse input that binds every required name (`ArgBinding.RepeatedNamesAreStricter`); when it can is
  `ArgBinding.ExactIffUnshadowed`.

## Model

| member | source | states |
|---|---|---|
| `Safety.CrashAnywhere` | crates/engine/src/phases.rs:98-142 | Over every run, with any events, failures and crash points, every prefix of the written log replays to tables where Completed implies a terminal phase, Failed is never stored, every key is its record's id, every session names a stored pipeline and every pipeline has a workspace under its id at the computed path. |
| `Safety.NextKeepsInvariant` | crates/engine/src/runtime.rs:78-122 | One input of any kind, however far it gets, keeps the invariant: tables equal replay, every log prefix is sound, workspace ids were all handed out before. |
| `Safety.RunKeepsInvariant` | crates/engine/src/runtime.rs:78-122 | The invariant holds after any sequence of inputs. |
| `Safety.ShapeAllowed` | crates/engine/src/runtime.rs:398-499 | Each shape of operations a handler can write is accepted, operation by operation, by sound tables. |
| `Safety.AllowedKeepsSound` | crates/storage/src/state.rs:58-131 | An allowed operation keeps the tables sound. |
| `Shapes.EventShape` | crates/engine/src/runtime.rs:78-122 | The operations of an event's effects are one of seven shapes, fit the tables it found, and are about the pipeline the event addresses. |
| `Shapes.InputShape` | crates/engine/src/runtime.rs:639-671 | Every input writes a prefix of a shape that fits: calls with events, the session-exit calls, restarts, and any of these calls cut short by a crash. |
| `Shapes.AdvanceWrites` | crates/engine/src/runtime.rs:398-459 | Advancing writes the move to the next phase and its start, or "done" and completion. |
| `Shapes.FailWrites` | crates/engine/src/runtime.rs:462-493 | Failing writes the move to `on_fail` and its start, or "failed". |
| `Shapes.CommandWrites` | crates/engine/src/runtime.rs:145-185 | A command writes workspace, pipeline, and the start of the first phase, under one fresh id. |
| `Shapes.CompleteWrites` | crates/engine/src/phases.rs:98-142 | Completion writes "done" unless already terminal, then Completed, then the removal of a linked session. |
| `Shapes.ActionWrites` | crates/engine/src/monitor.rs:67-177 | An agent action writes nothing, or what advancing, failing, spawning or waiting writes. |
| `Recovery.LiveIsReplay` | crates/engine/src/executor.rs:168-178 | After any effects, complete or cut short by a failure, live tables equal the fold of the log. |
| `Recovery.LogIsTheTruth` | crates/engine/src/executor.rs:168-178 | Over any run, crashes included, the log only grows, the tables are at its end what it replays to, and a run that logged nothing changed no table. |
| `Recovery.RestartIsInvisible` | crates/daemon/src/lifecycle.rs:247-252 | An engine restarted from replay gives, for all later inputs, the same log, tables, effects and results; only armed timers are lost. |
| `Execution.ExecAllWrites` | crates/engine/src/executor.rs:250-258 | Whatever fails, what a list of effects writes is a prefix of its operations, all of them on success. |
| `Execution.RunBefore` | crates/engine/src/executor.rs:250-258 | Running effects in two parts is running them in one, stopping at the first failure. |
| `Walks.PhasesFormAWalk` | crates/engine/src/runtime.rs:398-493 | Over any run of any runbook, the phases logged for a pipeline form a walk from its first phase to its present one, along success edges, `on_fail` edges, "done" and "failed"; a terminal phase is left only by a failure, or for "done" where `next` named "failed" and that is not defined. |
| `Routes.RunKeepsPlaces` | crates/engine/src/runtime.rs:124-185 | Over any run a stored pipeline is of a kind that some command runs, and stands in a phase that a route of calls leads to, or in an undefined "failed". |
| `Walks.NextIsSuccessTarget` | crates/runbook/src/pipeline.rs:80-89 | The engine's next phase is the graph's: explicit `next`, then list order, then "done". |
| `Walks.OnFailIsFailureTarget` | crates/engine/src/runtime.rs:467-471 | The engine's failure phase is the graph's: `on_fail`, or "failed". |
| `Walks.NextPhaseIsTarget` | crates/runbook/src/pipeline.rs:80-89 | A definition's next phase is the graph's success target, where that is defined. |
| `Walks.ShapeWalks` | crates/engine/src/runtime.rs:398-493 | Every shape moves its pipeline only along edges of the graph. |
| `Walks.RunKeepsWalks` | crates/engine/src/runtime.rs:78-122 | The walk invariant holds after any sequence of inputs. |
| `DeadEnds.WorkspaceIsNeverMissing` | crates/engine/src/executor.rs:104-128 | For any runbook, in a reachable state no call, with an event or for an exited session or agent, ends in WorkspaceNotFound; its errors come from outside or are the one its definitions cause. |
| `DeadEnds.NoDeadEnds` | crates/engine/src/runtime.rs:315-532 | Where all that commands run is defined, in every reachable state, reports about a stored pipeline (done, error, a shell's exit, the loss of its session, the exit of its agent unless it is to be nudged then) fail only when the outside world fails. |
| `Quiescence.ReportSettles` | crates/engine/src/runtime.rs:279-312 | For any runbook, a handled shell report leaves its pipeline at rest, or in one shell phase whose report is the only event. |
| `Quiescence.LongPathsRepeat` | crates/runbook/src/pipeline.rs:80-89 | Where no shell cycle can be reached, a path of shell phases from a reachable phase is no longer than the list of phases. |
| `Quiescence.ChainSettles` | crates/daemon/src/lifecycle.rs:108-123 | From a reachable shell phase of such a pipeline the loop ends within as many calls as there are phases, one event pending at a time. |
| `Quiescence.UndefinedTerminalCompletes` | crates/engine/src/runtime.rs:427-446 | A `next` naming an undefined terminal phase, "failed" included, ends the pipeline in "done", Completed. |
| `Termination.ProcessingSettles` | crates/daemon/src/lifecycle.rs:108-123 | For any runbook in which no shell cycle can be reached, from every reachable state and for every world with fresh ids, processing an event ends, never has two events pending, and on success leaves the pipeline that the event moved or created in a terminal or agent phase, if it has phases ("pipeline:resume" moves none). |
| `Termination.ResumeStays` | crates/engine/src/events.rs:47-76 | A resumed pipeline is marked Running and changes in nothing else, its phase included; nothing is pending afterwards. |
| `Service.WorkIsLoop` | crates/daemon/src/lifecycle.rs:108-123 | For any handler, the single turns that a history is made of are, taken together, the loop of `process_event`. |
| `Service.HistoryKeepsServing` | crates/daemon/src/lifecycle.rs:108-123 | Over any history of the daemon, crashes within the loop included, the invariants of runs hold and at most one event is pending. |
| `Divergence.EndsIffAcyclic` | crates/daemon/src/lifecycle.rs:108-123 | For any runbook, any fresh ids and any environment: after every history of the daemon from its first start, whatever is answered outside, the loop gets done with what is pending, if and only if no kind that a command runs has a shell cycle that a route leads to. |
| `Divergence.Steer` | crates/engine/src/runtime.rs:239-312 | Any route of a kind that a command runs can be driven from the start, whatever ids are handed out, with everything succeeding and no crash, by one command, reports of agents, and exit codes. |
| `Divergence.CycleDiverges` | crates/daemon/src/lifecycle.rs:108-123 | A reachable shell cycle has answers outside, all of them successes, and a history without a crash, after which the loop never ends. |
| `Divergence.RepeatedNameLoops` | crates/runbook/src/parser.rs:201-205 | With shell phases named a, b, a and everything succeeding, one command keeps the loop running for ever. |
| `Cycles.CycleNeverEnds` | crates/daemon/src/lifecycle.rs:108-123 | With a pipeline on a shell cycle and exit codes that follow it, the loop is never done. |
| `Past.ExecAllAlike` | crates/engine/src/executor.rs:250-258 | What a list of effects does depends on no answer that comes after it. |
| `Termination.FirstEvent` | crates/engine/src/runtime.rs:78-122 | For any runbook, every event in a reachable state leaves at most one event pending: the report of the shell phase its pipeline now stands in. |
| `Redelivery.StaleReportsDropOut` | crates/engine/src/runtime.rs:297-305 | Dropping from any history all reports that were stale when they came leads to the very same machine. |
| `Termination.TimersAreQuiet` | crates/engine/src/runtime.rs:266-276 | In reachable states a timer event changes nothing and produces nothing. |
| `EventLoop.ChainFinishes` | crates/daemon/src/lifecycle.rs:108-123 | A chain of single events is the whole run of the loop. |
| `EventLoop.ChainWaits` | crates/daemon/src/lifecycle.rs:108-123 | With fewer calls than the chain has steps the loop is not done. |
| `EventLoop.NeverEnds` | crates/daemon/src/lifecycle.rs:108-123 | A property of state and pending event that every call re-establishes keeps the loop going forever. |
| `EventLoop.LoopSame` | crates/daemon/src/lifecycle.rs:108-123 | The loop depends on its handler only through what it returns. |
| `EventLoop.NewestFirst` | crates/daemon/src/lifecycle.rs:108-123 | What an event leads to is done before anything that was pending with it. |
| `Sequential.RunsInOrder` | crates/engine/src/runtime.rs:398-493 | One command on an all-shell pipeline without `next` and `on_fail`, all adapters succeeding: exactly k + 2 calls, the phases up to the stopping one k run in list order, once each, Completed on a zero exit, "failed" otherwise. |
| `Redelivery.OnceIffNoSelfLoop` | crates/engine/src/runtime.rs:279-312 | For any runbook, a report whose first append succeeds leaves the tables after two deliveries as after one, whatever the world answers, if and only if it takes no self-loop. |
| `Redelivery.TwiceIsOnce` | crates/engine/src/runtime.rs:279-312 | One half of it; and where the pipeline has moved away, the second delivery leaves the whole machine as it was. |
| `Redelivery.SelfLoopShows` | crates/engine/src/runtime.rs:398-493 | On a self-loop: answers for which the second delivery leaves other tables. |
| `Redelivery.BothSucceed` | crates/engine/src/runtime.rs:279-312 | Two deliveries that both succeed leave the tables as one does, self-loop or not. |
| `Redelivery.SelfLoopStartsAgain` | crates/engine/src/runtime.rs:279-312 | On a self-loop the second delivery sets out to do all the first one did. |
| `Redelivery.SelfLoopMoves` | crates/engine/src/phases.rs:32-72 | On a self-loop the first write moves the pipeline to the phase it is in. |
| `Redelivery.FailedWriteIsNoDelivery` | crates/engine/src/executor.rs:168-178 | When a report's first write fails, log and tables are untouched. |
| `Isolation.InputIsIsolated` | crates/storage/src/state.rs:58-131 | In every reachable state an input changes no pipeline but the one it addresses, creates no other, removes none, and changes nobody's id, kind, name or inputs. |
| `Isolation.PrefixIsAsGood` | crates/engine/src/runtime.rs:239-253 | Done, error and resume addressed by a unique prefix that is no id itself do exactly what the full id does. |
| `Isolation.UnknownIsRefused` | crates/engine/src/runtime.rs:244-246 | A reference that names no pipeline is reported and changes nothing. |
| `Deeds.EverythingIsMeant` | crates/engine/src/runtime.rs:78-122 | Over any run of any runbook, crashes included, every effect ever attempted is one for a stored pipeline, with the content that the runbook gives it and behind the effects that give rise to it; every stored pipeline has a worktree, added and recorded under "feature/" and its name. |
| `Deeds.ShellsRunTemplates` | crates/engine/src/runtime.rs:352-368 | Every shell command in a run is the template of its phase, interpolated with the stored inputs of its pipeline and with its id, its name and the directory it was run in. |
| `Deeds.SessionsRunTemplates` | crates/engine/src/spawn.rs:19-112 | Every session in a run has the command and the `cwd` of the agent it was prepared for, two effects before, interpolated likewise; only recovery puts in another prompt. |
| `Deeds.WorktreeComesFirst` | crates/engine/src/runtime.rs:145-185 | Whatever is run or prepared for a pipeline comes after a worktree was added under the branch and at the path of its workspace record. |
| `Deeds.CommandMakesOneWorktree` | crates/engine/src/runtime.rs:145-185 | A command handled without an error adds exactly one worktree, which it recorded just before under a fresh id, and then records the pipeline, named by the argument "name" or else by its id. |
| `Actions.ExitDoes` | crates/engine/src/runtime.rs:639-662 | When the agent of a live pipeline exits, what its definition says for that is done, effect by effect: done, fail, escalate, nudge, restart or recover. |
| `Actions.ExitWrites` | crates/engine/src/runtime.rs:639-662 | In reachable states: done writes the move to the success target first, fail that to the failure target, escalation the mark Waiting alone, restart and recovery a session of the pipeline alone. |
| `Actions.CheckDoes` | crates/engine/src/runtime.rs:567-636 | A check of a live pipeline with a workspace treats an idle agent by `on_idle`, a failed one by `on_error` for its kind of error, and goes on watching otherwise. |
| `Actions.ActionDoes` | crates/engine/src/monitor.rs:67-177 | Each action in its own words: moves by the graph, a kill before the worktree is removed before a new session, the prompt appended or replaced, the text nudged. |
| `Actions.FirstMatchIs` | crates/runbook/src/agent.rs:139-156 | Of the entries for errors the first that names the type or none decides; without one it is escalation. |
| `Actions.AgentReportsDo` | crates/engine/src/runtime.rs:239-253 | Done moves to the success target or completes, error and a lost session to the failure target, told with the error. |
| `Actions.ShellReportsDo` | crates/engine/src/runtime.rs:279-312 | A report of the present phase does the same by its exit code, which the error gives in decimal. |
| `Actions.MovesBegin` | crates/engine/src/runtime.rs:398-493 | A defined phase that success or failure leads to, a terminal one no less, is begun at once: marked Running and told. |
| `Actions.SuccessAstray` | crates/engine/src/runtime.rs:427-459 | A `next` that names no phase, and neither "done" nor "failed", is refused after the move to it was made and told. |
| `Actions.SuccessEnds` | crates/engine/src/phases.rs:98-142 | Where nothing follows, success ends in "done", Completed, told, with a linked session killed and forgotten. |
| `Actions.TextIsSent` | crates/engine/src/events.rs:18-46 | Text for a session goes out to it as one line, and nothing else happens. |
| `Actions.IncompleteIsRefused` | crates/engine/src/events.rs:18-83 | A custom event that lacks a field or names no pipeline is refused for that and changes nothing; one of another name is nothing. |
| `Actions.WatchGoesOn` | crates/engine/src/runtime.rs:597-602 | A check that finds the agent at work arms its timer again for ten seconds from then, and does no more. |
| `Actions.CommandsRefused` | crates/engine/src/runtime.rs:124-207 | A command that is unknown, or runs no pipeline or an unknown one, is refused for that and changes nothing. |
| `Actions.UnknownRefused` | crates/engine/src/runtime.rs:239-312 | Every report, exit and check that names no stored pipeline is refused by what it named. |
| `Actions.SessionExitDoes` | crates/engine/src/runtime.rs:209-237 | For any tables: the owner of a session that ended well goes on, and otherwise is moved to "failed" and no more. |
| `Actions.AgentlessRefused` | crates/engine/src/monitor.rs:38-64 | An agent's exit or a check is nothing for an ended pipeline, and refused for its reason where the phase runs no agent that is defined or the pipeline has no workspace. |
| `Actions.OthersAreNothing` | crates/engine/src/runtime.rs:262-276 | Timers that are no check, sessions without an owner and other events are nothing; "session:check" names no other pipeline than itself. |
| `Actions.StartsRefused` | crates/engine/src/runtime.rs:315-395 | A phase that is not defined is refused before anything is done, and one that cannot run what it names after it is marked and told. |
| `Actions.DecimalReads` | crates/engine/src/runtime.rs:306-312 | Exit codes are told in decimal, negative ones with a dash, without idle zeros, and can be read back. |
| `State.LookupIsExact` | crates/storage/src/state.rs:36-55 | A lookup finds a pipeline if and only if the reference is its id, or no id and a prefix of its id only. |
| `State.ApplyAllAppend` | crates/storage/src/state.rs:58-131 | Replaying a log in two parts is replaying it in one. |
| `State.DeletionUndoesCreation` | crates/storage/src/state.rs:58-131 | Creating and deleting a new pipeline, session or workspace leaves the tables as they were. |
| `State.ReplayIsTheLastWord` | crates/storage/src/state.rs:58-131 | What any log replays to is, record by record and field by field, what the log said last about it: phase, status, workspace path, origin, sessions and workspaces. |
| `State.MaterializedState.constructor` | crates/storage/src/state.rs:27-33 | The state starts empty. |
| `State.MaterializedState.Apply` | crates/storage/src/state.rs:58-131 | The maps updated in place become the tables the operation yields. |
| `Core.JoinIs` | crates/engine/src/runtime.rs:150 | A relative name stands behind the worktree root with one slash between, an absolute one for itself. |
| `Directories.ComputedIsRecorded` | crates/engine/src/runtime.rs:549-554 | In every reachable state the directory computed for a pipeline is the path in its workspace record. |
| `Directories.OneDirectory` | crates/engine/src/executor.rs:110-125 | Over any run, all shell commands of a pipeline and all its sessions whose agent has no `cwd` were given one and the same directory, the one the engine computes for the pipeline; an override is a `cwd` of the runbook taken from there. |
| `Directories.RunAgrees` | crates/engine/src/executor.rs:110-125 | In every state of a run, each directory given so far agrees with the workspace record. |
| `Monitor.NoLostMonitor` | crates/engine/src/runtime.rs:567-636 | For every pipeline value, session state and action configuration, a successful check of a live pipeline re-arms its timer, or leaves it Waiting with the timer cancelled, or moved it. |
| `Monitor.ActionKeepsWatch` | crates/engine/src/monitor.rs:67-177 | The same for each agent action. |
| `Monitor.TimerKeyParses` | crates/engine/src/runtime.rs:266-276 | A timer id the engine builds is a check timer and parses back to its pipeline. |
| `Engine.Executor.constructor` | crates/engine/src/executor.rs:49-58 | The executor stands for the log, tables and timers of its parts. |
| `Engine.Executor.Execute` | crates/engine/src/executor.rs:64-246 | One effect on the live objects is the step of the machine, errors, and the directory that a session is given, included. |
| `Engine.Executor.Record` | crates/engine/src/executor.rs:168-178 | The operation is in log and tables, or in neither. |
| `Engine.Executor.ExecuteAll` | crates/engine/src/executor.rs:250-258 | Effects in order up to the first failure, with the events they returned. |
| `Engine.EffectsMeanAction` | crates/engine/src/monitor.rs:67-177 | Carrying out the effects built for an action is that action's plan. |
| `Engine.Runtime.constructor` | crates/engine/src/runtime.rs:57-73 | The runtime keeps its executor and runbook. |
| `Engine.Runtime.Find` | crates/storage/src/state.rs:36-55 | The lookup over live maps is the specified lookup. |
| `Engine.Runtime.CompletePipeline` | crates/engine/src/runtime.rs:496-499 | Completes as the completion plan says. |
| `Engine.Runtime.SpawnAgent` | crates/engine/src/runtime.rs:502-532 | Prepares, records the session, spawns and arms the monitor, or refuses an unknown agent. |
| `Engine.Runtime.StartPhase` | crates/engine/src/runtime.rs:315-395 | Marks the phase running and dispatches on its directive, from the record then stored. |
| `Engine.Runtime.RunDirectiveOf` | crates/engine/src/runtime.rs:350-392 | Runs the shell command, spawns the agent, or refuses the directive. |
| `Engine.Runtime.Advance` | crates/engine/src/runtime.rs:398-459 | Advances a snapshot, completing or starting the next phase, as planned from the snapshot alone. |
| `Engine.Runtime.FailIt` | crates/engine/src/runtime.rs:462-493 | Fails a snapshot to `on_fail` or "failed". |
| `Engine.Runtime.KillAndRemove` | crates/engine/src/runtime.rs:721-730 | Kills the session and removes the worktree, each if there is one; tables are untouched. |
| `Engine.Runtime.KillAndRespawn` | crates/engine/src/runtime.rs:713-732 | Kills, removes, then spawns again. |
| `Engine.Runtime.ExecuteActionEffects` | crates/engine/src/runtime.rs:674-711 | Carries out the effects built for an action. |
| `Engine.Runtime.TakeAction` | crates/engine/src/runtime.rs:653-661 | Builds and carries out an action, refusing a nudge without a session. |
| `Engine.Runtime.HandleSessionMonitor` | crates/engine/src/runtime.rs:567-636 | A session check, branch by branch. |
| `Engine.Runtime.HandleTimer` | crates/engine/src/runtime.rs:266-276 | Check timers lead to a session check, others to nothing. |
| `Engine.Runtime.HandleClaudeExited` | crates/engine/src/runtime.rs:639-662 | The `on_exit` action of a live pipeline's agent. |
| `Engine.Runtime.HandleTmuxExited` | crates/engine/src/runtime.rs:665-671 | A lost session fails its pipeline. |
| `Engine.Runtime.HandleCustom` | crates/engine/src/events.rs:18-83 | `session:send` and `pipeline:resume`, with their missing-field errors; others are ignored. |
| `Engine.Runtime.Resume` | crates/engine/src/events.rs:47-76 | Marks the named pipeline Running and arms its monitor. |
| `Engine.Runtime.HandleCommand` | crates/engine/src/runtime.rs:124-207 | Creates workspace and pipeline and starts the first phase, or refuses the directive. |
| `Engine.Runtime.HandleSessionExit` | crates/engine/src/runtime.rs:209-237 | The owner of the session advances on exit zero and is moved to "failed" otherwise. |
| `Engine.Runtime.HandleAgentEvent` | crates/engine/src/runtime.rs:239-253 | Done advances, error fails. |
| `Engine.Runtime.HandleShellCompleted` | crates/engine/src/runtime.rs:279-312 | A report in the expected phase advances or fails; a stale one does nothing. |
| `Engine.Runtime.HandleEvent` | crates/engine/src/runtime.rs:78-122 | One call on the live objects is one step of the machine the theorems are about. |
| `Daemon.Daemon.constructor` | crates/daemon/src/lifecycle.rs:309-320 | The daemon keeps a runtime and a scheduler of its own. |
| `Daemon.Daemon.ProcessEvent` | crates/daemon/src/lifecycle.rs:108-123 | The loop over pending events, taken from the end of the list, up to the first error. |
| `Daemon.Daemon.CheckHeartbeats` | crates/daemon/src/lifecycle.rs:126-136 | The due timers of the daemon's own scheduler, each once, are removed and processed up to the first failure; with no timers nothing changes. |
| `Daemon.FirstFailureStops` | crates/daemon/src/lifecycle.rs:126-136 | Of several events that fired, the first that fails is the last one processed. |
| `Daemon.Rebuild` | crates/daemon/src/lifecycle.rs:249-252 | The loop that applies the replayed operations yields the replay of the log. |
| `Daemon.Startup` | crates/daemon/src/lifecycle.rs:247-306 | On any log file: fails exactly when a line does not decode, and otherwise yields the machine that a restart of an engine with that log is. |
| `Wal.LogOverSessions` | crates/storage/src/wal.rs:29-82 | Over any number of sessions and any failed writes that tear no line: the text is, line by line, the encoded entries of the operations that came on file; it replays to these, in order; reopening counts them; and line k carries number k for all k if and only if no session got a write on file after a failed one. |
| `Wal.ReplayOfAnyHistory` | crates/storage/src/wal.rs:44-82 | With torn lines too, for a codec under which pieces of entries put together never decode: the log replays, and then to exactly the operations that came on file, if and only if at most one write left part of a line, all but its end, and nothing came on file after it. |
| `Wal.TornIsForEver` | crates/storage/src/wal.rs:44-82 | After a write that stopped within its line no later history makes the log replay again. |
| `Wal.ReplayReturnsTheLog` | crates/storage/src/wal.rs:62-82 | Decoding the lines of a log's text gives its operations in order, one line each. |
| `Wal.EitherLineEnd` | crates/storage/src/wal.rs:70-71 | A line may end with LF or CR LF. |
| `Wal.BlankLinesCountForNothing` | crates/storage/src/wal.rs:70-78 | Blank lines, wherever they stand, count for nothing in a replay. |
| `Wal.BadLinesStopReplay` | crates/storage/src/wal.rs:70-78 | A line that is not blank and does not decode stops every replay. |
| `Wal.Log.Open` | crates/storage/src/wal.rs:29-41 | On any file, the sequence is the number of lines. |
| `Wal.Log.Append` | crates/storage/src/wal.rs:44-54 | A number is taken in any case; the file grows by as much of the line as the write reached; success is reported only for a line that is on file and synced; and on a file of whole lines one more operation is then on file exactly when the line is. |
| `Wal.ReplayFile` | crates/storage/src/wal.rs:62-82 | The loop over lines returns the operations of the entries, or nothing when a line does not decode. |
| `Scheduler.FiresExactlyWhenDue` | crates/engine/src/scheduler.rs:29-56 | After any history an id fires at a poll if and only if its latest setting was neither cancelled nor fired and its deadline has passed. |
| `Scheduler.EarlyPollLosesNothing` | crates/engine/src/scheduler.rs:40-56 | Polling at t1 and again at t2 fires the same ids, each once, as polling at t2 only. |
| `Scheduler.PollIsDueAtDeadline` | crates/engine/src/scheduler.rs:59-61 | A poll fires something if and only if the next deadline has come. |
| `Scheduler.Scheduler.Set` | crates/engine/src/scheduler.rs:29-32 | A timer is set, replacing an earlier one of the same id. |
| `Scheduler.Scheduler.Cancel` | crates/engine/src/scheduler.rs:35-37 | The timer is gone. |
| `Scheduler.Scheduler.Poll` | crates/engine/src/scheduler.rs:40-56 | One event for each due timer, which is removed; the others stay. |
| `Scheduler.Scheduler.NextDeadline` | crates/engine/src/scheduler.rs:59-61 | The least deadline, or none. |
| `Scheduler.Scheduler.HasTimers` | crates/engine/src/scheduler.rs:64-66 | Whether any timer is set. |
| `Protocol.PrefixIsExact` | crates/daemon/src/protocol.rs:217 | The 32-bit length prefix loses nothing of a length within the limit of 200 MiB, and has its most significant byte first. |
| `Protocol.StreamRoundTrip` | crates/daemon/src/protocol.rs:178-222 | What was written is what is read, message by message. |
| `Protocol.CutStreamYieldsWholeMessages` | crates/daemon/src/protocol.rs:178-203 | Any cut of the stream yields exactly the whole messages before it and then none. |
| `Protocol.CutFrameIsNotRead` | crates/daemon/src/protocol.rs:183-201 | A cut in the prefix reads as a closed connection, a cut in the payload as an I/O error. |
| `Protocol.OversizeIsRefused` | crates/daemon/src/protocol.rs:186-195 | A prefix that announces more than the limit is refused with what it announced, and no payload is read. |
| `Protocol.ByteStream.ReadMessage` | crates/daemon/src/protocol.rs:178-203 | One read consumes one frame, or reports why there is none. |
| `Protocol.ByteStream.WriteMessage` | crates/daemon/src/protocol.rs:206-222 | A message within the limit is appended with its prefix; a longer one is refused and nothing is written. |
| `Rewriting.TokensAreUnique` | crates/runbook/src/template.rs:28-47 | A text has one leftmost tokenization into literals and matches. |
| `Rewriting.ReplaceIsSimultaneous` | crates/runbook/src/template.rs:28-47 | The left-to-right scanner equals putting all values in at once; inserted values are never scanned again. |
| `Template.InterpolateIsTwoPasses` | crates/runbook/src/template.rs:28-47 | The environment pass runs wholly before the variable pass, and each is simultaneous. |
| `Template.VarMatchesPlaceholder` | crates/runbook/src/template.rs:13-15 | The variable pattern matches a placeholder at the head of a text, exactly. |
| `Template.VarMatchIsPlaceholder` | crates/runbook/src/template.rs:13-15 | What the variable pattern matches is a placeholder. |
| `Template.VarPlaceholderValue` | crates/runbook/src/template.rs:39-46 | A known name yields its value, an unknown one the placeholder. |
| `Template.EnvMatchesPlaceholder` | crates/runbook/src/template.rs:19-20 | The environment pattern matches a placeholder with default, exactly. |
| `Template.EnvMatchIsPlaceholder` | crates/runbook/src/template.rs:19-20 | What the environment pattern matches is a placeholder with default. |
| `Template.EnvPlaceholderValue` | crates/runbook/src/template.rs:30-36 | A set variable yields its value, an unset one the default. |
| `Template.PlaceholderIsFilled` | crates/runbook/src/template.rs:39-46 | A template that is one placeholder of a known name becomes its value. |
| `Template.EngineNamesAreFilled` | crates/engine/src/runtime.rs:354-361 | So do the four names the engine itself sets or changes. |
| `Template.OddNamesStay` | crates/runbook/src/template.rs:13-15 | A placeholder of a dash, a dot, a blank or a figure is none and stays. |
| `Template.UnknownNamesStay` | crates/runbook/src/template.rs:39-46 | A text that asks for no known name stays as it is. |
| `Template.IdempotentIffNotExposed` | crates/runbook/src/template.rs:39-46 | The variable pass is idempotent on a template, for all values without an opening brace, if and only if no brace that opens no placeholder stands before characters that could begin a name and run directly into a placeholder. |
| `Template.VarPassIsIdempotent` | crates/runbook/src/template.rs:39-46 | In particular it is when every brace opens a placeholder. |
| `Template.NotAlwaysIdempotent` | crates/runbook/src/template.rs:39-46 | A template on which a second pass changes the result. |
| `ArgSpec.Chars.constructor` | crates/runbook/src/command.rs:98 | The iterator starts with the whole text. |
| `ArgSpec.Chars.ReadUntil` | crates/runbook/src/command.rs:114-119 | Takes what comes before the closing bracket, which is consumed. |
| `ArgSpec.Chars.ReadBracket` | crates/runbook/src/command.rs:155-166 | Takes what comes before the matching bracket. |
| `ArgSpec.Chars.ReadWord` | crates/runbook/src/command.rs:204-211 | Takes what comes before white space, which is kept. |
| `ArgSpec.Chars.SkipWhitespace` | crates/runbook/src/command.rs:241-249 | Drops leading white space. |
| `ArgSpec.ReadToken` | crates/runbook/src/command.rs:110-235 | One turn of the scanning loop is one token. |
| `ArgSpec.ReadDash` | crates/runbook/src/command.rs:199-225 | A flag at top level, or an option when `<..>` follows. |
| `ArgSpec.ParseArgSpec` | crates/runbook/src/command.rs:88-239 | The scanner over an iterator is the parse as a function of the text. |
| `ArgSpec.ParsedSpecsAreSound` | crates/runbook/src/command.rs:88-239 | Whatever text parses has globally distinct names and required positionals before optional ones. |
| `ArgSpec.TokenKeepsInvariant` | crates/runbook/src/command.rs:110-235 | Every kind of token keeps names distinct, the name set exact and required positionals first. |
| `ArgRoundTrip.RoundTrip` | crates/runbook/src/command.rs:88-333 | Parsing the printed form of any well-formed spec returns that spec, for all kinds of tokens and short aliases. |
| `ArgRoundTrip.FlagTextIsRead` | crates/runbook/src/command.rs:283-333 | A printed flag, with or without alias, is read back. |
| `ArgRoundTrip.PieceIsScanned` | crates/runbook/src/command.rs:110-235 | A printed argument at the head of a text is scanned into what it adds, and nothing more is consumed. |
| `ArgRoundTrip.PiecesAreAdded` | crates/runbook/src/command.rs:88-239 | A spec with distinct names and required positionals first is accepted piece by piece. |
| `ArgRoundTrip.FlagAtTop` | crates/runbook/src/command.rs:199-225 | A flag without brackets is read as that flag when no `<` follows. |
| `ArgRoundTrip.FlagBeforeAngle` | crates/runbook/src/command.rs:213-225 | A flag without brackets before a required positional is read as a required option. |
| `ArgLaws.LawsAreExact` | crates/runbook/src/command.rs:88-239 | A text of arguments, each as printed, parses if and only if their names are distinct, no required positional comes behind an optional one, and no positional or variadic behind a variadic; it is then read as what it spells, and otherwise the error names the first argument that breaks a law, place before name for positionals. |
| `ArgLaws.VariadicComesLast` | crates/runbook/src/command.rs:135-137 | A positional behind the variadic is refused by its name. |
| `ArgLaws.StrangersAreRefused` | crates/runbook/src/command.rs:229-234 | A character that begins no argument, where one is to begin, is refused. |
| `ArgLaws.UnclosedAngle` | crates/runbook/src/command.rs:114-119 | An angle that nothing closes takes the rest of the text as a name. |
| `ArgLaws.NestedBracket` | crates/runbook/src/command.rs:155-166 | A bracket reaches over balanced brackets to the one that closes it. |
| `ArgLaws.ShortOnlyIsRead` | crates/runbook/src/command.rs:283-333 | A flag with one dash is named by its letter. |
| `ArgLaws.AliasesRefused` | crates/runbook/src/command.rs:283-333 | An alias needs one dash before the slash and its name two behind it; the part that lacks them is named. |
| `ArgLaws.SlashesRefused` | crates/runbook/src/command.rs:283-333 | More than one slash is refused. |
| `ArgLaws.FlagsRefused` | crates/runbook/src/command.rs:283-333 | What has no dash, or nothing behind one, is no flag. |
| `ArgLaws.DotsAllGo` | crates/runbook/src/command.rs:125-126 | All groups of three dots behind a variadic name go. |
| `ArgLaws.WhitespaceIs` | crates/runbook/src/command.rs:225-228 | The 25 characters of Unicode property White_Space count as blank, and no others. |
| `ArgBinding.ValidateArgs` | crates/runbook/src/command.rs:480-522 | Succeeds exactly when nothing required is missing, and otherwise names the first that is: positionals, then options, then the variadic. |
| `ArgBinding.ParseArgs` | crates/runbook/src/command.rs:525-553 | Every key is bound by precedence: named, then variadic, then positional, then default; keys without a value are absent. The variadic is bound to exactly its words with one space between each two, and words without spaces are found again by splitting there. |
| `ArgBinding.ExactIffUnshadowed` | crates/runbook/src/command.rs:480-553 | For any spec, validation agrees with binding for all defaults and all input if and only if no required positional repeats an earlier one, no required option is named like a positional or the variadic, and no required variadic like a positional. |
| `ArgBinding.ValidationIsExact` | crates/runbook/src/command.rs:480-553 | In particular, with distinct names validation succeeds if and only if every required name is bound. |
| `ArgBinding.ParsedValidationIsExact` | crates/runbook/src/command.rs:480-553 | The same for every spec parsed from text, any defaults and any input. |
| `ArgBinding.ProvidedIsBound` | crates/runbook/src/command.rs:480-553 | Whatever the spec, input that passes validation binds every required name. |
| `ArgBinding.ValuesFollowPrecedence` | crates/runbook/src/command.rs:525-553 | With distinct names each argument's value is the named one, else the one at its place, else the default. |
| `ArgBinding.RepeatedNamesAreStricter` | crates/runbook/src/command.rs:363-388 | A spec with a repeated name and input that validation refuses though every required name is bound. |

## Left out

- Shell, tmux, git and notification adapters: foreign processes, reduced to success, failure and an exit code per attempted effect.
- Environment variables of `Spawn` and `Shell` effects, and the JSON members of event payloads that are not strings: carried along, never read by the logic.
- `session_watchers` and the classification of session logs: what a check sees is an input.
- Reading the prompt file and preparing the workspace: one effect `Prepare` that may fail, placed where `build_spawn_effects` does this work; `project_root` with it.
- `Instant` fields of pipelines and clock overflow: a deadline is an unbounded integer, and a replayed pipeline gets new times anyway.
- `Worker`, workspace ids of pipelines, `inputs` and `defaults` of pipeline definitions, and TOML parsing: the engine does not read them here.
- The choice among several owners of one session: `World.pick` stands for the iteration order of a hash map and is taken to return one of the owners; in reachable states there is none.
- The table form of an argument spec and the other serde code; `RunDirective` accessors.
- Texts inside error values beyond the name they carry.
- `\w` in the environment pattern is a parameter, for which the exactness lemmas assume that a colon is no word character.
- Corrupted log lines: what is on file is what was written, as far as each write came. The JSON codec is any injective encoding into non-empty text without line breaks; for torn lines, one under which a proper beginning of an entry does not decode, nor do two or more beginnings put together.
- Socket handling, locking, timeouts, requests, `shutdown`, `check_sessions` and log messages of startup.
- Locks: handlers run one at a time, as the daemon runs them.
- Daemon.Daemon.ProcessEvent: takes a bound on the number of calls, since the loop need not end; `Divergence` says exactly when some bound suffices.
- Daemon.Daemon.CheckHeartbeats: processes each fired timer under the same bound.
- Engine.Executor.Record: has an append succeed or leave nothing on file. A line that came on file unsynced or in part, which `Wal` covers, would be in the log and not in the tables until the next start.
- Redelivery.TwiceIsOnce: is stated for pipelines without a linked session, which all reachable pipelines are; with one, a completion cut short between its two writes is finished by the second delivery.
- Sequential.RunsInOrder: counts calls and phases for distinct phase names and succeeding adapters only; other runbooks and worlds are covered by `Termination` and `Divergence`.
