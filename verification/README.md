# Verified model of the agent kernel

This project models the deterministic core of an agent harness and proves what its parts promise, over every input,
every run and every interleaving.

| part | files |
|---|---|
| workflow graphs, templates and the scheduler that runs them | `Text`, `Template`, `Ids`, `Bits`, `Reach`, `Graphs`, `Workflow`, `Invariant`, `Progress`, `Tracking`, `Runs`, `Confluence`, `Outcome`, `Engine` |
| the dispatcher: conflict chains, concurrent execution, omitted synchronisation, results in order | `Grouping`, `Execution`, `Elision`, `Dispatch` |
| event-stream framing | `Sse` |
| stored tool outputs, truncation, compaction, paging | `Store`, `Truncation`, `Compaction`, `Recovery` |
| transcript pairing and the agent loop | `Transcript`, `AgentLoop` |
| the session log | `Session` |
| provider admission, cooldown and retries | `Gate`, `Retry` |
| approvals over standard input | `Approval` |
| civil dates | `Calendar` |

The workflow scheduler is given twice: as total functions on a snapshot of its fields (`Workflow`), about which the
run properties are proved, and as a class whose methods update those fields in place (`Engine.Dag`), each proved to do what
the function says. Indexing and unwrapping panics of the original are results of the functions and are shown to be
unreachable. Confluence is stated without a scheduler: `Confluence.Solves` says what a plan means as equations over
its stages, every finished run with fixed workers is shown to solve them, and every run is shown to follow a solution.
Workers answer by stage and prompt, so a correction may be answered differently from the first prompt.

The dispatcher's execution is a step relation over jobs, a fair permit queue, a fair lock queue, cancellation and a
deadline. A grant and the waiter's next poll are separate steps, and a job keeps what it holds until it has reported.
A run shows which tools have begun, which are running, what was reported and with what result. Omitting the semaphore
or the lock is invisible: every run of either batch has a run of the other with the same sequence of visible states
(`Elision.Trace`). `Dispatch.Execute` puts preparation, grouping, execution and collection together for any outcome
that some complete run of the batch has, and `AgentLoop.Drive` builds on it.

Foreign code is a parameter: JSON and UTF-8 decoding, list parsing, tool and hook answers, message sizes, summaries,
random factors, and what a failing write leaves in a file. Time is a counter. Strings are sequences of Unicode scalar
values; sizes in bytes are computed from their UTF-8 widths.

Where code and comments differ the model follows the code:

- `Gate`: the shared cooldown is meant to keep requests back while a provider's delay lasts. That no admission falls
  inside a published delay holds exactly if the gate has one place or at most one request uses it
  (`Gate.DelaysRespectedIff`); otherwise a request that has passed the check can be admitted after a concurrent failure
  has published its delay.
- `Dispatch`: the wording of an interruption is meant to tell whether the tool ran. A cancellation that reaches a call
  between its lock and its tool is reported as during execution although the tool never began
  (`Execution.MisreportedIff`); it can happen in every batch that is not empty (`Execution.WordingRightIff`). All other
  wordings are right (`Execution.OutcomeTells`).
- `Sse`: an invalid frame also loses the data of valid frames before it in the same push
  (`Sse.WhenChunkingIsIrrelevant` says exactly when that shows, `Sse.DataLost` shows it).
- `Compaction`: every large output is replaced by a stub that promises the full text. Reading its id gives that text
  exactly if the last record stored under the id has that text, and there has been room for it and all that was stored
  after it at every moment since (`Compaction.RecoveredIff`). Ids are checked within a batch only, so two turns may share
  one, and then the earlier stub's id gives the later text (`Compaction.RepeatedId`); a text that is refused can leave
  an older one of its id to be read (`Store.StaleRemains`); and a small budget can leave nothing
  (`Compaction.PromiseBroken`).
- `Truncation`: the pointer to the original is set even when the store refuses the original (`Truncation.PointerIsGood`,
  `Truncation.PointerLost`). Compaction uses the same store, and when it elides the cut output in turn, that takes the
  place of the original (`Recovery.OriginalReadIff`, `Recovery.PointerTakenOver`).
- `Session`: a record whose line feed was lost is loaded, and reopening then appends to that line
  (`Session.ReopenedExactly`, `Session.LineFeedLost`); a changed message in a context of the same length is not written
  (`Session.SyncedExactly`, `Session.ReplacedIsMissed`).

## Model

| member | source | states |
|---|---|---|
| `Template.ParseParts` | crates/harness-dag/src/template.rs:3-16 | the loop over the shrinking rest yields exactly the parts of the specification, or the unclosed error |
| `Template.PartsSpell` | crates/harness-dag/src/template.rs:3-16 | whatever the parser returns spells the prompt: literals, braces and untrimmed expressions put together give it back |
| `Template.SpellParts` | crates/harness-dag/src/template.rs:3-16 | the reading is the only one: any spelling of a prompt by parts without earlier braces is what the parser returns |
| `Template.ReferenceNames` | crates/harness-dag/src/template.rs:17-19 | an expression refers to `id` exactly if it is `stages.id.output` |
| `Text.TrimMeaning` | crates/harness-dag/src/template.rs:11 | trimming takes away the whitespace at both ends and nothing else |
| `Template.Validate` | crates/harness-dag/src/template.rs:20-39 | accepts exactly the prompts that parse and name only ancestors, or `item` in a map; otherwise reports the leftmost offender |
| `Template.AdmissibleMeaning` | crates/harness-dag/src/template.rs:25-36 | let through are exactly `item` in a map, and `stages.id.output` of an ancestor |
| `Template.RenderPrompt` | crates/harness-dag/src/template.rs:40-60 | the loop computes the text of the parts in order, or reports the leftmost missing value |
| `Template.RenderPlain` | crates/harness-dag/src/template.rs:40-60 | a prompt without an opening renders as itself |
| `Template.RenderNext` | crates/harness-dag/src/template.rs:40-60 | otherwise the text is what stands before the first expression, its value, and the text of what follows; an unclosed rest or a missing value is the error |
| `Template.RenderUnclosed` | crates/harness-dag/src/template.rs:7-10 | an opening that is never closed is an error |
| `Template.LookupMeaning` | crates/harness-dag/src/template.rs:49-53 | the value of an expression is the item, or the output of the stage it names |
| `Template.RenderExample` | crates/harness-dag/src/template.rs:40-60 | literal text stays on its own side of a value |
| `Template.CheckedPromptRenders` | crates/harness-dag/src/template.rs:20-60 | a checked prompt renders whenever all ancestors have outputs and a map has its item |
| `Template.RenderFrame` | crates/harness-dag/src/template.rs:40-60 | the text depends on nothing but ancestor outputs and the item |
| `Template.RenderExtends` | crates/harness-dag/src/template.rs:40-60 | once a prompt renders, later outputs never change its text |
| `Bits.SetTest` | crates/harness-dag/src/graph.rs:141-151 | setting bit `j` of a word vector makes exactly `j` test true in addition |
| `Ids.LessMeaning` | crates/harness-dag/src/graph.rs:59 | ids are ordered by their first difference, a proper prefix coming first |
| `Graphs.CheckStage` | crates/harness-dag/src/graph.rs:60-96 | a stage passes exactly if its id is non-empty and of letters, digits, `_` and `-`, its prompt is not blank, its schema is one of two, and it has a source exactly if it is a map; the error names the fault; stored are sorted needs, the source among them |
| `Graphs.Collect` | crates/harness-dag/src/graph.rs:59-105 | all stages are entered exactly if all are locally valid and no id repeats |
| `Graphs.CheckReferences` | crates/harness-dag/src/graph.rs:106-117 | succeeds exactly if every need exists and every map source has a schema or is a map |
| `Graphs.UpstreamBits` | crates/harness-dag/src/graph.rs:138-145 | the union of a stage's needs and their ancestor bits is exactly the set of stages a non-empty path of needs leads to |
| `Graphs.RunWaves` | crates/harness-dag/src/graph.rs:125-170 | the wave loop ends; on success every bit set is the exact transitive closure and every template has been checked against it; a reported cycle lists exactly the stages that lie on a cycle or depend on one |
| `Graphs.LeftIsCyclic` | crates/harness-dag/src/graph.rs:158-168 | a wave without progress leaves exactly the stages that lead to a cycle |
| `Graphs.Validate` | crates/harness-dag/src/graph.rs:51-172 | accepts exactly the acceptable graphs (local checks, acyclic needs, templates that name proper ancestors, or `item` in a map); every error is explained by the stages, and a cycle error names exactly the right ones |
| `Reach.StuckLeadsToCycle` | crates/harness-dag/src/graph.rs:158-169 | in a finite graph where everybody waits for somebody, everybody depends on a cycle |
| `Engine.FromStages` | crates/harness-dag/src/engine.rs:76-112 | sets up a run exactly for the acceptable graphs, in the specified first state |
| `Engine.ListDependants` | crates/harness-dag/src/engine.rs:78-83 | pushing every stage onto the lists of its needs gives each stage the ordered list of its dependants |
| `Engine.Dag.Settle` | crates/harness-dag/src/engine.rs:198-210 | the new state is that of the specification: output, status, counters and ready set |
| `Engine.Dag.SettleParent` | crates/harness-dag/src/engine/maps.rs:55-74 | counts the map down, and settles it with its children's outputs in order; the unwraps cannot fail |
| `Engine.Dag.ExpandMap` | crates/harness-dag/src/engine/maps.rs:5-53 | expands a map as specified, with the parse, cap and render errors in their order |
| `Engine.Dag.Emit` | crates/harness-dag/src/engine.rs:211-253 | wave after wave; ends, equals the specification, and never panics on a missing entry |
| `Engine.Dag.Start` | crates/harness-dag/src/engine.rs:157-163 | begins a run once; keeps the scheduler valid |
| `Engine.Dag.Complete` | crates/harness-dag/src/engine.rs:164-191 | takes an awaited answer, asks again once on a schema mismatch, ignores everything else; keeps the scheduler valid |
| `Engine.Dag.Cancel` | crates/harness-dag/src/engine.rs:192-197 | stops a run that is not over; keeps the scheduler valid |
| `Engine.Dag.Conclude` | crates/harness-dag/src/engine.rs:254-281 | the outcome has exactly the outputs of stages with no dependants, children aside, and tells state, error, statuses and degradation; every unfinished status is closed |
| `Invariant.AcceptedIsPlan` | crates/harness-dag/src/graph.rs:51-172 | what acceptance gives the scheduler: acyclic, resolved, checked templates, sorted needs |
| `Invariant.ReleaseMeaning` | crates/harness-dag/src/engine.rs:202-209 | releasing dependants counts each down once and makes ready exactly those that reach zero |
| `Invariant.SettleKeepsInv` | crates/harness-dag/src/engine.rs:198-210 | settling keeps every counter equal to the number of unmet needs |
| `Invariant.ReadyPromptRenders` | crates/harness-dag/src/engine.rs:226-229 | a stage without unmet needs has the outputs of all transitive ancestors, so its prompt renders |
| `Invariant.ChildIdInjective` | crates/harness-dag/src/engine/maps.rs:20 | ids of map children never collide, with each other or with stages |
| `Invariant.ExpandKeepsInv` | crates/harness-dag/src/engine/maps.rs:5-53 | expanding a map keeps the scheduler's invariant and the stage cap |
| `Invariant.WavesKeepInv` | crates/harness-dag/src/engine.rs:213-241 | emission leaves nothing ready and the invariant intact, or a genuine failure |
| `Progress.UnsettledHasWork` | crates/harness-dag/src/engine.rs:242-252 | for an unsettled stage something in flight belongs to the stage itself or to one of its transitive needs: that stage, or a child of its map |
| `Progress.EmitGood` | crates/harness-dag/src/engine.rs:211-253 | emission never stalls, and a run it ends as done has every stage complete |
| `Progress.DeliverGood` | crates/harness-dag/src/engine.rs:164-191 | every delivery keeps the run sound |
| `Progress.OutcomeOfDone` | crates/harness-dag/src/engine.rs:266-280 | the outcome of a finished run has the outputs of exactly the planned stages that no stage needs |
| `Outcome.OutcomeTells` | crates/harness-dag/src/engine.rs:157-281 | a run that is over was ended by one event, which handed out the only outcome; it tells the state, exactly the outputs no stage needs, how every stage ended, whether a map had no items, and the error: none when done, the failed worker and its message, the stop, or a map that could not be expanded |
| `Outcome.CorrectionAsks` | crates/harness-dag/src/engine.rs:175-183 | the second prompt of a stage is the first one followed by what was wrong |
| `Outcome.ChildrenAsked` | crates/harness-dag/src/engine/maps.rs:5-53 | child i of a map is an agent with the needs, schema and model of the map and its prompt filled in with item i of the source |
| `Outcome.WaveInOrder` | crates/harness-dag/src/engine.rs:211-241 | a wave hands out its work in the order of the stage ids, the children of a map by index |
| `Progress.ClosedStatuses` | crates/harness-dag/src/engine.rs:256-265 | ending a run leaves no stage pending or in progress and changes no other status |
| `Runs.BeginInv` | crates/harness-dag/src/engine.rs:76-112 | the first state satisfies the invariant |
| `Runs.EveryRun` | crates/harness-dag/src/engine.rs:157-253 | every state reached by any sequence of starts, answers and stops satisfies the run invariant |
| `Runs.NeverStalls` | crates/harness-dag/src/engine.rs:242-252 | no sequence of events stalls or panics a validated workflow; a started run that is not over has work in flight; a done one has every stage complete |
| `Runs.PromptsSent` | crates/harness-dag/src/engine.rs:225-236 | every stage is sent its determined prompt exactly once, and at most one correction after it |
| `Runs.LateAnswersIgnored` | crates/harness-dag/src/engine.rs:164-167 | an answered stage is never awaited again: later deliveries for it change nothing |
| `Runs.AnswersEndTheRun` | crates/harness-dag/src/engine.rs:164-191 | fewer than twice as many answers as stages have been taken while a run goes on, and never more than twice the cap |
| `Runs.AgentsOnlySize` | crates/harness-dag/src/engine.rs:164-191 | without maps, twice as many accepted answers as planned stages end the run |
| `Tracking.EmitWavesWorks` | crates/harness-dag/src/engine.rs:211-241 | all work in flight after emission was there before or goes out now, once, with the prompt its outputs determine |
| `Confluence.DoneSolves` | crates/harness-dag/src/engine.rs:157-253 | the outputs of a finished run with fixed workers solve the plan's equations |
| `Confluence.DoneIsSolution` | crates/harness-dag/src/engine.rs:157-253 | a plan with a solution within the cap never fails, and a finished run has exactly that solution |
| `Confluence.Confluent` | crates/harness-dag/src/engine.rs:157-253 | if one order of answers finishes, no other order fails, and one that finishes too has the same outputs and the same prompts per stage |
| `Confluence.EveryOrderFinishes` | crates/harness-dag/src/engine.rs:157-253 | every other order that is launched and not stopped still has work in flight or is done with the same outputs |
| `Confluence.AgentsAlwaysFinish` | crates/harness-dag/src/engine.rs:157-253 | without maps, if every worker answers acceptably at the latest when asked again, every launched run that is not stopped is done exactly when nothing is in flight |
| `Confluence.RunCanFinish` | crates/harness-dag/src/engine.rs:157-253 | every such run can be continued by honest answers until it is done |
| `Confluence.SomeOrderFinishes` | crates/harness-dag/src/engine.rs:157-253 | so every such plan has a run that is done |
| `Grouping.Grouping.Add` | crates/harness-core/src/dispatcher.rs:438-496 | adds one job in place as the specification says and keeps the grouping right |
| `Grouping.KeyedIsKeys` | crates/harness-core/src/dispatcher.rs:441-447 | a single key behaves as a set of one |
| `Grouping.AddGrouped` | crates/harness-core/src/dispatcher.rs:438-496 | adding the next call keeps every part of the grouping invariant |
| `Grouping.TogetherIffLinked` | crates/harness-core/src/dispatcher.rs:449-484 | two keyed calls are in one chain exactly if a path of shared keys links them |
| `Grouping.SharedKeyOrder` | crates/harness-core/src/dispatcher.rs:450-484 | calls that share a key stand in their chain in call order |
| `Grouping.HeldOnce` | crates/harness-core/src/dispatcher.rs:438-496 | no call is held in two places |
| `Grouping.EachHeld` | crates/harness-core/src/dispatcher.rs:438-496 | every call is held, with its own input, and exclusively exactly if it is serial |
| `Grouping.SpotGenuine` | crates/harness-core/src/dispatcher.rs:485-494 | the serial chain holds exactly the serial calls, the singles exactly those without keys |
| `Grouping.DrainedStays` | crates/harness-core/src/dispatcher.rs:464-484 | a chain drained by a merge never gains a job again |
| `Execution.StepKeepsInv` | crates/harness-core/src/dispatcher.rs:285-359 | every step keeps queues, permits, locks, unit order and reports consistent |
| `Execution.NeverTooMany` | crates/harness-core/src/dispatcher.rs:285-359 | in every interleaving an exclusive call runs alone and at most the limit run at once |
| `Execution.UnitInOrder` | crates/harness-core/src/dispatcher.rs:190-200 | a later call of a unit has not begun before the earlier one is done |
| `Execution.DoneStays` | crates/harness-core/src/dispatcher.rs:10-17 | a finished call keeps its result whatever is cancelled later |
| `Execution.OutcomesAreGiven` | crates/harness-core/src/dispatcher.rs:343-357 | no outcome is made up: an answer is what the job's own tool gave, and a job is stopped only for a signal that came |
| `Execution.NeverLate` | crates/harness-core/src/dispatcher.rs:389-405 | a batch without a deadline is never late |
| `Execution.NothingStartsCancelled` | crates/harness-core/src/dispatcher.rs:379-383 | once the run is cancelled no tool begins |
| `Execution.StopsAtOnce` | crates/harness-core/src/dispatcher.rs:389-405 | whatever a job waits for, and while its tool runs, a signal stops it in one step |
| `Execution.NoDeadlock` | crates/harness-core/src/dispatcher.rs:285-332 | every state that is not final has an enabled program step |
| `Execution.RunsEnd` | crates/harness-core/src/dispatcher.rs:285-367 | no run takes more than nine program steps per job |
| `Execution.EndOfRun` | crates/harness-core/src/dispatcher.rs:361-367 | a state is final exactly if no step is left, and then every job was reported exactly once |
| `Execution.SomeRunEnds` | crates/harness-core/src/dispatcher.rs:285-367 | every batch has a complete run |
| `Execution.OutcomeTells` | crates/harness-core/src/dispatcher.rs:415-424 | in every run an answer or a deadline during execution means that the tool began, and any interruption before execution that it never did |
| `Execution.MisreportedIff` | crates/harness-core/src/dispatcher.rs:379-383 | a call is reported as cancelled during execution without having begun exactly if the cancellation reached it between its lock and its tool |
| `Execution.WordingRightIff` | crates/harness-core/src/dispatcher.rs:415-424 | the wording is right in all runs of a batch exactly if the batch is empty: with or without semaphore and lock a first job can be caught there |
| `Elision.SemaphoreStep` | crates/harness-core/src/dispatcher.rs:157 | a step with or without the semaphore is matched by steps of the other that show nothing but the change of that step, when the jobs fit the limit |
| `Elision.SemaphoreRun` | crates/harness-core/src/dispatcher.rs:157 | every run with or without the semaphore has a run of the other kind with the same sequence of visible states |
| `Elision.LockStep` | crates/harness-core/src/dispatcher.rs:158 | a step with or without the lock is matched by steps of the other that show nothing but the change of that step, when no call is serial |
| `Elision.LockRun` | crates/harness-core/src/dispatcher.rs:158 | every run with or without the lock has a run of the other kind with the same sequence of visible states |
| `Elision.ElisionIsInvisible` | crates/harness-core/src/dispatcher.rs:155-164 | every run of the fully synchronised batch has a run of the elided one in which the same tools begin, run and end in the same order with the same results and reports, up to the before/during wording |
| `Elision.ElisionAddsNothing` | crates/harness-core/src/dispatcher.rs:155-164 | and every run of the elided batch has such a run of the fully synchronised one |
| `Dispatch.ValidatePairing` | crates/harness-core/src/dispatcher.rs:499-516 | accepts exactly the batches with non-empty distinct ids, and reports the first offender |
| `Dispatch.RunHooks` | crates/harness-core/src/dispatcher.rs:112-123 | the loop over the hooks with its early exits consults them as specified |
| `Dispatch.ConsultMeaning` | crates/harness-core/src/dispatcher.rs:112-123 | the first denial or error decides; without one the last rewrite wins, and without any rewrite the input stays |
| `Dispatch.FateMeaning` | crates/harness-core/src/dispatcher.rs:103-150 | an unknown tool, the first denial or the first error decides; otherwise the call is accepted with the last rewritten input or its own, and classified with that input |
| `Dispatch.Prepare` | crates/harness-core/src/dispatcher.rs:86-150 | what is accepted, with which input, is the same whether arguments are moved or copied; early results go to their own slots; a hook error ends it at the first such call |
| `Dispatch.BatchWellFormed` | crates/harness-core/src/dispatcher.rs:155-213 | singles and non-empty chains hold every accepted call in exactly one unit |
| `Dispatch.SharedKeysNeverOverlap` | crates/harness-core/src/dispatcher.rs:155-213 | in every interleaving a call that shares a key with an earlier one has not begun before that one is done |
| `Dispatch.LimitsHold` | crates/harness-core/src/dispatcher.rs:155-164 | in every interleaving of the batch at most the permitted number of calls run, at least one being permitted, and a serial call runs alone |
| `Dispatch.FillSlots` | crates/harness-core/src/dispatcher.rs:208-232 | every finished job's slot says what came of it: the answer, the error, or what stopped it and when, in the wording of the original; no other slot changes |
| `Dispatch.RunBatch` | crates/harness-core/src/dispatcher.rs:155-232 | whatever complete run the batch takes, with the accepted inputs, every slot then holds the right result of its own call, and each executed or denied call was reported once |
| `Dispatch.Collect` | crates/harness-core/src/dispatcher.rs:239-251 | results come back in call order, reviewed exactly where the tool ran; the missing-result error needs an empty slot |
| `Dispatch.ReviewMeaning` | crates/harness-core/src/dispatcher.rs:245-249 | the hooks after a call review one after the other, each what the one before it made; the first error ends it |
| `Dispatch.CollectedAnswers` | crates/harness-core/src/dispatcher.rs:239-251 | hooks after a call that keep its id leave one result per call, in call order |
| `Dispatch.Execute` | crates/harness-core/src/dispatcher.rs:76-251 | a whole dispatch: every result is the error of an unknown or denied call, or what came of the accepted call in the batch, reviewed by the hooks; each executed or denied call was reported once; it fails only for bad ids or a failing hook, never for a missing result; with hooks that keep ids the results answer the calls |
| `Dispatch.UnreviewedReply` | crates/harness-core/src/dispatcher.rs:239-251 | without hooks after it a call gets just what came of it |
| `Dispatch.MovingIsInvisible` | crates/harness-core/src/dispatcher.rs:88-93 | without hooks after the calls the collected results of a batch are the same whether arguments were moved or copied |
| `Sse.SseLineBuffer.Push` | crates/model-providers/src/sse.rs:12-29 | hands out the payloads of exactly the lines completed by the chunk |
| `Sse.LinesSpell` | crates/model-providers/src/sse.rs:12-29 | the stream is its lines, each ended by a line feed, and a rest without one |
| `Sse.PayloadMeaning` | crates/model-providers/src/sse.rs:20-27 | a line carries data exactly if it begins with `data:` once trimmed; what it carries is the rest, trimmed |
| `Sse.DecodeLines` | crates/model-providers/src/sse.rs:11-43 | for every chunking the payloads are those of the unsplit stream, the rest counting as a last line |
| `Sse.SseBuffer.Push` | crates/model-providers/src/sse.rs:54-102 | the resumed scan misses no delimiter: the push does what a scan of the whole buffer does |
| `Sse.DecodeFrame` | crates/model-providers/src/sse.rs:82-93 | joins the trimmed data lines of a frame; an empty result delivers nothing |
| `Sse.FrameMeaning` | crates/model-providers/src/sse.rs:82-93 | a frame delivers what its lines with `data:` carry, in order, one per line, or nothing if that is empty |
| `Sse.DelimiterMeaning` | crates/model-providers/src/sse.rs:94-102 | a delimiter is two line feeds, or two pairs of carriage return and line feed |
| `Text.CutFirst` | crates/model-providers/src/sse.rs:83 | a line ends at a line feed, one carriage return before it being dropped |
| `Sse.DelimiterNew` | crates/model-providers/src/sse.rs:97-100 | a delimiter split across chunks is never preceded by one that was overlooked |
| `Sse.FramesSplitInvariant` | crates/model-providers/src/sse.rs:45-103 | if every frame is valid UTF-8, every chunking delivers the data of the unsplit stream |
| `Sse.WhenChunkingIsIrrelevant` | crates/model-providers/src/sse.rs:70-81 | the chunking does not matter exactly if every frame is valid or none carries data |
| `Sse.DataLost` | crates/model-providers/src/sse.rs:70-81 | a valid and an invalid frame: pushed together nothing is delivered, pushed one by one the data is |
| `Gate.StepKeepsInv` | crates/extensions/src/retry.rs:198-232 | every step keeps the count equal to the places taken and loses no wake-up |
| `Gate.LimitHolds` | crates/extensions/src/retry.rs:198-224 | in every interleaving at most the limit of places is taken |
| `Gate.CooldownOnlyGrows` | crates/extensions/src/retry.rs:226-231 | the cooldown never moves back, and overflow is absorbing |
| `Gate.FailPublishes` | crates/extensions/src/retry.rs:226-231 | a failure publishes the end of its delay and extends the cooldown to it, overflow counting as latest; nothing else does |
| `Gate.AdmittedAtOnce` | crates/extensions/src/retry.rs:198-224 | a request that finds the lock free, room and the cooldown over is admitted by its own steps |
| `Gate.NoAdmissionInsideDelay` | crates/extensions/src/retry.rs:198-231 | with one place, or one request, no admission falls inside a delay published before |
| `Gate.DelaysRespectedIff` | crates/extensions/src/retry.rs:204-231 | published delays are respected in every run exactly if the gate has one place or at most one request uses it; with more places or without a limit any two requests can race |
| `Gate.WaitsForSomebody` | crates/extensions/src/retry.rs:198-224 | whoever is on its way has before it the lock holder, the front of the queue or a holder of a place, which can go on by itself or sleeps out a cooldown |
| `Retry.Run` | crates/extensions/src/retry.rs:315-380 | every wait is the longer of the provider minimum and the random part of the saturating, capped exponential bound; the loop goes on exactly after a failure that may be retried, with nothing streamed and attempts left, and ends with the last response or error |
| `Retry.AttemptsBounded` | crates/extensions/src/retry.rs:368-372 | with a fixed limit no more attempts are made than it allows |
| `Retry.BoundMeaning` | crates/extensions/src/retry.rs:355-378 | the bound is the doubled base as long as that can be represented and is below the cap, and never more than either |
| `Retry.FixedStreak` | crates/extensions/src/retry.rs:355-360 | with fixed settings the bound of the k-th failure is the base doubled k times, saturating and capped |
| `Store.TruncationStore.Insert` | crates/extensions/src/truncation.rs:134-161 | the new contents are those of the specification, bytes and order included |
| `Store.TruncationStore.Evict` | crates/extensions/src/truncation.rs:153-160 | what stays is the longest suffix within the budget |
| `Store.SizeMixed` | crates/extensions/src/truncation.rs:136 | sizes count the bytes of UTF-8 |
| `Store.FitIsLongest` | crates/extensions/src/truncation.rs:153-160 | eviction keeps the longest fitting suffix |
| `Store.HoldsLongestSuffix` | crates/extensions/src/truncation.rs:134-161 | for distinct ids the contents are the longest fitting suffix of the accepted insertions |
| `Store.InsertedContents` | crates/extensions/src/truncation.rs:134-161 | every insertion keeps ids distinct and the total within the budget |
| `Store.ReplayRebuilds` | crates/extensions/src/truncation.rs:68-127 | replaying the contents in order rebuilds them |
| `Store.SaveAndLoad` | crates/extensions/src/truncation.rs:68-102 | saving and loading at the same budget gives the same store |
| `Store.TruncationStore.Snapshot` | crates/extensions/src/truncation.rs:105-127 | a snapshot is an independent store with the same contents |
| `Store.BatchSurvives` | crates/extensions/src/truncation.rs:134-161 | a batch of distinct ids that fits the budget is held completely, whatever was there before |
| `Store.LatestSurvives` | crates/extensions/src/truncation.rs:134-161 | if what a batch leaves, each id at its last accepted place, never exceeds the budget, all of it is held, whatever was there before |
| `Store.HeldIff` | crates/extensions/src/truncation.rs:134-161 | the exact contents after any insertions, ids repeated or not: the records accepted last under their id that have had room since, together with all that came after them |
| `Store.RetainedIff` | crates/extensions/src/truncation.rs:134-161 | a record of a batch is held exactly if it is what the batch had accepted last under its id, and has had room since |
| `Store.FoundUnder` | crates/extensions/src/truncation.rs:134-161 | what an id gives after a batch is the last record of that id that the batch had accepted, be it a later text; if it had none accepted, what was stored under the id before |
| `Store.ReadsBackIff` | crates/extensions/src/truncation.rs:134-161 | reading the id of a record gives its text exactly if the last record accepted under the id has that text and has had room since |
| `Store.DistinctKept` | crates/extensions/src/truncation.rs:134-161 | if no id is repeated, that is exactly that the record fits the budget together with everything accepted after it |
| `Store.StaleRemains` | crates/extensions/src/truncation.rs:135-138 | a refused text leaves an older one of its id to be read |
| `Truncation.TruncateValue` | crates/extensions/src/truncation.rs:205-245 | edits the value in place of its cut, and says exactly whether something was too long |
| `Truncation.CutMeaning` | crates/extensions/src/truncation.rs:205-245 | cutting replaces each text over the limit, at any depth, by its two ends around a count of the rest, and changes nothing else |
| `Truncation.NeedsMeaning` | crates/extensions/src/truncation.rs:205-245 | cutting is needed exactly if some text in the value is over the limit |
| `Truncation.PutMeaning` | crates/extensions/src/truncation.rs:287-298 | a mark is added or replaces the field of its name; other fields stay |
| `Truncation.MarkedMeaning` | crates/extensions/src/truncation.rs:287-298 | a cut object says that it was cut, and which call reads the original |
| `Truncation.ShortStays` | crates/extensions/src/truncation.rs:205-245 | a value with no string over the limit is left exactly as it is |
| `Truncation.LongIsCut` | crates/extensions/src/truncation.rs:205-245 | a string over the limit keeps its two ends, half the limit each, around a marker that counts the rest exactly |
| `Truncation.AfterTool` | crates/extensions/src/truncation.rs:258-302 | the reader's own output and short output pass unchanged; anything else is cut, stored in full and marked |
| `Truncation.PointerIsGood` | crates/extensions/src/truncation.rs:135-138 | right after the insertion the pointer reads back the original exactly if that fits the budget; otherwise it gives nothing or an older text of the same id |
| `Truncation.PointerLost` | crates/extensions/src/truncation.rs:135-138 | an output that points to an original the store refused |
| `Compaction.FindTailCut` | crates/extensions/src/compact.rs:127-141 | the cut is the furthest back the budget allows, moved forward to the first message that is not a result |
| `Compaction.TokensMeaning` | crates/extensions/src/compact.rs:89-91 | four bytes count as a token, losing less than one per message |
| `Compaction.ElideToolResults` | crates/extensions/src/compact.rs:146-183 | every result of at least 256 bytes or with an image becomes a stub with its own id and first 120 characters, and its whole text goes into the store, in order; everything else is left as it is and stored nowhere |
| `Compaction.OriginalsMeaning` | crates/extensions/src/compact.rs:146-183 | the stored records are those of all such results and no others, in the order of the conversation |
| `Compaction.LongIsKept` | crates/extensions/src/compact.rs:146-183 | 300 characters are kept whole behind a stub, 100 stay as they are |
| `Compaction.Compact` | crates/extensions/src/compact.rs:301-349 | system prompt, summary and verbatim tail; the head is elided as above and its large outputs stored; nothing to do exactly if the head has at most one message; a paired context stays paired for every budget |
| `Compaction.ReadToolResult` | crates/extensions/src/read_tool_result.rs:77-109 | a slice of the stored original, or nothing exactly if none is kept |
| `Compaction.SliceMeaning` | crates/extensions/src/read_tool_result.rs:97-107 | a slice is the text from the offset on, as far as asked for, and says where the text goes on |
| `Compaction.SliceBehind` | crates/extensions/src/read_tool_result.rs:97-107 | behind the end a slice is empty and ends the text |
| `Compaction.PagesAreWhole` | crates/extensions/src/read_tool_result.rs:97-107 | following `nextOffset` from any offset ends and yields exactly the rest of the text |
| `Compaction.EverythingRecovered` | crates/extensions/src/compact.rs:146-183 | if what is elided has distinct ids and fits the budget, paging each id gives the exact text the transcript held |
| `Compaction.RecoveredIff` | crates/extensions/src/compact.rs:146-183 | paging the id of an elided output gives its text exactly if the last record the compaction stored under the id has that text and has had room since; otherwise the id gives nothing, a later text of the same id, or, if all of the id were refused, what it gave before |
| `Compaction.DistinctRecoveredIff` | crates/extensions/src/compact.rs:146-183 | if no id is repeated: exactly if the text fits the budget together with all stored after it |
| `Compaction.RepeatedId` | crates/extensions/src/compact.rs:146-183 | two turns with one id: the first stub promises one text and the id gives the other |
| `Compaction.PromiseBroken` | crates/extensions/src/compact.rs:165-166 | a stub that promises a text which cannot be read |
| `Recovery.TakesOverIff` | crates/extensions/src/compact.rs:146-183 | compaction stores something under an id exactly if one of its results is large and fits the budget |
| `Recovery.OriginalReadIff` | crates/extensions/src/compact.rs:161-166 | with one store for truncation and compaction, an original is never read again once a result of its id was stored after it; otherwise it is read exactly if it was accepted and has had room since |
| `Recovery.CutThenCompact` | crates/extensions/src/compact.rs:161-166 | cutting an output and then compacting the conversation that holds it leaves exactly these contents |
| `Recovery.PointerTakenOver` | crates/extensions/src/compact.rs:161-166 | a cut output that is elided itself: the id it points to gives the cut text |
| `AgentLoop.Turn` | crates/harness-core/src/agent_loop.rs:59-83 | one round: the model is asked with the context the hooks leave; a final answer is the model's and is pushed; calls are dispatched and their results pushed; an error names the hook, the model or the dispatch that failed; a paired context stays paired, but for the last calls of a failing round |
| `AgentLoop.AfterMeaning` | crates/harness-core/src/agent_loop.rs:60 | hooks run one after the other, each on what the one before it left |
| `AgentLoop.AfterResponseMeaning` | crates/harness-core/src/agent_loop.rs:62 | so do the hooks after the model |
| `AgentLoop.Drive` | crates/harness-core/src/agent_loop.rs:46-85 | by induction over the rounds the context is paired at every loop head; the answer is that of the model in the last round; otherwise the run was cancelled or late at its last loop head, had reached the step limit, or its last round failed |
| `Transcript.SuffixPaired` | crates/extensions/src/compact.rs:137-139 | a tail that does not begin with results is paired |
| `Transcript.PrefixNearlyPaired` | crates/extensions/src/session.rs:188-198 | any prefix of a paired transcript is paired but for its last message |
| `Transcript.DropRepairs` | crates/extensions/src/session.rs:188-198 | dropping a trailing message that waits for results restores pairing |
| `Session.Load` | crates/extensions/src/session.rs:140-208 | the loop reads the file as specified, with its errors by line |
| `Session.LoadMeaning` | crates/extensions/src/session.rs:140-208 | a file is rejected exactly for a missing or unreadable header, another version, or its first unreadable line that is not an unfinished last one; otherwise it loads as one message per line, but for a last one that waits for results |
| `Session.LoadsRendered` | crates/extensions/src/session.rs:140-208 | a written conversation loads as itself |
| `Session.LoadsCutFile` | crates/extensions/src/session.rs:161-198 | a file cut anywhere behind its header loads as a prefix of its messages, paired if the whole was |
| `Session.Recorder.Sync` | crates/extensions/src/session.rs:383-411 | appends from the cursor or rewrites; afterwards the file decodes to what was recorded |
| `Session.SyncedExactly` | crates/extensions/src/session.rs:389-400 | the file is the context itself exactly if the context is shorter than, or extends, what was recorded |
| `Session.SyncAll` | crates/extensions/src/session.rs:383-411 | through any number of syncs, each of which extends the last context or is shorter, the file is always exactly the context last synced |
| `Session.ReplacedIsMissed` | crates/extensions/src/session.rs:389-400 | a context of the same length with another message is not written |
| `Session.ReopenedExactly` | crates/extensions/src/session.rs:453-459 | after reopening a cut file matches the loaded conversation exactly if no whole record was left without its line feed |
| `Session.LineFeedLost` | crates/extensions/src/session.rs:453-459 | a file cut before its last line feed: the record is loaded, and the file does not match |
| `Session.ImagesRoundTrip` | crates/extensions/src/session/record.rs:44-96 | images come back in their places whatever their mix of inline data and addresses |
| `Session.SplitMeaning` | crates/extensions/src/session/record.rs:51-64 | kept inline are exactly the images with bytes of their own or without an address; of the others address, type and place are kept |
| `Approval.StepKeepsInv` | crates/cli/src/stdio_approval.rs:106-187 | every interleaving keeps the table consistent; closed implies no open request |
| `Approval.ResolvedOnce` | crates/cli/src/stdio_approval.rs:123-126 | a request is resolved at most once |
| `Approval.EndOfInputDenies` | crates/cli/src/stdio_approval.rs:134-139 | a request open at or made after the end of input ends in a refusal unless it was already answered |
| `Approval.ContinuesOnlyWhenAllowed` | crates/cli/src/stdio_approval.rs:152-186 | a call that needs an answer continues only on allow or always for its own id |
| `Approval.AskedIff` | crates/cli/src/stdio_approval.rs:95-103 | a call is asked about exactly if it is a shell call of a read-only run, or gated, not admitted and not granted for good |
| `Approval.AlwaysEndsAsking` | crates/cli/src/stdio_approval.rs:175-182 | after an answer of always no call of that tool is asked about again, but for the shell of a read-only run |
| `Approval.AnswersAreGiven` | crates/cli/src/stdio_approval.rs:123-139 | what a request is answered with came from a line for its id, or is the refusal at the end of input |
| `Approval.RefusalsTell` | crates/cli/src/stdio_approval.rs:157-185 | a call is refused because nobody is left when it registers, or because its request was denied |
| `Approval.Pending.ReadDecisions` | crates/cli/src/stdio_approval.rs:106-140 | the reader routes every well-formed line and then closes the table |
| `Approval.ReaderMeaning` | crates/cli/src/stdio_approval.rs:106-133 | an open request gets the decision of the first line that answers it, and stays open without one; nothing else is sent |
| `Approval.Pending.Close` | crates/cli/src/stdio_approval.rs:134-139 | closing denies exactly the open requests |
| `Calendar.YearOfPlace` | crates/cli/src/plan.rs:137 | the corrections of the year formula cancel: it yields the year of the era for each of its 146,097 days |
| `Calendar.CivilSuccessor` | crates/cli/src/plan.rs:132-145 | every day has a proper date, and the date of the next day is its Gregorian successor |
| `Calendar.EpochDay` | crates/cli/src/plan.rs:132-145 | day 0 is 1970-01-01 |
| `Calendar.LaterDay` | crates/cli/src/plan.rs:132-145 | a later day has a later date |
| `Calendar.DateText` | crates/cli/src/plan.rs:137-145 | the text is year, month and day in four, two and two digits with hyphens |

## Left out

- Map provenance (`map_source`) and the canonical stage key: lookups over state that the model keeps, with no further property.
- Error texts of the scheduler: reasons are data; the wording of a cycle or mismatch message is not modelled, except the correction prompt.
- A live concurrency limit of the gate: `Gate` fixes the limit; raising or lowering it while requests wait is not modelled.
- Gate: abandoning a request between two of its steps releases the lock and the queue place in one step.
- Retry: the random factor is any number between zero and the bound; rounding of durations is not modelled.
- ToolRetry: a short loop around one call, without shared state.
- Execution: panicking tools, aborted tasks and hooks that fail while reporting are not modelled.
- Dispatch.Execute: the outcome of a batch is that of some complete run, so tools are taken to end; hooks after a call that change its id are allowed, and then the results are what they make of them.
- AgentLoop.Drive: hooks around the model that tear calls and results of a paired context apart are outside its promise, and the streaming path of the model is the same as the plain one.
- Truncation: images inside an output are not modelled, and a result without a store is cut but not marked as stored.
- Compaction: the text of the summary, the recovery index and the file ledger are a parameter; reported sizes are not modelled.
- Session: directories, listing, forking and header defaults; writing to a disk is an append to a string.
- Session.LoadsCutFile: loading only; appending after such a load is covered by the exact condition of `Session.ReopenedExactly`.
- Approval: the text of the request line and of the warnings.
- Sse: decoding of bytes is a parameter, so the lossy decoder may be any function of a line.
- Model providers, HTTP, MCP processes, the memory database, the terminal interface, configuration and modes: input/output or single checks.
