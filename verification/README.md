# Verification of the pipeline execution kernel

A Dafny model of the part of the repository that decides what a pipeline run
does and what is kept of it: planning a dependency graph into levels, running
the levels under nested limiters, enforcement policies, resume and bounded
recursion, the life of one channel, the JSON layer (diff, canonical form,
bundle manifest and signature), the indexed result store, and the generator
that answers a schema.

Code that changes state step by step is modelled as methods with loops or as
classes (`PipelineExecutor`, `ChangeLog`, `SqliteResultStore`), each proved to
do what a specification function says; the theorems are about those functions,
over every environment, every schedule and every run.

| file | what it holds |
|---|---|
| `Prelude.dfy`, `Text.dfy`, `TextOrder.dfy`, `Json.dfy` | counting and pigeonhole facts, string orders and sorted keys, JSON values |
| `Graph.dfy` | dependency graphs: stages of resolution, chains, cycles |
| `ExecutionPlan.dfy`, `PipelineValidator.dfy` | the level-by-level planner and the queue-based validator, two different Kahn algorithms over one graph |
| `Limiter.dfy` | the global and per-provider limiters as a transition system |
| `RunModel.dfy` | a run as a function of its environment, with a journal of every gate it passed |
| `PipelineExecutor.dfy` | the executor object and `resume`, proved equal to that function |
| `RunOrder.dfy`, `Coverage.dfy`, `PolicyLog.dfy`, `CostBudget.dfy`, `RunStatus.dfy`, `RunResults.dfy`, `RunRequests.dfy`, `LevelOutcomes.dfy`, `Refinement.dfy` | what holds over every run |
| `ChannelExecutor.dfy`, `CallTrail.dfy`, `AttemptLog.dfy` | the retry loop around the repair loop, every call of it, and the attempt log |
| `RunDiffer.dfy`, `ChangePaths.dfy`, `RunRecord.dfy`, `DiffRuns.dfy`, `CanonicalJson.dfy`, `JsonReader.dfy`, `KeyOrder.dfy`, `CanonicalRef.dfy`, `ManifestForm.dfy`, `BundleSignature.dfy` | the JSON layer |
| `SqliteStore.dfy`, `StoredRuns.dfy` | the indexed store, and runs saved in it and resumed from it |
| `MockProvider.dfy` | the schema-driven generator |

## Main results

- **Planning.** The planner fails exactly on an unknown dependency or a cycle,
  and then names exactly the channels that reach a cycle; otherwise a channel's
  level is the length of its longest dependency chain and no layering has fewer
  levels. The validator accepts exactly the graphs with distinct ids, known and
  unrepeated dependencies and no cycle, so the planner never fails on what it
  accepts.
- **Limiters.** No reachable state exceeds a cap, none with work left is stuck,
  and every launch ends within three steps a task.
- **Refinement.** For distinct raw references and providers that answer by the
  request, any schedule under any caps records what running the topological
  order one channel at a time records.
- **Runs.** Dependencies come first, and each channel is handed exactly their
  outputs and saved texts; every channel is recorded once a round;
  the policy log is well-formed and ends at the first abort or halt; a cost
  budget is overshot by one channel at most; the run status counts the ok
  results. These hold over all runs, resumed and aborted ones included, unless
  a row says otherwise.
- **Channel life.** At most (R+1)(M+1) calls, a numbered log entry per call, an
  exponential total back-off, and a recorded outcome that is told from the calls
  alone: usage, model, text and verdict of the last answer, or the last fault.
- **JSON.** What is printed is read back by an independent reader; the diff of two values is a complete patch and mirrors when the
  values swap; the canonical text is equal exactly for values equal up to key
  order, `__proto__` members aside; the manifest determines the digests of a
  bundle with one-line paths, so a signature attests to one content.
- **Store and generator.** After any calls the tables are the projection of the
  latest version of every run; the generated value is valid exactly for the
  supported schemas.

## Where the code differs from its own words

- `detectGraphIssues` (`packages/core/src/validation/PipelineValidator.ts:137-188`)
  counts a dependency once per entry but releases it once per channel, so a
  repeated entry is reported as a cycle where the planner accepts it. The model
  follows the code: `ValidateThenPlan` states exactly when the two agree, and
  `RepeatedDependency` is a pipeline on which they do not.
- `canonicalJson` promises a text independent of key order. A member called
  `__proto__` is lost by the assignment that rebuilds the object
  (`packages/core/src/util/hash.ts:19-23`), so the promise is proved with such
  members removed on both sides.
- The keys are not printed in sorted order either
  (`packages/core/src/util/hash.ts:8-9,20-22`): keys that are array indices come
  first, by value. `PrintedOrder` states the order, `PrintedInSortedOrder` exactly
  when it is the sorted one, and `NineBeforeTen` is an object for which it is not.
- `bundleHash` is described as canonical for a bundle. With newlines allowed in
  paths, every bundle of two files or more shares its manifest with some bundle
  of one file; `ManifestStandsAlone` says exactly when it does not.
- `synthesizeFromSchema` is described as producing a conforming value
  (`packages/providers/mock/src/MockProvider.ts:37`). It does exactly on the
  schemas `Supported` describes; `SomeSchemasAreMissed` and
  `SomeContainersAreMissed` list satisfiable schemas it misses.
- The diff prints paths that two different places can share
  (`packages/core/src/diff/RunDiffer.ts:107,122`); the walk is modelled with
  structured paths. `PlainTextsTellApart` and `DiffTextsApart` say when printed
  paths tell places apart, `TextStandsAlone` exactly which path has its text to
  itself, and `DiffTextsCanClash` is a diff with one text for two changes.
- A throw during a repair or a save is logged as the initial call or the retry
  once more, with its back-off (`packages/core/src/executor/ChannelExecutor.ts:173-181`),
  so the log can show more back-off than was slept before each attempt
  (`packages/core/src/executor/ChannelExecutor.ts:17`). `LoggedBackoff` says how
  much, `LoggedTwiceSleptOnce` is such a life, and `ExactWithReliableStore` and
  `ExactWithAnyStore` say for exactly which configurations it never does.

## Model

| member | source | states |
|---|---|---|
| Graph.UnresolvedReachCycles | packages/core/src/executor/ExecutionPlan.ts:127-130 | once a round of resolution adds nothing, the unresolved channels are exactly those with a dependency path into a cycle (pigeonhole) |
| Graph.AcyclicIffResolved | packages/core/src/executor/ExecutionPlan.ts:122-142 | at that point the graph has a cycle exactly when something is unresolved |
| ExecutionPlan.CountDependencies | packages/core/src/executor/ExecutionPlan.ts:106-117 | counts every entry of `dependsOn`, repeats included; fails exactly on an unknown dependency and names one |
| ExecutionPlan.Decrement | packages/core/src/executor/ExecutionPlan.ts:134-141 | the counts of the remaining channels stay the number of their entries that are unresolved, however often an entry repeats |
| ExecutionPlan.ReadyIsNextStage | packages/core/src/executor/ExecutionPlan.ts:124-126 | the channels with count zero are exactly the next stage of resolution |
| ExecutionPlan.TopoLevels | packages/core/src/executor/ExecutionPlan.ts:105-145 | an unknown dependency is reported exactly when there is one; with distinct ids and known dependencies it fails exactly on a cyclic graph, naming exactly the channels that reach a cycle; otherwise the levels are the stages in declared order and cover every channel |
| ExecutionPlan.LevelIsLongestChain | packages/core/src/executor/ExecutionPlan.ts:99-145 | a channel of level k starts a dependency chain of k+1 channels and none longer |
| ExecutionPlan.LayersAreFewest | packages/core/src/executor/ExecutionPlan.ts:99-145 | any ranking that puts dependencies lower ranks a channel at least at its level, so no layering has fewer levels |
| ExecutionPlan.LayersOrdered | packages/core/src/executor/ExecutionPlan.ts:99-145 | every dependency of a channel is in a strictly earlier level |
| ExecutionPlan.LayersPartition | packages/core/src/executor/ExecutionPlan.ts:119-144 | the levels hold each channel exactly once, and no channel is in two levels |
| ExecutionPlan.FlatLayers | packages/core/src/executor/ExecutionPlan.ts:69-71 | a pipeline without dependencies is one level in declared order, which is the same layering the planner would find |
| ExecutionPlan.ResolveProvider | packages/core/src/executor/ExecutionPlan.ts:45-61 | the branches and the loop over the allowed providers choose the specified provider |
| ExecutionPlan.ProviderPrecedence | packages/core/src/executor/ExecutionPlan.ts:45-61 | a channel's own provider first, which must be declared; then the first allowed one that is declared; then the first declared; what is chosen is declared, and a choice fails only for an unknown name or without providers |
| ExecutionPlan.ResolveChannels | packages/core/src/executor/ExecutionPlan.ts:63-67 | each channel with its provider, in order, or the first failure |
| ExecutionPlan.UsedProviders | packages/core/src/executor/ExecutionPlan.ts:81-83 | the providers of the channels and the synthesis, each once, in the order of first use |
| ExecutionPlan.FirstUsesInOrder | packages/core/src/executor/ExecutionPlan.ts:81-95 | what that order is: each id once, earlier exactly when it first occurs earlier |
| ExecutionPlan.BuildExecutionPlan | packages/core/src/executor/ExecutionPlan.ts:38-97 | a provider that does not resolve is reported first; for distinct ids a plan exists exactly when, besides, the graph is known and acyclic and the synthesis resolves, and is then sound; `topoOrder` is the levels in sequence; the depth comes from the option, else the spec, else 1 |
| PipelineValidator.FindUnknown | packages/core/src/validation/PipelineValidator.ts:141-153 | one issue per unknown entry, in order |
| PipelineValidator.CountEntries | packages/core/src/validation/PipelineValidator.ts:156-160 | every id once, with the count of its last channel |
| PipelineValidator.CountsEveryEntry | packages/core/src/validation/PipelineValidator.ts:156-159 | with distinct ids that count is the number of entries, repeats included |
| PipelineValidator.Release | packages/core/src/validation/PipelineValidator.ts:167-174 | removing an id lowers each dependent's count by one, whatever the repeats, and queues it exactly when the count reaches zero |
| PipelineValidator.ReleaseCounts | packages/core/src/validation/PipelineValidator.ts:163-175 | the count of a channel stays its entries less its distinct removed dependencies |
| PipelineValidator.RemovedIsResolved | packages/core/src/validation/PipelineValidator.ts:163-175 | what the queue removes repeats no dependency, and level-by-level resolution resolves it too |
| PipelineValidator.LeftoverReachesCycle | packages/core/src/validation/PipelineValidator.ts:176-187 | on a graph without repeats, what the queue leaves is exactly what reaches a cycle |
| PipelineValidator.DetectGraphIssues | packages/core/src/validation/PipelineValidator.ts:137-188 | no issue exactly when ids are distinct, dependencies known and unrepeated, and the graph acyclic; unknown dependencies are all reported and suppress the cycle check; on distinct ids without repeats the cycle issue names exactly the channels that reach a cycle |
| PipelineValidator.ValidateThenPlan | packages/core/src/executor/ExecutionPlan.ts:99-104 | the planner never fails on what the validator accepts; on distinct ids the two decide alike exactly when no dependency is repeated, or the graph is cyclic, or a dependency unknown |
| PipelineValidator.RepeatedDependency | packages/core/src/validation/PipelineValidator.ts:157-173 | a pipeline where they part: distinct, known and acyclic, with one dependency listed twice |
| Limiter.LaunchedSafe | packages/core/src/executor/PipelineExecutor.ts:287-300 | a fresh launch, all tasks queued, is within its caps |
| Limiter.StepSafe | packages/core/src/executor/PipelineExecutor.ts:150-154 | every step of a task keeps the global and the provider caps |
| Limiter.ReachableSafe | packages/core/src/executor/PipelineExecutor.ts:133-154 | in every reachable state the tasks holding a global slot and those running on a provider are within the caps |
| Limiter.SomeEnabled | packages/core/src/executor/PipelineExecutor.ts:133-154 | a state within its caps and with work left always has a task that can move: no deadlock |
| Limiter.BlockedHolderHasRunner | packages/core/src/executor/PipelineExecutor.ts:150-154 | when every holder of a global slot waits for its provider, some task is running |
| Limiter.StepDrains | packages/core/src/executor/PipelineExecutor.ts:282-301 | every step lowers the work that remains |
| Limiter.StepsBounded | packages/core/src/executor/PipelineExecutor.ts:282-301 | no execution takes more than three steps a task, less what remains |
| Limiter.ReachableInOrder | packages/core/src/executor/PipelineExecutor.ts:133-154 | in every reachable state both queues have been served in order, and only tasks of capped providers wait for a second slot |
| Limiter.NoSlotLiesIdle | packages/core/src/executor/PipelineExecutor.ts:133-154 | a free slot can always be taken by the first task that waits for it, and a running task can always end |
| LevelOutcomes.CapsHoldInFlight | packages/core/src/executor/PipelineExecutor.ts:133-154 | at every moment of every level, the channels that run on a provider are within its cap, and those with a global slot within the global cap |
| RunModel.RoundDeepens | packages/core/src/executor/PipelineExecutor.ts:168-170 | a round raises the depth by exactly one, whatever happens in it, which is why the run loop ends |
| RunModel.RawRefForm | packages/stores/sqlite/src/SqliteResultStore.ts:232-234 | the reference of a raw output, character by character: letters, digits, dots, underscores and hyphens are kept, anything else becomes an underscore |
| PipelineExecutor.PipelineExecutor.AskPolicies | packages/core/src/executor/PipelineExecutor.ts:458-483 | the before-hooks in registration order up to the first that does not proceed, with the decisions logged; an abort halts the run and aborts its controller |
| PipelineExecutor.PipelineExecutor.ReviewResult | packages/core/src/executor/PipelineExecutor.ts:487-511 | all after-hooks, a halt notwithstanding, on the results with the new one last |
| PipelineExecutor.PipelineExecutor.RunOne | packages/core/src/executor/PipelineExecutor.ts:545-602 | the request a channel is executed with and the result recorded under its id |
| PipelineExecutor.PipelineExecutor.RunGatedChannel | packages/core/src/executor/PipelineExecutor.ts:432-514 | the new state and result are those of the gate: nothing once aborted, else hooks, execution, hooks |
| PipelineExecutor.PipelineExecutor.RecordCompleted | packages/core/src/executor/PipelineExecutor.ts:253-259 | a skipped channel leaves a gap in the round and nothing in the results |
| PipelineExecutor.PipelineExecutor.RunSequentially | packages/core/src/executor/PipelineExecutor.ts:265-280 | with policies a level runs one channel after another and stops at a halt |
| PipelineExecutor.PipelineExecutor.RunConcurrently | packages/core/src/executor/PipelineExecutor.ts:281-306 | without policies the prepared channels go through the limiters in any order the schedule picks, and are recorded in level order |
| PipelineExecutor.PipelineExecutor.CarryForwardChannels | packages/core/src/executor/PipelineExecutor.ts:231-245 | carried results are recorded unchanged, in declared order |
| PipelineExecutor.PipelineExecutor.RunAllLevels | packages/core/src/executor/PipelineExecutor.ts:260-307 | level by level without the carried channels, until a halt |
| PipelineExecutor.PipelineExecutor.RunSynthesis | packages/core/src/executor/PipelineExecutor.ts:309-339 | the synthesis is gated on the round's results and the previous synthesis, and replaces it only when it ran |
| PipelineExecutor.PipelineExecutor.RunPipeline | packages/core/src/executor/PipelineExecutor.ts:168-372 | the whole run is the specified run, whose requests, results and rounds `EveryRequest` and `StopsExactlyAtABound` state; status, validity and errors are those of its channels and its synthesis |
| PipelineExecutor.CompletedOf | packages/core/src/executor/PipelineExecutor.ts:683-684 | the ok results of a prior run, in order |
| PipelineExecutor.Mismatches | packages/core/src/executor/PipelineExecutor.ts:634-673 | one mismatch for each recorded hash that no longer holds, in order, and none exactly when all hold |
| PipelineExecutor.Resume | packages/core/src/executor/PipelineExecutor.ts:634-689 | refused exactly when the prior run is unknown or a recorded hash no longer holds, with all mismatches; otherwise the run that carries exactly the ok results, and its report |
| StoredRuns.RunAndSave | packages/core/src/executor/PipelineExecutor.ts:356-386 | a run ends by saving its record (channels, synthesis, status, validity), which the store then holds as the latest of its id |
| StoredRuns.ResumeAndSave | packages/core/src/executor/PipelineExecutor.ts:626-690 | a resume reads the latest record from the store; refused, it saves nothing; otherwise the run that carries that record's ok results is executed and saved |
| StoredRuns.ResumeCarriesTheSavedRun | packages/core/src/executor/PipelineExecutor.ts:626-690 | whatever was saved meanwhile, a resume finds the run's own record unless its id was saved again, and carries an id exactly when that run had an ok result for it |
| RunRequests.EveryRequest | packages/core/src/executor/PipelineExecutor.ts:194-339 | over every run: a channel is handed exactly those of its dependencies that have a result in its round, with what that result parsed to and the text the provider gave for it this run (none for a carried result; raw references being their own), and the last synthesis; a synthesis is shown the results of its round in the order recorded; and each result is what the provider said to that request |
| RunOrder.DependenciesComeFirst | packages/core/src/executor/PipelineExecutor.ts:196-307 | over every run of a plan of distinct ids, each executed channel found every id it depends on among the results of its own round, unless a policy had already skipped that id there |
| RunOrder.PlanRepeatedId | packages/core/src/executor/ExecutionPlan.ts:107-117 | a channel declared twice counts as its last declaration, so the planner puts it on one level with what its first declaration depends on |
| RunOrder.RepeatedIdRunsEarly | packages/core/src/executor/PipelineExecutor.ts:260-280 | a run over that level executes a channel before what it depends on, so distinct ids are needed |
| RunOrder.GatedSupplied | packages/core/src/executor/PipelineExecutor.ts:432-514 | one gated channel keeps that, and ends with its result available, skipped by a policy, or the run aborted |
| RunOrder.ConcurrentSettles | packages/core/src/executor/PipelineExecutor.ts:281-306 | a concurrent level under any schedule ends with every member recorded or the run aborted |
| Coverage.EveryChannelEveryRound | packages/core/src/executor/PipelineExecutor.ts:168-354 | without policies and abort, the results hold each id once per round and planned channel: the count of an id is the number of rounds times its occurrences in the plan |
| Coverage.RoundAdds | packages/core/src/executor/PipelineExecutor.ts:231-307 | one such round appends exactly the planned channels, carried and executed, and logs no policy decision |
| Coverage.CarriesLastOk | packages/core/src/executor/PipelineExecutor.ts:127-131 | an id is carried exactly when the prior run has an ok result for it, and the last of those is carried |
| Coverage.ResumeCarriesForward | packages/core/src/executor/PipelineExecutor.ts:231-245 | round 1 of any resumed run records the last ok result of each carried id unchanged, keeps it to the end, and never executes such a channel again in that round |
| PolicyLog.BeforeHooksSegment | packages/core/src/executor/PipelineExecutor.ts:458-483 | the decisions of a gate are a prefix of the before-hooks in registration order, all proceeding but possibly the last; the channel goes ahead exactly when all hooks proceeded |
| PolicyLog.AfterHooksSegment | packages/core/src/executor/PipelineExecutor.ts:490-511 | the decisions of a review are all the after-hooks in registration order; the run halts exactly when one said so |
| PolicyLog.DecisionsAreVerdicts | packages/core/src/executor/PipelineExecutor.ts:458-511 | each decision of either kind is its policy's own verdict on the given context, with its reason |
| PolicyLog.PolicyLogOfRun | packages/core/src/executor/PipelineExecutor.ts:260-341 | over every run with policies, the policy log is the concatenation of such segments, an executed channel is reviewed at once, only the last event can stop the run, and the run is halted exactly when it did |
| PolicyLog.NothingFollowsAStop | packages/core/src/executor/PipelineExecutor.ts:475-511 | an abort is the last entry of the log, and after a halt only after-hook entries of the same channel follow |
| PolicyLog.RoundsBounded | packages/core/src/executor/RecursionPolicy.ts:10-32 | a run makes exactly one round without recursion and never more than max(1, maxDepth) |
| PolicyLog.StopsExactlyAtABound | packages/core/src/executor/PipelineExecutor.ts:341-353 | over every run: another round follows exactly when nothing halted, recursion is enabled, and depth, elapsed time and the known cost of the channels and the latest synthesis are below their bounds |
| CostBudget.SumCostLoop | packages/core/src/policies/CostBudgetPolicy.ts:108-114 | the loop sums the known costs of the results |
| CostBudget.ProceedIsUnanimous | packages/core/src/executor/PipelineExecutor.ts:459-483 | when the gate opens, the budget policy itself said proceed, wherever it stands in the list |
| CostBudget.ReviewHaltsAtCeiling | packages/core/src/policies/CostBudgetPolicy.ts:83-105 | a review that finds the known cost at the ceiling halts the run |
| CostBudget.HooksFollowKnownCost | packages/core/src/policies/CostBudgetPolicy.ts:61-114 | from the configuration alone: the before-hook aborts exactly when the known cost has reached the budget less its margin; the after-hook halts exactly then, or when the channel alone cost more than a channel may |
| CostBudget.OvershootIsOneChannel | packages/core/src/policies/CostBudgetPolicy.ts:60-114 | for a budget m with margin k (none by default): every execution starts with the known cost strictly below m * (1 - k); at the end of any run that executed a channel, the cost without that last channel is below it, and the whole cost is too when the run was not halted |
| RunStatus.StatusCountsOk | packages/core/src/executor/PipelineExecutor.ts:356-372 | for results whose schema is valid exactly with status ok: completed, failed or partial as all, none or some are ok |
| RunStatus.StatusOfAnyResults | packages/core/src/executor/PipelineExecutor.ts:356-372 | whatever the results: failed when there are some and none is ok; completed when not failed and each is ok, or passes for valid without an error or timeout |
| RunStatus.RunStatusCountsOk | packages/core/src/executor/PipelineExecutor.ts:356-372 | the same over every run whose providers and carried results are such |
| RunStatus.ExecutedRunsCountOk | packages/core/src/executor/PipelineExecutor.ts:356-372 | providers that let each channel live its whole life of calls, repairs and retries are such, so the status of a run over them counts the ok results |
| RunStatus.ReportOn | packages/core/src/executor/PipelineExecutor.ts:356-372 | status, validity and the list of invalid results, which is empty exactly when the run is valid |
| RunStatus.ValidMeansNoneInvalid | packages/core/src/executor/PipelineExecutor.ts:359-360 | the list is empty, and the run valid, exactly when no result is invalid, whatever the results |
| RunStatus.ErrorsNameFailures | packages/core/src/executor/PipelineExecutor.ts:359-364 | for such results the list has one entry for each result that is not ok, and none else |
| RunResults.EveryResult | packages/core/src/executor/PipelineExecutor.ts:168-354 | a property of everything a run can be answered, and of what it carries, holds of everything it records, over every run |
| LevelOutcomes.GateOpens | packages/core/src/executor/PipelineExecutor.ts:432-514 | with nothing to stop it, a gated channel yields its provider's answer and one saved text |
| LevelOutcomes.WritesCommute | packages/core/src/executor/PipelineExecutor.ts:286-301 | saves under different references commute |
| LevelOutcomes.ConcurrentOutcome | packages/core/src/executor/PipelineExecutor.ts:281-306 | a concurrent level comes to the same results and store under any schedule |
| LevelOutcomes.RequestUnmoved | packages/core/src/executor/PipelineExecutor.ts:197-216 | what a channel is asked (which `EveryRequest` states) does not depend on which others of its level have run |
| Refinement.ConcurrentRefinesSequential | packages/core/src/executor/PipelineExecutor.ts:253-307 | with no policies, no abort, no run-time ceiling, distinct ids and raw references, deterministic providers and carried results that refer to no other channel's raw output, results, synthesis, stored texts and depth are those of the topological order run one channel at a time, over all rounds and on resume |
| Refinement.ResultsOwnTheirRefs | packages/core/src/executor/PipelineExecutor.ts:127-131 | whatever a run records, under policies or aborted as well, refers to no raw output of another channel of a given plan, its own or a different one, when the references of the two are compatible |
| Refinement.ResumedRunsRefineToo | packages/core/src/executor/PipelineExecutor.ts:683-689 | so refinement holds of a resume of any prior run, also under a plan that resolves other providers, when no channel the prior plan ran shares a raw reference with another channel of the new plan |
| Refinement.SamePlanIsCompatible | packages/core/src/executor/PipelineExecutor.ts:683-689 | under the same plan distinct references are enough for that |
| Refinement.ScheduleDoesNotMatter | packages/core/src/executor/PipelineExecutor.ts:133-154 | so two executions under different caps, schedules and clocks record the same |
| Refinement.RawRefsCollide | packages/stores/sqlite/src/SqliteResultStore.ts:232-234 | two channels share a raw reference exactly when id, dot and provider sanitise alike, position by position |
| Refinement.RawRefsCanCollide | packages/stores/sqlite/src/SqliteResultStore.ts:232-234 | distinct channels do, by sanitising or by where the dot falls, so the hypothesis of distinct references is needed |
| ChannelExecutor.RunWithRepair | packages/core/src/executor/ChannelExecutor.ts:205-243 | the repair loop makes the calls of the specified pass: the first, then a repair while the answer is repairable and repairs are left, and a fault ends it |
| ChannelExecutor.TryOnce | packages/core/src/executor/ChannelExecutor.ts:122-187 | one turn of the retry loop: sleep, calls, log, save; a thrown save is logged like a thrown call |
| ChannelExecutor.ExecuteChannel | packages/core/src/executor/ChannelExecutor.ts:116-198 | the loop ends with the recorded result of the specified life, of which `RecordTellsTheTrail` says what it is |
| CallTrail.RecordTellsTheTrail | packages/core/src/executor/ChannelExecutor.ts:112-280 | for every channel: its calls are the prompt, then repairs of the answer before while one is wanted and left, turn by turn until an answer is saved or what was thrown may not be retried; what is recorded is the last answer's usage, model or else the declared one, text, parse and verdict, or, when nothing was saved, no usage and the message of the last fault |
| ChannelExecutor.CallsBounded | packages/core/src/executor/ChannelExecutor.ts:122-243 | with R retries and M repairs, at least one and at most (R+1)(M+1) provider calls |
| AttemptLog.AttemptsAreLogged | packages/core/src/executor/ChannelExecutor.ts:116-187 | attempts are numbered 1..n, one per call and failed save, so one per call when the store does not fail; k retries sleep backoff*(2^k-1) in all; try by try, the first entry is initial or retry with that try's back-off, repairs follow with none, and whatever is thrown after the first call is logged with the try's own kind and back-off again; every try but the last ends in something thrown |
| AttemptLog.LoggedBackoff | packages/core/src/executor/ChannelExecutor.ts:132-181 | the logged back-offs are those slept plus, once more, those of the tries in which something was thrown after the first call: between one and two times what was slept |
| AttemptLog.ExactWithReliableStore | packages/core/src/executor/ChannelExecutor.ts:107-187 | over all providers and all stores that do not fail, logged and slept back-off agree exactly for the configurations without back-off, without retries (none allowed or no condition), or without repairs (none allowed or no condition) |
| AttemptLog.ExactWithAnyStore | packages/core/src/executor/ChannelExecutor.ts:107-187 | over all providers and stores, exactly for those without back-off or without retries |
| AttemptLog.LoggedTwiceSleptOnce | packages/core/src/executor/ChannelExecutor.ts:171-181 | a life that sleeps one millisecond and logs two: a throw, an answer that is not JSON, and a throw in its repair |
| ChannelExecutor.RecordedOutcome | packages/core/src/executor/ChannelExecutor.ts:143-197 | the status is the last logged one; schema-valid exactly with status ok; parsing the saved text again gives the recorded output; an error or time-out is final exactly when nothing was saved, and then only if it may not be retried or no retry is left |
| ChannelExecutor.OutcomeIsFaithful | packages/core/src/executor/ChannelExecutor.ts:154-168 | what a run sees of a channel executed this way is schema-valid exactly with status ok, which is what the run status relies on |
| ChannelExecutor.RepairsAreSpent | packages/core/src/executor/ChannelExecutor.ts:226-240 | a try that ends with a repairable answer has made all its repair calls |
| RunDiffer.ChangeLog.WalkValues | packages/core/src/diff/RunDiffer.ts:103-140 | the walk appends exactly the specified changes to the shared list, in order |
| RunDiffer.DiffParsed | packages/core/src/diff/RunDiffer.ts:93-97 | from an empty list, the diff is the walk |
| RunDiffer.WalkIsCompletePatch | packages/core/src/diff/RunDiffer.ts:86-140 | for all values a and b, applying the changes of the walk to a gives exactly b |
| RunDiffer.WalkMirrors | packages/core/src/diff/RunDiffer.ts:103-140 | swapping the values gives the same changes in the same order, added and removed exchanged and the sides swapped |
| RunDiffer.NoChangeMeansEqual | packages/core/src/diff/RunDiffer.ts:86-92 | there is no change exactly when the values are equal |
| ChangePaths.PlainTextsTellApart | packages/core/src/diff/RunDiffer.ts:106-122 | for all paths whose keys hold no dot and no opening bracket and whose first step is not the key `$`, printed texts are equal exactly when the paths are |
| ChangePaths.RootKeyVanishes | packages/core/src/diff/RunDiffer.ts:107 | a first step by the key `$` leaves no trace in the text of any path |
| ChangePaths.DottedKeyPrintsAsTwo | packages/core/src/diff/RunDiffer.ts:107 | anywhere in a path, a key u.v prints like the two keys u and v, except where u is `$` at the root |
| ChangePaths.BracketedKeyPrintsAsTwo | packages/core/src/diff/RunDiffer.ts:122 | anywhere in a path, a key u[i] prints like the key u and the position i |
| ChangePaths.TextStandsAlone | packages/core/src/diff/RunDiffer.ts:103-139 | among all paths that do not start with the key `$`, a path has its text to itself exactly when it is the root or a single key that does not split in one of those ways |
| ChangePaths.DiffTextsApart | packages/core/src/diff/RunDiffer.ts:93-140 | between values of plain keys without a top-level `$`, no two changes of a diff print the same path |
| ChangePaths.DiffTextsCanClash | packages/core/src/diff/RunDiffer.ts:93-140 | otherwise they can: the diff of {"a":{"b":x},"a.b":x} and the same with y is exactly two changes with one printed path, for all different leaves x and y |
| DiffRuns.ChannelMapLoop | packages/core/src/diff/RunDiffer.ts:62-67 | the last result of an id wins, and the synthesis over all |
| DiffRuns.Diff | packages/core/src/diff/RunDiffer.ts:178-228 | refused exactly when the pipeline hashes differ; otherwise every id of either run in ascending order, naming the run that lacks it or, field by field, what changed, and identical exactly when status, validity and, id by id, status, schema validity, provider, model and output agree |
| DiffRuns.ChannelUnchanged | packages/core/src/diff/RunDiffer.ts:142-156 | an entry counts as unchanged exactly when both runs have the id with the same result |
| DiffRuns.SameRunIsEquivalence | packages/core/src/diff/RunDiffer.ts:200-227 | being identical is an equivalence |
| CanonicalJson.SortKeysOf | packages/core/src/util/hash.ts:16-26 | the recursive rebuild, key by sorted key, gives the specified tree |
| CanonicalJson.SortKeysKeepsMeaning | packages/core/src/util/hash.ts:16-26 | sorting the keys keeps the value, members called `__proto__` aside |
| CanonicalJson.EqualValuesSortAlike | packages/core/src/util/hash.ts:8-26 | equal values, whatever their key order at any depth, are rebuilt identically, property order included |
| TextOrder.KeysCompareByCodeUnit | packages/core/src/util/hash.ts:20 | keys are compared as JavaScript compares strings: lexicographically by UTF-16 code unit |
| KeyOrder.PrintedOrder | packages/core/src/util/hash.ts:16-26 | canonical text prints the index keys of an object first, by value, then its other keys ascending, and loses no key but `__proto__` |
| KeyOrder.IndexKeysAreDecimals | packages/core/src/util/hash.ts:20-22 | index keys are the decimals of the numbers below 2^32 - 1 |
| KeyOrder.PrintedInSortedOrder | packages/core/src/util/hash.ts:8-9 | that is the sorted order exactly when no key sorts before an index key unless it is itself an index of smaller value |
| KeyOrder.NineBeforeTen | packages/core/src/util/hash.ts:20-22 | an object with the keys 9 and 10 prints 9 first, though 10 sorts first |
| CanonicalJson.PrintUnambiguous | packages/core/src/util/hash.ts:12-14 | a printed value can be read off the front of a text: sections 4 to 7 of RFC 8259 leave no second reading |
| CanonicalJson.PrintInjective | packages/core/src/util/hash.ts:12-14 | two trees print alike only if they are the same tree |
| JsonReader.PrintedIsRead | packages/core/src/util/hash.ts:12-14 | a reader of JSON texts, written from RFC 8259 alone, reads every printed value back, whatever follows it |
| JsonReader.NoLongerThanNeeded | packages/core/src/util/hash.ts:12-14 | no text that reads as a character is shorter than the one printed for it, and its hexadecimal digits are in lower case |
| CanonicalJson.CanonicalIffEqual | packages/core/src/util/hash.ts:8-26 | canonical texts are equal exactly when the values are, `__proto__` members removed at every depth |
| CanonicalJson.CanonicalIffEqualUpToOrder | packages/core/src/util/hash.ts:8-26 | for values without such members, exactly when they are equal up to key order |
| CanonicalJson.ProtoIsLost | packages/core/src/util/hash.ts:19-23 | a member called `__proto__` is lost, by example |
| CanonicalJson.LeafTextDecides | packages/core/src/diff/RunDiffer.ts:136-139 | the diff's leaf test by printed text tells exactly the unequal values, unless both are objects or both arrays, where it is not used |
| CanonicalRef.RunRefRoundTrip | packages/core/src/refs/CanonicalRef.ts:28-62 | parsing accepts exactly what making returns, and each undoes the other, from a bare or a prefixed hash |
| ManifestForm.RunRefForm | packages/core/src/refs/CanonicalRef.ts:28-48 | a reference is the scheme, then 64 lower-case hexadecimal digits, made from just those, prefixed or not |
| CanonicalRef.BundleHash | packages/core/src/refs/CanonicalRef.ts:79-88 | the loop over the sorted paths hashes the manifest of the files that are not derived |
| ManifestForm.ManifestReads | packages/core/src/refs/CanonicalRef.ts:79-87 | cut at its newlines, a manifest is the one-line paths in ascending order, each followed by the digest of its file, the signature and reference file left out |
| CanonicalRef.ManifestDeterminesDigests | packages/core/src/refs/CanonicalRef.ts:64-88 | between bundles with one-line paths, manifests are equal exactly when every path has the same digest |
| CanonicalRef.ManifestStandsAlone | packages/core/src/refs/CanonicalRef.ts:79-88 | among all bundles, the manifest of one with one-line paths is its own exactly when it has at most one file |
| BundleSignature.LineEndsDoNotMatter | packages/core/src/signing/BundleSignature.ts:125-128 | a key compares equal to itself with the other line ends |
| BundleSignature.EachLineEnd | packages/core/src/signing/BundleSignature.ts:126-127 | each CRLF becomes one newline |
| BundleSignature.OtherTextStays | packages/core/src/signing/BundleSignature.ts:126-127 | and text without one stays as it is |
| BundleSignature.NormalizedAlike | packages/core/src/signing/BundleSignature.ts:125-128 | normalised keys are equal exactly when the texts agree once line ends are newlines and outer white space is taken away |
| BundleSignature.PlainKeysCompareAsTexts | packages/core/src/signing/BundleSignature.ts:125-128 | so keys without carriage returns and outer white space are the same exactly when their texts are |
| BundleSignature.SignBundle | packages/core/src/signing/BundleSignature.ts:43-57 | always succeeds, with the reference of the bundle's own hash signed |
| BundleSignature.VerifyBundle | packages/core/src/signing/BundleSignature.ts:74-123 | accepts exactly a well-formed signature that attests to the files and comes from the expected key, line ends and outer white space aside; otherwise the reason is exactly the first check that fails, a different key included |
| BundleSignature.SignedContentOnly | packages/core/src/signing/BundleSignature.ts:38-123 | a signature made for one bundle verifies any bundle with the same content, and with one-line paths and no collision among the hashed texts no other |
| BundleSignature.OneSignatureOneContent | packages/core/src/signing/BundleSignature.ts:59-73 | under those hypotheses one signature, whoever made it, attests to one content |
| BundleSignature.DerivedFilesMayBeAdded | packages/core/src/refs/CanonicalRef.ts:69-70 | adding the signature and reference files keeps the content |
| BundleSignature.NewlinePathsShareASignature | packages/core/src/refs/CanonicalRef.ts:81-86 | without the one-line hypothesis it fails for every bundle of two files or more |
| SqliteStore.SqliteResultStore.SaveRun | packages/stores/sqlite/src/SqliteResultStore.ts:114-185 | the run's row is inserted or updated in place and its projected rows replaced; the tables keep reflecting the history |
| SqliteStore.SqliteResultStore.Project | packages/stores/sqlite/src/SqliteResultStore.ts:139-182 | the loop inserts one channel and one usage row per result and one error row per validation error, the synthesis marked and last, after the run's old rows are gone |
| SqliteStore.SaveRunKeepsReflecting | packages/stores/sqlite/src/SqliteResultStore.ts:114-185 | saving a run, new or again, leaves of every run exactly the latest version and its projection in the tables |
| SqliteStore.SqliteResultStore.GetRun | packages/stores/sqlite/src/SqliteResultStore.ts:187-192 | the latest saved version, or nothing when it was never saved |
| SqliteStore.LastSaveWins | packages/stores/sqlite/src/SqliteResultStore.ts:114-192 | after any calls, a saved run is the latest until its id is saved again |
| SqliteStore.SqliteResultStore.SaveRawOutput | packages/stores/sqlite/src/SqliteResultStore.ts:232-242 | the reference is that of the sanitised key, and the tables keep reflecting the history |
| SqliteStore.SaveRawKeepsReflecting | packages/stores/sqlite/src/SqliteResultStore.ts:232-242 | saving a raw output changes what is read under that run and reference only |
| SqliteStore.SqliteResultStore.GetRawOutput | packages/stores/sqlite/src/SqliteResultStore.ts:244-249 | the text last saved under that run and reference |
| SqliteStore.LastRawWins | packages/stores/sqlite/src/SqliteResultStore.ts:232-249 | after any calls, a raw output is kept until one is saved for the run under a key with the same sanitised form |
| SqliteStore.SqliteResultStore.ListRunsFiltered | packages/stores/sqlite/src/SqliteResultStore.ts:206-230 | each run whose latest version passes the filter, once, newest first |
| SqliteStore.SqliteResultStore.ListRuns | packages/stores/sqlite/src/SqliteResultStore.ts:194-199 | every saved run once, newest first |
| SqliteStore.QueryListsTheLatest | packages/stores/sqlite/src/SqliteResultStore.ts:206-230 | filtering and ordering the columns answers for the latest versions of the runs themselves |
| SqliteStore.OrderedNewestFirst | packages/stores/sqlite/src/SqliteResultStore.ts:226-229 | the ordered rows are the selected rows, newest first |
| TextOrder.TimesCompareByByte | packages/stores/sqlite/src/SqliteResultStore.ts:217-229 | times are compared lexicographically by their UTF-8 bytes |
| MockProvider.SynthesizeFromSchema | packages/providers/mock/src/MockProvider.ts:38-70 | the recursive generator with its object and array loops returns the specified value, for every schema |
| MockProvider.GeneratedShape | packages/providers/mock/src/MockProvider.ts:43-69 | what is generated for a schema that names no value: the minimum or else one; true; the wanted members and at least one or `minItems` items, each generated from its own seed; and otherwise the seed as a text |
| MockProvider.SeedsTellApart | packages/providers/mock/src/MockProvider.ts:51-68 | two seeds give different values exactly when the seed reaches some generated text |
| MockProvider.UniqueExactlyWhenVarying | packages/providers/mock/src/MockProvider.ts:54-60 | the items of a generated array are distinct exactly when there is one or the seed reaches them |
| MockProvider.GeneratedIsValid | packages/providers/mock/src/MockProvider.ts:37-70 | the generated value validates (sections 6.1 to 6.5 of JSON Schema Validation draft-07) exactly when its keywords support it: the first value of the enumeration, else the constant, else the default conforms; else required keys are declared and the bounds admit the minimum or one, the text length, and the counts generated, at every depth |
| MockProvider.SomeSchemasAreMissed | packages/providers/mock/src/MockProvider.ts:61-69 | satisfiable scalar schemas whose generated value is invalid: type null, a maximum below 1, an integer with a fractional minimum |
| MockProvider.SomeContainersAreMissed | packages/providers/mock/src/MockProvider.ts:46-60 | the same for arrays that must be empty and objects with an undeclared required key |

## Assumptions

- `p-limit` is a first-in first-out semaphore with a cap of at least 1.
- sha256, Ed25519 and the key pair are functions of which only this is used: a
  digest is 64 lower-case hexadecimal digits, and a key pair's signature
  verifies under its own key. Absence of collisions is assumed only where named
  and only among the texts involved.
- Costs, times and JSON numbers of results are reals. In the canonical form a
  number is the text it prints as, which sets `-0`, `NaN` and infinities aside;
  strings have no lone surrogates.
- Providers answer by the request alone where a row says deterministic;
  elsewhere they may answer differently each time.
- Enforcement policies answer by the context they are given and keep no state of
  their own.
- The recursion policy is the default one; depths and attempt counts are
  natural numbers.
- Apart from provider calls and saves inside a channel, nothing throws.

## Left out

- HTTP, MCP, A2A, OpenAPI and CLI layers, real providers, registries, federation: plumbing over I/O not modelled here.
- Of a provider only its id is modelled; its type, model and options reach a channel's life as the services it calls.
- Run ids, timestamps, latencies, telemetry, the reasons and amounts in policy messages: observational. A policy's reason is kept as an opaque text.
- Prompt rendering, JSON extraction, schema validation of answers and the repair prompt: parameters of a channel's life.
- Secret persistence for delegated agents, redaction, bundle directories on disk: I/O.
- `result.synthesis` and `lastSynthesis` are one field of the model: the source always assigns them together.
- PipelineExecutor.PipelineExecutor.RunOne: prompt and schema texts are not loaded or hashed, and retry and repair settings arrive resolved; the lines that default them choose between two given values.
- RunRequests.EveryRequest: parsed outputs are handed over as values; the indented text a prompt shows of them is rendering.
- PipelineExecutor.Resume: the current hashes and plan are given rather than computed from the registry.
- Limiter steps are atomic and a task's whole channel runs in one of them; what a provider computes meanwhile is its answer, which may depend on a global clock.
- `refused`, `invalid_json` and other mock modes (`packages/providers/mock/src/MockProvider.ts:15-34`): constant answers.
- MockProvider.GeneratedIsValid: validation covers the keywords of the model's schemas, not those about patterns, positions or other schemas of one value (`pattern`, `patternProperties`, `propertyNames`, `dependencies`, `contains`, item lists), property names `__proto__`, and fractional or negative counts.
- SqliteStore.SqliteResultStore.ListRunsFiltered: the order of runs with equal start times is not promised, as the query does not fix it.
- The store's result text is taken to read back as the run it was written from; the latency column is not modelled.
- Cost totals and deltas of a diff (`packages/core/src/diff/RunDiffer.ts:69-84`): folds that do not decide whether runs are identical.
- `StatsQueries`, `ModelSelector`, Markdown and ASCII rendering: folds and presentation.
