# MergeReady: a verified model

This project models the core of MergeReady, a service that turns a ticket into a pull request: a
planner proposes steps, a drafter writes one diff per step, a sandbox applies and tests each diff, a
red build is re-drafted once, and only green diffs are composed into the pull request. Beside that
run stand four smaller cores of the same repository: fitting a message buffer into a context
window, metering and budget warnings, the retry and fallback engine, and the judges' Q&A sheet.

Whatever the system cannot control is a parameter, so a statement about all parameters is a
statement about every behaviour of the outside world. The run takes an `Oracle`: every answer of
the model, the sandbox, the ledger, the pull-request service, the budget check and the event stream.
SHA-256 is an arbitrary function. The sandbox model takes an arbitrary `git apply` and an arbitrary,
possibly flaky, test command; the retry engine takes arbitrary providers, repair models and caches;
compaction takes an arbitrary function.

Code that changes things step by step is modelled by classes and loops (`TicketRun`, `FakeSandbox`,
`CostStore`, `CostRoutes`, `CompactionSlot`, `Question`, and the loops of the composer, the
selectors, the context strategies, the parsers and printers). Each is proved to compute a
specification function, and the theorems are about those functions.

| files | what they cover |
|---|---|
| `Sequences`, `Text` | stable sorting, filtering, JavaScript string operations |
| `Gate`, `StepIds`, `Compose`, `ComposeOrder` | merge gate, step ids on the wire, composition of the pull request |
| `Orchestrator`, `TicketRun` | the run as a function of its oracle, and as the imperative machine |
| `RunSafety`, `RunCalls`, `RunReturns` | safety of whole runs, their calls step by step, when they return |
| `RunInvariant`, `RunEvents`, `RunWords`, `RunDegraded` | what holds of the event stream, its verdicts and language, the degraded flag |
| `Selectors`, `RunView`, `RunStream` | the console's view, rebuilt from the event log, against the run itself |
| `Sandbox`, `RunSandbox` | the fake sandbox adapter, and its joint behaviour with the run |
| `RunWitness` | concrete runs that show what can go wrong |
| `Diffs`, `DiffShape` | what a model answer has satisfied before it is verified |
| `ContextBudget`, `ContextStrategies`, `ContextRetention`, `ContextFit`, `ContextCompaction` | budgets, truncation strategies, `fit`, compaction |
| `ContextPack`, `ContextPackExact`, `Truncation` | the planner prompt and text truncation |
| `Resilience`, `ResilienceSafety` | retries, repair, fallback chain, backoff |
| `CostStore`, `CostEdges`, `TierLadder` | usage records, edge-triggered warnings, model tiers |
| `AxisCoverage`, `QaSheet`, `QaRoundTrip`, `QaFallback`, `Sampling` | rebalancing, printing, parsing and sampling the Q&A sheet |

## Findings

The proofs show where the code does not do what its documentation or its neighbours suggest. Each
finding has a lemma with the exact condition, and where it helps one with a concrete case.

- A negative `MERGEREADY_MAX_STEPS` does not cap the plan; it cuts steps from its end
  (`RunSafety.PlanConserved`).
- The composer keeps plan order, whichever steps were accepted, if and only if equal step ids are
  adjacent in the plan (`ComposeOrder.OrderKeptExactly`). Otherwise an older diff can win a shared
  file (`ComposeOrder.RepeatedIdsReorder`).
- The console shows `pass` beside exactly the accepted steps if and only if no publish that
  delivered a green verdict raised an error (`RunView.PassMeansAccepted`). A run where one does ends
  with `pass` beside a rejected step (`RunWitness.GreenVerdictEscapes`).
- Branch tags come from the candidate's own `stepId`. A tag exists after a run if and only if the
  last plan step that named it was accepted with it (`RunSandbox.TagsExact`), so when two plan steps
  share an id, the rollback of the second can delete the accepted branch of the first
  (`RunWitness.SharedIdsDeleteAccepted`).
- `fit` counts a pinned latest message twice and may reject a buffer that fits
  (`ContextFit.RejectionWarranted`, `ContextFit.CountedTwice`). With `keep-last-n` and n = 0 the
  latest message may be dropped (`ContextFit.LatestKept`). The same object twice in a buffer loses a
  copy without an eviction (`ContextRetention.RepeatedObjectsAreLost`).
- In "after" mode a rejected mechanical result is kept although the compacted buffer fits, when the
  compacted buffer is itself at the critical level (`ContextCompaction.RejectedExactly`,
  `ContextCompaction.RejectionKept`).
- One metering wrapper announces a (scope, level) only in the first of its calls that warns of it
  (`CostEdges.CallbacksExactly`). Its comment promises to re-arm when the warning stops being
  active; the code never clears its set, and a second crossing is silent (`CostEdges.CrossDropCross`).
- The listeners of the store hear of a crossing if and only if it is announced before the next
  check, acknowledgement, reset or load (`CostEdges.ToldExactly`); after a check it is lost
  (`CostEdges.LateAnnouncementIsLost`).
- Usage records with negative token counts are accepted. A record can make a tier go up again if and
  only if its amount is negative (`TierLadder.LowersExactly`, `TierLadder.NegativeUsageClimbs`).
- `enforceAxisCoverage` is commented "mutates a copy; never drops tags"; it rewrites the caller's
  objects, and it drops an axis tag of some question whenever it changes anything
  (`AxisCoverage.DropsExactly`). Sponsor tags are what it keeps.
- An ungrounded answer without sources does not survive printing and parsing: it comes back with
  the marker `not_stated` as a source (`QaRoundTrip.RoundTrip`).

## Model

| member | source | states |
|---|---|---|
| Gate.GateExact | src/mergeready/orchestrator/gate.ts:11-25 | the gate is green iff exit code 0, verified hash equals the hash of this diff, and diff and file are not empty |
| StepIds.ParseDecides | src/mergeready/ui/selectors.ts:126-131 | each step-id prefix recognises exactly its own family and returns its number, for every step id |
| Compose.WinnersExact | src/mergeready/pr/compose.ts:62-79 | the winners are, in order, exactly the entries after which no entry has their file; one per distinct file |
| Text.TrimExact | src/mergeready/pr/compose.ts:74-79 | trimming removes the white space at both ends, all of it, and nothing else |
| Compose.ComposePr | src/mergeready/pr/compose.ts:62-79 | the delete-then-set map computes the last-wins composition: the trimmed diffs of the winners, each closed by a line feed, joined; the displaced entries are the conflicts |
| ComposeOrder.OrderKeptExactly | src/mergeready/pr/compose.ts:62-68 | the sort leaves every possible accepted list of a plan in plan order iff equal ids of the plan are adjacent |
| ComposeOrder.AdjacentIdsKeepOrder | src/mergeready/orchestrator/run.ts:899-951 | with adjacent equal ids the accepted list of a run is already in plan order |
| ComposeOrder.ProposalIsLastWins | src/mergeready/orchestrator/run.ts:823-897 | in every returned run whose plan keeps equal ids adjacent the proposal joins the trimmed diff of the last accepted step per file, in plan order; conflicts are accepted minus chunks |
| ComposeOrder.RepeatedIdsReorder | src/mergeready/pr/compose.ts:62-79 | a repeated plan id moves an earlier step behind a later one and lets its older diff win |
| TicketRuns.TicketRun.constructor | src/mergeready/orchestrator/run.ts:387-400 | the initial state of a run |
| TicketRuns.TicketRun.Publish | src/mergeready/orchestrator/run.ts:111-113 | one publish: counted, delivered or not, raised or not |
| TicketRuns.TicketRun.VerifyDiff | src/mergeready/orchestrator/run.ts:102-175 | computes the specified verification and changes only stream and call trace |
| TicketRuns.TicketRun.RedraftOnce | src/mergeready/orchestrator/run.ts:302-385 | computes the specified re-draft: roll back, draft, verify, roll back |
| TicketRuns.TicketRun.RunOneStep | src/mergeready/orchestrator/run.ts:196-385 | computes the specified step |
| TicketRuns.TicketRun.RecordOutcome | src/mergeready/orchestrator/run.ts:931-970 | files a step's outcome under accepted or rejected, with the reason |
| TicketRuns.TicketRun.StopForBudget | src/mergeready/orchestrator/run.ts:903-919 | rejects every remaining step as budget-exhausted |
| TicketRuns.TicketRun.RunSteps | src/mergeready/orchestrator/run.ts:899-970 | the loop over the plan computes the specified step loop |
| TicketRuns.TicketRun.DoLedger | src/mergeready/orchestrator/run.ts:751-822 | computes the specified ledger phase |
| TicketRuns.TicketRun.DoPr | src/mergeready/orchestrator/run.ts:823-897 | computes the specified pull-request phase |
| TicketRuns.TicketRun.LastResort | src/mergeready/orchestrator/run.ts:971-989 | the outer catch: report, then ledger and PR once more |
| TicketRuns.TicketRun.PrepareValid | src/mergeready/orchestrator/run.ts:417-722 | the phases before the loop, in order, with their failure handling |
| TicketRuns.TicketRun.Run | src/mergeready/orchestrator/run.ts:387-989 | the object's final fields are the outcome of the run function, for every oracle and ticket |
| RunSafety.VerifyCalls | src/mergeready/orchestrator/run.ts:102-175 | verification makes at most one sandbox call and its verdict is the gate's on that answer |
| RunSafety.StepCalls | src/mergeready/orchestrator/run.ts:206-385 | a step drafts at most twice, the second time only after a red verification was rolled back, and accepts only on a green last call |
| RunSafety.ChunksAreAccepted | src/mergeready/pr/compose.ts:70-79 | the composed diff joins the trimmed diffs of accepted steps; no accepted step, no diff |
| RunSafety.GreenBuildsOnly | src/mergeready/orchestrator/run.ts:899-951 | for every oracle, every accepted entry of a returned run is a green build of its own diff, and the proposal joins the trimmed diffs of accepted entries |
| RunSafety.PlanConserved | src/mergeready/orchestrator/run.ts:700-702 | accepted and rejected are complementary order-preserving parts of the first steps of the planner's plan, or of the one fallback step; the cap bounds them iff it is not negative |
| RunSafety.LoopStops | src/mergeready/orchestrator/run.ts:903-919 | from the tripping step on: no further call, and exactly those steps rejected as budget-exhausted |
| RunSafety.BudgetStopIsFinal | src/mergeready/orchestrator/run.ts:899-970 | the same for whole runs |
| RunSafety.FinishKeeps | src/mergeready/orchestrator/run.ts:751-897 | ledger and PR make no calls, change neither list and never clear the degraded flag |
| RunCalls.RunSegments | src/mergeready/orchestrator/run.ts:196-385 | the calls of every run, returned or thrown, are those of its first steps, one shaped segment a step, and the accepted list is what the segments say |
| RunReturns.ReturnsExactly | src/mergeready/orchestrator/run.ts:417-989 | when every publish is delivered, a run returns iff no phase and no reached step misses a module and context packing works; an invalid ticket always returns |
| RunReturns.LinkReported | src/mergeready/orchestrator/run.ts:823-897 | a reported link is one that the service published; when the stream delivers and the composer does not fail, exactly the published one |
| RunInvariant.StreamInvariant | src/mergeready/orchestrator/run.ts:387-989 | what publishing keeps and holds of the empty stream holds of the stream of every returned run |
| RunEvents.RunHistory | src/mergeready/orchestrator/run.ts:899-970 | the verdict envelopes of every returned run are, in plan order, those of the steps it accepted and rejected, each with the facts of its test run and whether it is a green build; a green last verdict belongs to an accepted step iff the publish that delivered it raised no error |
| RunDegraded.NeverInvented | src/mergeready/orchestrator/run.ts:434-453 | a degraded envelope on the stream implies a degraded result, in every returned run |
| RunDegraded.DegradedExactly | src/mergeready/orchestrator/run.ts:751-897 | when every publish is delivered, the result is degraded iff some published envelope is |
| RunDegraded.LostWhenDropped | src/mergeready/orchestrator/run.ts:434-453 | the delivery hypothesis is needed |
| RunWords.StepWrites | src/mergeready/orchestrator/run.ts:206-385 | each step writes one word of the event language, and what each envelope says: re-draft only after a delivered red verdict, nothing after a green one |
| RunWords.LogLanguage | src/mergeready/orchestrator/run.ts:425-897 | a delivered log is ten opening envelopes, the step traces and four closing envelopes, with the contents of each: phases by how they went, the plan, drafts by file and digest, verdicts by their test runs, the proposal's diff and the counts of steps |
| RunWords.CleanRunLength | e2e/fixtures/app.ts:30 | g first-try greens and r completed re-drafts give exactly 14 + 4g + 8r envelopes |
| Selectors.VerdictForPosition | src/mergeready/ui/selectors.ts:167-183 | the loop returns the verdict of the best report of a position |
| Selectors.BuildMatrixRows | src/mergeready/ui/selectors.ts:185-228 | the loop and the sort give the report rows in (index, attempt) order |
| Selectors.BestHitExact | src/mergeready/ui/selectors.ts:167-183 | the best report is a report of the position and no later attempt reported |
| Selectors.PlanAgreesWithMatrix | src/mergeready/ui/selectors.ts:167-228 | the verdict of a position equals that of its last matrix row, when no attempt reports twice |
| RunView.PassMeansAccepted | src/mergeready/ui/selectors.ts:141-183 | for every returned run with an honest sandbox: accepted steps show pass, and only they do iff no publish that delivered a green verdict raised an error |
| RunWitness.GreenVerdictEscapes | src/mergeready/orchestrator/run.ts:168-174 | a returned run in which that one publish raises: no step is accepted and the console shows pass |
| RunView.ViewsAgree | src/mergeready/ui/selectors.ts:167-228 | in every returned run both views show the same verdict for every step |
| RunStream.PlanningPanel | src/mergeready/ui/selectors.ts:315-334 | whatever other traces are in the log, the panel of a trace lists its run's plan in order with the run's own decisions under the same exact condition; it is there when the stream delivers |
| RunStream.PlanningWithoutTrace | src/mergeready/ui/selectors.ts:110-116 | without a trace the whole log is read |
| RunStream.PrPanel | src/mergeready/ui/selectors.ts:369-385 | whatever other traces are in the log, the diff shown for a trace is empty or joins the trimmed diffs of its run's accepted steps, and is exactly the returned proposal's when the stream delivers |
| RunStream.PrWithoutTrace | src/mergeready/ui/selectors.ts:110-116 | the same without a trace, over the run's own log |
| Sandbox.FakeSandbox.Baseline | src/mergeready/sidecar/sandbox_routes.py:81-100 | a fresh directory owned by the baseline tag that holds exactly the named files, each with the text of its last entry |
| Sandbox.FakeSandbox.Fork | src/mergeready/sidecar/sandbox_routes.py:159-174 | a fresh directory with the parent's files and the patch |
| Sandbox.FakeSandbox.Branch | src/mergeready/sidecar/sandbox_routes.py:214-239 | computes the specified branch call on tags, directories and report |
| Sandbox.FakeSandbox.Rollback | src/mergeready/sidecar/sandbox_routes.py:328-338 | computes the specified rollback |
| Sandbox.BranchKeeps | src/mergeready/sidecar/sandbox_routes.py:214-239 | a branch call touches no tag but its own |
| Sandbox.RollbackKeeps | src/mergeready/sidecar/sandbox_routes.py:328-338 | a rollback removes its tag and directory and nothing else |
| Sandbox.BranchReports | src/mergeready/sidecar/sandbox_routes.py:214-239 | exit code 0 leaves the tag on exactly the tested tree; any other report leaves the tag map alone; the report is honest |
| Sandbox.BranchTagIsNotBaseline | src/mergeready/sidecar/sandbox_routes.py:313-325 | a branch tag can only equal the baseline tag for step ids of eight characters |
| Sandbox.BranchTagCanBeBaseline | src/mergeready/sidecar/sandbox_routes.py:313-325 | and for such an id it can |
| RunSandbox.BranchesHold | src/mergeready/sidecar/sandbox_routes.py:159-239 | at every moment of every run, returned or thrown, with lost calls and answers: baseline unchanged, tags own distinct directories, and an accepted tag no later step named is the parent plus that patch tested with exit 0 |
| RunSandbox.AcceptedBranchesHold | src/mergeready/sidecar/sandbox_routes.py:159-239 | with distinct candidate ids that holds of every step accepted so far |
| RunSandbox.SnapshotToBranches | src/mergeready/sidecar/sandbox_routes.py:81-239 | from creating the baseline to the end of a returned run: the baseline tag holds exactly the snapshot's files, every accepted tag those files plus its patch, tested with exit 0 |
| RunSandbox.TagsExact | src/mergeready/orchestrator/run.ts:302-384 | when calls reach the sandbox and are answered, a tag the run named exists iff the last step that named it was accepted with it; every other tag is as it was |
| RunSandbox.RollbacksLeaveNothing | src/mergeready/orchestrator/run.ts:302-384 | under the same hypotheses no rejected attempt leaves a tag, and an accepted diff's tag survives iff the last step that named it was accepted with it, always so with distinct ids |
| RunWitness.SharedIdsDeleteAccepted | src/mergeready/orchestrator/run.ts:117-120 | a run with a green first step whose branch is gone at the end, deleted by a later rollback under the same id |
| Diffs.IsWellFormedDiff | src/mergeready/prompts/schemas.ts:70-107 | the three passes give the specified verdict and its first reason |
| Diffs.ParseCandidateDiff | src/mergeready/prompts/schemas.ts:197-256 | computes the specified parse of a candidate, counting repair calls |
| Diffs.ParsePatchPlan | src/mergeready/prompts/schemas.ts:133-191 | computes the specified parse of a plan, counting repair calls |
| DiffShape.WellFormedExact | src/mergeready/prompts/schemas.ts:70-107 | a diff passes iff it is the two headers of the expected file followed by hunk lines of that one file, joined by line feeds, without a carriage return |
| DiffShape.HeaderReason | src/mergeready/prompts/schemas.ts:70-86 | the reason for a diff without proper headers is the first of the three checks that fails |
| DiffShape.BodyReason | src/mergeready/prompts/schemas.ts:87-107 | with proper headers it is the first bad line, a second file, or no hunk |
| DiffShape.OneRepair | src/mergeready/prompts/schemas.ts:203-238 | one repair at most, exactly when the first text is no JSON or null, for every model and repair model |
| DiffShape.AcceptedCandidates | src/mergeready/prompts/schemas.ts:239-255 | a value is accepted iff its fields obey the schema and it is one file's diff, and refused for the schema or with the line check's reason; it then never collides with the baseline tag |
| DiffShape.AcceptedPlans | src/mergeready/prompts/schemas.ts:175-190 | a plan is accepted iff it obeys the schema; the extra limit of eight never refuses; step ids may repeat |
| DiffShape.SchemaDischarges | contracts/candidate-diff.schema.json:1 | schema-valid candidates are not empty and never share the baseline's tag |
| DiffShape.FenceThenStrip | src/mergeready/prompts/schemas.ts:56-67 | fencing any text and stripping the fence gives the trimmed text back |
| DiffShape.StripExactly | src/mergeready/prompts/schemas.ts:56-67 | what stripping does to any text: the line of an opening fence, a closing fence at the end, and outer white space go |
| ContextBudget.BudgetsAgree | src/context/strategies/types.ts:17-28 | the strategies' own budget equals the one `fit` reports, on every configuration; resolving twice changes nothing |
| ContextBudget.BudgetExactly | src/context/budget.ts:74-86 | window, reserve and input budget of every configuration, with their defaults |
| ContextBudget.ClassifyExactly | src/context/budget.ts:88-140 | critical and approaching by the shares of the budget, and without a budget |
| ContextBudget.BudgetMonotone | src/context/budget.ts:74-86 | a wider window never shrinks the budget |
| ContextStrategies.SlidingWindowPinned | src/context/strategies/sliding_window_pinned.ts:20-69 | the loops compute the specified strategy |
| ContextStrategies.KeepLastN | src/context/strategies/keep_last_n.ts:24-97 | the loops compute the specified strategy |
| ContextRetention.GreedyIsGreatest | src/context/strategies/sliding_window_pinned.ts:45-57 | stopping at the first overflow keeps the greatest suffix that fits |
| ContextRetention.LastNIsMin | src/context/strategies/keep_last_n.ts:55-88 | keep-last-n keeps the smaller of n and that greatest suffix |
| ContextRetention.StrategiesFit | src/context/strategies/keep_last_n.ts:28-97 | both results are within budget when the pinned part is, even with repeated objects |
| ContextRetention.OneSpecification | src/context/strategies/sliding_window_pinned.ts:20-69 | over budget, both strategies return the pinned messages and the last k evictable ones in original order and evict the rest |
| ContextRetention.RetainPartitions | src/context/strategies/sliding_window_pinned.ts:59-68 | kept and evicted partition the buffer |
| ContextRetention.RepeatedObjectsAreLost | src/context/strategies/keep_last_n.ts:83-96 | under both strategies the entries neither returned nor evicted are exactly the copies of kept objects beyond those kept |
| ContextFit.FitBuffer | src/context/core.ts:160-283 | the pipeline with its loops computes the specified `fit` |
| ContextFit.Append | src/context/core.ts:309-317 | append is `fit` of the longer buffer |
| ContextFit.RejectsExactly | src/context/core.ts:215-252 | rejected iff pinned tokens plus the latest message exceed the budget |
| ContextFit.RejectionSays | src/context/core.ts:215-252 | a rejection hands back the pinned messages or all admitted ones, with the reason |
| ContextFit.WithinBudget | src/context/core.ts:160-283 | an accepted result is within the reported budget, valid, and part of the input |
| ContextFit.AdmitsExactly | src/context/core.ts:160-213 | only messages of the four roles with a text and proper fields are admitted, and all of them are when they fit |
| ContextFit.LatestKept | src/context/core.ts:235-252 | the latest message is kept iff sliding-window, n at least 1, nothing had to go, or it is pinned |
| ContextFit.RefitExact | src/context/core.ts:160-283 | refitting an accepted result changes nothing iff it is accepted, with the exact condition |
| ContextFit.FixedPoint | src/context/core.ts:160-283 | under sliding-window, or n at least 1, refitting an accepted result changes nothing |
| ContextFit.WiderWindowKeeps | src/context/core.ts:160-283 | under sliding-window a wider window keeps acceptance and every retained message |
| ContextFit.RejectionWarranted | src/context/core.ts:239-252 | rejected iff no admissible choice fits, or a pinned latest message was counted twice |
| ContextFit.CountedTwice | src/context/core.ts:239-252 | the double count rejects a single pinned message that fits |
| ContextFit.EvictionsCounted | src/context/core.ts:215-283 | every input entry is kept or counted as evicted, except under the pinned-only rejection |
| ContextCompaction.CompactionSlot.Register | src/context/extension.ts:44-54 | registration and its defaults |
| ContextCompaction.CompactionSlot.FitWithCompaction | src/context/extension.ts:69-139 | computes the specified orchestration in all three modes |
| ContextCompaction.CompactionIsSafe | src/context/extension.ts:69-139 | for any function and mode: a `fit` of the original or the compacted buffer, over budget only if rejected, rejected only if the mechanical fit is |
| ContextCompaction.CompactsExactly | src/context/extension.ts:69-139 | which result each mode returns, and the reason it gives |
| ContextCompaction.RejectedExactly | src/context/extension.ts:101-139 | when a rejection survives compaction |
| ContextCompaction.RejectionKept | src/context/extension.ts:119-139 | in "after" mode one survives although the compacted buffer is accepted |
| ContextCompaction.AfterNeverWorse | src/context/extension.ts:119-139 | in "after" mode compaction replaces the mechanical result only by something strictly better |
| ContextPack.PackPlannerInput | src/mergeready/context/pack.ts:73-159 | push loop, fit, read-back and trim compute the specified packing, whose order, contents and budget PackExact states |
| ContextPack.PackBudget | src/mergeready/context/pack.ts:74-79 | the reserve given to `fit` yields as its budget exactly the whole parts of 5, 15 and 65 percent of the window, which is 128000 for anything below 8000 |
| ContextPackExact.FitInterval | src/context/core.ts:160-283 | fitting the prompt of an interval of files gives the prompt of a final part of it |
| ContextPackExact.SettleInterval | src/mergeready/context/pack.ts:139-155 | reading back and trimming keeps an interval, and reports exactly the other files in score order |
| ContextPackExact.PackExact | src/mergeready/context/pack.ts:73-159 | for every snapshot, with the files by falling score and then path: the prompt carries the ticket and one interval of that order, path and text; dropped files are its complement in order; tokens within budget unless the pinned part alone is not; nothing dropped iff all fits and is not hot |
| ContextPackExact.GroundLines | src/mergeready/context/pack.ts:85-97 | the grounding message cites the first three results under a heading, then the query and the first five, a line each |
| Truncation.TruncateToBudget | src/mergeready/context/pack.ts:172-185 | the result is the text if it fits, else its longest run of leading lines all of whose heads fit; always a prefix |
| Resilience.RunResilient | src/resilience/wrapper.ts:529-597 | the retry loop and the chain loop compute the specified call |
| ResilienceSafety.WrappedCall | src/resilience/wrapper.ts:514-597 | at most retries + 1 attempts, a failed repair ends them, a call is repaired iff its output is invalid and a repair model is there, right after it and once, forced-degraded contacts nobody, every value schema-valid or a lookup hit, otherwise the reason by the kind of the last failure |
| ResilienceSafety.ValidateExactly | src/resilience/wrapper.ts:529-558 | what one provider call gives: own error, output, repaired output, or the error that names what failed |
| ResilienceSafety.NothingAfterStop | src/resilience/wrapper.ts:560-564 | steps after the first "none" do not matter |
| ResilienceSafety.RawSteps | src/resilience/wrapper.ts:72-87 | the delay starts at the base and then multiplies, adds or stays, by policy |
| ResilienceSafety.DelayExactly | src/resilience/wrapper.ts:61-89 | the raw delay rounded and capped, then jittered by its factor and rounded again, never below zero |
| ResilienceSafety.DelaysGrow | src/resilience/wrapper.ts:72-89 | without jitter delays never shrink between retries and never pass the cap |
| ResilienceSafety.JitterBounded | src/resilience/wrapper.ts:61-65 | jitter moves a delay by at most a quarter, before rounding |
| CostStores.CostStore.constructor | src/cost/store.py:115-131 | an empty store |
| CostStores.CostStore.Sum | src/cost/store.py:135-167 | the aggregation loop computes the specified totals |
| CostStores.AggregateExactly | src/cost/store.py:135-167 | every total is the sum of its own field; there is a cost iff a record has one |
| CostStores.CostStore.TotalsByProvider | src/cost/store.py:169-179 | one entry per provider with a record: the totals of exactly its records |
| CostStores.CostStore.CheckScope | src/cost/store.py:230-267 | one scope's crossings, edges and warnings as specified |
| CostStores.CostStore.CheckBudget | src/cost/store.py:200-228 | edges are fresh only until the next check; warnings as specified |
| CostStores.CostStore.EmitWarning | src/cost/store.py:305-326 | listeners are told iff the key is a fresh crossing, which is used up |
| CostStores.CostStore.AcknowledgeWarning | src/cost/store.py:328-335 | clears the edge state of one key |
| CostStores.CostStore.Reset | src/cost/store.py:353-364 | clears records and edges |
| CostStores.CostStore.LoadSnapshot | src/cost/store.py:383-397 | replaces the records or leaves everything alone |
| CostStores.MeteringWrapper.MeterSuccess | src/cost/meter.py:409-443 | append, check, and announce what this wrapper did not announce before |
| CostEdges.PendingAreActive | src/cost/store.py:200-267 | fresh edges are active keys, after every interleaving of the operations |
| CostEdges.CheckExact | src/cost/store.py:200-267 | after a check a key is active iff a judged level is reached, or it was active and none is below; fresh iff one is reached and it was not active |
| CostEdges.WarningsExactly | src/cost/store.py:200-267 | the warnings of a check are those of the reached keys, in the order of the configuration |
| CostEdges.AcknowledgeRearms | src/cost/store.py:328-335 | an acknowledged key's next crossing is fresh, other keys are as they were |
| CostEdges.ReachedExactly | src/cost/store.py:200-267 | a level is reached iff the records of the scope use up its share of the budget, counted in the scope's own unit |
| CostEdges.OncePerCrossing | src/cost/store.py:200-335 | between two notifications of one key: a check below threshold, an acknowledge, a reset or a load |
| CostEdges.AtMostOnce | src/cost/store.py:200-326 | while spending only grows and nobody intervenes, each key is notified at most once |
| CostEdges.ToldExactly | src/cost/store.py:305-326 | listeners are told of a fresh crossing iff an announcement of its key comes before the next check, acknowledgement, reset or load |
| CostEdges.LateAnnouncementIsLost | src/cost/store.py:213-214 | whatever the next check finds, an edge not announced before it notifies nobody |
| CostEdges.CallbacksExactly | src/cost/meter.py:427-443 | the callbacks of a metered call are exactly the keys that warn in it and in no earlier call of the wrapper |
| CostEdges.CallbackOnceEver | src/cost/meter.py:427-443 | through one wrapper each key's callback is made at most once ever |
| CostEdges.SecondCrossingIsSilent | src/cost/meter.py:430-443 | a key is announced iff it warns and was never announced; the others' crossings stay untold |
| CostEdges.AnnouncedInOrder | src/cost/meter.py:427-443 | what is announced is announced in the order of the warnings |
| CostEdges.CrossDropCross | src/cost/meter.py:430-443 | cross, reset, stay below, cross again: a fresh crossing that nobody is told of |
| CostEdges.TotalsConserved | src/cost/store.py:135-196 | provider totals add up to the global ones, in tokens and cost |
| TierLadder.DecideTierInSidecar | src/mergeready/sidecar/cost_routes.py:36-71 | the sidecar's decision equals the orchestrator's on every input |
| TierLadder.DecisionMonotone | src/mergeready/ledger/policy.ts:16-57 | more spend never raises the tier and never lifts the hard stop |
| TierLadder.DecideExactly | src/mergeready/ledger/policy.ts:16-57 | top tier below 60 percent of the run and 70 percent of the window budget, lowest from 90 percent of either, hard stop at the exhausted window; the drafter always lowest |
| TierLadder.JudgedSpend | src/mergeready/sidecar/cost_routes.py:305-334 | a policy request judges its trace against the run budget and all traces against the window budget |
| TierLadder.TierByName | src/mergeready/sidecar/cost_routes.py:90-104 | the tier is read off the model's name |
| TierLadder.CostRoutes.DoRecord | src/mergeready/sidecar/cost_routes.py:226-277 | appends a valid usage event, refuses one without trace or model |
| TierLadder.CostRoutes.DoPolicy | src/mergeready/sidecar/cost_routes.py:305-334 | decides, updates the current tier and logs a change |
| TierLadder.EventUsdParts | src/mergeready/sidecar/cost_routes.py:106-140 | input tokens cost the input rate, output tokens the output rate, seconds a sixtieth of the minute price |
| TierLadder.RecordLowers | src/mergeready/sidecar/cost_routes.py:179-189 | a record of no negative amount never raises the tier that would be decided |
| TierLadder.LowersExactly | src/mergeready/sidecar/cost_routes.py:179-189 | a record never raises the decided tier, whatever was spent and budgeted, iff it is refused or its amount is not negative |
| TierLadder.DowngradeLog | src/mergeready/sidecar/cost_routes.py:321-333 | while no record has a negative amount, each trace and role log is a strictly descending chain from the role default to the current tier, at most two entries, none for the drafter |
| TierLadder.NegativeUsageClimbs | src/mergeready/sidecar/cost_routes.py:208-223 | negative token counts break the descent |
| AxisCoverage.EnforceAxisCoverage | src/ideation/faqdef/generate.ts:229-249 | the loops over shared objects terminate, compute the specified rebalancing, and report a change iff there is one |
| AxisCoverage.RetagLowers | src/ideation/faqdef/generate.ts:234-243 | every retagging lowers the sum of the surpluses |
| AxisCoverage.RetagExactly | src/ideation/faqdef/generate.ts:234-246 | the first question that can give gives up its first spare axis and takes on the wanted one |
| AxisCoverage.RebalancingEnds | src/ideation/faqdef/generate.ts:229-249 | tags off the axes stay, questions without one are untouched, no axis falls below two carriers, and at the end all axes have two or nobody can give |
| AxisCoverage.DropsExactly | src/ideation/faqdef/generate.ts:229-249 | the sheet is left alone iff it was covered or had no donor, and in every other case some question loses an axis tag |
| QaSheet.RenderSheetMarkdown | src/ideation/faqdef/sheet.ts:45-66 | the line-pushing loop prints the specified text |
| QaSheet.ParseMarkdownSheet | src/ideation/faqdef/rehearse.ts:30-80 | the loop over the blocks computes the specified parse |
| QaRoundTrip.PrintThenParse | src/ideation/faqdef/rehearse.ts:30-80 | for every well-formed sheet, parsing the printed text gives the questions back, ungrounded ones without sources with the marker added |
| QaRoundTrip.RoundTrip | src/ideation/faqdef/sheet.ts:45-66 | printer and parser undo each other iff every ungrounded answer names a source |
| QaFallback.FallbackHeading | src/ideation/faqdef/rehearse.ts:34-58 | a heading of words with an id in parentheses gives that id and those words as tags, in small letters, without the fillers |
| Sampling.PickIndex | src/ideation/faqdef/rehearse.ts:125-130 | a roll picks the question whose share of the weight line holds it |
| Sampling.HoldsOnce | src/ideation/faqdef/rehearse.ts:125-130 | at most one question holds a roll |
| Sampling.DrawTakes | src/ideation/faqdef/rehearse.ts:113-134 | every draw takes, from what is left, the question whose share of the weight line holds the roll, three shares for an answer that states nothing |
| Sampling.SampleQuestions | src/ideation/faqdef/rehearse.ts:113-134 | the drawing loop computes the specified sample of the wanted size |
| Sampling.SampleExact | src/ideation/faqdef/rehearse.ts:113-134 | a sample is part of the filtered pool, nothing drawn more often than it occurs, in id order |

## Left out

- HTTP servers, event transport, process supervision, the GitHub, Tavily and model clients: their results are oracle values.
- The `sdk` and `cli` sandbox adapters and the batch dispatcher `jobs.py`: foreign clients, or not used by the run.
- JSON parsing, JSON-schema validation and tokenizers: uninterpreted functions, the candidate schema excepted, which is spelled out.
- Prompt texts, grounding requests, the receipt and ledger rendering, token usage per role, the PR body, title and branch name: values the modelled decisions do not depend on.
- Wall-clock time, real timeouts and the length of waits: a timeout is one of the ways a call may fail.
- The payload fields of envelopes that no modelled selector reads, and the selectors for the activity line, the ledger, the grounding and the run header.
- A `DegradedResult` sent as a payload: src/platform/ui/isDegraded.ts:18-20 also treats it as degraded, but run.ts never publishes one, so the envelope flag is the whole story here.
- Configuration files and environment variables, and merging budget configurations: the resolved configuration is a parameter.
- The synchronous variant of the retry engine, the decorator and the outermost guard for internal errors.
- Custom registered truncation strategies and the `mutate: true` option of `fit`.
- Persistence of the cost store, the rendered summary, and the extra unmetered record that the guardrail around `_do_record` appends.
- `packDrafterInput`: two fixed messages through the same `fit`.
- `regex` details that only matter for other inputs than ASCII: lower-casing of ids, tags and model names is ASCII only, and a character is a Unicode scalar, not a UTF-16 unit.
- PackBudget: the shares 5, 15 and 65 percent are exact numbers, not binary floating point.
- Ordered: how `scoreFiles` counts terms is not modelled; the score is an arbitrary function of the file, and only the order built from it matters here.
- Sum: costs are added exactly; the rounding to six decimals is not modelled.
- TotalsByProvider: the sorted order of the keys and the rounding are not modelled.
- CheckScope: the text of a warning and its percentages are not modelled.
- DoRecord: role, latency and the types of the numbers are not validated, fractional token counts are not cut, and amounts are not rounded.
- LowersExactly: amounts are exact numbers, so a negative amount that rounds to zero counts as negative.
- BuildMatrixRows: the file, tag, digest, duration and output columns of a row are not modelled.
- EnforceAxisCoverage: the list may not hold the same question object twice; the code builds it from a parsed array.
- SchemaDischarges: a draft salvaged from a degraded answer (src/mergeready/orchestrator/run.ts:86-93) may lack file or step id in the code; in the model every candidate has them, and the lemma asks the salvaged ones to obey the schema too.
- SampleQuestions: the order of `localeCompare` is an arbitrary preorder.
- BranchesHold: every attempt forks from the baseline, so nothing is claimed about a test of the combined diff; the code makes no such test.
