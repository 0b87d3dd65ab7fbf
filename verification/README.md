# Verification of the pipeline-run engine

These Dafny files model the part of Shipinator that executes one pipeline run: the orchestrator with its three
stage drivers (build, test, deploy), the life of a step from its row to its last poll, and the rows that the run
writes to the stores. They prove what the engine guarantees whatever the executor answers, whichever store writes
are refused, whenever the context is cancelled, and in whatever order the goroutines of a parallel batch act.

`dafny verify dfyconfig.toml` checks everything.

## How the model is built

The environment of a run is a value, `Pipeline.World`: the configuration, and for each store write, executor call
and clock reading the answer it will get. All theorems quantify over every `World`, every initial content of the
tables, and every schedule. A step counts as started where its stage calls the step function directly, or where the
`go` statement of its goroutine is executed; the model keeps the list of started steps.

The engine is written three times, and the three are proved to agree.

1. **As objects and loops.** `Store.Database` holds the tables as fields that INSERT and UPDATE change in place;
   `Store.Cluster` is the executor's book of submissions. `StepRunner.Runner`, `Buildinator.Buildinator`,
   `Testinator.Testinator`, `Deployinator.Deployinator` and `Orchestrator.Orchestrator` follow the Go methods
   statement by statement, with the same loops, counters and early returns. A parallel batch is run by a loop in
   which any goroutine may act next.
2. **As functions** (`Steps`, `Reference`): the sequential program that the methods compute.
3. **As a transition system** (`Engine`): the orchestrator and the steps in flight each have a program counter; an
   action is one atomic store write or executor call, or the cancellation of the context; a schedule is any finite
   sequence of actions.

`Confluence.ScheduleIndependence` joins the third to the second, and the `ensures` clauses of the methods join the
first to the second. The theorems about whole runs (`Safety`, `Outcomes`, `Provenance`, `Termination`) are about
the transition system, in every reachable state, through the invariant of `Invariant.Always`, whose parts are
`Shape` (where started steps and goroutines stand), `StepRows` and `Tables` (step and execution rows), `Hierarchy` (run and
job rows) and `Ledger` (artifact rows). `Answers` adds which answers brought the orchestrator where it stands, and
`Extent` which rows there are, `Columns` what stands in them, and `Returns` which error a run returns. `Contents` spells
out the texts and columns that the configuration prescribes, independently of the functions that compute them.
`Witness` plays out two small runs.

Two hypotheses recur. `Pipeline.FreshIds` says what UUID generation is relied on for: the IDs a run draws are
nonzero, distinct, and new. `StepRunner.AllEnd` says that no executor leaves a step polling without a decisive
event for ever; it is asked for only where something is claimed to end.

## Where code and expectation part

* The helpers that stamp finish times know `success`, `failed` and `canceled`, but jobs, steps and executions end
  in `succeeded`. So a succeeded job, step or execution row has no finish time. `Rows.StampedAtTheEnd`,
  `Outcomes.FinishTimeOnlyOnFailure` and `Outcomes.ExecutionRows` say exactly when a finish time is set, and
  `Rows.SucceededWithoutFinishTime` is a concrete row without one. Run rows are stamped as one would expect.
* The engine consults the context in the poll and at the final switch only. A cancellation reaches everything else
  through the answers: the context is passed to Submit and to every write but the finalising ones, which a store or
  an executor will normally refuse once it is done, but need not. `Witness.SubmittedAfterCancellation` is a run whose
  step is submitted after the cancellation. A run all of whose stages succeeded is still finalised `canceled` when
  the context is done at the switch (`Outcomes.ExactWork`).
* A refused finalising write is only logged. A row therefore stays `running` after its parent has ended exactly when
  its own finalising write was refused: `Safety.Nesting` has both directions, `Safety.RowStates` gives the state of
  every row at every moment, and `Witness.RowsLeftRunning` plays out a run that leaves such rows behind.
* A run with a deploy stage and no build stage cannot succeed (`Provenance.DeployNeedsOwnBuild`). `Outcomes.ErrorFree`
  says exactly which answers a run needs in order to return without error.
* `docs/design/tdd.md` describes a job life cycle with more states, callbacks and crash recovery; the code has
  none of these and the code is what is modelled.

## Model

| member | source | states |
|---|---|---|
| Confluence.ScheduleIndependence | internal/testinator/testinator.go:59-81 | Every interleaving of a run that halts leaves in all tables, in the executor's book and in the list of started steps exactly what running one step at a time leaves, and fails iff that does |
| Confluence.AnyTwoSchedulesAgree | internal/orchestrator/orchestrator.go:89-114 | Two schedules whose final switch read the same from the context end in equal states |
| Confluence.OnlyTheRunRowDiffers | internal/orchestrator/orchestrator.go:97-110 | Of two halted runs with the same answers, whether and when the context was cancelled shows in the run's own row only: nothing but the poll and the switch consults the context |
| Interleaving.MoveCommutes | internal/testinator/testinator.go:65-76 | An atomic action of one goroutine and all the rest of another may be exchanged without changing any row or result |
| Interleaving.MoveInGroup | internal/testinator/testinator.go:59-81 | Whichever goroutine of a batch acts next, what the batch comes to stays the same |
| Steps.MoveRefines | internal/orchestrator/orchestrator.go:190-280 | The machine of atomic actions never changes how the step as one program would end |
| Safety.Nesting | internal/orchestrator/orchestrator.go:165-218 | In every reachable state a step, job or run row is running exactly while the step, stage body or run is active, inside a running parent, or else because its own finalising write was refused; both directions |
| Safety.RowStates | internal/orchestrator/orchestrator.go:89-223 | In every reachable state the state of every step, job and run row, present or absent, is the one that the positions reached and the answers given determine |
| Witness.RowsLeftRunning | internal/orchestrator/orchestrator.go:214-218 | A concrete run whose step row stays running under a failed job, and whose job row stays running under a failed run, exactly when the respective finalising write is refused |
| Witness.SubmittedAfterCancellation | internal/orchestrator/orchestrator.go:227-231 | A concrete run whose step is submitted after the context was cancelled |
| Safety.EveryActionWalksTheTables | internal/orchestrator/stage_fsm.go:26-54 | Every action of every run moves every run, job and step row only as its transition table allows, and removes none |
| Safety.EngineRefinesTheTables | internal/orchestrator/pipeline_run_fsm.go:31-61 | Along every schedule the history of each row is a walk of its table with at most two changes and none out of a terminal state, though the engine never consults the tables |
| Columns.EveryColumn | internal/orchestrator/orchestrator.go:154-244 | In every reachable state every step, job, execution and run row of the run holds in every column what the configuration and the answers prescribe, and every submission has the configured image, command and artifacts and the handle given out |
| Safety.Barrier | internal/testinator/testinator.go:32-55 | A step is started only when every earlier step outside its own batch is finished; no step is in flight when a job or the run is finalised; the wait count equals the goroutines not done |
| Safety.StartsAsPlanned | internal/testinator/testinator.go:31-76 | In every run the steps are started, by direct call or `go` statement, stage by stage in list order and each at most once, step i with order i, its configured name, the group `parallel-<first step of its batch>` or none, and a spec that runs `sh -c` with its own configured command |
| Safety.NoDeadlock | internal/orchestrator/orchestrator.go:252-279 | A run that has not halted can act, or one of its steps waits for the executor or for the context |
| States.RunTableShape | internal/orchestrator/pipeline_run_fsm.go:31-67 | A run state is terminal iff its table entry is empty, and every real transition goes strictly deeper |
| States.StageTableShape | internal/orchestrator/stage_fsm.go:26-60 | The same of the table that jobs and steps share |
| Termination.EveryActionCounts | internal/orchestrator/orchestrator.go:89-280 | Every action other than a cancellation strictly decreases a measure, so no run goes on for ever |
| Termination.EveryRunCanHalt | internal/orchestrator/orchestrator.go:89-280 | From every reachable state some continuation brings the run to its end |
| Goroutines.MoveBurns | internal/orchestrator/orchestrator.go:248-280 | Every action of a step brings it nearer to its return, and the poll nearer to its decisive event |
| Outcomes.Conservation | internal/orchestrator/orchestrator.go:227-280 | When a run has halted each submission has exactly one fate: terminal phase observed and never cancelled, cancelled exactly once with none observed, or left alone because its execution record was refused; the answer to the record and the event that ended the poll decide which |
| Outcomes.NoCancelAfterTerminal | internal/orchestrator/orchestrator.go:252-279 | At no moment is a submission cancelled twice, or cancelled after a terminal observation |
| Outcomes.ExactWork | internal/orchestrator/orchestrator.go:89-149 | The final run state is characterised in both directions, down to the answers; a run without error has one finished job per configured stage and every planned step started, submitted and observed to succeed; the rows of every halted run are exactly its own and those found |
| Outcomes.ErrorFree | internal/orchestrator/orchestrator.go:89-149 | A halted run returned without error iff the run row existed and was started, every configured job was created and started, every planned step succeeded, every output was registered, and the deployment found a wanted output |
| Extent.ExactlyItsRows | internal/orchestrator/orchestrator.go:154-244 | In every reachable state the tables hold the rows found and exactly one more per step created, execution recorded, job created and output registered; the executor's book exactly the steps submitted |
| Outcomes.CanceledMeansCancelled | internal/orchestrator/orchestrator.go:99-105 | A run row says `canceled` only if the context had been cancelled |
| Outcomes.FailurePrefix | internal/orchestrator/orchestrator.go:116-149 | A failed run completed every earlier stage, has no job row of a later one, and called in the failing stage exactly the steps up to the first failure or refused registration, for tests up to the end of its batch; the answer behind the error is named, and every job and step row is in the state its answers lead to |
| Outcomes.BatchErrors | internal/testinator/testinator.go:60-80 | When a batch is waited out all its goroutines are done and the error list holds the error of each failing step once and nothing else, so it is empty iff all steps succeeded |
| Outcomes.OutcomeOfStep | internal/orchestrator/orchestrator.go:190-280 | In every run a finished step succeeded iff its row was created and started, it was submitted and recorded, and the event that ended its poll observed `succeeded`; the finalising write does not matter |
| Outcomes.RunTimes | internal/store/postgres/pipeline_run.go:98-114 | Under a clock that does not run backwards the run row keeps created <= started <= finished, and has a finish time iff its state is terminal |
| Outcomes.FinishTimeOnlyOnFailure | internal/store/postgres/helpers.go:65-74 | Job and step rows of a run have a finish time iff they failed |
| Rows.TimestampsAreLastWrites | internal/store/postgres/pipeline_run.go:98-114 | After any sequence of accepted writes the start time is that of the last `running` write and the finish time that of the last finishing one, else the initial value; neither is ever reset |
| Rows.StampedAtTheEnd | internal/store/postgres/helpers.go:65-83 | Which terminal writes stamp a finish time: all of a run's, of a job's or step's only `failed`, of an execution's all but `succeeded` |
| Rows.SucceededWithoutFinishTime | internal/store/postgres/helpers.go:65-74 | A concrete terminal step row without a finish time |
| Outcomes.ExecutionRows | internal/store/postgres/execution.go:74-89 | In every run a finished step has an execution row iff it was submitted and recorded; the row holds the last phase whose storing was accepted, `pending` if none, and is stamped complete iff some stored phase is one the helper knows as an end |
| Provenance.BuildLedger | internal/buildinator/buildinator.go:42-75 | At every moment the artifact rows of the build job are exactly one per output before the place registration has reached, each with the build job's ID, the output's type, the backend, the answer's time and the path `<base>/<ID>`, accepted, from a step that succeeded, and under a steady clock created in flattened order; all of them when the run ends without error |
| Provenance.LedgerListed | internal/store/postgres/artifact.go:48-70 | Under a strict clock the listing of the build job shows its outputs in flattened order |
| Provenance.DeployNeedsOwnBuild | internal/deployinator/deployinator.go:33-56 | There is never a deploy call unless a build stage of this run declares an output of the wanted type, and then it deploys such an output of this run |
| Provenance.ArtifactProvenance | internal/deployinator/deployinator.go:33-56 | A run that ends without error deployed exactly once, by `helm upgrade --install` if the type is `helm_chart` and by `kubectl apply -f` otherwise, the path in the row of a wanted output of this run than which none was registered earlier, whatever rows other runs left; under a strict clock that is the first one in the flattened build configuration |
| Provenance.OtherRowsUntouched | internal/orchestrator/orchestrator.go:89-223 | A run leaves every row it found in the tables as it was, save its own run row |
| Contents.PathTellsId | internal/buildinator/buildinator.go:60-67 | A path below the base path tells the ID of its artifact |
| Contents.CommandTellsPath | internal/deployinator/deployinator.go:58-67 | A deploy command of either form tells the path it deploys |
| Decimal.PrintInjective | internal/testinator/testinator.go:45 | Decimal printing is injective, by way of a parser that undoes it |
| Decimal.PrintCanonical | internal/testinator/testinator.go:45 | It prints digits only, and no leading zero |
| Batching.GroupNameInjective | internal/testinator/testinator.go:45 | Batches that start at different steps have different group names |
| Batching.GroupsAreParallelStretches | internal/testinator/testinator.go:44-54 | Two steps share a group iff every step between them, ends included, is parallel |
| Polling.FailedStatusCallsLeaveNoTrace | internal/orchestrator/orchestrator.go:259-263 | Inserting or deleting a failed status call anywhere in a poll leaves the step's error and every row as they were; only the count of status calls differs |
| Executor.PollEndsAt | internal/executor/executor.go:42-60 | A poll ends at an event iff that is the context's end or the observation of `succeeded`, `failed` or `canceled`, and none before it is |
| Executor.FirstDecisive | internal/executor/executor.go:42-60 | The event that ends a poll is the first that takes the context's end or observes a terminal phase |
| Kubernetes.JobToStatus | internal/executor/kubernetes/executor.go:96-129 | An active Job is running; an idle one has the phase of its first true Complete or Failed condition, and is pending iff it has none; the start time is the Job's, the finish time its completion time once it has ended |
| Kubernetes.PollOverKubernetes | internal/executor/kubernetes/executor.go:75-129 | A poll over fetched Jobs succeeds iff the first settled Job has Complete before any true Failed condition |
| Kubernetes.ConditionOrderMatters | internal/executor/kubernetes/executor.go:109-126 | Some reordering of a Job's conditions is read differently iff the Job is idle and claims both endings |
| Returns.HaltedReturns | internal/orchestrator/orchestrator.go:89-280 | Every halted run, under every schedule, returns nil iff every answer was good, else an error whose refusal or failing step, with the first bad answer named, is where the run first goes wrong, or inside a parallel batch any failing step of it |
| Returns.CauseIsUnique | internal/testinator/testinator.go:59-81 | The answers cause at most one error, except for the choice among the failing steps of one parallel batch, and none if all are good |
| Returns.RunReturns | internal/orchestrator/orchestrator.go:89-149 | Every error that the sequential program, or the method with its choice inside a batch, may return is caused by the answers |
| Orchestrator.Orchestrator.Run | internal/orchestrator/orchestrator.go:89-114 | Ends in the state of the sequential program, and returns nil iff every answer was good, else an error that the answers cause as the first thing to go wrong; a context done at the switch wins over the error |
| Orchestrator.Orchestrator.ExecuteStages | internal/orchestrator/orchestrator.go:116-149 | Runs the configured stages in order until one fails and returns its error, handing the build job's ID, or the zero ID without a build, to the deployment |
| Orchestrator.Orchestrator.RunStage | internal/orchestrator/orchestrator.go:154-186 | Creates, starts and finalises the job around the stage's body, and returns the job's ID on success, else the error of the refused write or of the body |
| StepRunner.Runner.RunStep | internal/orchestrator/orchestrator.go:190-223 | The life of a step computes the specification of a step call; its row holds the job, name, order and group it was called with, its submission the spec, and an error it returns is the step's own |
| StepRunner.Runner.ExecuteAndPoll | internal/orchestrator/orchestrator.go:227-244 | Submits, records and polls as specified; without a record the submission is neither polled nor cancelled |
| StepRunner.Runner.Poll | internal/orchestrator/orchestrator.go:248-280 | The poll loop terminates on any script with a decisive event and returns nil iff that event observes `succeeded` |
| StepRunner.Runner.Act | internal/orchestrator/orchestrator.go:190-280 | One atomic action through the stores and the executor is one move of the step machine |
| Testinator.Batch.Advance | internal/testinator/testinator.go:67-74 | One action of one goroutine keeps the wait count and the error list exact and does not change what the batch comes to |
| Testinator.Testinator.RunParallel | internal/testinator/testinator.go:59-81 | In whatever order goroutines are started and act, the batch ends in the state of running its steps one by one without early stop, returns nil iff all succeed, and else the very error that some step of the batch returns when it runs alone from the same state |
| Testinator.Testinator.Run | internal/testinator/testinator.go:30-57 | The batching loop with its two counters computes the declarative split of the list into numbered sequential steps and maximal batches; it returns nil iff all steps succeed, else the error of the first failing step, or of any failing step of the batch that holds it |
| Buildinator.OutputsToSpecs | internal/buildinator/buildinator.go:77-83 | The array filled by index holds the spec of each output at its place |
| Buildinator.Buildinator.Register | internal/buildinator/buildinator.go:59-71 | Registers the outputs in order under the pre-allocated IDs until one is refused |
| Buildinator.Buildinator.Run | internal/buildinator/buildinator.go:42-75 | The step-then-register loop computes the build stage, stopping at the first failing step or refused registration |
| Deployinator.Deployinator.Resolve | internal/deployinator/deployinator.go:34-48 | The search finds the first artifact of the type in listing order, and finds none only if the job owns none |
| Deployinator.Deployinator.Search | internal/deployinator/deployinator.go:39-45 | The loop with its break stops at the first artifact of the type |
| Deployinator.Deployinator.Run | internal/deployinator/deployinator.go:33-56 | Lists, resolves, and runs the one deploy step against the artifact found |
| Store.Database.CreateRun | internal/store/postgres/pipeline_run.go:22-33 | Fills in the caller's record even when refused; the table changes by exactly one new row or not at all; foreign keys stay intact |
| Store.Database.CreateJob | internal/store/postgres/job.go:22-33 | The same for jobs, refused when the run is unknown |
| Store.Database.CreateStep | internal/store/postgres/job_step.go:22-33 | The same for steps, refused when the job is unknown |
| Store.Database.CreateExecution | internal/store/postgres/execution.go:22-33 | The same for executions, refused when the step is unknown |
| Store.Database.CreateArtifact | internal/store/postgres/artifact.go:21-31 | The same for artifacts, which have no status, refused when the job is unknown |
| Store.Database.UpdateRun | internal/store/postgres/pipeline_run.go:98-114 | Writes the status, the start time on `running`, the finish time on `success`, `failed` and `canceled`, and nothing else, in one row; says NotFound iff accepted without a row to change |
| Store.Database.UpdateJob | internal/store/postgres/job.go:74-90 | The same for jobs |
| Store.Database.UpdateStep | internal/store/postgres/job_step.go:74-90 | The same for steps |
| Store.Database.UpdateExecution | internal/store/postgres/execution.go:74-89 | The same for executions and their completion time |
| Store.Database.ListArtifacts | internal/store/postgres/artifact.go:48-70 | Yields exactly the rows of the job, in nondecreasing creation time |
| Store.Record.AssignId | internal/store/postgres/helpers.go:14-18 | A record that had the zero ID gets the generated one, any other keeps its own |
| Store.FillIn | internal/store/postgres/helpers.go:14-42 | Stamps the creation time and defaults a blank status to `pending` |

## Left out

- SQL, connection pools, migrations and row scanning: tables are maps, a statement is accepted or refused as a whole, and a statement that errs has changed nothing.
- The Kubernetes client and the bodies of Submit and Cancel: the executor is an oracle with a book of what it was asked. `Timeout`, exit codes and messages are not modelled.
- Real time, the ticker and the random order in which `select` picks among ready channels: a poll is a script of events, and a script may take the tick or the context's end in any order; the context's end only after a cancellation.
- Polls without end: a script that runs out leaves its step waiting for ever in the transition system; the methods, which must terminate, require that no poll does so (`AllEnd`), where the real loop would simply not return.
- UUID texts: IDs are numbers and paths print them in decimal; only the injectivity of printing is used. `filepath.Join` is modelled for base paths that are already clean.
- Status texts other than the persisted literals are one constructor `Other`, which carries the text.
- The `checksum` column, which the engine never sets, and the store methods `GetByID` and the listings other than artifacts by job.
- Other writers: while a run is in flight nothing but the run itself writes the tables, and the runs table is only written for this run's row.
- A second `Run` of a run that is not pending; `PendingRun` excludes it where the transition tables are concerned.
- Go's memory model: an append to the shared error list under the mutex is one atomic action.
- Confluence.OnlyTheRunRowDiffers: compares runs that got the same answers, although a cancelled context, being passed to the store and to Submit, normally changes their answers; how it does so is up to them and is not modelled.
- Safety.StartsAsPlanned: the order in which the goroutines of one batch enter the step function is not recorded, because it is up to the scheduler.
- Testinator.Testinator.Run: which of several failing steps' errors is returned is not fixed, because it depends on the schedule.
- The text of errors, and logging.
- YAML decoding and validation of the configuration, gRPC and server plumbing, the filesystem artifact store, and the project, repository and pipeline stores are not modelled.
- The job life cycle with callbacks and crash recovery of `docs/design/tdd.md`, which is not implemented.
