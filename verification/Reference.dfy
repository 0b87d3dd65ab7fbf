/**
 The run as a plain sequential program: every step runs alone, one after the other, also those of a parallel
 batch. The methods of the imperative modules compute these functions, and every interleaved run ends in the
 same state as they do.
 */
module Reference {
  import opened Wrappers
  import opened States
  import opened Rows
  import opened Config
  import opened Steps
  import opened Pipeline
  import opened Interleaving
  import Batching

  /** A step that is started and runs alone to its return. */
  function CallStep(sys: Sys, t: Task): Out { RunStep(Started(sys, t.inv), t) }

  // ---------- Build stage ----------

  /** Registration of the outputs of step i, from the j-th on. */
  function RegisterFrom(w: World, sys: Sys, i: nat, j: nat): Out
    requires i < |BuildSteps(w)| && j <= |BuildSteps(w)[i].outputs|
    decreases |BuildSteps(w)[i].outputs| - j
  {
    if j == |BuildSteps(w)[i].outputs| then Out(sys, None)
    else
      var r := RegisterOne(w, sys, i, j);
      if !r.ok then Out(sys, Some(RegisterRefused(i, j))) else RegisterFrom(w, sys.(arts := r.rows), i, j + 1)
  }

  function RegisterOne(w: World, sys: Sys, i: nat, j: nat): Written<ArtRow>
    requires i < |BuildSteps(w)| && j < |BuildSteps(w)[i].outputs|
  {
    Insert(sys.arts, w.artifacts(i, j).id, NewArtRow(w, i, j), JobId(w, Build) in sys.jobs, w.artifacts(i, j).create)
  }

  function BuildFrom(w: World, sys: Sys, i: nat): Out
    requires i <= |BuildSteps(w)|
    decreases |BuildSteps(w)| - i, 2
  {
    if i == |BuildSteps(w)| then Out(sys, None)
    else AfterBuildStep(w, CallStep(sys, BuildTask(w, i)), i)
  }

  function AfterBuildStep(w: World, o: Out, i: nat): Out
    requires i < |BuildSteps(w)|
    decreases |BuildSteps(w)| - i, 1
  {
    if o.err.Some? then o else AfterRegister(w, RegisterFrom(w, o.sys, i, 0), i)
  }

  function AfterRegister(w: World, o: Out, i: nat): Out
    requires i < |BuildSteps(w)|
    decreases |BuildSteps(w)| - i, 0
  {
    if o.err.Some? then o else BuildFrom(w, o.sys, i + 1)
  }

  // ---------- Test stage ----------

  /** Steps i to hi of one batch, all of them, whatever comes of each; the error is the first in list order. */
  function BatchFrom(w: World, sys: Sys, group: string, i: nat, hi: nat): Out
    requires i <= hi <= |TestSteps(w)|
    decreases hi - i
  {
    if i == hi then Out(sys, None)
    else
      var o := CallStep(sys, TestTask(w, i, Some(group)));
      var rest := BatchFrom(w, o.sys, group, i + 1, hi);
      Out(rest.sys, First(o.err, rest.err))
  }

  function TestFrom(w: World, sys: Sys, i: nat): Out
    requires i <= |TestSteps(w)|
    decreases |TestSteps(w)| - i, 1
  {
    var steps := TestSteps(w);
    if i == |steps| then Out(sys, None)
    else if !steps[i].parallel then AfterTests(w, CallStep(sys, TestTask(w, i, None)), i, i + 1)
    else
      var hi := Batching.BatchEnd(steps, i);
      AfterTests(w, BatchFrom(w, sys, Batching.GroupName(i), i, hi), i, hi)
  }

  /** The rest of the stage once the steps from i to hi are through. */
  function AfterTests(w: World, o: Out, i: nat, hi: nat): Out
    requires i < hi <= |TestSteps(w)|
    decreases |TestSteps(w)| - i, 0
  {
    if o.err.Some? then o else TestFrom(w, o.sys, hi)
  }

  // ---------- Deploy stage ----------

  function DeployStage(w: World, sys: Sys, buildJob: Id): Out
    requires w.cfg.deploy.Some?
  {
    if !w.listOk then Out(sys, Some(ListRefused))
    else
      var cfg := w.cfg.deploy.value;
      var ids := w.listing(sys.arts, buildJob);
      var k := FirstOfType(sys.arts, ids, cfg.artifact);
      if k == |ids| then Out(sys, Some(NoArtifact)) else CallStep(sys, DeployTask(w, cfg, sys.arts[ids[k]].path))
  }

  // ---------- Stages and the run ----------

  function StageBody(w: World, sys: Sys, st: Stage, buildJob: Id): Out
    requires Configured(w, st)
  {
    match st
    case Build => BuildFrom(w, sys, 0)
    case Test => TestFrom(w, sys, 0)
    case Deploy => DeployStage(w, sys, buildJob)
  }

  function CreateJob(w: World, sys: Sys, st: Stage): Written<JobRow> {
    Insert(sys.jobs, JobId(w, st), NewJobRow(w, st), w.run in sys.runs, w.jobs(st).create)
  }

  function StartJob(w: World, sys: Sys, st: Stage): Written<JobRow> {
    UpdateStatus(sys.jobs, JobId(w, st), Running, w.jobs(st).start)
  }

  function FinalJob(w: World, sys: Sys, st: Stage, err: Option<Error>): Sys {
    sys.(jobs := UpdateStatus(sys.jobs, JobId(w, st), StepFinal(err), w.jobs(st).final).rows)
  }

  function RunStage(w: World, sys: Sys, st: Stage, buildJob: Id): Out
    requires Configured(w, st)
  {
    var c := CreateJob(w, sys, st);
    if !c.ok then Out(sys, Some(JobCreateRefused(st))) else StartStage(w, sys.(jobs := c.rows), st, buildJob)
  }

  function StartStage(w: World, sys: Sys, st: Stage, buildJob: Id): Out
    requires Configured(w, st)
  {
    var s := StartJob(w, sys, st);
    if !s.ok then Out(sys, Some(JobStartRefused(st)))
    else FinishStage(w, StageBody(w, sys.(jobs := s.rows), st, buildJob), st)
  }

  function FinishStage(w: World, o: Out, st: Stage): Out { Out(FinalJob(w, o.sys, st, o.err), o.err) }

  function StageRank(st: Stage): nat {
    match st
    case Build => 0
    case Test => 1
    case Deploy => 2
  }

  /** The stages from `st` on. */
  function StagesFrom(w: World, sys: Sys, st: Stage, buildJob: Id): Out
    decreases 3 - StageRank(st), 2
  {
    if !Configured(w, st) then NextStage(w, sys, st, buildJob)
    else AfterStage(w, RunStage(w, sys, st, buildJob), st, buildJob)
  }

  function AfterStage(w: World, o: Out, st: Stage, buildJob: Id): Out
    decreases 3 - StageRank(st), 1
  {
    if o.err.Some? then o else NextStage(w, o.sys, st, if st == Build then JobId(w, Build) else buildJob)
  }

  function NextStage(w: World, sys: Sys, st: Stage, buildJob: Id): Out
    decreases 3 - StageRank(st), 0
  {
    match st
    case Build => StagesFrom(w, sys, Test, buildJob)
    case Test => StagesFrom(w, sys, Deploy, buildJob)
    case Deploy => Out(sys, None)
  }

  function ExecuteStages(w: World, sys: Sys): Out { StagesFrom(w, sys, Build, ZERO_ID) }

  function StartRun(w: World, sys: Sys): Written<RunRow> { UpdateStatus(sys.runs, w.run, Running, w.start) }

  /** The switch on the context and the error: a done context wins. */
  function RunFinal(cancelled: bool, failed: bool): Status {
    if cancelled then Canceled else if failed then Failed else Success
  }

  function FinalRun(w: World, sys: Sys, final: Status): Sys {
    sys.(runs := UpdateStatus(sys.runs, w.run, final, w.final).rows)
  }

  /** The whole run, given whether the context is done when the final state is chosen. */
  function Run(w: World, sys: Sys, cancelled: bool): Out {
    var s := StartRun(w, sys);
    if !s.ok then Out(sys, Some(RunStartRefused))
    else
      var o := ExecuteStages(w, sys.(runs := s.rows));
      Out(FinalRun(w, o.sys, RunFinal(cancelled, o.err.Some?)), o.err)
  }
}
