/** The orchestrator: it drives a run through its stages and finalises every row it started. */
module Orchestrator {
  import opened Wrappers
  import opened States
  import opened Rows
  import opened Config
  import opened Steps
  import opened Pipeline
  import opened Store
  import opened StepRunner
  import opened Buildinator
  import opened Testinator
  import opened Deployinator
  import Reference
  import opened Confluence
  import opened Errors
  import Returns

  lemma SameFinish(w: World, x: Out, y: Out, st: Stage)
    requires Same(x, y)
    ensures Same(Reference.FinishStage(w, x, st), Reference.FinishStage(w, y, st))
  {
  }

  /** A stage that was run either ends the stages or leads to the next one. */
  lemma StageDone(w: World, sys: Sys, o: Out, st: Stage, buildJob: Id)
    requires Configured(w, st) && Same(o, Reference.RunStage(w, sys, st, buildJob))
    ensures var all := Reference.StagesFrom(w, sys, st, buildJob);
            if o.err.Some? then Same(o, all)
            else all == Reference.NextStage(w, o.sys, st, if st == Build then JobId(w, Build) else buildJob)
  {
    hide Reference.RunStage, Reference.NextStage;
  }

  class Orchestrator {
    const runner: Runner
    const build: Buildinator
    const test: Testinator
    const deploy: Deployinator

    /** The stage drivers call back into this orchestrator's step function. */
    ghost predicate Wired() { build.runner == runner && test.runner == runner && deploy.runner == runner }

    constructor (db: Database, cluster: Cluster)
      ensures Wired() && runner.db == db && runner.cluster == cluster && fresh(runner)
    {
      var r := new Runner(db, cluster);
      runner := r;
      build := new Buildinator(r);
      test := new Testinator(r);
      deploy := new Deployinator(r);
    }

    method RunBody(w: World, jobId: Id, st: Stage, buildJob: Id) returns (err: Option<Error>)
      requires Wired() && Configured(w, st) && jobId == JobId(w, st)
      requires DistinctStepIds(w) && AllEnd(w) && SoundListing(w)
      modifies runner, runner.db, runner.cluster
      ensures Same(Out(runner.Snapshot(), err), Reference.StageBody(w, old(runner.Snapshot()), st, buildJob))
      ensures err.Some? ==> BodyMayReturn(w, old(runner.Snapshot()), st, buildJob, err.value)
    {
      hide Reference.BuildFrom, Reference.TestFrom, Reference.DeployStage, TestMayReturn;
      match st
      case Build => err := build.Run(w, jobId, w.cfg.build.value);
      case Test => err := test.Run(w, jobId, w.cfg.test.value);
      case Deploy => err := deploy.Run(w, jobId, buildJob, w.cfg.deploy.value);
    }

    /** Creates the job of a stage, takes it through its lifecycle, and runs its steps. */
    method RunStage(w: World, st: Stage, buildJob: Id) returns (jobId: Id, err: Option<Error>)
      requires Wired() && Configured(w, st)
      requires DistinctStepIds(w) && AllEnd(w) && SoundListing(w)
      modifies runner, runner.db, runner.cluster
      ensures Same(Out(runner.Snapshot(), err), Reference.RunStage(w, old(runner.Snapshot()), st, buildJob))
      ensures err.None? ==> jobId == JobId(w, st)
      ensures err.Some? ==> StageMayReturn(w, old(runner.Snapshot()), st, buildJob, err.value)
    {
      hide Reference.StageBody, BodyMayReturn;
      var job := new Record(ZERO_ID, Row(JobInfo(w.run, StageName(st), StageName(st)), Life(BLANK, 0, None, None)));
      var refused := runner.db.CreateJob(job, w.jobs(st).id, w.jobs(st).create);
      if refused.Some? {
        return ZERO_ID, Some(JobCreateRefused(st));
      }
      refused := runner.db.UpdateJob(job.id, Running, w.jobs(st).start);
      if refused.Some? {
        return ZERO_ID, Some(JobStartRefused(st));
      }
      ghost var before := runner.Snapshot();
      jobId := job.id;
      err := RunBody(w, jobId, st, buildJob);
      SameFinish(w, Out(runner.Snapshot(), err), Reference.StageBody(w, before, st, buildJob), st);
      var finalState := Succeeded;
      if err.Some? {
        finalState := Failed;
      }
      var ignored := runner.db.UpdateJob(jobId, finalState, w.jobs(st).final);
    }

    /** Runs the configured stages in order until one fails. */
    method ExecuteStages(w: World) returns (err: Option<Error>)
      requires Wired() && DistinctStepIds(w) && AllEnd(w) && SoundListing(w)
      modifies runner, runner.db, runner.cluster
      ensures Same(Out(runner.Snapshot(), err), Reference.ExecuteStages(w, old(runner.Snapshot())))
      ensures err.Some? ==> StagesMayReturn(w, old(runner.Snapshot()), Build, ZERO_ID, err.value)
    {
      hide Reference.RunStage, StageMayReturn;
      var buildJob, id := ZERO_ID, ZERO_ID;
      ghost var sys := runner.Snapshot();
      if w.cfg.build.Some? {
        id, err := RunStage(w, Build, ZERO_ID);
        StageDone(w, sys, Out(runner.Snapshot(), err), Build, ZERO_ID);
        if err.Some? {
          return;
        }
        buildJob := id;
      }
      sys := runner.Snapshot();
      if w.cfg.test.Some? {
        id, err := RunStage(w, Test, buildJob);
        StageDone(w, sys, Out(runner.Snapshot(), err), Test, buildJob);
        if err.Some? {
          return;
        }
      }
      sys := runner.Snapshot();
      if w.cfg.deploy.Some? {
        id, err := RunStage(w, Deploy, buildJob);
        StageDone(w, sys, Out(runner.Snapshot(), err), Deploy, buildJob);
        if err.Some? {
          return;
        }
      }
      return None;
    }

    /** Executes the run; `cancelled` is what the context says when the final state is chosen. */
    method Run(w: World, cancelled: bool) returns (err: Option<Error>)
      requires Wired() && DistinctStepIds(w) && AllEnd(w) && SoundListing(w)
      modifies runner, runner.db, runner.cluster
      ensures Same(Out(runner.Snapshot(), err), Reference.Run(w, old(runner.Snapshot()), cancelled))
      ensures err.Some? ==> RunMayReturn(w, old(runner.Snapshot()), err.value)
      ensures FreshIds(w, old(runner.Snapshot())) && SoundTables(old(runner.Snapshot())) ==>
                Returns.Returned(w, old(runner.Snapshot()), err)
    {
      hide Reference.ExecuteStages, StagesMayReturn, Returns.Caused;
      ghost var sys0 := runner.Snapshot();
      if FreshIds(w, sys0) && SoundTables(sys0) { Returns.RunReturns(w, sys0, cancelled); }
      var refused := runner.db.UpdateRun(w.run, Running, w.start);
      if refused.Some? {
        return Some(RunStartRefused);
      }
      err := ExecuteStages(w);
      var finalState := Success;
      if cancelled {
        finalState := Canceled;
      } else if err.Some? {
        finalState := Failed;
      }
      var ignored := runner.db.UpdateRun(w.run, finalState, w.final);
    }
  }
}
