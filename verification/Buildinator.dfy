/** The build stage: its steps one by one, and after each the registration of the artifacts it declared. */
module Buildinator {
  import opened Wrappers
  import opened States
  import opened Rows
  import opened Config
  import opened Executor
  import opened Steps
  import opened Pipeline
  import opened Reference
  import opened Store
  import opened StepRunner
  import Decimal

  method OutputsToSpecs(outputs: seq<BuildOutput>) returns (specs: array<ArtifactSpec>)
    ensures fresh(specs) && specs[..] == OutputSpecs(outputs)
  {
    specs := new ArtifactSpec[|outputs|](_ => ArtifactSpec("", ""));
    for i := 0 to |outputs|
      invariant forall j :: 0 <= j < i ==> specs[j] == ArtifactSpec(outputs[j].kind, outputs[j].path)
    {
      specs[i] := ArtifactSpec(outputs[i].kind, outputs[i].path);
    }
  }

  lemma BuildOnce(w: World, sys: Sys, i: nat)
    requires i < |BuildSteps(w)|
    ensures BuildFrom(w, sys, i) == AfterBuildStep(w, CallStep(sys, BuildTask(w, i)), i)
  {
    hide CallStep, AfterBuildStep;
  }

  lemma BuildOver(w: World, sys: Sys)
    ensures BuildFrom(w, sys, |BuildSteps(w)|) == Out(sys, None)
  {
  }

  class Buildinator {
    const runner: Runner

    constructor (runner: Runner)
      ensures this.runner == runner
    {
      this.runner := runner;
    }

    /** Registers the outputs of step i under the IDs allocated before the step ran. */
    method Register(w: World, jobId: Id, i: nat, ids: array<Id>) returns (err: Option<Error>)
      requires i < |BuildSteps(w)| && jobId == JobId(w, Build)
      requires ids.Length == |BuildSteps(w)[i].outputs|
      requires forall j :: 0 <= j < ids.Length ==> ids[j] == w.artifacts(i, j).id
      modifies runner.db`arts
      ensures Out(runner.Snapshot(), err) == RegisterFrom(w, old(runner.Snapshot()), i, 0)
    {
      var outputs := BuildSteps(w)[i].outputs;
      for j := 0 to |outputs|
        invariant RegisterFrom(w, runner.Snapshot(), i, j) == RegisterFrom(w, old(runner.Snapshot()), i, 0)
      {
        var art := new Record(ids[j],
          ArtRow(jobId, outputs[j].kind, w.backend, JoinPath(w.basePath, Decimal.Print(ids[j])), 0));
        var refused := runner.db.CreateArtifact(art, ids[j], w.artifacts(i, j).create);
        if refused.Some? {
          return Some(RegisterRefused(i, j));
        }
      }
      return None;
    }

    method Run(w: World, jobId: Id, steps: seq<BuildStep>) returns (err: Option<Error>)
      requires w.cfg.build == Some(steps) && jobId == JobId(w, Build)
      requires AllEnd(w)
      modifies runner, runner.db, runner.cluster
      ensures Out(runner.Snapshot(), err) == BuildFrom(w, old(runner.Snapshot()), 0)
    {
      hide CallStep, BuildFrom, RegisterFrom;
      for i := 0 to |steps|
        invariant BuildFrom(w, runner.Snapshot(), i) == BuildFrom(w, old(runner.Snapshot()), 0)
      {
        var s, key := steps[i], Key(Build, i);
        var ids := new Id[|s.outputs|](_ => ZERO_ID);
        for j := 0 to |s.outputs|
          modifies ids
          invariant forall m :: 0 <= m < j ==> ids[m] == w.artifacts(i, m).id
        {
          ids[j] := w.artifacts(i, j).id;
        }
        var specs := OutputsToSpecs(s.outputs);
        var spec := ExecutionSpec(w.image, ["sh", "-c", s.run], map[], specs[..]);
        var task := Task(Invocation(key, s.name, None, spec), jobId, w.steps(key));
        assert task == BuildTask(w, i);
        ghost var before := runner.Snapshot();
        err := runner.RunStep(task);
        BuildOnce(w, before, i);
        if err.Some? {
          return;
        }
        err := Register(w, jobId, i, ids);
        if err.Some? {
          return;
        }
      }
      BuildOver(w, runner.Snapshot());
      return None;
    }
  }
}
