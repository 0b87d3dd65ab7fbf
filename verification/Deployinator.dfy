/** The deploy stage: it resolves the artifact to deploy and runs the one step that deploys it. */
module Deployinator {
  import opened Wrappers
  import opened States
  import opened Rows
  import opened Config
  import opened Executor
  import opened Steps
  import opened Pipeline
  import opened Reference
  import opened Store
  import opened StepRunner

  /** The job owns no artifact of the type. */
  ghost predicate NoneOfType(arts: map<Id, ArtRow>, job: Id, kind: string) {
    forall id :: id in arts && arts[id].job == job ==> arts[id].artifactType != kind
  }

  predicate IsFirst(list: seq<ArtRow>, kind: string, i: nat) {
    && i <= |list| && (forall j :: 0 <= j < i ==> list[j].artifactType != kind)
    && (i < |list| ==> list[i].artifactType == kind)
  }

  /** The first artifact of a listing is the first of the table's listing, and if there is none the job owns none. */
  lemma FirstListed(arts: map<Id, ArtRow>, job: Id, ids: seq<Id>, list: seq<ArtRow>, kind: string, i: nat)
    requires IsListing(arts, job, ids) && |list| == |ids| && IsFirst(list, kind, i)
    requires forall j :: 0 <= j < |ids| ==> ids[j] in arts && list[j] == arts[ids[j]]
    ensures FirstOfType(arts, ids, kind) == i
    ensures i == |ids| ==> NoneOfType(arts, job, kind)
  {
    var k := FirstOfType(arts, ids, kind);
    assert k < |list| ==> list[k] == arts[ids[k]];
    assert i < |list| ==> list[i] == arts[ids[i]];
    if i == |ids| {
      forall id | id in arts && arts[id].job == job ensures arts[id].artifactType != kind {
        assert id in ids;
        var x :| 0 <= x < |ids| && ids[x] == id;
      }
    }
  }

  class Deployinator {
    const runner: Runner

    constructor (runner: Runner)
      ensures this.runner == runner
    {
      this.runner := runner;
    }

    /** The first artifact of the wanted type among those of the build job, in the order of the listing. */
    method Resolve(w: World, buildJob: Id, kind: string) returns (art: Option<ArtRow>, err: Option<Error>)
      requires SoundListing(w)
      ensures err == if w.listOk then None else Some(ListRefused)
      ensures art.None? ==> !w.listOk || NoneOfType(runner.db.arts, buildJob, kind)
      ensures var ids := w.listing(runner.db.arts, buildJob);
              var k := FirstOfType(runner.db.arts, ids, kind);
              art == if w.listOk && k < |ids| then Some(runner.db.arts[ids[k]]) else None
    {
      var rows := runner.db.arts;
      var ids := w.listing(rows, buildJob);
      assert IsListing(rows, buildJob, ids);
      var list := runner.db.ListArtifacts(buildJob, ids, w.listOk);
      if list.None? {
        return None, Some(ListRefused);
      }
      hide IsListing, FirstOfType;
      var i := Search(list.value, kind);
      FirstListed(rows, buildJob, ids, list.value, kind, i);
      if i < |list.value| {
        return Some(list.value[i]), None;
      }
      return None, None;
    }

    /** The search loop: the index of the first artifact of the type, or the length of the list. */
    method Search(list: seq<ArtRow>, kind: string) returns (i: nat)
      ensures IsFirst(list, kind, i)
    {
      i := |list|;
      for n := 0 to |list|
        invariant i == |list|
        invariant forall j :: 0 <= j < n ==> list[j].artifactType != kind
      {
        if list[n].artifactType == kind {
          i := n;
          break;
        }
      }
    }

    method Run(w: World, jobId: Id, buildJob: Id, cfg: DeployConfig) returns (err: Option<Error>)
      requires w.cfg.deploy == Some(cfg) && jobId == JobId(w, Deploy) && SoundListing(w)
      requires AllEnd(w)
      modifies runner, runner.db`steps, runner.db`execs, runner.cluster
      ensures Out(runner.Snapshot(), err) == DeployStage(w, old(runner.Snapshot()), buildJob)
    {
      var art: Option<ArtRow>;
      art, err := Resolve(w, buildJob, cfg.artifact);
      if err.Some? {
        return;
      }
      if art.None? {
        return Some(NoArtifact);
      }
      var spec := ExecutionSpec(w.image, ["sh", "-c", DeployCommand(cfg, art.value.path)], map[], []);
      err := runner.RunStep(Task(Invocation(Key(Deploy, 0), "deploy", None, spec), jobId, w.steps(Key(Deploy, 0))));
    }
  }
}
