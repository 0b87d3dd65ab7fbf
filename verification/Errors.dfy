/**
 Which error the sequential program may return where the concurrent one has a choice. Everything but a parallel
 batch returns the error of the sequential program; a batch returns that of any of its failing steps.
 */
module Errors {
  import opened Wrappers
  import opened Rows
  import opened Config
  import opened Steps
  import opened Pipeline
  import opened Interleaving
  import opened Reference
  import Batching

  /** What step i of a batch that begins at `base` returns when it runs alone from `sys`. */
  function Alone(w: World, sys: Sys, base: nat, i: nat, group: string): Option<Error>
    requires base + i < |TestSteps(w)|
  {
    Complete(sys, Thread(TestTask(w, base + i, Some(group)), AtCreate)).err
  }

  /** One of the steps of the batch from i to hi returns the error when it runs alone. */
  ghost predicate BatchMayReturn(w: World, sys: Sys, i: nat, hi: nat, e: Error)
    requires i <= hi <= |TestSteps(w)|
  {
    exists m: nat :: i + m < hi && Alone(w, sys, i, m, Batching.GroupName(i)) == Some(e)
  }

  /** The errors that the test stage from step i on may return. */
  ghost predicate TestMayReturn(w: World, sys: Sys, i: nat, e: Error)
    requires i <= |TestSteps(w)|
    decreases |TestSteps(w)| - i
  {
    var steps := TestSteps(w);
    if i == |steps| then false
    else if !steps[i].parallel then
      var o := CallStep(sys, TestTask(w, i, None));
      if o.err.Some? then o.err == Some(e) else TestMayReturn(w, o.sys, i + 1, e)
    else
      var hi := Batching.BatchEnd(steps, i);
      var o := BatchFrom(w, sys, Batching.GroupName(i), i, hi);
      if o.err.Some? then BatchMayReturn(w, sys, i, hi, e) else TestMayReturn(w, o.sys, hi, e)
  }

  ghost predicate BodyMayReturn(w: World, sys: Sys, st: Stage, buildJob: Id, e: Error)
    requires Configured(w, st)
  {
    match st
    case Build => BuildFrom(w, sys, 0).err == Some(e)
    case Test => TestMayReturn(w, sys, 0, e)
    case Deploy => DeployStage(w, sys, buildJob).err == Some(e)
  }

  ghost predicate StageMayReturn(w: World, sys: Sys, st: Stage, buildJob: Id, e: Error)
    requires Configured(w, st)
  {
    var c := CreateJob(w, sys, st);
    if !c.ok then e == JobCreateRefused(st)
    else
      var s := StartJob(w, sys.(jobs := c.rows), st);
      if !s.ok then e == JobStartRefused(st) else BodyMayReturn(w, sys.(jobs := s.rows), st, buildJob, e)
  }

  /** The errors that the stages from `st` on may return. */
  ghost predicate StagesMayReturn(w: World, sys: Sys, st: Stage, buildJob: Id, e: Error)
    decreases 3 - StageRank(st), 1
  {
    if !Configured(w, st) then LaterMayReturn(w, sys, st, buildJob, e)
    else
      var o := RunStage(w, sys, st, buildJob);
      if o.err.Some? then StageMayReturn(w, sys, st, buildJob, e)
      else LaterMayReturn(w, o.sys, st, if st == Build then JobId(w, Build) else buildJob, e)
  }

  ghost predicate LaterMayReturn(w: World, sys: Sys, st: Stage, buildJob: Id, e: Error)
    decreases 3 - StageRank(st), 0
  {
    match st
    case Build => StagesMayReturn(w, sys, Test, buildJob, e)
    case Test => StagesMayReturn(w, sys, Deploy, buildJob, e)
    case Deploy => false
  }

  /** The errors that the run may return. */
  ghost predicate RunMayReturn(w: World, sys: Sys, e: Error) {
    var s := StartRun(w, sys);
    if !s.ok then e == RunStartRefused else StagesMayReturn(w, sys.(runs := s.rows), Build, ZERO_ID, e)
  }
}
