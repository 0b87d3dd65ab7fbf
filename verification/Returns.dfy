/**
 The error a run returns, in terms of its configuration and answers alone: it is the first refusal or failure that
 the run meets, and inside a parallel batch any failure of the batch.
 */
module Returns {
  import opened Wrappers
  import opened States
  import opened Rows
  import opened Config
  import opened Executor
  import opened Steps
  import opened Pipeline
  import opened Interleaving
  import opened Reference
  import opened Errors
  import opened Engine
  import opened Shape
  import opened StepRows
  import opened Tables
  import opened Hierarchy
  import opened Ledger
  import opened Invariant
  import opened Answers
  import opened Safety
  import opened Provenance
  import opened Outcomes
  import Batching
  import Polling

  // ---------- The causes ----------

  /** The cause is the first bad answer of the step. */
  ghost predicate BadAnswer(sc: StepScript, c: Cause) {
    var submitted := sc.create.ok && sc.start.ok && sc.submit.Some?;
    match c
    case CreateRefused => !sc.create.ok
    case StartRefused => sc.create.ok && !sc.start.ok
    case SubmitRefused => sc.create.ok && sc.start.ok && sc.submit.None?
    case RecordRefused => submitted && !sc.record.ok
    case ContextDone => submitted && sc.record.ok && Decision(sc.polls) == Some(CtxDone)
    case PhaseError(phase) =>
      && submitted && sc.record.ok && phase != Succeeded
      && Decision(sc.polls).Some? && Decision(sc.polls).value.Observed? && Decision(sc.polls).value.phase == phase
    case Undecided => submitted && sc.record.ok && !Decided(sc.polls)
  }

  predicate JobGood(w: World, st: Stage) { Configured(w, st) && w.jobs(st).create.ok && w.jobs(st).start.ok }

  /** Nothing goes wrong in the stage. */
  ghost predicate StageClean(w: World, st: Stage) {
    Configured(w, st) ==>
      && JobGood(w, st) && CleanUpTo(w, st, Planned(w, st))
      && (st == Build ==> RegisteredWell(w, |BuildSteps(w)|, 0))
      && (st == Deploy ==> w.listOk && exists p, q :: Wanted(w, p, q))
  }

  ghost predicate EarlierClean(w: World, st: Stage) { forall x :: StageRank(x) < StageRank(st) ==> StageClean(w, x) }

  /** Step k is where its stage fails: the first failing step, or in a parallel batch that holds that one, any failing step. */
  ghost predicate FailsAt(w: World, k: Key) {
    match k.stage
    case Build => CleanUpTo(w, Build, k.order) && RegisteredWell(w, k.order, 0)
    case Test =>
      exists f: nat :: f < |TestSteps(w)| && CleanUpTo(w, Test, f) && !StepSucceeds(w, Key(Test, f))
                       && f <= k.order < CallsUpTo(TestSteps(w), f)
    case Deploy => k.order == 0 && w.listOk && exists p, q :: Wanted(w, p, q)
  }

  /** The answers cause the error, and nothing that comes before it goes wrong. */
  ghost predicate Caused(w: World, sys0: Sys, e: Error) {
    if e == RunStartRefused then w.run !in sys0.runs || !w.start.ok
    else
      && w.run in sys0.runs && w.start.ok && Configured(w, ErrStage(e)) && EarlierClean(w, ErrStage(e))
      && match e
         case JobCreateRefused(st) => !w.jobs(st).create.ok
         case JobStartRefused(st) => w.jobs(st).create.ok && !w.jobs(st).start.ok
         case StepError(k, c) =>
           JobGood(w, k.stage) && k.order < Planned(w, k.stage) && BadAnswer(w.steps(k), c) && FailsAt(w, k)
         case RegisterRefused(i, j) =>
           && JobGood(w, Build) && CleanUpTo(w, Build, i + 1) && RegisteredWell(w, i, j)
           && IsOutput(w, i, j) && !w.artifacts(i, j).create.ok
         case ListRefused => JobGood(w, Deploy) && !w.listOk
         case NoArtifact => JobGood(w, Deploy) && w.listOk && !exists p, q :: Wanted(w, p, q)
  }

  /** What a run returns: nothing if all its answers are good, else an error that they cause. */
  ghost predicate Returned(w: World, sys0: Sys, err: Option<Error>) {
    if err.None? then AllGood(w, sys0) else Caused(w, sys0, err.value)
  }

  /** The cause in a step's error is its first bad answer, and a step without one returns none. */
  lemma VerdictIsBad(t: Task)
    ensures Verdict(t).None? <==> ScriptSucceeds(t.script)
    ensures Verdict(t).Some? ==>
              Verdict(t).value.StepError? && Verdict(t).value.key == t.inv.key && BadAnswer(t.script, Verdict(t).value.cause)
  {
    VerdictOfScript(t);
    if FirstDecisive(t.script.polls, 0) < |t.script.polls| { assert Decisive(t.script.polls[FirstDecisive(t.script.polls, 0)]); }
  }

  // ---------- One step ----------

  /** What the poll comes to. */
  function PollVerdict(t: Task): Option<Error> {
    var d := Decision(t.script.polls);
    if d.None? then Fail(t, Undecided) else if d.value.CtxDone? then Fail(t, ContextDone) else PhaseVerdict(t, d.value.phase)
  }

  lemma {:induction false} PollReturns(sys: Sys, t: Task, n: nat)
    requires UndecidedBefore(t, n)
    ensures Poll(sys, t, n).err == PollVerdict(t)
    decreases |t.script.polls| - n
  {
    hide Poll;
    Polling.PollOnce(sys, t, n);
    if n == |t.script.polls| { FirstDecisiveUnique(t.script.polls, n); }
    else if Decisive(t.script.polls[n]) { FirstDecisiveUnique(t.script.polls, n); }
    else {
      match t.script.polls[n]
      case StatusErr => PollReturns(Polled(sys, t, None), t, n + 1);
      case Observed(phase, write) => PollReturns(StoredPhase(Polled(sys, t, Some(phase)), t, phase, write), t, n + 1);
    }
  }

  /** A step that runs alone and finds its IDs unused returns the verdict of its answers. */
  lemma StepReturns(sys: Sys, t: Task)
    requires t.job in sys.jobs && t.script.stepId !in sys.steps && t.script.execId !in sys.execs
    ensures RunStep(sys, t).err == Verdict(t)
  {
    hide Poll;
    if t.script.create.ok && t.script.start.ok && t.script.submit.Some? && t.script.record.ok {
      var a := sys.(steps := CreateStep(sys, t).rows);
      var b := Submitted(a.(steps := StartStep(a, t).rows), t, t.script.submit.value);
      PollReturns(b.(execs := RecordExec(b, t, t.script.submit.value).rows), t, 0);
    }
  }

  predicate AtOrAfter(key: Key, st: Stage, i: nat) {
    StageRank(key.stage) > StageRank(st) || (key.stage == st && key.order >= i)
  }

  /** The row IDs of the steps from step i of the stage on are in no table. */
  ghost predicate Clear(w: World, sys: Sys, st: Stage, i: nat) {
    forall key :: AtOrAfter(key, st, i) ==> w.steps(key).stepId !in sys.steps && w.steps(key).execId !in sys.execs
  }

  /** Neither job, run nor artifact rows differ. */
  predicate SameUpperRows(a: Sys, b: Sys) { a.jobs == b.jobs && a.runs == b.runs && a.arts == b.arts }

  /** A step is about to run at its place: its job exists, and its IDs and those of later steps are unused. */
  ghost predicate InPlace(w: World, sys: Sys, t: Task, i: nat) {
    && t.inv.key.order == i && t.script == w.steps(t.inv.key) && t.job in sys.jobs
    && Clear(w, sys, t.inv.key.stage, i) && DistinctStepIds(w)
  }

  lemma CallReturns(w: World, sys: Sys, t: Task, i: nat)
    requires InPlace(w, sys, t, i)
    ensures var o := CallStep(sys, t);
            && o.err == Verdict(t) && Clear(w, o.sys, t.inv.key.stage, i + 1) && SameUpperRows(sys, o.sys)
            && (o.err.None? <==> StepSucceeds(w, t.inv.key))
            && (o.err.Some? ==> o.err.value.StepError? && o.err.value.key == t.inv.key
                                && BadAnswer(w.steps(t.inv.key), o.err.value.cause))
  {
    hide RunStep, Verdict, BadAnswer;
    var a, o := Started(sys, t.inv), CallStep(sys, t);
    assert AtOrAfter(t.inv.key, t.inv.key.stage, i);
    StepReturns(a, t);
    VerdictIsBad(t);
    RunStepFrame(a, t);
    forall key | AtOrAfter(key, t.inv.key.stage, i + 1)
      ensures w.steps(key).stepId !in o.sys.steps && w.steps(key).execId !in o.sys.execs
    {
      assert AtOrAfter(key, t.inv.key.stage, i) && key != t.inv.key;
      OffAgrees(a.steps, o.sys.steps, t.script.stepId, w.steps(key).stepId);
      OffAgrees(a.execs, o.sys.execs, t.script.execId, w.steps(key).execId);
    }
  }

  lemma RunStepFrame(sys: Sys, t: Task)
    ensures Only(sys, RunStep(sys, t).sys, t)
  {
    CompleteFrame(sys, Thread(t, AtCreate));
  }

  // ---------- The build stage ----------

  lemma RegisterAnswer(w: World, sys0: Sys, sys: Sys, i: nat, j: nat)
    requires FreshIds(w, sys0) && IsOutput(w, i, j) && sys.arts == Registered(w, sys0.arts, i, j) && JobId(w, Build) in sys.jobs
    ensures RegisterOne(w, sys, i, j).ok <==> w.artifacts(i, j).create.ok
    ensures w.artifacts(i, j).create.ok ==> RegisterOne(w, sys, i, j).rows == Registered(w, sys0.arts, i, j + 1)
  {
    RegisteredRows(w, sys0, i, j);
    RegisteredNext(w, sys0.arts, i, j);
    assert OutputId(w, i, j) !in sys.arts;
  }

  lemma {:induction false} RegisterReturns(w: World, sys0: Sys, sys: Sys, i: nat, j: nat)
    requires FreshIds(w, sys0) && i < |BuildSteps(w)| && j <= |BuildSteps(w)[i].outputs|
    requires sys.arts == Registered(w, sys0.arts, i, j) && JobId(w, Build) in sys.jobs
    requires CleanUpTo(w, Build, i + 1) && RegisteredWell(w, i, j)
    ensures var o := RegisterFrom(w, sys, i, j);
            && o.sys.(arts := sys.arts) == sys
            && (o.err.None? ==> o.sys.arts == Registered(w, sys0.arts, i + 1, 0) && RegisteredWell(w, i + 1, 0))
            && (o.err.Some? ==> BuildFails(w, o.err.value))
    decreases |BuildSteps(w)[i].outputs| - j
  {
    hide NewArtRow, Registered, StepSucceeds;
    if j == |BuildSteps(w)[i].outputs| {
      RegisteredNext(w, sys0.arts, i, j);
      forall p, q | OutputBefore(w, p, q, i + 1, 0) ensures OutputBefore(w, p, q, i, j) {}
    } else {
      RegisterAnswer(w, sys0, sys, i, j);
      if w.artifacts(i, j).create.ok {
        assert StepSucceeds(w, Key(Build, i));
        RegisterReturns(w, sys0, sys.(arts := RegisterOne(w, sys, i, j).rows), i, j + 1);
      }
    }
  }

  /** The build stage fails with this error. */
  ghost predicate BuildFails(w: World, e: Error) {
    match e
    case StepError(k, c) =>
      k.stage == Build && k.order < |BuildSteps(w)| && BadAnswer(w.steps(k), c) && FailsAt(w, k)
    case RegisterRefused(i, j) =>
      CleanUpTo(w, Build, i + 1) && RegisteredWell(w, i, j) && IsOutput(w, i, j) && !w.artifacts(i, j).create.ok
    case _ => false
  }

  lemma {:induction false} BuildReturns(w: World, sys0: Sys, sys: Sys, i: nat)
    requires FreshIds(w, sys0) && i <= |BuildSteps(w)| && Clear(w, sys, Build, i) && JobId(w, Build) in sys.jobs
    requires sys.arts == Registered(w, sys0.arts, i, 0) && CleanUpTo(w, Build, i) && RegisteredWell(w, i, 0)
    ensures var o := BuildFrom(w, sys, i);
            && o.sys.jobs == sys.jobs && o.sys.runs == sys.runs
            && (o.err.None? ==> && CleanUpTo(w, Build, |BuildSteps(w)|) && RegisteredWell(w, |BuildSteps(w)|, 0)
                                && Clear(w, o.sys, Test, 0) && o.sys.arts == Registered(w, sys0.arts, |BuildSteps(w)|, 0))
            && (o.err.Some? ==> BuildFails(w, o.err.value))
    decreases |BuildSteps(w)| - i
  {
    hide CallStep, RegisterFrom, Registered, RegisteredWell, StepSucceeds, BadAnswer, OutputSpecs;
    if i == |BuildSteps(w)| {
      ClearLater(w, sys, Build, i);
    } else {
      var t := BuildTask(w, i);
      CallReturns(w, sys, t, i);
      var o := CallStep(sys, t);
      assert BuildFrom(w, sys, i) == AfterBuildStep(w, o, i);
      if o.err.None? {
        RegisterReturns(w, sys0, o.sys, i, 0);
        var r := RegisterFrom(w, o.sys, i, 0);
        assert AfterBuildStep(w, o, i) == if r.err.Some? then r else BuildFrom(w, r.sys, i + 1);
        if r.err.None? { BuildReturns(w, sys0, r.sys, i + 1); }
      }
    }
  }

  /** With no step of the stage left, those of the next stage are clear. */
  lemma ClearLater(w: World, sys: Sys, st: Stage, i: nat)
    requires Clear(w, sys, st, i) && st != Deploy
    ensures Clear(w, sys, if st == Build then Test else Deploy, 0)
  {
    var next := if st == Build then Test else Deploy;
    forall key | AtOrAfter(key, next, 0) ensures AtOrAfter(key, st, i) {}
  }

  // ---------- The test stage ----------

  lemma {:induction false} BatchReturns(w: World, sys: Sys, group: string, i: nat, hi: nat)
    requires i <= hi <= |TestSteps(w)| && Clear(w, sys, Test, i) && JobId(w, Test) in sys.jobs && DistinctStepIds(w)
    ensures var o := BatchFrom(w, sys, group, i, hi);
            && Clear(w, o.sys, Test, hi) && SameUpperRows(sys, o.sys)
            && (o.err.None? <==> forall k :: i <= k < hi ==> StepSucceeds(w, Key(Test, k)))
    decreases hi - i
  {
    hide CallStep, StepSucceeds, BadAnswer;
    if i < hi {
      var t := TestTask(w, i, Some(group));
      CallReturns(w, sys, t, i);
      BatchReturns(w, CallStep(sys, t).sys, group, i + 1, hi);
    }
  }

  /** A step of a batch, run alone from its beginning, returns the verdict of its own answers. */
  lemma AloneReturns(w: World, sys: Sys, i: nat, m: nat, group: string, e: Error)
    requires i + m < |TestSteps(w)| && Clear(w, sys, Test, i) && JobId(w, Test) in sys.jobs
    requires Alone(w, sys, i, m, group) == Some(e)
    ensures e.StepError? && e.key == Key(Test, i + m) && BadAnswer(w.steps(e.key), e.cause) && !StepSucceeds(w, e.key)
  {
    hide RunStep, Verdict, BadAnswer;
    var t := TestTask(w, i + m, Some(group));
    assert AtOrAfter(Key(Test, i + m), Test, i);
    StepReturns(sys, t);
    VerdictIsBad(t);
  }

  ghost predicate TestFails(w: World, e: Error) {
    e.StepError? && e.key.stage == Test && e.key.order < |TestSteps(w)| && BadAnswer(w.steps(e.key), e.cause) && FailsAt(w, e.key)
  }

  /** A failing step of the batch from i to hi, all before which went well, is where the stage fails. */
  lemma FailsInBatch(w: World, i: nat, bad: nat)
    requires i <= bad < |TestSteps(w)| && CleanUpTo(w, Test, i) && !StepSucceeds(w, Key(Test, bad))
    requires if TestSteps(w)[i].parallel then bad < Batching.BatchEnd(TestSteps(w), i) else bad == i
    ensures FailsAt(w, Key(Test, bad))
  {
    hide StepSucceeds;
    var f := FirstFailure(w, i, bad);
    if TestSteps(w)[i].parallel { SameEnd(TestSteps(w), i, f); }
    assert f <= bad < CallsUpTo(TestSteps(w), f);
  }

  lemma BatchFails(w: World, sys: Sys, i: nat, e: Error)
    requires i < |TestSteps(w)| && TestSteps(w)[i].parallel && CleanUpTo(w, Test, i)
    requires Clear(w, sys, Test, i) && JobId(w, Test) in sys.jobs
    requires BatchMayReturn(w, sys, i, Batching.BatchEnd(TestSteps(w), i), e)
    ensures TestFails(w, e)
  {
    hide Alone, StepSucceeds, BadAnswer;
    var m: nat :| i + m < Batching.BatchEnd(TestSteps(w), i) && Alone(w, sys, i, m, Batching.GroupName(i)) == Some(e);
    AloneReturns(w, sys, i, m, Batching.GroupName(i), e);
    FailsInBatch(w, i, i + m);
  }

  lemma {:induction false} TestReturns(w: World, sys: Sys, i: nat)
    requires i <= |TestSteps(w)| && Clear(w, sys, Test, i) && JobId(w, Test) in sys.jobs && DistinctStepIds(w)
    requires CleanUpTo(w, Test, i)
    ensures var o := TestFrom(w, sys, i);
            && SameUpperRows(sys, o.sys)
            && (o.err.None? ==> CleanUpTo(w, Test, |TestSteps(w)|) && Clear(w, o.sys, Deploy, 0))
    ensures forall e :: TestMayReturn(w, sys, i, e) ==> TestFails(w, e)
    decreases |TestSteps(w)| - i
  {
    hide CallStep, BatchFrom, StepSucceeds, BadAnswer, BatchMayReturn;
    var steps := TestSteps(w);
    if i == |steps| {
      ClearLater(w, sys, Test, i);
    } else if !steps[i].parallel {
      TestSequential(w, sys, i);
      var o := CallStep(sys, TestTask(w, i, None));
      if o.err.None? { TestReturns(w, o.sys, i + 1); }
    } else {
      var hi := Batching.BatchEnd(steps, i);
      BatchReturns(w, sys, Batching.GroupName(i), i, hi);
      var o := BatchFrom(w, sys, Batching.GroupName(i), i, hi);
      if o.err.None? { TestReturns(w, o.sys, hi); }
      else {
        forall e | TestMayReturn(w, sys, i, e) ensures TestFails(w, e) { BatchFails(w, sys, i, e); }
      }
    }
  }

  lemma TestSequential(w: World, sys: Sys, i: nat)
    requires i < |TestSteps(w)| && !TestSteps(w)[i].parallel && CleanUpTo(w, Test, i)
    requires Clear(w, sys, Test, i) && JobId(w, Test) in sys.jobs && DistinctStepIds(w)
    ensures var o := CallStep(sys, TestTask(w, i, None));
            && Clear(w, o.sys, Test, i + 1) && SameUpperRows(sys, o.sys)
            && (o.err.None? ==> CleanUpTo(w, Test, i + 1)) && (o.err.Some? ==> TestFails(w, o.err.value))
  {
    hide CallStep, StepSucceeds, BadAnswer;
    CallReturns(w, sys, TestTask(w, i, None), i);
    if CallStep(sys, TestTask(w, i, None)).err.Some? { FailsInBatch(w, i, i); }
  }

  // ---------- The deploy stage ----------

  ghost predicate DeployFails(w: World, e: Error) {
    match e
    case ListRefused => !w.listOk
    case NoArtifact => w.listOk && !exists p, q :: Wanted(w, p, q)
    case StepError(k, c) => k == Key(Deploy, 0) && BadAnswer(w.steps(k), c) && FailsAt(w, k)
    case _ => false
  }

  lemma DeployReturns(w: World, sys0: Sys, sys: Sys, buildJob: Id)
    requires FreshIds(w, sys0) && SoundTables(sys0) && SoundListing(w) && Configured(w, Deploy)
    requires Clear(w, sys, Deploy, 0) && JobId(w, Deploy) in sys.jobs
    requires sys.arts == Registered(w, sys0.arts, |BuildSteps(w)|, 0)
    requires buildJob == if Configured(w, Build) then JobId(w, Build) else ZERO_ID
    ensures var o := DeployStage(w, sys, buildJob);
            && o.sys.jobs == sys.jobs && o.sys.runs == sys.runs
            && (o.err.None? ==> StepSucceeds(w, Key(Deploy, 0)) && w.listOk && exists p, q :: Wanted(w, p, q))
            && (o.err.Some? ==> DeployFails(w, o.err.value))
  {
    hide CallStep, StepSucceeds, BadAnswer, Registered, DeployCommand;
    FoundIsWanted(w, sys0, sys.arts, buildJob);
    var cfg := w.cfg.deploy.value;
    var ids := w.listing(sys.arts, buildJob);
    var k := FirstOfType(sys.arts, ids, cfg.artifact);
    if w.listOk && k < |ids| { CallReturns(w, sys, DeployTask(w, cfg, sys.arts[ids[k]].path), 0); }
  }

  // ---------- Stages ----------

  /** What holds when the stages before `st` went well and it is next. */
  ghost predicate Ready(w: World, sys0: Sys, sys: Sys, st: Stage, buildJob: Id) {
    && w.run in sys.runs && Clear(w, sys, st, 0) && (forall x :: StageRank(x) >= StageRank(st) ==> JobId(w, x) !in sys.jobs)
    && sys.arts == Registered(w, sys0.arts, if st == Build then 0 else |BuildSteps(w)|, 0)
    && buildJob == (if st != Build && Configured(w, Build) then JobId(w, Build) else ZERO_ID)
    && EarlierClean(w, st)
  }

  /** What the body of the stage may fail with. */
  ghost predicate BodyFails(w: World, st: Stage, e: Error) {
    match st
    case Build => BuildFails(w, e)
    case Test => TestFails(w, e)
    case Deploy => DeployFails(w, e)
  }

  lemma BodyReturns(w: World, sys0: Sys, sys: Sys, st: Stage, buildJob: Id)
    requires FreshIds(w, sys0) && SoundTables(sys0) && SoundListing(w) && JobGood(w, st)
    requires Clear(w, sys, st, 0) && JobId(w, st) in sys.jobs
    requires sys.arts == Registered(w, sys0.arts, if st == Build then 0 else |BuildSteps(w)|, 0)
    requires buildJob == if st != Build && Configured(w, Build) then JobId(w, Build) else ZERO_ID
    ensures var o := StageBody(w, sys, st, buildJob);
            && o.sys.jobs == sys.jobs && o.sys.runs == sys.runs
            && (o.err.None? ==> StageClean(w, st) && (st != Deploy ==> Moved(w, sys0, o.sys, st)))
    ensures forall e :: BodyMayReturn(w, sys, st, buildJob, e) ==> BodyFails(w, st, e)
  {
    hide BuildFrom, TestFrom, DeployStage, TestMayReturn, Registered, StepSucceeds, BuildFails, TestFails, DeployFails;
    match st
    case Build => BuildReturns(w, sys0, sys, 0);
    case Test => TestReturns(w, sys, 0);
    case Deploy => DeployReturns(w, sys0, sys, buildJob);
  }

  /** The tables after a stage that went well: everything built is registered, and the next stage's steps are clear. */
  ghost predicate Moved(w: World, sys0: Sys, sys: Sys, st: Stage) {
    && sys.arts == Registered(w, sys0.arts, |BuildSteps(w)|, 0)
    && Clear(w, sys, if st == Build then Test else Deploy, 0)
  }

  lemma BodyCauses(w: World, sys0: Sys, st: Stage, e: Error)
    requires w.run in sys0.runs && w.start.ok && JobGood(w, st) && EarlierClean(w, st) && BodyFails(w, st, e)
    ensures Caused(w, sys0, e)
  {
    hide BadAnswer, FailsAt, StageClean;
  }

  function NextOf(st: Stage): Stage { if st == Build then Test else Deploy }

  lemma StageReturns(w: World, sys0: Sys, sys: Sys, st: Stage, buildJob: Id)
    requires FreshIds(w, sys0) && SoundTables(sys0) && SoundListing(w) && w.run in sys0.runs && w.start.ok
    requires Configured(w, st) && Ready(w, sys0, sys, st, buildJob)
    ensures var o := RunStage(w, sys, st, buildJob);
            o.err.None? ==>
              && StageClean(w, st)
              && (st != Deploy ==> Ready(w, sys0, o.sys, NextOf(st), if st == Build then JobId(w, Build) else buildJob))
    ensures forall e :: StageMayReturn(w, sys, st, buildJob, e) ==> Caused(w, sys0, e)
  {
    hide StageBody, BodyMayReturn, BodyFails, Registered, StageClean, Caused, Clear;
    var a := w.jobs(st);
    var c := CreateJob(w, sys, st);
    assert c.ok <==> a.create.ok;
    if !a.create.ok { CreateCauses(w, sys0, st); }
    else {
      var one := sys.(jobs := c.rows);
      var s := StartJob(w, one, st);
      assert s.ok <==> a.start.ok;
      if !a.start.ok { StartCauses(w, sys0, st); }
      else {
        var two := one.(jobs := s.rows);
        SameClear(w, sys, two, st, 0);
        BodyReturns(w, sys0, two, st, buildJob);
        forall e | BodyMayReturn(w, two, st, buildJob, e) ensures Caused(w, sys0, e) { BodyCauses(w, sys0, st, e); }
        var o := StageBody(w, two, st, buildJob);
        if o.err.None? && st != Deploy { ReadyNext(w, sys0, sys, two, o.sys, st, buildJob); }
      }
    }
  }

  lemma SameClear(w: World, a: Sys, b: Sys, st: Stage, i: nat)
    requires Clear(w, a, st, i) && b.steps == a.steps && b.execs == a.execs
    ensures Clear(w, b, st, i)
  {
  }

  lemma CreateCauses(w: World, sys0: Sys, st: Stage)
    requires w.run in sys0.runs && w.start.ok && Configured(w, st) && EarlierClean(w, st) && !w.jobs(st).create.ok
    ensures Caused(w, sys0, JobCreateRefused(st))
  {
    hide StageClean;
  }

  lemma StartCauses(w: World, sys0: Sys, st: Stage)
    requires w.run in sys0.runs && w.start.ok && Configured(w, st) && EarlierClean(w, st)
    requires w.jobs(st).create.ok && !w.jobs(st).start.ok
    ensures Caused(w, sys0, JobStartRefused(st))
  {
    hide StageClean;
  }

  /** The tables after the job's final write are ready for the next stage. */
  lemma ReadyNext(w: World, sys0: Sys, sys: Sys, two: Sys, done: Sys, st: Stage, buildJob: Id)
    requires FreshIds(w, sys0) && Ready(w, sys0, sys, st, buildJob) && Configured(w, st) && StageClean(w, st) && st != Deploy
    requires two.jobs.Keys == sys.jobs.Keys + {JobId(w, st)} && done.jobs == two.jobs && done.runs == sys.runs
    requires Moved(w, sys0, done, st)
    ensures Ready(w, sys0, FinalJob(w, done, st, None), NextOf(st), if st == Build then JobId(w, Build) else buildJob)
  {
    hide Registered, StageClean, Clear;
    SameClear(w, done, FinalJob(w, done, st, None), NextOf(st), 0);
    CleanNext(w, st);
  }

  lemma CleanNext(w: World, st: Stage)
    requires EarlierClean(w, st) && StageClean(w, st) && st != Deploy
    ensures EarlierClean(w, NextOf(st))
  {
    hide StageClean;
    forall x | StageRank(x) < StageRank(NextOf(st)) ensures StageClean(w, x) {
      assert x == st || StageRank(x) < StageRank(st);
    }
  }

  /** A stage that is not configured leaves everything ready for the next. */
  lemma ReadySkipped(w: World, sys0: Sys, sys: Sys, st: Stage, buildJob: Id)
    requires Ready(w, sys0, sys, st, buildJob) && !Configured(w, st) && st != Deploy
    ensures Ready(w, sys0, sys, NextOf(st), buildJob)
  {
    hide Registered;
    assert StageClean(w, st);
    CleanNext(w, st);
    ClearLater(w, sys, st, 0);
  }

  lemma {:induction false} StagesReturn(w: World, sys0: Sys, sys: Sys, st: Stage, buildJob: Id)
    requires FreshIds(w, sys0) && SoundTables(sys0) && SoundListing(w) && w.run in sys0.runs && w.start.ok
    requires Ready(w, sys0, sys, st, buildJob)
    ensures StagesFrom(w, sys, st, buildJob).err.None? ==> forall x :: StageClean(w, x)
    ensures forall e :: StagesMayReturn(w, sys, st, buildJob, e) ==> Caused(w, sys0, e)
    decreases 3 - StageRank(st)
  {
    hide RunStage, StageMayReturn, Caused, Ready, StageClean;
    if Configured(w, st) {
      StageReturns(w, sys0, sys, st, buildJob);
      var o := RunStage(w, sys, st, buildJob);
      if o.err.None? {
        if st == Deploy { LastClean(w, sys0, sys, buildJob); }
        else { StagesReturn(w, sys0, o.sys, NextOf(st), if st == Build then JobId(w, Build) else buildJob); }
      }
    } else if st == Deploy {
      Unconfigured(w, Deploy);
      LastClean(w, sys0, sys, buildJob);
    } else {
      ReadySkipped(w, sys0, sys, st, buildJob);
      StagesReturn(w, sys0, sys, NextOf(st), buildJob);
    }
  }

  lemma Unconfigured(w: World, st: Stage)
    requires !Configured(w, st)
    ensures StageClean(w, st)
  {
  }

  lemma LastClean(w: World, sys0: Sys, sys: Sys, buildJob: Id)
    requires Ready(w, sys0, sys, Deploy, buildJob) && StageClean(w, Deploy)
    ensures forall x :: StageClean(w, x)
  {
    hide StageClean;
    forall x ensures StageClean(w, x) { assert x == Deploy || StageRank(x) < StageRank(Deploy); }
  }

  // ---------- The run ----------

  lemma AllCleanIsGood(w: World, sys0: Sys)
    requires w.run in sys0.runs && w.start.ok && forall x :: StageClean(w, x)
    ensures AllGood(w, sys0)
  {
    forall st | Configured(w, st) ensures w.jobs(st).create.ok && w.jobs(st).start.ok { assert StageClean(w, st); }
    forall k: Key | k.order < Planned(w, k.stage) ensures StepSucceeds(w, k) {
      assert StageClean(w, k.stage) && Configured(w, k.stage) && k == Key(k.stage, k.order);
    }
    forall i, j | IsOutput(w, i, j) ensures w.artifacts(i, j).create.ok {
      assert StageClean(w, Build) && Configured(w, Build) && OutputBefore(w, i, j, |BuildSteps(w)|, 0);
    }
    assert StageClean(w, Deploy);
  }

  /** The sequential program, and every run that agrees with it up to the choice of a batch's error, returns what the answers cause. */
  lemma RunReturns(w: World, sys0: Sys, cancelled: bool)
    requires FreshIds(w, sys0) && SoundTables(sys0) && SoundListing(w)
    ensures Run(w, sys0, cancelled).err.None? ==> AllGood(w, sys0)
    ensures forall e :: RunMayReturn(w, sys0, e) ==> Caused(w, sys0, e)
  {
    hide StagesFrom, StagesMayReturn, StageClean, AllGood;
    var s := StartRun(w, sys0);
    if s.ok {
      var sys := sys0.(runs := s.rows);
      assert Ready(w, sys0, sys, Build, ZERO_ID);
      StagesReturn(w, sys0, sys, Build, ZERO_ID);
      if Run(w, sys0, cancelled).err.None? { AllCleanIsGood(w, sys0); }
    }
  }

  // ---------- The causes exclude one another ----------

  /** Two steps that are the same, or members of the same parallel batch. */
  predicate SameBatchOrStep(w: World, k: Key, l: Key) {
    || k == l
    || (k.stage == Test && l.stage == Test && k.order < |TestSteps(w)| && l.order < |TestSteps(w)|
        && Batching.GroupOf(TestSteps(w), k.order).Some?
        && Batching.GroupOf(TestSteps(w), k.order) == Batching.GroupOf(TestSteps(w), l.order))
  }

  lemma OneBadAnswer(sc: StepScript, c: Cause, d: Cause)
    requires BadAnswer(sc, c) && BadAnswer(sc, d)
    ensures c == d && !ScriptSucceeds(sc)
  {
    if FirstDecisive(sc.polls, 0) < |sc.polls| { assert Decisive(sc.polls[FirstDecisive(sc.polls, 0)]); }
  }

  /** Two places where a stage fails lie in the same batch. */
  lemma FailsOnce(w: World, k: Key, l: Key)
    requires FailsAt(w, k) && FailsAt(w, l) && k.stage == l.stage && !StepSucceeds(w, k) && !StepSucceeds(w, l)
    requires k.order < Planned(w, k.stage) && l.order < Planned(w, k.stage)
    ensures SameBatchOrStep(w, k, l)
  {
    hide StepSucceeds;
    match k.stage
    case Build => assert k == Key(Build, k.order) && l == Key(Build, l.order);
    case Deploy =>
    case Test =>
      var f: nat :| f < |TestSteps(w)| && CleanUpTo(w, Test, f) && !StepSucceeds(w, Key(Test, f))
                    && f <= k.order < CallsUpTo(TestSteps(w), f);
      var g: nat :| g < |TestSteps(w)| && CleanUpTo(w, Test, g) && !StepSucceeds(w, Key(Test, g))
                    && g <= l.order < CallsUpTo(TestSteps(w), g);
      assert f == g;
      if TestSteps(w)[f].parallel {
        Batching.GroupsAreParallelStretches(TestSteps(w), f, k.order);
        Batching.GroupsAreParallelStretches(TestSteps(w), f, l.order);
      }
  }

  /** A stage in which something goes wrong is not clean. */
  lemma CausedNotClean(w: World, sys0: Sys, e: Error)
    requires Caused(w, sys0, e) && e != RunStartRefused
    ensures !StageClean(w, ErrStage(e))
  {
    if e.StepError? {
      OneBadAnswer(w.steps(e.key), e.cause, e.cause);
      assert !StepSucceeds(w, e.key) && e.key == Key(e.key.stage, e.key.order);
    } else if e.RegisterRefused? {
      assert OutputBefore(w, e.step, e.output, |BuildSteps(w)|, 0);
    }
  }

  /** Refusals of different outputs, or of an output and a step, exclude one another. */
  lemma BuildFailsOnce(w: World, sys0: Sys, e: Error, f: Error)
    requires Caused(w, sys0, e) && Caused(w, sys0, f) && e.RegisterRefused? && ErrStage(f) == Build && f != RunStartRefused
    ensures e == f
  {
    match f
    case RegisterRefused(i, j) =>
      assert OutputBefore(w, i, j, e.step, e.output) || OutputBefore(w, e.step, e.output, i, j) || e == f;
    case StepError(k, c) =>
      OneBadAnswer(w.steps(k), c, c);
    case _ =>
  }

  /**
   The answers leave no choice of the error but the one the scheduler has: two errors that they cause are equal, or
   are those of failing steps of one parallel batch. And no error is caused where every answer is good.
   */
  lemma CauseIsUnique(w: World, sys0: Sys, e: Error, f: Error)
    requires Caused(w, sys0, e) && Caused(w, sys0, f)
    ensures e == f || (e.StepError? && f.StepError? && SameBatchOrStep(w, e.key, f.key))
    ensures e.StepError? && f.StepError? && e.key == f.key ==> e == f
    ensures !AllGood(w, sys0)
  {
    if e == RunStartRefused || f == RunStartRefused {
    } else {
      CausedNotClean(w, sys0, e);
      CausedNotClean(w, sys0, f);
      GoodIsClean(w, sys0, ErrStage(e));
      assert ErrStage(e) == ErrStage(f) by { hide StageClean; assert StageRank(ErrStage(e)) == StageRank(ErrStage(f)); }
      SameStageCauses(w, sys0, e, f);
    }
  }

  lemma GoodIsClean(w: World, sys0: Sys, st: Stage)
    ensures AllGood(w, sys0) ==> StageClean(w, st)
  {
    if AllGood(w, sys0) {
      forall i: nat | i < Planned(w, st) ensures StepSucceeds(w, Key(st, i)) { assert Key(st, i).order < Planned(w, Key(st, i).stage); }
    }
  }

  lemma SameStageCauses(w: World, sys0: Sys, e: Error, f: Error)
    requires Caused(w, sys0, e) && Caused(w, sys0, f) && e != RunStartRefused && f != RunStartRefused && ErrStage(e) == ErrStage(f)
    ensures e == f || (e.StepError? && f.StepError? && SameBatchOrStep(w, e.key, f.key))
    ensures e.StepError? && f.StepError? && e.key == f.key ==> e == f
  {
    hide SameBatchOrStep, StageClean;
    if e.StepError? { OneBadAnswer(w.steps(e.key), e.cause, e.cause); }
    if f.StepError? { OneBadAnswer(w.steps(f.key), f.cause, f.cause); }
    if e.RegisterRefused? { BuildFailsOnce(w, sys0, e, f); }
    else if f.RegisterRefused? { BuildFailsOnce(w, sys0, f, e); }
    else if e.StepError? && f.StepError? {
      if e.key == f.key { OneBadAnswer(w.steps(e.key), e.cause, f.cause); }
      FailsOnce(w, e.key, f.key);
    }
  }

  // ---------- Every halted run ----------

  /** The step whose error the run ended in, and its first bad answer. */
  lemma StoppedVerdict(w: World, s: State, e: Error) returns (k: nat)
    requires WellShaped(w, s) && StepTables(w, s) && s.ctl == Halted(Some(e)) && e.StepError?
    ensures k < |s.threads| && s.threads[k].task.inv.key == e.key && BadAnswer(w.steps(e.key), e.cause)
  {
    hide Slot, TaskOk, BadAnswer, Verdict, LastCalls;
    var st :| Stopped(w, s, st, e);
    var n: nat, lo: nat :| StoppedAt(w, s, st, n, lo, e);
    k :| lo <= k < |s.threads| && Result(s.threads[k]) == Some(e);
    assert Path(s.threads[k]);
    VerdictIsBad(s.threads[k].task);
    ScriptIs(w, s, k);
  }

  lemma ScriptIs(w: World, s: State, k: nat)
    requires Layout(w, s) && k < |s.threads|
    ensures s.threads[k].task.script == w.steps(s.threads[k].task.inv.key)
  {
    assert TaskOk(w, s.threads[k].task);
  }

  lemma HaltedEarlierClean(w: World, s: State, e: Error)
    requires FailedPrefix(w, s, e) && FailedRows(w, s, e) && e != RunStartRefused
    ensures EarlierClean(w, ErrStage(e))
    ensures Configured(w, ErrStage(e)) && !e.JobCreateRefused? && !e.JobStartRefused? ==> JobGood(w, ErrStage(e))
  {
    hide StepSucceeds, RegisteredWell, JobStatus;
    forall x | StageRank(x) < StageRank(ErrStage(e)) ensures StageClean(w, x) {
      assert JobAnswers(w, x, EndPhase(Some(e), x));
      assert CleanUpTo(w, x, Planned(w, x));
    }
    assert JobAnswers(w, ErrStage(e), EndPhase(Some(e), ErrStage(e)));
  }

  lemma HaltedFailsAt(w: World, sys0: Sys, s: State, e: Error, k: nat)
    requires FreshIds(w, sys0) && SoundTables(sys0) && SoundListing(w) && Inv(w, sys0, s)
    requires FailedPrefix(w, s, e) && FailedRows(w, s, e) && e.StepError?
    requires k < |s.threads| && s.threads[k].task.inv.key == e.key
    ensures FailsAt(w, e.key)
  {
    hide Slot, Path, TaskOk, StepSucceeds, RegisteredWell, JobStatus, StepTables, Layout;
    if e.key.stage == Deploy {
      var p, q, m := ChosenIsOwn(w, sys0, s, k);
      assert DeployChoice(w, s, s.threads[k].task);
    }
  }

  /** Every halted run, whatever the schedule, returns nothing if all answers were good, else an error that they cause. */
  lemma HaltedReturns(w: World, sys0: Sys, schedule: seq<Action>)
    requires FreshIds(w, sys0) && SoundTables(sys0) && SoundListing(w) && After(w, sys0, schedule).ctl.Halted?
    ensures Returned(w, sys0, After(w, sys0, schedule).ctl.err)
  {
    hide Inv, AllGood, Caused, FailedPrefix, FailedRows, After;
    var s := After(w, sys0, schedule);
    ErrorFree(w, sys0, schedule);
    if s.ctl.err.Some? {
      Always(w, sys0, schedule);
      if s.ctl.err == Some(RunStartRefused) { StartCaused(w, sys0, s); }
      else {
        FailurePrefix(w, sys0, schedule);
        HaltedCaused(w, sys0, s, s.ctl.err.value);
      }
    }
  }

  lemma StartCaused(w: World, sys0: Sys, s: State)
    requires Inv(w, sys0, s) && s.ctl == Halted(Some(RunStartRefused))
    ensures Caused(w, sys0, RunStartRefused)
  {
    hide WellShaped, StepTables, JobTable;
  }

  lemma RunStarted(w: World, sys0: Sys, s: State)
    requires RunTable(w, sys0, s) && !s.ctl.Starting? && s.ctl != Halted(Some(RunStartRefused))
    ensures w.run in sys0.runs && w.start.ok
  {
  }

  lemma HaltedCaused(w: World, sys0: Sys, s: State, e: Error)
    requires FreshIds(w, sys0) && SoundTables(sys0) && SoundListing(w) && Inv(w, sys0, s)
    requires s.ctl == Halted(Some(e)) && e != RunStartRefused && FailedPrefix(w, s, e) && FailedRows(w, s, e)
    ensures Caused(w, sys0, e)
  {
    hide Slot, Path, StepSucceeds, RegisteredWell, JobStatus, StepTables, JobTable, WellShaped, BadAnswer, FailsAt, EarlierClean,
         LedgerOk, NoneListed;
    RunStarted(w, sys0, s);
    var st := EndedStage(w, s, e);
    HaltedEarlierClean(w, s, e);
    if e.StepError? {
      var k := StoppedVerdict(w, s, e);
      HaltedFailsAt(w, sys0, s, e, k);
    }
    if e == NoArtifact { NothingWanted(w, sys0, s); }
  }
}
