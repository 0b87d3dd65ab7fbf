/** The run row and the job rows in every reachable state. */
module Hierarchy {
  import opened Wrappers
  import opened States
  import opened Rows
  import opened Config
  import opened Executor
  import opened Steps
  import opened Pipeline
  import opened Interleaving
  import opened Reference
  import opened Engine
  import opened Shape
  import opened StepRows
  import opened Tables

  // ---------- The stage an error belongs to ----------

  function ErrStage(e: Error): Stage {
    match e
    case RunStartRefused => Build
    case JobCreateRefused(st) => st
    case JobStartRefused(st) => st
    case StepError(k, _) => k.stage
    case RegisterRefused(_, _) => Build
    case ListRefused => Deploy
    case NoArtifact => Deploy
  }

  /** Errors that the body of a stage returns, after its job was started. */
  predicate BodyError(st: Stage, e: Error) {
    ErrStage(e) == st && !e.RunStartRefused? && !e.JobCreateRefused? && !e.JobStartRefused?
  }

  ghost predicate ErrorsAtHome(s: State) {
    s.ctl.JobFinal? && s.ctl.err.Some? ==> BodyError(s.ctl.stage, s.ctl.err.value)
  }

  lemma ThreadErrorHome(w: World, s: State, k: nat, e: Error)
    requires Layout(w, s) && StepTables(w, s) && k < |s.threads| && Returned(s.threads[k]) && Result(s.threads[k]) == Some(e)
    ensures e.StepError? && e.key == s.threads[k].task.inv.key
  {
    assert Path(s.threads[k]);
  }

  /** Inside the body of a stage. */
  predicate InBodyCtl(c: Ctl) { c.AtStep? || c.Inline? || c.Spawning? || c.Joining? || c.Registering? }

  lemma MainErrors(w: World, s: State)
    requires WellShaped(w, s) && StepTables(w, s) && MainEnabled(s)
    ensures ErrorsAtHome(MainStep(w, s))
  {
    if InBodyCtl(s.ctl) { BodyErrors(w, s); } else { RowWritesErrors(w, s); }
  }

  lemma RowWritesErrors(w: World, s: State)
    requires Placed(w, s.ctl) && MainEnabled(s) && !InBodyCtl(s.ctl)
    ensures ErrorsAtHome(MainStep(w, s))
  {
    match s.ctl
    case Starting =>
    case Considering(st) =>
    case JobCreated(st) =>
    case JobFinal(st, err) =>
    case Choosing(err) =>
    case RunFinalWrite(err, _) =>
  }

  lemma BodyErrors(w: World, s: State)
    requires WellShaped(w, s) && StepTables(w, s) && MainEnabled(s) && InBodyCtl(s.ctl)
    ensures ErrorsAtHome(MainStep(w, s))
  {
    match s.ctl
    case AtStep(st, i) => StepTopErrors(w, s, st, i);
    case Inline(st, i) => InlineErrors(w, s, st, i);
    case Spawning(i, hi) =>
    case Joining(i, hi) => JoinErrors(w, s, i, hi);
    case Registering(i, j) =>
  }

  lemma StepTopErrors(w: World, s: State, st: Stage, i: nat)
    requires Placed(w, AtStep(st, i))
    ensures ErrorsAtHome(StepTop(w, s, st, i))
  {
  }

  lemma InlineErrors(w: World, s: State, st: Stage, i: nat)
    requires Layout(w, s) && Progress(w, s) && StepTables(w, s) && s.ctl == Inline(st, i) && MainEnabled(s)
    ensures ErrorsAtHome(CallReturns(s, st, i))
  {
    InlineError(w, s, st, i);
    ReturnsHome(s, st, i);
  }

  lemma ReturnsHome(s: State, st: Stage, i: nat)
    requires s.ctl == Inline(st, i) && MainEnabled(s) && s.base == |s.threads| - 1
    requires var err := s.threads[s.base].pc.err; err.Some? ==> err.value.StepError? && err.value.key == Key(st, i)
    ensures ErrorsAtHome(CallReturns(s, st, i))
  {
  }

  lemma InlineKey(w: World, s: State, st: Stage, i: nat)
    requires Layout(w, s) && s.ctl == Inline(st, i) && CountsAt(w, s.made, st, i + 1) && s.base == |s.threads| - 1
    ensures s.threads[s.base].task.inv.key == Key(st, i)
  {
    assert s.threads[s.base].task.inv.key == KeyAt(s.made, s.base);
  }

  lemma InlineError(w: World, s: State, st: Stage, i: nat)
    requires Layout(w, s) && Progress(w, s) && StepTables(w, s) && s.ctl == Inline(st, i) && MainEnabled(s)
    ensures s.base == |s.threads| - 1
    ensures var err := s.threads[s.base].pc.err; err.Some? ==> err.value.StepError? && err.value.key == Key(st, i)
  {
    InlineKey(w, s, st, i);
    var err := s.threads[s.base].pc.err;
    if err.Some? { ThreadErrorHome(w, s, s.base, err.value); }
  }

  lemma JoinErrors(w: World, s: State, i: nat, hi: nat)
    requires Layout(w, s) && Progress(w, s) && Waiting(s) && StepTables(w, s) && s.ctl == Joining(i, hi)
    ensures ErrorsAtHome(Release(s, hi))
  {
    hide Slot, Path, TaskOk;
    if s.errs != [] {
      var k := Reporter(s, s.errs[0]);
      ThreadErrorHome(w, s, k, s.errs[0]);
      BatchKey(w, s, i, hi, k);
    }
  }

  lemma BatchKey(w: World, s: State, i: nat, hi: nat, k: nat)
    requires Layout(w, s) && Progress(w, s) && s.ctl == Joining(i, hi) && s.base <= k < |s.threads|
    ensures s.threads[k].task.inv.key.stage == Test
  {
    assert s.threads[k].task.inv.key == KeyAt(s.made, k);
  }

  // ---------- The run row ----------

  /** The runs table as a function of the orchestrator's position. */
  function RunsAt(w: World, sys0: Sys, s: State): map<Id, RunRow> {
    var started := StartRun(w, sys0);
    match s.ctl
    case Starting => sys0.runs
    case Halted(err) =>
      if err == Some(RunStartRefused) then sys0.runs
      else UpdateStatus(started.rows, w.run, RunFinal(s.seen, err.Some?), w.final).rows
    case _ => started.rows
  }

  ghost predicate RunTable(w: World, sys0: Sys, s: State) {
    && s.sys.runs == RunsAt(w, sys0, s)
    && (!s.ctl.Starting? && s.ctl != Halted(Some(RunStartRefused)) ==> StartRun(w, sys0).ok)
    && (s.ctl.RunFinalWrite? ==> s.ctl.final == RunFinal(s.seen, s.ctl.err.Some?))
    && (s.ctl == Halted(Some(RunStartRefused)) ==> !StartRun(w, sys0).ok)
    && ((s.ctl.Choosing? || s.ctl.RunFinalWrite?) ==> s.ctl.err != Some(RunStartRefused))
  }

  /** Between its first and its last write the orchestrator leaves the runs table alone. */
  lemma MidRunKeeps(w: World, s: State)
    requires Placed(w, s.ctl) && MainEnabled(s) && ErrorsAtHome(s)
    requires !s.ctl.Starting? && !s.ctl.Choosing? && !s.ctl.RunFinalWrite?
    ensures var s' := MainStep(w, s);
            && s'.sys.runs == s.sys.runs && !s'.ctl.Starting? && !s'.ctl.Halted? && !s'.ctl.RunFinalWrite?
            && (s'.ctl.Choosing? ==> s'.ctl.err != Some(RunStartRefused))
  {
    hide MainStep;
    if InBodyCtl(s.ctl) { BodyKeepsRuns(w, s); } else { JobWritesKeepRuns(w, s); }
  }

  lemma BodyKeepsRuns(w: World, s: State)
    requires Placed(w, s.ctl) && MainEnabled(s) && InBodyCtl(s.ctl)
    ensures var s' := MainStep(w, s);
            s'.sys.runs == s.sys.runs && !s'.ctl.Starting? && !s'.ctl.Halted? && !s'.ctl.RunFinalWrite? && !s'.ctl.Choosing?
  {
    hide RegisterOne, TestTask;
    match s.ctl
    case AtStep(st, i) => StepTopRuns(w, s, st, i);
    case Inline(st, i) =>
    case Spawning(i, hi) =>
    case Joining(i, hi) =>
    case Registering(i, j) =>
  }

  lemma JobWritesKeepRuns(w: World, s: State)
    requires Placed(w, s.ctl) && ErrorsAtHome(s) && (s.ctl.Considering? || s.ctl.JobCreated? || s.ctl.JobFinal?)
    ensures var s' := MainStep(w, s);
            && s'.sys.runs == s.sys.runs && !s'.ctl.Starting? && !s'.ctl.Halted? && !s'.ctl.RunFinalWrite?
            && (s'.ctl.Choosing? ==> s'.ctl.err != Some(RunStartRefused))
  {
    hide UpdateStatus, Insert;
    match s.ctl
    case Considering(st) =>
    case JobCreated(st) =>
    case JobFinal(st, err) =>
  }

  lemma MainRunTable(w: World, sys0: Sys, s: State)
    requires Placed(w, s.ctl) && MainEnabled(s) && RunTable(w, sys0, s) && ErrorsAtHome(s)
    ensures RunTable(w, sys0, MainStep(w, s))
  {
    if !s.ctl.Starting? && !s.ctl.Choosing? && !s.ctl.RunFinalWrite? {
      MidRunKeeps(w, s);
      MidRun(w, sys0, s, MainStep(w, s));
    }
  }

  lemma MidRun(w: World, sys0: Sys, s: State, s': State)
    requires RunTable(w, sys0, s) && !s.ctl.Starting? && !s.ctl.Halted? && !s.ctl.RunFinalWrite?
    requires s'.sys.runs == s.sys.runs && !s'.ctl.Starting? && !s'.ctl.Halted? && !s'.ctl.RunFinalWrite?
    requires s'.ctl.Choosing? ==> s'.ctl.err != Some(RunStartRefused)
    ensures RunTable(w, sys0, s')
  {
  }

  /** The two states differ in nothing that is said of the orchestrator's own rows and variables. */
  predicate SameRows(s: State, s': State) {
    s'.sys.runs == s.sys.runs && s'.sys.jobs == s.sys.jobs && s'.sys.arts == s.sys.arts && s'.buildJob == s.buildJob
    && s'.seen == s.seen && s'.cancelled == s.cancelled
  }

  predicate AfterTop(c: Ctl, st: Stage) {
    (c.JobFinal? && c.stage == st) || (c.Inline? && c.stage == st) || (c.Spawning? && st == Test)
  }

  lemma CallRows(s: State, t: Task, c: Ctl)
    ensures SameRows(s, CallFrom(s, t, c)) && CallFrom(s, t, c).ctl == c
  {
  }

  lemma StepTopRuns(w: World, s: State, st: Stage, i: nat)
    requires Placed(w, AtStep(st, i))
    ensures SameRows(s, StepTop(w, s, st, i)) && AfterTop(StepTop(w, s, st, i).ctl, st)
  {
    match st
    case Build => if i < |BuildSteps(w)| { CallRows(s, BuildTask(w, i), Inline(Build, i)); }
    case Test =>
      if i < |TestSteps(w)| && !TestSteps(w)[i].parallel { CallRows(s, TestTask(w, i, None), Inline(Test, i)); }
    case Deploy => StepTopRunsDeploy(w, s);
  }

  lemma StepTopRunsDeploy(w: World, s: State)
    requires Placed(w, AtStep(Deploy, 0))
    ensures SameRows(s, StepTop(w, s, Deploy, 0)) && AfterTop(StepTop(w, s, Deploy, 0).ctl, Deploy)
  {
    var cfg := w.cfg.deploy.value;
    var ids := w.listing(s.sys.arts, s.buildJob);
    var k := FirstOfType(s.sys.arts, ids, cfg.artifact);
    if w.listOk && k < |ids| { CallRows(s, DeployTask(w, cfg, s.sys.arts[ids[k]].path), Inline(Deploy, 0)); }
  }

  /** What the switch read stays unread before it, and was true of the context when read. */
  ghost predicate SeenOk(s: State) {
    if s.ctl.RunFinalWrite? || s.ctl.Halted? then s.seen ==> s.cancelled else !s.seen
  }

  // ---------- The job rows ----------

  /** How far a stage has come. */
  datatype Phase = NotYet | Created | InBody | Over | FailedBy(err: Error)

  function Relative(x: Stage, here: Phase, st: Stage): Phase {
    if st == x then here else if StageRank(st) < StageRank(x) then Over else NotYet
  }

  function EndPhase(err: Option<Error>, st: Stage): Phase {
    if err.None? then Over else if err == Some(RunStartRefused) then NotYet
    else Relative(ErrStage(err.value), FailedBy(err.value), st)
  }

  function PhaseOf(c: Ctl, st: Stage): Phase {
    match c
    case Starting => NotYet
    case Considering(x) => Relative(x, NotYet, st)
    case JobCreated(x) => Relative(x, Created, st)
    case AtStep(x, _) => Relative(x, InBody, st)
    case Inline(x, _) => Relative(x, InBody, st)
    case Spawning(_, _) => Relative(Test, InBody, st)
    case Joining(_, _) => Relative(Test, InBody, st)
    case Registering(_, _) => Relative(Build, InBody, st)
    case JobFinal(x, _) => Relative(x, InBody, st)
    case Choosing(err) => EndPhase(err, st)
    case RunFinalWrite(err, _) => EndPhase(err, st)
    case Halted(err) => EndPhase(err, st)
  }

  function StartedJobRow(w: World, st: Stage): JobRow {
    Row(NewJobRow(w, st).info, Touch(NewJobRow(w, st).life, Running, w.jobs(st).start.now))
  }

  /** The row of a job whose body ended: finalised, unless the finalising write was refused. */
  function EndedJobRow(w: World, st: Stage, err: Option<Error>): JobRow {
    if w.jobs(st).final.ok
    then Row(NewJobRow(w, st).info, Touch(StartedJobRow(w, st).life, StepFinal(err), w.jobs(st).final.now))
    else StartedJobRow(w, st)
  }

  predicate HasJob(w: World, sys: Sys, st: Stage, row: JobRow) {
    JobId(w, st) in sys.jobs && sys.jobs[JobId(w, st)] == row
  }

  predicate JobOk(w: World, sys: Sys, st: Stage, p: Phase) {
    match p
    case NotYet => JobId(w, st) !in sys.jobs
    case Created => HasJob(w, sys, st, NewJobRow(w, st))
    case InBody => HasJob(w, sys, st, StartedJobRow(w, st))
    case Over => if Configured(w, st) then HasJob(w, sys, st, EndedJobRow(w, st, None)) else JobId(w, st) !in sys.jobs
    case FailedBy(e) =>
      if e.JobCreateRefused? then JobId(w, st) !in sys.jobs
      else if e.JobStartRefused? then HasJob(w, sys, st, NewJobRow(w, st))
      else HasJob(w, sys, st, EndedJobRow(w, st, Some(e)))
  }

  ghost predicate JobTable(w: World, s: State) {
    forall st :: JobOk(w, s.sys, st, PhaseOf(s.ctl, st))
  }

  /** Where neither the jobs table nor the stages' phases change, nothing is to be shown. */
  lemma SameJobs(w: World, s: State, s': State)
    requires JobTable(w, s) && s'.sys.jobs == s.sys.jobs
    requires forall st :: PhaseOf(s'.ctl, st) == PhaseOf(s.ctl, st)
    ensures JobTable(w, s')
  {
  }

  /** A write to the row of stage `x` only. */
  lemma OneJobWritten(w: World, sys0: Sys, s: State, s': State, x: Stage)
    requires FreshIds(w, sys0) && JobTable(w, s)
    requires s'.sys.jobs - {JobId(w, x)} == s.sys.jobs - {JobId(w, x)}
    requires forall st :: st != x ==> PhaseOf(s'.ctl, st) == PhaseOf(s.ctl, st)
    requires JobOk(w, s'.sys, x, PhaseOf(s'.ctl, x))
    ensures JobTable(w, s')
  {
    forall st | st != x ensures JobOk(w, s'.sys, st, PhaseOf(s'.ctl, st)) {
      OffAgrees(s.sys.jobs, s'.sys.jobs, JobId(w, x), JobId(w, st));
    }
  }

  lemma ConsiderJobs(w: World, sys0: Sys, s: State, st: Stage)
    requires FreshIds(w, sys0) && JobTable(w, s) && s.ctl == Considering(st)
    ensures JobTable(w, Consider(w, s, st))
  {
    hide NewJobRow, StartedJobRow, EndedJobRow;
    var s' := Consider(w, s, st);
    assert JobOk(w, s.sys, st, PhaseOf(s.ctl, st));
    if Configured(w, st) { InsertFrame(s.sys.jobs, JobId(w, st), NewJobRow(w, st), w.run in s.sys.runs, w.jobs(st).create); }
    OneJobWritten(w, sys0, s, s', st);
  }

  lemma BeginJobs(w: World, sys0: Sys, s: State, st: Stage)
    requires FreshIds(w, sys0) && JobTable(w, s) && s.ctl == JobCreated(st)
    ensures JobTable(w, Begin(w, s, st))
  {
    assert JobOk(w, s.sys, st, PhaseOf(s.ctl, st));
    UpdateFrame(s.sys.jobs, JobId(w, st), Running, w.jobs(st).start);
    OneJobWritten(w, sys0, s, Begin(w, s, st), st);
  }

  lemma EndJobs(w: World, sys0: Sys, s: State, st: Stage, err: Option<Error>)
    requires FreshIds(w, sys0) && JobTable(w, s) && s.ctl == JobFinal(st, err) && ErrorsAtHome(s) && Configured(w, st)
    ensures JobTable(w, EndJob(w, s, st, err))
  {
    var s' := EndJob(w, s, st, err);
    UpdateFrame(s.sys.jobs, JobId(w, st), StepFinal(err), w.jobs(st).final);
    assert JobOk(w, s.sys, st, PhaseOf(s.ctl, st));
    assert HasJob(w, s'.sys, st, EndedJobRow(w, st, err));
    OneJobWritten(w, sys0, s, s', st);
  }

  lemma MainJobs(w: World, sys0: Sys, s: State)
    requires FreshIds(w, sys0) && Placed(w, s.ctl) && MainEnabled(s) && JobTable(w, s) && ErrorsAtHome(s)
    requires s.ctl.Starting? ==> forall st :: JobId(w, st) !in s.sys.jobs
    ensures JobTable(w, MainStep(w, s))
  {
    if InBodyCtl(s.ctl) { BodyJobs(w, s); } else { RowWritesJobs(w, sys0, s); }
  }

  lemma BodyJobs(w: World, s: State)
    requires Placed(w, s.ctl) && MainEnabled(s) && JobTable(w, s) && InBodyCtl(s.ctl)
    ensures JobTable(w, MainStep(w, s))
  {
    match s.ctl
    case AtStep(st, i) => StepTopJobs(w, s, st, i);
    case Inline(st, i) => InlineJobs(w, s, st, i);
    case Spawning(i, hi) => SameJobs(w, s, Spawn(w, s, i, hi));
    case Joining(i, hi) => SameJobs(w, s, Release(s, hi));
    case Registering(i, j) => RegisterJobs(w, s, i, j);
  }

  lemma RowWritesJobs(w: World, sys0: Sys, s: State)
    requires FreshIds(w, sys0) && Placed(w, s.ctl) && MainEnabled(s) && JobTable(w, s) && ErrorsAtHome(s)
    requires s.ctl.Starting? ==> forall st :: JobId(w, st) !in s.sys.jobs
    requires !InBodyCtl(s.ctl)
    ensures JobTable(w, MainStep(w, s))
  {
    match s.ctl
    case Starting =>
    case Considering(st) => ConsiderJobs(w, sys0, s, st);
    case JobCreated(st) => BeginJobs(w, sys0, s, st);
    case JobFinal(st, err) => EndJobs(w, sys0, s, st, err);
    case Choosing(err) => SameJobs(w, s, MainStep(w, s));
    case RunFinalWrite(err, final) => SameJobs(w, s, MainStep(w, s));
  }

  lemma InlineJobs(w: World, s: State, st: Stage, i: nat)
    requires JobTable(w, s) && s.ctl == Inline(st, i) && MainEnabled(s)
    ensures JobTable(w, CallReturns(s, st, i))
  {
    SameJobs(w, s, CallReturns(s, st, i));
  }

  lemma StepTopJobs(w: World, s: State, st: Stage, i: nat)
    requires Placed(w, s.ctl) && JobTable(w, s) && s.ctl == AtStep(st, i)
    ensures JobTable(w, StepTop(w, s, st, i))
  {
    StepTopRuns(w, s, st, i);
    SameJobs(w, s, StepTop(w, s, st, i));
  }

  lemma RegisterJobs(w: World, s: State, i: nat, j: nat)
    requires Placed(w, s.ctl) && JobTable(w, s) && s.ctl == Registering(i, j)
    ensures JobTable(w, Register(w, s, i, j))
  {
    SameJobs(w, s, Register(w, s, i, j));
  }
}
