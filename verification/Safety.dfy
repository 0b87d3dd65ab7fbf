/** Safety over whole runs: nesting of running rows, the transition tables, the barrier, and what a run waits for. */
module Safety {
  import opened Wrappers
  import opened States
  import opened Rows
  import opened Config
  import opened Executor
  import opened Steps
  import opened Pipeline
  import opened Interleaving
  import opened Reference
  import opened Engine
  import opened Shape
  import opened StepRows
  import opened Tables
  import opened Hierarchy
  import opened Ledger
  import opened Invariant
  import opened Contents
  import Batching

  // ---------- The states of the rows ----------

  /** The state of a step's row at every point of the step's life; None when there is no row. */
  function StepStatus(th: Thread): Option<Status> {
    if Returned(th) then ReturnedStatus(th.task.script)
    else
      match th.pc
      case AtCreate => None
      case AtStart => Some(Pending)
      case _ => Some(Running)
  }

  /** The state in which a step that has returned leaves its row. */
  function ReturnedStatus(sc: StepScript): Option<Status> {
    if !sc.create.ok then None
    else if !sc.start.ok then Some(Pending)
    else if !sc.final.ok then Some(Running)
    else if ScriptSucceeds(sc) then Some(Succeeded) else Some(Failed)
  }

  /** The state of a stage's job row in every phase of the stage. */
  function JobStatus(w: World, st: Stage, p: Phase): Option<Status> {
    match p
    case NotYet => None
    case Created => Some(Pending)
    case InBody => Some(Running)
    case Over => if !Configured(w, st) then None else if w.jobs(st).final.ok then Some(Succeeded) else Some(Running)
    case FailedBy(e) =>
      if e.JobCreateRefused? then None
      else if e.JobStartRefused? then Some(Pending)
      else if w.jobs(st).final.ok then Some(Failed) else Some(Running)
  }

  /** The state of the run's row at every position of the orchestrator. */
  function RunStatus(w: World, sys0: Sys, s: State): Option<Status> {
    match s.ctl
    case Starting => StatusIn(sys0.runs, w.run)
    case Halted(err) =>
      if err == Some(RunStartRefused) then StatusIn(sys0.runs, w.run)
      else if w.final.ok then Some(RunFinal(s.seen, err.Some?)) else Some(Running)
    case _ => Some(Running)
  }

  function StepRowState(s: State, k: nat): Option<Status>
    requires k < |s.threads|
  {
    StatusIn(s.sys.steps, s.threads[k].task.script.stepId)
  }

  lemma StepState(sys: Sys, th: Thread)
    requires Slot(sys, th) && Path(th)
    ensures StatusIn(sys.steps, th.task.script.stepId) == StepStatus(th)
  {
    if Returned(th) { VerdictOfScript(th.task); }
  }

  lemma JobState(w: World, s: State, st: Stage)
    requires JobTable(w, s)
    ensures StatusIn(s.sys.jobs, JobId(w, st)) == JobStatus(w, st, PhaseOf(s.ctl, st))
  {
    assert JobOk(w, s.sys, st, PhaseOf(s.ctl, st));
  }

  lemma RunState(w: World, sys0: Sys, s: State)
    requires RunTable(w, sys0, s)
    ensures StatusIn(s.sys.runs, w.run) == RunStatus(w, sys0, s)
  {
  }

  /**
   In every reachable state the state of every step, job and run row of the run follows from where the step and
   the orchestrator stand and from the answers they were given.
   */
  lemma RowStates(w: World, sys0: Sys, schedule: seq<Action>)
    requires FreshIds(w, sys0)
    ensures
      var s := After(w, sys0, schedule);
      && (forall k :: 0 <= k < |s.threads| ==> StepRowState(s, k) == StepStatus(s.threads[k]))
      && (forall st :: StatusIn(s.sys.jobs, JobId(w, st)) == JobStatus(w, st, PhaseOf(s.ctl, st)))
      && StatusIn(s.sys.runs, w.run) == RunStatus(w, sys0, s)
  {
    hide Slot, Path, StepStatus, JobStatus, RunStatus, JobOk;
    var s := After(w, sys0, schedule);
    Always(w, sys0, schedule);
    forall k | 0 <= k < |s.threads| ensures StepRowState(s, k) == StepStatus(s.threads[k]) { StepState(s.sys, s.threads[k]); }
    forall st ensures StatusIn(s.sys.jobs, JobId(w, st)) == JobStatus(w, st, PhaseOf(s.ctl, st)) { JobState(w, s, st); }
    RunState(w, sys0, s);
  }

  // ---------- Nesting ----------

  predicate StepRuns(s: State, k: nat)
    requires k < |s.threads|
  {
    StepRowState(s, k) == Some(Running)
  }

  predicate JobRuns(w: World, s: State, st: Stage) { StatusIn(s.sys.jobs, JobId(w, st)) == Some(Running) }

  predicate RunRuns(w: World, s: State) { StatusIn(s.sys.runs, w.run) == Some(Running) }

  /** The step is between its first accepted status write and its return. */
  predicate StepActive(th: Thread) { !Returned(th) && !th.pc.AtCreate? && !th.pc.AtStart? }

  /** The step was created and started, has returned, and the store refused its finalising write. */
  predicate StepFinalRefused(th: Thread) {
    var sc := th.task.script;
    Returned(th) && sc.create.ok && sc.start.ok && !sc.final.ok
  }

  /** The stage's job was created and started, its body is over, and the store refused the finalising write. */
  predicate JobFinalRefused(w: World, s: State, st: Stage) {
    !w.jobs(st).final.ok &&
    match PhaseOf(s.ctl, st)
    case Over => Configured(w, st)
    case FailedBy(e) => !e.JobCreateRefused? && !e.JobStartRefused?
    case _ => false
  }

  /** The run was started, has halted, and the store refused its finalising write. */
  predicate RunFinalRefused(w: World, s: State) {
    s.ctl.Halted? && s.ctl.err != Some(RunStartRefused) && !w.final.ok
  }

  lemma ActiveInRunningJob(w: World, s: State, k: nat)
    requires WellShaped(w, s) && JobTable(w, s) && k < |s.threads| && StepActive(s.threads[k])
    ensures JobRuns(w, s, s.threads[k].task.inv.key.stage)
  {
    hide Slot;
    CurrentStage(w, s, k);
    JobState(w, s, s.threads[k].task.inv.key.stage);
  }

  lemma BodyInRunningRun(w: World, sys0: Sys, s: State, st: Stage)
    requires RunTable(w, sys0, s) && PhaseOf(s.ctl, st).InBody?
    ensures RunRuns(w, s)
  {
    RunState(w, sys0, s);
  }

  /**
   Nesting, in every reachable state and in both directions. A step's row is running exactly while the step is
   active, or for ever once its finalising write was refused; while it is active its job is running. A job's row
   is running exactly while its stage's body runs, or for ever once its finalising write was refused; while the
   body runs the run is running. A fresh run's row is running exactly from its start to its end, or for ever once
   its finalising write was refused. So a row runs outside a running parent only if its own last write was refused.
   */
  lemma Nesting(w: World, sys0: Sys, schedule: seq<Action>)
    requires FreshIds(w, sys0)
    ensures
      var s := After(w, sys0, schedule);
      && (forall k :: 0 <= k < |s.threads| ==> (StepRuns(s, k) <==> StepActive(s.threads[k]) || StepFinalRefused(s.threads[k])))
      && (forall k :: 0 <= k < |s.threads| && StepActive(s.threads[k]) ==> JobRuns(w, s, s.threads[k].task.inv.key.stage))
      && (forall st :: JobRuns(w, s, st) <==> PhaseOf(s.ctl, st).InBody? || JobFinalRefused(w, s, st))
      && (forall st :: PhaseOf(s.ctl, st).InBody? ==> RunRuns(w, s))
      && (PendingRun(w, sys0) ==> (RunRuns(w, s) <==> (!s.ctl.Starting? && !s.ctl.Halted?) || RunFinalRefused(w, s)))
  {
    hide Slot, Path, Layout, JobOk, RunsAt;
    var s := After(w, sys0, schedule);
    Always(w, sys0, schedule);
    RowStates(w, sys0, schedule);
    forall k | 0 <= k < |s.threads| && StepActive(s.threads[k]) ensures JobRuns(w, s, s.threads[k].task.inv.key.stage) {
      ActiveInRunningJob(w, s, k);
    }
    forall st | PhaseOf(s.ctl, st).InBody? ensures RunRuns(w, s) { BodyInRunningRun(w, sys0, s, st); }
    forall st ensures JobRuns(w, s, st) <==> PhaseOf(s.ctl, st).InBody? || JobFinalRefused(w, s, st) {
      assert StatusIn(s.sys.jobs, JobId(w, st)) == JobStatus(w, st, PhaseOf(s.ctl, st));
    }
  }

  /** Steps before the current call or batch are finished. */
  lemma AllBeforeBaseFinished(w: World, s: State, k: nat)
    requires Progress(w, s) && k < |s.threads| && k < s.base
    ensures Finished(s.threads[k])
  {
    if s.ctl.Inline? || s.ctl.Spawning? || s.ctl.Joining? { assert Succeeds(s.threads[k]); }
    else { RestingAllFinished(w, s); }
  }

  /** A step that has not returned belongs to the stage whose body runs. */
  lemma CurrentStage(w: World, s: State, k: nat)
    requires WellShaped(w, s) && k < |s.threads| && !Returned(s.threads[k])
    ensures s.base <= k && (s.ctl.Inline? || s.ctl.Spawning? || s.ctl.Joining?)
    ensures PhaseOf(s.ctl, s.threads[k].task.inv.key.stage).InBody?
  {
    if k < s.base { AllBeforeBaseFinished(w, s, k); }
    if !s.ctl.Inline? && !s.ctl.Spawning? && !s.ctl.Joining? { RestingAllFinished(w, s); }
    assert s.threads[k].task.inv.key == KeyAt(s.made, k);
  }

  // ---------- The transition tables ----------

  /** From one table to the next, rows are only added as pending, or moved as the transition table allows. */
  ghost predicate TableMoves<T>(validate: (Status, Status) -> bool, a: map<Id, Row<T>>, b: map<Id, Row<T>>) {
    && a.Keys <= b.Keys
    && forall id :: id in b ==>
         if id in a then validate(a[id].life.status, b[id].life.status) else b[id].life.status == Pending
  }

  lemma SameTableMoves<T>(validate: (Status, Status) -> bool, a: map<Id, Row<T>>)
    requires forall x :: validate(x, x)
    ensures TableMoves(validate, a, a)
  {
  }

  lemma InsertMoves<T>(validate: (Status, Status) -> bool, a: map<Id, Row<T>>, id: Id, row: Row<T>, parent: bool, w: Answer)
    requires (forall x :: validate(x, x)) && row.life.status == Pending
    ensures TableMoves(validate, a, Insert(a, id, row, parent, w).rows)
  {
  }

  lemma UpdateMoves<T>(validate: (Status, Status) -> bool, a: map<Id, Row<T>>, id: Id, status: Status, w: Answer)
    requires (forall x :: validate(x, x)) && (id in a ==> validate(a[id].life.status, status))
    ensures TableMoves(validate, a, UpdateStatus(a, id, status, w).rows)
  {
  }

  /** The three tables with a life cycle all move as their transition tables allow. */
  ghost predicate TablesMove(a: Sys, b: Sys) {
    TableMoves(ValidateRun, a.runs, b.runs) && TableMoves(ValidateStage, a.jobs, b.jobs) && TableMoves(ValidateStage, a.steps, b.steps)
  }

  /** Only the first, second and last action of a step write its row. */
  lemma MiddleMovesKeepSteps(sys: Sys, th: Thread)
    requires !th.pc.AtCreate? && !th.pc.AtStart? && !th.pc.AtFinal?
    ensures Move(sys, th).0.steps == sys.steps
  {
    match th.pc
    case AtPoll(n) =>
    case AtStore(n) =>
    case AtRecord =>
    case _ =>
  }

  lemma GoMoves(w: World, s: State, k: nat)
    requires GoEnabled(s, k) && Slot(s.sys, s.threads[k])
    ensures TableMoves(ValidateStage, s.sys.steps, GoStep(s, k).sys.steps)
  {
    var th := s.threads[k];
    var t := th.task;
    if th.pc.AtCreate? {
      InsertMoves(ValidateStage, s.sys.steps, t.script.stepId, NewStepRow(t), t.job in s.sys.jobs, t.script.create);
    } else if th.pc.AtStart? {
      UpdateMoves(ValidateStage, s.sys.steps, t.script.stepId, Running, t.script.start);
    } else if th.pc.AtFinal? {
      UpdateMoves(ValidateStage, s.sys.steps, t.script.stepId, StepFinal(th.pc.err), t.script.final);
    } else {
      MiddleMovesKeepSteps(s.sys, th);
      SameTableMoves(ValidateStage, s.sys.steps);
    }
  }

  lemma RunMoves(w: World, sys0: Sys, s: State)
    requires RunTable(w, sys0, s) && ErrorsAtHome(s) && Placed(w, s.ctl) && MainEnabled(s)
    requires w.run in sys0.runs ==> sys0.runs[w.run].life.status == Pending
    ensures TableMoves(ValidateRun, s.sys.runs, MainStep(w, s).sys.runs)
  {
    match s.ctl
    case Starting => UpdateMoves(ValidateRun, s.sys.runs, w.run, Running, w.start);
    case RunFinalWrite(err, final) => UpdateMoves(ValidateRun, s.sys.runs, w.run, final, w.final);
    case Choosing(_) =>
    case _ => MidRunKeeps(w, s);
  }

  lemma JobMoves(w: World, s: State)
    requires JobTable(w, s) && Placed(w, s.ctl) && MainEnabled(s)
    ensures TableMoves(ValidateStage, s.sys.jobs, MainStep(w, s).sys.jobs)
  {
    match s.ctl
    case Considering(st) =>
      InsertMoves(ValidateStage, s.sys.jobs, JobId(w, st), NewJobRow(w, st), w.run in s.sys.runs, w.jobs(st).create);
    case JobCreated(st) =>
      assert JobOk(w, s.sys, st, PhaseOf(s.ctl, st));
      UpdateMoves(ValidateStage, s.sys.jobs, JobId(w, st), Running, w.jobs(st).start);
    case JobFinal(st, err) =>
      assert JobOk(w, s.sys, st, PhaseOf(s.ctl, st));
      UpdateMoves(ValidateStage, s.sys.jobs, JobId(w, st), StepFinal(err), w.jobs(st).final);
    case _ => OthersKeepJobs(w, s);
  }

  lemma OthersKeepJobs(w: World, s: State)
    requires Placed(w, s.ctl) && MainEnabled(s) && !s.ctl.Considering? && !s.ctl.JobCreated? && !s.ctl.JobFinal?
    ensures MainStep(w, s).sys.jobs == s.sys.jobs
  {
    match s.ctl
    case AtStep(st, i) => StepTopRuns(w, s, st, i);
    case Starting =>
    case Inline(st, i) =>
    case Spawning(i, hi) =>
    case Joining(i, hi) =>
    case Registering(i, j) =>
    case Choosing(_) =>
    case RunFinalWrite(_, _) =>
  }

  /** The run row is fresh: it is pending, if it exists at all. */
  predicate PendingRun(w: World, sys0: Sys) { w.run in sys0.runs ==> sys0.runs[w.run].life.status == Pending }

  /** Every action, on every reachable state, moves every row of every table as the transition tables allow. */
  lemma EveryActionWalksTheTables(w: World, sys0: Sys, s: State, a: Action)
    requires FreshIds(w, sys0) && Inv(w, sys0, s) && PendingRun(w, sys0)
    ensures TablesMove(s.sys, Next(w, s, a).sys)
  {
    SameTableMoves(ValidateRun, s.sys.runs);
    SameTableMoves(ValidateStage, s.sys.jobs);
    SameTableMoves(ValidateStage, s.sys.steps);
    if Enabled(w, s, a) {
      match a
      case CancelCtx =>
      case Main => RunMoves(w, sys0, s); JobMoves(w, s); MainTouches(w, s);
      case Go(k) => GoKeeps(w, s, k); GoMoves(w, s, k);
    }
  }

  // ---------- Histories of single rows ----------

  /** The states a row goes through along a schedule, repetitions dropped. */
  function History(w: World, sys0: Sys, schedule: seq<Action>, look: Sys -> Option<Status>): seq<Status> {
    if schedule == [] then Extend([], look(sys0))
    else Extend(History(w, sys0, schedule[..|schedule| - 1], look), look(After(w, sys0, schedule).sys))
  }

  function Extend(h: seq<Status>, now: Option<Status>): seq<Status> {
    if now.None? || (h != [] && h[|h| - 1] == now.value) then h else h + [now.value]
  }

  /** `h` is a walk of the table that ends in the row's present state. */
  ghost predicate WalkTo(validate: (Status, Status) -> bool, h: seq<Status>, now: Option<Status>) {
    Walk(validate, h) && (if now.None? then h == [] else h != [] && h[|h| - 1] == now.value)
  }

  lemma ExtendWalk(validate: (Status, Status) -> bool, h: seq<Status>, before: Option<Status>, now: Option<Status>)
    requires WalkTo(validate, h, before)
    requires before.Some? ==> now.Some? && validate(before.value, now.value)
    ensures WalkTo(validate, Extend(h, now), now)
  {
  }

  lemma {:induction false} HistoryWalks(w: World, sys0: Sys, schedule: seq<Action>, look: Sys -> Option<Status>,
                     validate: (Status, Status) -> bool)
    requires FreshIds(w, sys0) && PendingRun(w, sys0)
    requires forall a, b :: TablesMove(a, b) && look(a).Some? ==> look(b).Some? && validate(look(a).value, look(b).value)
    ensures WalkTo(validate, History(w, sys0, schedule, look), look(After(w, sys0, schedule).sys))
  {
    if schedule != [] {
      var front := schedule[..|schedule| - 1];
      HistoryWalks(w, sys0, front, look, validate);
      Always(w, sys0, front);
      EveryActionWalksTheTables(w, sys0, After(w, sys0, front), schedule[|schedule| - 1]);
      ExtendWalk(validate, History(w, sys0, front, look), look(After(w, sys0, front).sys), look(After(w, sys0, schedule).sys));
    }
  }

  /** Every state of a stage walk but the last is short of terminal, and there are at most three of them. */
  lemma StageWalkShort(h: seq<Status>)
    requires Walk(ValidateStage, h)
    ensures |h| <= 3 && forall i :: 0 <= i < |h| - 1 ==> !IsTerminalStage(h[i])
  {
    forall i | 0 <= i < |h| - 1 ensures Depth(h[i]) < Depth(h[i + 1]) && !IsTerminalStage(h[i]) {
      assert h[(i + 1) - 1] == h[i];
      StageTableShape(h[i], h[i + 1]);
    }
    DeepeningIsShort(h);
  }

  lemma RunWalkShort(h: seq<Status>)
    requires Walk(ValidateRun, h)
    ensures |h| <= 3 && forall i :: 0 <= i < |h| - 1 ==> !IsTerminalRun(h[i])
  {
    forall i | 0 <= i < |h| - 1 ensures Depth(h[i]) < Depth(h[i + 1]) && !IsTerminalRun(h[i]) {
      assert h[(i + 1) - 1] == h[i];
      RunTableShape(h[i], h[i + 1]);
    }
    DeepeningIsShort(h);
  }

  lemma DeepeningIsShort(h: seq<Status>)
    requires forall i :: 0 <= i < |h| - 1 ==> Depth(h[i]) < Depth(h[i + 1])
    ensures |h| <= 3
  {
    assert |h| > 2 ==> Depth(h[0]) < Depth(h[0 + 1]) < Depth(h[1 + 1]);
    assert |h| > 3 ==> Depth(h[2]) < Depth(h[2 + 1]);
  }

  /**
   The engine walks the transition tables although it never consults them: along every schedule, every row of
   the three tables goes through a walk its table accepts, of at most two changes, none out of a terminal state.
   */
  lemma EngineRefinesTheTables(w: World, sys0: Sys, schedule: seq<Action>, id: Id)
    requires FreshIds(w, sys0) && PendingRun(w, sys0)
    ensures
      var run := History(w, sys0, schedule, (sys: Sys) => StatusIn(sys.runs, id));
      Walk(ValidateRun, run) && |run| <= 3 && forall i :: 0 <= i < |run| - 1 ==> !IsTerminalRun(run[i])
    ensures
      var job := History(w, sys0, schedule, (sys: Sys) => StatusIn(sys.jobs, id));
      Walk(ValidateStage, job) && |job| <= 3 && forall i :: 0 <= i < |job| - 1 ==> !IsTerminalStage(job[i])
    ensures
      var step := History(w, sys0, schedule, (sys: Sys) => StatusIn(sys.steps, id));
      Walk(ValidateStage, step) && |step| <= 3 && forall i :: 0 <= i < |step| - 1 ==> !IsTerminalStage(step[i])
  {
    var run, job, step := (sys: Sys) => StatusIn(sys.runs, id), (sys: Sys) => StatusIn(sys.jobs, id), (sys: Sys) => StatusIn(sys.steps, id);
    HistoryWalks(w, sys0, schedule, run, ValidateRun);
    HistoryWalks(w, sys0, schedule, job, ValidateStage);
    HistoryWalks(w, sys0, schedule, step, ValidateStage);
    RunWalkShort(History(w, sys0, schedule, run));
    StageWalkShort(History(w, sys0, schedule, job));
    StageWalkShort(History(w, sys0, schedule, step));
  }

  // ---------- The barrier ----------

  predicate SameBatch(t: Task, u: Task) {
    t.inv.key.stage == u.inv.key.stage && t.inv.group.Some? && t.inv.group == u.inv.group
  }

  lemma CurrentBatch(w: World, s: State, i: nat, j: nat)
    requires WellShaped(w, s) && (s.ctl.Spawning? || s.ctl.Joining?) && s.base <= i < j < |s.threads|
    ensures SameBatch(s.threads[i].task, s.threads[j].task)
  {
    assert s.threads[i].task.inv.key == KeyAt(s.made, i) && s.threads[j].task.inv.key == KeyAt(s.made, j);
  }

  /**
   Barrier: a step is called only when every earlier call that is not of its own batch is finished; no step is
   in flight while a job's or the run's finalising write is made; and the wait count is the number of
   goroutines not yet done.
   */
  lemma Barrier(w: World, sys0: Sys, schedule: seq<Action>)
    requires FreshIds(w, sys0)
    ensures
      var s := After(w, sys0, schedule);
      && (forall i, j :: 0 <= i < j < |s.threads| && !SameBatch(s.threads[i].task, s.threads[j].task) ==> Finished(s.threads[i]))
      && (s.ctl.JobFinal? || s.ctl.RunFinalWrite? ==> forall k :: 0 <= k < |s.threads| ==> Finished(s.threads[k]))
      && (s.ctl.Spawning? || s.ctl.Joining? ==> s.base <= |s.threads| && s.wg == Live(s.threads[s.base..]))
  {
    var s := After(w, sys0, schedule);
    Always(w, sys0, schedule);
    forall i, j | 0 <= i < j < |s.threads|
      ensures SameBatch(s.threads[i].task, s.threads[j].task) || Finished(s.threads[i])
    {
      if i < s.base { AllBeforeBaseFinished(w, s, i); }
      else if s.ctl.Spawning? || s.ctl.Joining? { CurrentBatch(w, s, i, j); }
      else if !s.ctl.Inline? { RestingAllFinished(w, s); }
    }
    if s.ctl.JobFinal? || s.ctl.RunFinalWrite? { RestingAllFinished(w, s); }
  }

  /**
   The steps a run starts, whatever the schedule: stage by stage and in list order, each at most once. Build step i
   is start i of its stage, test step i has order i and the group that the list prescribes, none if it is
   sequential, and each is started under its configured name to run its configured command.
   */
  lemma StartsAsPlanned(w: World, sys0: Sys, schedule: seq<Action>)
    requires FreshIds(w, sys0)
    ensures
      var s := After(w, sys0, schedule);
      && |s.sys.starts| == s.made.build + s.made.test + s.made.deploy
      && s.made.build <= Planned(w, Build) && s.made.test <= Planned(w, Test) && s.made.deploy <= Planned(w, Deploy)
      && (forall k :: 0 <= k < s.made.build ==> s.sys.starts[k].key == Key(Build, k))
      && (forall k :: 0 <= k < s.made.test ==> s.sys.starts[s.made.build + k].key == Key(Test, k))
      && (s.made.deploy > 0 ==> s.sys.starts[s.made.build + s.made.test].key == Key(Deploy, 0))
      && (forall k :: 0 <= k < |s.sys.starts| ==> AsConfigured(w, s.sys.starts[k]))
  {
    hide AsConfigured, DeployChoice, Slot, Path;
    var s := After(w, sys0, schedule);
    Always(w, sys0, schedule);
    forall k | 0 <= k < |s.threads| ensures AsConfigured(w, s.sys.starts[k]) { ThreadAsConfigured(w, s, k); }
    KeysInOrder(w, s);
  }

  /** Name, group and spec are the configured ones. */
  ghost predicate AsConfigured(w: World, inv: Invocation) {
    NamedAsConfigured(w, inv.key, inv.name) && GroupedAsConfigured(w, inv.key, inv.group) && RunsAsConfigured(w, inv.key, inv.spec)
  }

  lemma KeysInOrder(w: World, s: State)
    requires Layout(w, s)
    ensures s.made.build <= Planned(w, Build) && s.made.test <= Planned(w, Test) && s.made.deploy <= Planned(w, Deploy)
    ensures forall k :: 0 <= k < |s.threads| ==> s.sys.starts[k].key == KeyAt(s.made, k)
  {
    hide BuildTask, TestTask, Batching.GroupOf;
    var b, t, n := s.made.build, s.made.test, |s.threads|;
    if b > 0 { assert TaskOk(w, s.threads[b - 1].task); }
    if t > 0 { assert TaskOk(w, s.threads[b + t - 1].task); }
    if s.made.deploy > 0 { assert TaskOk(w, s.threads[n - 1].task); }
    forall k | 0 <= k < n ensures s.sys.starts[k].key == KeyAt(s.made, k) { assert s.threads[k].task.inv.key == KeyAt(s.made, k); }
  }

  lemma ThreadAsConfigured(w: World, s: State, k: nat)
    requires Layout(w, s) && DeployOk(w, s) && k < |s.threads|
    ensures AsConfigured(w, s.threads[k].task.inv)
  {
    hide DeployChoice;
    var t := s.threads[k].task;
    assert TaskOk(w, t);
    match t.inv.key.stage
    case Build => BuildAsConfigured(w, t.inv.key.order);
    case Test => TestAsConfigured(w, t.inv.key.order);
    case Deploy => DeployAsConfigured(w, s, t);
  }

  lemma BuildAsConfigured(w: World, i: nat)
    requires i < |BuildSteps(w)|
    ensures AsConfigured(w, BuildTask(w, i).inv) && RunsBuildStep(w, i, BuildTask(w, i).inv.spec)
  {
  }

  lemma TestAsConfigured(w: World, i: nat)
    requires i < |TestSteps(w)|
    ensures AsConfigured(w, TestTask(w, i, Batching.GroupOf(TestSteps(w), i)).inv)
  {
  }

  lemma DeployAsConfigured(w: World, s: State, t: Task)
    requires DeployChoice(w, s, t)
    ensures AsConfigured(w, t.inv) && t.inv.key == Key(Deploy, 0)
  {
    var ids := w.listing(s.sys.arts, s.buildJob);
    var path := s.sys.arts[ids[FirstOfType(s.sys.arts, ids, w.cfg.deploy.value.artifact)]].path;
    DeploysPath(w, path);
  }

  lemma DeploysPath(w: World, path: string)
    requires w.cfg.deploy.Some?
    ensures var t := DeployTask(w, w.cfg.deploy.value, path);
            RunsDeployment(w, path, t.inv.spec) && t.inv.key == Key(Deploy, 0) && t.inv.name == "deploy" && t.inv.group == None
  {
  }

  // ---------- What a run can wait for ----------

  /** Step k waits for the executor's next answer, or for the context to be cancelled. */
  predicate Waits(s: State, k: nat)
    requires k < |s.threads|
  {
    Starved(s.threads[k]) || (TakesCancel(s.threads[k]) && !s.cancelled)
  }

  ghost predicate CanGoOn(w: World, s: State) {
    s.ctl.Halted? || Enabled(w, s, Main) || exists k :: ActsOrWaits(s, k)
  }

  predicate ActsOrWaits(s: State, k: int) {
    0 <= k < |s.threads| && (GoEnabled(s, k) || Waits(s, k))
  }

  /** Direct calls end with their return. */
  predicate DirectCallsReturn(s: State) {
    forall k :: 0 <= k < |s.threads| && !Goroutine(s.threads[k]) ==> !s.threads[k].pc.Logged? && !s.threads[k].pc.Done?
  }

  lemma UnfinishedGoesOn(s: State, k: nat)
    requires k < |s.threads| && !Finished(s.threads[k]) && DirectCallsReturn(s)
    ensures ActsOrWaits(s, k)
  {
  }

  lemma JoiningGoesOn(s: State)
    requires DirectCallsReturn(s) && Waiting(s) && s.ctl.Joining? && s.wg != 0
    requires forall k :: s.base <= k < |s.threads| ==> Goroutine(s.threads[k])
    ensures exists k :: ActsOrWaits(s, k)
  {
    var ts := s.threads[s.base..];
    var k := SomeLive(ts);
    assert s.threads[s.base + k] == ts[k];
    UnfinishedGoesOn(s, s.base + k);
  }

  lemma ShapeGoesOn(w: World, s: State)
    requires WellShaped(w, s)
    ensures CanGoOn(w, s)
  {
    if s.ctl.Inline? && !MainEnabled(s) { UnfinishedGoesOn(s, s.base); }
    else if s.ctl.Joining? && s.wg != 0 { JoiningGoesOn(s); }
    else { assert MainEnabled(s) || s.ctl.Halted?; }
  }

  /** No deadlock: a run that has not halted can act, or a step of it waits for the executor or the context. */
  lemma NoDeadlock(w: World, sys0: Sys, schedule: seq<Action>)
    requires FreshIds(w, sys0)
    ensures CanGoOn(w, After(w, sys0, schedule))
  {
    Always(w, sys0, schedule);
    ShapeGoesOn(w, After(w, sys0, schedule));
  }
}
