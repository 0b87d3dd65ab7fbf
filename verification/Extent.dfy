/** Exactly which rows a run adds to the tables: those of the steps, jobs and outputs that got that far, and no others. */
module Extent {
  import opened Wrappers
  import opened States
  import opened Rows
  import opened Config
  import opened Executor
  import opened Steps
  import opened Pipeline
  import opened Interleaving
  import opened Reference
  import opened Engine
  import opened Shape
  import opened StepRows
  import opened Tables
  import opened Hierarchy
  import opened Ledger
  import opened Invariant
  import opened Safety

  /** Every row of the tables was there before or carries an ID that this run draws. */
  ghost predicate NoStrangers(w: World, sys0: Sys, sys: Sys) {
    && (forall id :: id in sys.steps ==> id in sys0.steps || exists key :: id == w.steps(key).stepId)
    && (forall id :: id in sys.execs ==> id in sys0.execs || exists key :: id == w.steps(key).execId)
    && (forall id :: id in sys.jobs ==> id in sys0.jobs || exists st :: id == JobId(w, st))
  }

  lemma OnlyStranger(w: World, sys0: Sys, a: Sys, b: Sys, t: Task)
    requires NoStrangers(w, sys0, a) && Only(a, b, t) && t.script == w.steps(t.inv.key)
    ensures NoStrangers(w, sys0, b)
  {
    forall id | id in b.steps ensures id in sys0.steps || exists key :: id == w.steps(key).stepId {
      if id != t.script.stepId { OffAgrees(a.steps, b.steps, t.script.stepId, id); }
    }
    forall id | id in b.execs ensures id in sys0.execs || exists key :: id == w.steps(key).execId {
      if id != t.script.execId { OffAgrees(a.execs, b.execs, t.script.execId, id); }
    }
  }

  lemma GoStranger(w: World, sys0: Sys, s: State, k: nat)
    requires NoStrangers(w, sys0, s.sys) && Layout(w, s) && GoEnabled(s, k)
    ensures NoStrangers(w, sys0, GoStep(s, k).sys)
  {
    hide Move;
    assert TaskOk(w, s.threads[k].task);
    if !Returned(s.threads[k]) {
      MoveFrame(s.sys, s.threads[k]);
      OnlyStranger(w, sys0, s.sys, GoStep(s, k).sys, s.threads[k].task);
    }
  }

  /** The orchestrator adds job rows under the IDs of its stages only. */
  lemma MainJobKeys(w: World, s: State)
    requires Placed(w, s.ctl) && MainEnabled(s)
    ensures forall id :: id in MainStep(w, s).sys.jobs ==> id in s.sys.jobs || exists st :: id == JobId(w, st)
  {
    match s.ctl
    case Considering(st) =>
    case JobCreated(st) =>
    case JobFinal(st, err) =>
    case _ => OthersKeepJobs(w, s);
  }

  lemma MainStranger(w: World, sys0: Sys, s: State)
    requires NoStrangers(w, sys0, s.sys) && Placed(w, s.ctl) && MainEnabled(s)
    ensures NoStrangers(w, sys0, MainStep(w, s).sys)
  {
    hide MainStep;
    MainTouches(w, s);
    MainJobKeys(w, s);
  }

  lemma {:induction false} AlwaysNoStrangers(w: World, sys0: Sys, schedule: seq<Action>)
    requires FreshIds(w, sys0)
    ensures NoStrangers(w, sys0, After(w, sys0, schedule).sys)
  {
    hide MainStep, GoStep, Slot, Path;
    if schedule != [] {
      var front, a := schedule[..|schedule| - 1], schedule[|schedule| - 1];
      var s := After(w, sys0, front);
      AlwaysNoStrangers(w, sys0, front);
      Always(w, sys0, front);
      if Enabled(w, s, a) {
        match a
        case CancelCtx =>
        case Main => MainStranger(w, sys0, s);
        case Go(k) => GoStranger(w, sys0, s, k);
      }
    }
  }

  // ---------- Which rows there are ----------

  /** The step has come to have an execution row. */
  predicate Recorded(th: Thread) {
    var sc := th.task.script;
    match th.pc
    case AtPoll(_) => true
    case AtStore(_) => true
    case AtCreate => false
    case AtStart => false
    case AtSubmit => false
    case AtRecord => false
    case _ => Submits(sc) && sc.record.ok
  }

  /** The step has come to be submitted. */
  predicate Submitted(th: Thread) {
    match th.pc
    case AtRecord => true
    case AtPoll(_) => true
    case AtStore(_) => true
    case AtCreate => false
    case AtStart => false
    case AtSubmit => false
    case _ => Submits(th.task.script)
  }

  lemma RecordedRow(sys: Sys, th: Thread)
    requires Slot(sys, th) && Path(th)
    ensures th.task.script.execId in sys.execs <==> Recorded(th)
    ensures th.task.inv.key in sys.subs <==> Submitted(th)
  {
  }

  /** The row IDs of step `key` are in no table unless the step was started. */
  lemma UnstartedAbsent(w: World, s: State, key: Key)
    requires Layout(w, s) && StepTables(w, s) && Unstarted(s, key)
    ensures w.steps(key).stepId !in s.sys.steps && w.steps(key).execId !in s.sys.execs && key !in s.sys.subs
  {
    hide Slot, Path, TaskOk;
    if IsStarted(s.made, key) { var k := ThreadOf(w, s, key); }
    else { assert Unused(w, s.sys, key); }
  }

  ghost predicate Unstarted(s: State, key: Key) { forall k :: 0 <= k < |s.threads| ==> s.threads[k].task.inv.key != key }

  /** Step k of the run has the row under `id`. */
  predicate OwnsStep(s: State, k: int, id: Id) {
    0 <= k < |s.threads| && id == s.threads[k].task.script.stepId && StepStatus(s.threads[k]).Some?
  }

  predicate OwnsExec(s: State, k: int, id: Id) {
    0 <= k < |s.threads| && id == s.threads[k].task.script.execId && Recorded(s.threads[k])
  }

  predicate OwnsSub(s: State, k: int, key: Key) {
    0 <= k < |s.threads| && key == s.threads[k].task.inv.key && Submitted(s.threads[k])
  }

  predicate OwnsJob(w: World, s: State, st: Stage, id: Id) {
    id == JobId(w, st) && JobStatus(w, st, PhaseOf(s.ctl, st)).Some?
  }

  /**
   In every reachable state: the tables hold the rows that were there before, and exactly one row for each step
   that was created, each execution that was recorded, each job that was created and each output that was
   registered; the executor's book holds exactly the steps that were submitted; no run row comes or goes.
   */
  ghost predicate ExactRows(w: World, sys0: Sys, s: State) {
    var (i, j) := LedgerPlace(w, s.ctl);
    && (forall id :: id in s.sys.steps <==> id in sys0.steps || exists k :: OwnsStep(s, k, id))
    && (forall id :: id in s.sys.execs <==> id in sys0.execs || exists k :: OwnsExec(s, k, id))
    && (forall id :: id in s.sys.jobs <==> id in sys0.jobs || exists st :: OwnsJob(w, s, st, id))
    && (forall id :: id in s.sys.arts <==> id in sys0.arts || exists p, q :: OutputBefore(w, p, q, i, j) && id == OutputId(w, p, q))
    && (forall key :: key in s.sys.subs <==> exists k :: OwnsSub(s, k, key))
    && s.sys.runs.Keys == sys0.runs.Keys
  }

  lemma StepRowsExact(w: World, sys0: Sys, s: State, id: Id)
    requires Layout(w, s) && StepTables(w, s) && NoStrangers(w, sys0, s.sys) && ForeignOk(sys0, s)
    ensures id in s.sys.steps <==> id in sys0.steps || exists k :: OwnsStep(s, k, id)
  {
    hide Slot, Path, TaskOk, StepStatus;
    forall k | 0 <= k < |s.threads| ensures id == s.threads[k].task.script.stepId ==> (id in s.sys.steps <==> OwnsStep(s, k, id)) {
      assert Slot(s.sys, s.threads[k]);
      StepState(s.sys, s.threads[k]);
    }
    if id in s.sys.steps && id !in sys0.steps {
      var key :| id == w.steps(key).stepId;
      if Unstarted(s, key) { UnstartedAbsent(w, s, key); }
      var k :| 0 <= k < |s.threads| && s.threads[k].task.inv.key == key;
      ScriptOf(w, s, k);
      assert OwnsStep(s, k, id);
    }
  }

  lemma ScriptOf(w: World, s: State, k: nat)
    requires Layout(w, s) && k < |s.threads|
    ensures s.threads[k].task.script == w.steps(s.threads[k].task.inv.key)
  {
    assert TaskOk(w, s.threads[k].task);
  }

  lemma ExecRowsExact(w: World, sys0: Sys, s: State, id: Id)
    requires Layout(w, s) && StepTables(w, s) && NoStrangers(w, sys0, s.sys) && ForeignOk(sys0, s)
    ensures id in s.sys.execs <==> id in sys0.execs || exists k :: OwnsExec(s, k, id)
  {
    hide Slot, Path, TaskOk, Recorded, Submitted;
    forall k | 0 <= k < |s.threads| ensures id == s.threads[k].task.script.execId ==> (id in s.sys.execs <==> OwnsExec(s, k, id)) {
      assert Slot(s.sys, s.threads[k]);
      RecordedRow(s.sys, s.threads[k]);
    }
    if id in s.sys.execs && id !in sys0.execs {
      var key :| id == w.steps(key).execId;
      if Unstarted(s, key) { UnstartedAbsent(w, s, key); }
      var k :| 0 <= k < |s.threads| && s.threads[k].task.inv.key == key;
      ScriptOf(w, s, k);
      assert OwnsExec(s, k, id);
    }
  }

  lemma SubsExact(w: World, s: State, key: Key)
    requires Layout(w, s) && StepTables(w, s)
    ensures key in s.sys.subs <==> exists k :: OwnsSub(s, k, key)
  {
    hide Slot, Path, TaskOk, Recorded, Submitted;
    forall k | 0 <= k < |s.threads| ensures key == s.threads[k].task.inv.key ==> (key in s.sys.subs <==> OwnsSub(s, k, key)) {
      assert Slot(s.sys, s.threads[k]);
      RecordedRow(s.sys, s.threads[k]);
    }
    if Unstarted(s, key) { UnstartedAbsent(w, s, key); }
    else {
      var k :| 0 <= k < |s.threads| && s.threads[k].task.inv.key == key;
      assert key in s.sys.subs ==> OwnsSub(s, k, key);
    }
  }

  lemma JobRowsExact(w: World, sys0: Sys, s: State, id: Id)
    requires JobTable(w, s) && NoStrangers(w, sys0, s.sys) && ForeignOk(sys0, s)
    ensures id in s.sys.jobs <==> id in sys0.jobs || exists st :: OwnsJob(w, s, st, id)
  {
    hide JobStatus, PhaseOf, JobOk;
    forall st ensures id == JobId(w, st) ==> (id in s.sys.jobs <==> OwnsJob(w, s, st, id)) { JobState(w, s, st); }
    if id in s.sys.jobs && id !in sys0.jobs {
      var st :| id == JobId(w, st);
      assert OwnsJob(w, s, st, id);
    }
  }

  lemma ExactlyItsRows(w: World, sys0: Sys, schedule: seq<Action>)
    requires FreshIds(w, sys0)
    ensures ExactRows(w, sys0, After(w, sys0, schedule))
  {
    hide Layout, Slot, Path, JobTable, NoStrangers, OwnsStep, OwnsExec, OwnsSub, OwnsJob, StepTables, RunsAt, StepStatus, Registered, LedgerPlace, JobOk;
    var s := After(w, sys0, schedule);
    Always(w, sys0, schedule);
    AlwaysNoStrangers(w, sys0, schedule);
    var (i, j) := LedgerPlace(w, s.ctl);
    RegisteredRows(w, sys0, i, j);
    forall id { StepRowsExact(w, sys0, s, id); }
    forall id { ExecRowsExact(w, sys0, s, id); }
    forall id { JobRowsExact(w, sys0, s, id); }
    forall key { SubsExact(w, s, key); }
    RunKeys(w, sys0, s);
  }

  lemma RunKeys(w: World, sys0: Sys, s: State)
    requires RunTable(w, sys0, s)
    ensures s.sys.runs.Keys == sys0.runs.Keys
  {
  }
}
