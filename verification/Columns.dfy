/** Every column of every row that a run writes, and every entry of the executor's book, in every reachable state. */
module Columns {
  import opened Wrappers
  import opened States
  import opened Rows
  import opened Config
  import opened Executor
  import opened Steps
  import opened Pipeline
  import opened Interleaving
  import opened Reference
  import opened Engine
  import opened Shape
  import opened StepRows
  import opened Tables
  import opened Hierarchy
  import opened Ledger
  import opened Invariant
  import opened Contents
  import opened Safety

  // ---------- Step rows ----------

  /** The step's row, if it has one, belongs to its stage's job and holds its name, its order and its group. */
  predicate StepColumns(w: World, sys: Sys, key: Key) {
    var id := w.steps(key).stepId;
    id in sys.steps ==>
      && sys.steps[id].info.job == w.jobs(key.stage).id && sys.steps[id].info.order == key.order
      && NamedAsConfigured(w, key, sys.steps[id].info.name) && GroupedAsConfigured(w, key, sys.steps[id].info.group)
      && LivedThrough(sys.steps[id].life, w.steps(key).create.now, w.steps(key).start.now, w.steps(key).final.now)
  }

  lemma StepRowColumns(w: World, s: State, k: nat)
    requires Layout(w, s) && DeployOk(w, s) && StepTables(w, s) && k < |s.threads|
    ensures StepColumns(w, s.sys, s.threads[k].task.inv.key)
  {
    hide AsConfigured, DeployChoice, NamedAsConfigured, GroupedAsConfigured, TaskOk;
    var t := s.threads[k].task;
    ThreadAsConfigured(w, s, k);
    TaskBasics(w, s, k);
    SlotColumns(s.sys, s.threads[k]);
    assert NamedAsConfigured(w, t.inv.key, t.inv.name) && GroupedAsConfigured(w, t.inv.key, t.inv.group) by {
      AsConfiguredParts(w, t.inv);
    }
  }

  lemma AsConfiguredParts(w: World, inv: Invocation)
    requires AsConfigured(w, inv)
    ensures NamedAsConfigured(w, inv.key, inv.name) && GroupedAsConfigured(w, inv.key, inv.group) && RunsAsConfigured(w, inv.key, inv.spec)
  {
  }

  lemma TaskBasics(w: World, s: State, k: nat)
    requires Layout(w, s) && k < |s.threads|
    ensures var t := s.threads[k].task; t.job == w.jobs(t.inv.key.stage).id && t.script == w.steps(t.inv.key)
  {
    assert TaskOk(w, s.threads[k].task);
  }

  lemma SlotColumns(sys: Sys, th: Thread)
    requires Slot(sys, th)
    ensures var t := th.task;
            t.script.stepId in sys.steps ==>
              && sys.steps[t.script.stepId].info == StepInfo(t.job, t.inv.name, t.inv.key.order, t.inv.group)
              && LivedThrough(sys.steps[t.script.stepId].life, t.script.create.now, t.script.start.now, t.script.final.now)
  {
  }

  // ---------- Execution rows and the executor's book ----------

  /** Poll event i of the step stored a phase that stamps a completion time, and no later one of the first n did. */
  predicate LastStamp(polls: seq<PollEvent>, n: nat, i: nat)
    requires n <= |polls|
  {
    && i < n && Stamps(polls[i]) && forall j :: i < j < n ==> !Stamps(polls[j])
  }

  predicate Stamps(e: PollEvent) {
    e.Observed? && e.write.ok && (e.phase == Success || e.phase == Failed || e.phase == Canceled)
  }

  /** The step's execution row, if it has one: its columns, and the time of the last write that ended it, if any did. */
  ghost predicate ExecColumns(w: World, sys: Sys, key: Key) {
    var sc := w.steps(key);
    sc.execId in sys.execs ==>
      var row := sys.execs[sc.execId];
      && row.step == sc.stepId && row.executorType == "kubernetes" && sc.submit == Some(row.externalId)
      && row.submittedAt == sc.record.now
      && (row.completedAt.Some? ==>
            exists n: nat, i: nat :: n <= |sc.polls| && LastStamp(sc.polls, n, i) && row.completedAt == Some(sc.polls[i].write.now))
  }

  lemma {:induction false} ExecAfterColumns(t: Task, handle: string, n: nat)
    requires n <= |t.script.polls|
    ensures var row := ExecAfter(t, handle, n);
            && row.step == t.script.stepId && row.executorType == "kubernetes" && row.externalId == handle
            && row.submittedAt == t.script.record.now
            && (row.completedAt.Some? ==>
                  exists i: nat :: LastStamp(t.script.polls, n, i) && row.completedAt == Some(t.script.polls[i].write.now))
  {
    if n > 0 {
      ExecAfterColumns(t, handle, n - 1);
      var row := ExecAfter(t, handle, n);
      if Stamps(t.script.polls[n - 1]) {
        assert LastStamp(t.script.polls, n, n - 1);
      } else if row.completedAt.Some? {
        var i: nat :| LastStamp(t.script.polls, n - 1, i) && row.completedAt == Some(t.script.polls[i].write.now);
        assert LastStamp(t.script.polls, n, i);
      }
    }
  }

  /** Every execution row of the step is one that some number of poll events leaves. */
  lemma SlotExec(sys: Sys, th: Thread) returns (n: nat)
    requires Slot(sys, th)
    ensures n <= |th.task.script.polls|
    ensures th.task.script.execId in sys.execs ==>
              th.task.script.submit.Some? && sys.execs[th.task.script.execId] == ExecAfter(th.task, th.task.script.submit.value, n)
  {
    n := match th.pc
         case AtPoll(m) => m
         case AtStore(m) => m
         case _ => Consumed(th.task);
  }

  lemma ExecRowColumns(w: World, s: State, k: nat)
    requires Layout(w, s) && StepTables(w, s) && k < |s.threads|
    ensures ExecColumns(w, s.sys, s.threads[k].task.inv.key)
  {
    hide Slot, TaskOk, ExecAfter, LastStamp;
    var t := s.threads[k].task;
    TaskBasics(w, s, k);
    var n := SlotExec(s.sys, s.threads[k]);
    if t.script.execId in s.sys.execs { ExecAfterColumns(t, t.script.submit.value, n); }
  }

  /** The step's entry in the executor's book, if it has one: the handle given out and the configured spec. */
  ghost predicate BookColumns(w: World, sys: Sys, key: Key) {
    key in sys.subs ==> w.steps(key).submit == Some(sys.subs[key].handle) && RunsAsConfigured(w, key, sys.subs[key].spec)
  }

  lemma SlotBook(sys: Sys, th: Thread)
    requires Slot(sys, th) && th.task.inv.key in sys.subs
    ensures th.task.script.submit == Some(sys.subs[th.task.inv.key].handle) && sys.subs[th.task.inv.key].spec == th.task.inv.spec
  {
  }

  lemma BookEntry(w: World, s: State, k: nat)
    requires Layout(w, s) && DeployOk(w, s) && StepTables(w, s) && k < |s.threads|
    ensures BookColumns(w, s.sys, s.threads[k].task.inv.key)
  {
    hide AsConfigured, DeployChoice, Slot, TaskOk, RunsAsConfigured;
    ThreadAsConfigured(w, s, k);
    TaskBasics(w, s, k);
    AsConfiguredParts(w, s.threads[k].task.inv);
    if s.threads[k].task.inv.key in s.sys.subs { SlotBook(s.sys, s.threads[k]); }
  }

  // ---------- Job rows ----------

  /** The stage's job row, if it has one, belongs to the run and is named after the stage. */
  predicate JobColumns(w: World, sys: Sys, st: Stage) {
    var id := w.jobs(st).id;
    id in sys.jobs ==>
      var info := sys.jobs[id].info;
      && info.run == w.run && info.name == info.jobType
      && (st == Build ==> info.jobType == "build")
      && (st == Test ==> info.jobType == "test")
      && (st == Deploy ==> info.jobType == "deploy")
      && LivedThrough(sys.jobs[id].life, w.jobs(st).create.now, w.jobs(st).start.now, w.jobs(st).final.now)
  }

  lemma JobRowColumns(w: World, s: State, st: Stage)
    requires JobTable(w, s)
    ensures JobColumns(w, s.sys, st)
  {
    assert JobOk(w, s.sys, st, PhaseOf(s.ctl, st));
  }

  // ---------- The run row ----------

  /** The run's row, if there is one, keeps what it was created with, and is stamped as it is started and finished. */
  predicate RunColumns(w: World, sys0: Sys, sys: Sys) {
    w.run in sys.runs ==>
      && w.run in sys0.runs && sys.runs[w.run].info == sys0.runs[w.run].info
      && (sys0.runs[w.run].life == NewLife(sys0.runs[w.run].life.createdAt) ==>
            LivedThrough(sys.runs[w.run].life, sys0.runs[w.run].life.createdAt, w.start.now, w.final.now))
  }

  lemma RunRowColumns(w: World, sys0: Sys, s: State)
    requires RunTable(w, sys0, s)
    ensures RunColumns(w, sys0, s.sys)
  {
  }

  // ---------- Unstarted steps ----------

  lemma UnusedColumns(w: World, s: State, key: Key)
    requires StepTables(w, s) && !IsStarted(s.made, key)
    ensures StepColumns(w, s.sys, key) && ExecColumns(w, s.sys, key) && BookColumns(w, s.sys, key)
  {
    hide Slot, Path, ExecColumns, BookColumns, StepColumns;
    assert Unused(w, s.sys, key);
    UnusedKey(w, s.sys, key);
  }

  lemma UnusedKey(w: World, sys: Sys, key: Key)
    requires Unused(w, sys, key)
    ensures StepColumns(w, sys, key) && ExecColumns(w, sys, key) && BookColumns(w, sys, key)
  {
  }

  /**
   The contents of what a run writes and submits, in every reachable state: each row it has written holds in every
   column what the configuration and the answers prescribe, and each submission is of the configured command.
   */
  lemma EveryColumn(w: World, sys0: Sys, schedule: seq<Action>)
    requires FreshIds(w, sys0)
    ensures
      var sys := After(w, sys0, schedule).sys;
      && (forall key :: StepColumns(w, sys, key))
      && (forall key :: ExecColumns(w, sys, key))
      && (forall key :: BookColumns(w, sys, key))
      && (forall st :: JobColumns(w, sys, st))
      && RunColumns(w, sys0, sys)
  {
    hide Slot, Path, Layout, StepTables, DeployOk, JobTable, RunTable, StepColumns, ExecColumns, BookColumns, JobColumns, RunColumns;
    var s := After(w, sys0, schedule);
    Always(w, sys0, schedule);
    forall key ensures StepColumns(w, s.sys, key) && ExecColumns(w, s.sys, key) && BookColumns(w, s.sys, key) {
      if IsStarted(s.made, key) {
        var k := ThreadOf(w, s, key);
        StepRowColumns(w, s, k);
        ExecRowColumns(w, s, k);
        BookEntry(w, s, k);
      } else {
        UnusedColumns(w, s, key);
      }
    }
    forall st ensures JobColumns(w, s.sys, st) { JobRowColumns(w, s, st); }
    RunRowColumns(w, sys0, s);
  }
}
