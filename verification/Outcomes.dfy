/** What a run has done when it halts: its submissions, its rows, and how far each stage got. */
module Outcomes {
  import opened Wrappers
  import opened States
  import opened Rows
  import opened Config
  import opened Executor
  import opened Steps
  import opened Pipeline
  import opened Interleaving
  import opened Reference
  import opened Engine
  import opened Shape
  import opened StepRows
  import opened Tables
  import opened Hierarchy
  import opened Ledger
  import opened Invariant
  import opened Answers
  import opened Safety
  import opened Provenance
  import Extent
  import Batching

  // ---------- Conservation of submissions ----------

  /** The three fates of a submission. */
  datatype Fate = SeenTerminal | CancelledOnce | LeftAlone

  predicate HasFate(w: World, sys: Sys, k: Key, f: Fate)
    requires k in sys.subs
  {
    var b := sys.subs[k];
    match f
    case SeenTerminal => b.observed.Some? && IsTerminalPhase(b.observed.value) && b.cancels == 0 && w.steps(k).execId in sys.execs
    case CancelledOnce => b.cancels == 1 && (b.observed.Some? ==> !IsTerminalPhase(b.observed.value)) && w.steps(k).execId in sys.execs
    case LeftAlone => b.polls == 0 && b.cancels == 0 && b.observed.None? && w.steps(k).execId !in sys.execs
  }

  /** The fate that the answers to a submitted step decide. */
  function FateOf(sc: StepScript): Fate {
    if !sc.record.ok then LeftAlone else if Decision(sc.polls) == Some(CtxDone) then CancelledOnce else SeenTerminal
  }

  /** The thread of a submitted step. */
  lemma CallOf(w: World, s: State, key: Key) returns (k: nat)
    requires Layout(w, s) && StepTables(w, s) && key in s.sys.subs
    ensures k < |s.threads| && s.threads[k].task.inv.key == key && s.threads[k].task.script == w.steps(key)
  {
    assert !IsStarted(s.made, key) ==> Unused(w, s.sys, key);
    k := ThreadOf(w, s, key);
  }

  /**
   Conservation: when a run has halted, each of its submissions has exactly one fate: its terminal phase was
   observed and it was never cancelled; it was cancelled exactly once and no terminal phase was observed; or its
   execution record was refused and it was neither polled nor cancelled. Which of the three it is follows from the
   answer to the record and from the event that ended the poll.
   */
  lemma Conservation(w: World, sys0: Sys, schedule: seq<Action>, key: Key)
    requires FreshIds(w, sys0)
    requires After(w, sys0, schedule).ctl.Halted? && key in After(w, sys0, schedule).sys.subs
    ensures
      var sys := After(w, sys0, schedule).sys;
      forall f :: HasFate(w, sys, key, f) <==> f == FateOf(w.steps(key))
  {
    var s := After(w, sys0, schedule);
    Always(w, sys0, schedule);
    var k := CallOf(w, s, key);
    RestingAllFinished(w, s);
    var t, err := s.threads[k].task, Result(s.threads[k]);
    assert Slot(s.sys, s.threads[k]);
    assert HasFate(w, s.sys, key, FateOf(w.steps(key)));
  }

  /** At no moment is a submission cancelled twice, or cancelled once its terminal phase has been observed. */
  lemma NoCancelAfterTerminal(w: World, sys0: Sys, schedule: seq<Action>, key: Key)
    requires FreshIds(w, sys0) && key in After(w, sys0, schedule).sys.subs
    ensures
      var b := After(w, sys0, schedule).sys.subs[key];
      b.cancels <= 1 && (b.cancels == 1 ==> b.observed.None? || !IsTerminalPhase(b.observed.value))
  {
    var s := After(w, sys0, schedule);
    Always(w, sys0, schedule);
    var k := CallOf(w, s, key);
    SlotCancels(s.sys, s.threads[k]);
  }

  lemma SlotCancels(sys: Sys, th: Thread)
    requires Slot(sys, th) && th.task.inv.key in sys.subs
    ensures var b := sys.subs[th.task.inv.key];
            b.cancels <= 1 && (b.cancels == 1 ==> b.observed.None? || !IsTerminalPhase(b.observed.value))
  {
  }

  // ---------- How steps end ----------

  /** Whatever the schedule, a call that is finished succeeded iff all the answers to it were the good ones. */
  lemma OutcomeOfStep(w: World, sys0: Sys, schedule: seq<Action>, k: nat)
    requires FreshIds(w, sys0) && k < |After(w, sys0, schedule).threads| && Finished(After(w, sys0, schedule).threads[k])
    ensures var th := After(w, sys0, schedule).threads[k]; Result(th).None? <==> ScriptSucceeds(w.steps(th.task.inv.key))
  {
    hide Slot, Path, ScriptSucceeds;
    Always(w, sys0, schedule);
    FinishedByScript(w, After(w, sys0, schedule), k);
  }

  // ---------- Execution rows ----------

  /** Event i of the step's poll told a phase, and the store accepted it. */
  ghost predicate HoldsLastStored(t: Task, n: nat, status: Status)
    requires n <= |t.script.polls|
  {
    || (status == Pending && forall i :: 0 <= i < n ==> !Stored(t, i))
    || exists i :: 0 <= i < n && Stored(t, i) && status == t.script.polls[i].phase && forall j :: i < j < n ==> !Stored(t, j)
  }

  /**
   Whatever the schedule, a finished step has an execution row exactly when it was submitted and recorded; the row
   holds the last phase that was stored before the poll ended, and `pending` if none was; and it is stamped
   complete exactly when some stored phase was one that the helper knows as an end.
   */
  lemma ExecutionRows(w: World, sys0: Sys, schedule: seq<Action>, k: nat)
    requires FreshIds(w, sys0) && k < |After(w, sys0, schedule).threads| && Finished(After(w, sys0, schedule).threads[k])
    ensures
      var execs, t := After(w, sys0, schedule).sys.execs, After(w, sys0, schedule).threads[k].task;
      && (t.script.execId in execs <==> Submits(t.script) && t.script.record.ok)
      && (t.script.execId in execs ==>
            var row, n := execs[t.script.execId], Consumed(t);
            && n <= |t.script.polls| && row == ExecAfter(t, t.script.submit.value, n)
            && HoldsLastStored(t, n, row.status)
            && (row.completedAt.Some? <==> exists i :: 0 <= i < n && Stored(t, i) && Finishes(t.script.polls[i].phase)))
  {
    hide Path, ExecAfter, Layout, JobTable;
    var s := After(w, sys0, schedule);
    Always(w, sys0, schedule);
    FinishedExec(s.sys, s.threads[k]);
  }

  lemma FinishedExec(sys: Sys, th: Thread)
    requires Slot(sys, th) && Finished(th)
    ensures
      var t := th.task;
      && (t.script.execId in sys.execs <==> Submits(t.script) && t.script.record.ok)
      && (t.script.execId in sys.execs ==>
            var row, n := sys.execs[t.script.execId], Consumed(t);
            && n <= |t.script.polls| && row == ExecAfter(t, t.script.submit.value, n)
            && HoldsLastStored(t, n, row.status)
            && (row.completedAt.Some? <==> exists i :: 0 <= i < n && Stored(t, i) && Finishes(t.script.polls[i].phase)))
  {
    hide ExecAfter;
    var t := th.task;
    if Submits(t.script) {
      ExecHoldsLastAccepted(t, t.script.submit.value, Consumed(t));
      ExecCompletedExactly(t, t.script.submit.value, Consumed(t));
    }
  }

  // ---------- Exact work ----------

  /** Everything that was planned was started, submitted, observed to succeed, and written down. */
  ghost predicate AllWorkDone(w: World, s: State) {
    && s.made == Made(Planned(w, Build), Planned(w, Test), Planned(w, Deploy))
    && |s.sys.starts| == Planned(w, Build) + Planned(w, Test) + Planned(w, Deploy)
    && (forall k :: 0 <= k < |s.sys.starts| ==> s.sys.starts[k].key == KeyAt(s.made, k))
    && (forall key :: key in s.sys.subs <==> IsStarted(s.made, key))
    && (forall key :: key in s.sys.subs ==> s.sys.subs[key].observed == Some(Succeeded) && s.sys.subs[key].cancels == 0)
    && (forall k :: 0 <= k < |s.threads| ==> HasStep(s.sys, s.threads[k].task, FinalRow(s.threads[k].task, None)))
    && (forall st :: if Configured(w, st) then HasJob(w, s.sys, st, EndedJobRow(w, st, None)) else JobId(w, st) !in s.sys.jobs)
  }

  lemma QuietWorkDone(w: World, sys0: Sys, s: State)
    requires Inv(w, sys0, s) && s.ctl == Halted(None)
    ensures AllWorkDone(w, s)
  {
    forall k | 0 <= k < |s.threads|
      ensures HasStep(s.sys, s.threads[k].task, FinalRow(s.threads[k].task, None))
      ensures s.threads[k].task.inv.key in s.sys.subs && s.sys.subs[s.threads[k].task.inv.key].observed == Some(Succeeded)
              && s.sys.subs[s.threads[k].task.inv.key].cancels == 0
    {
      assert Succeeds(s.threads[k]) && Slot(s.sys, s.threads[k]);
    }
    forall key ensures key in s.sys.subs <==> IsStarted(s.made, key) {
      if IsStarted(s.made, key) {
        var k := ThreadOf(w, s, key);
      } else {
        assert Unused(w, s.sys, key);
      }
    }
    forall key | key in s.sys.subs ensures s.sys.subs[key].observed == Some(Succeeded) && s.sys.subs[key].cancels == 0 {
      var k := CallOf(w, s, key);
    }
    forall st ensures if Configured(w, st) then HasJob(w, s.sys, st, EndedJobRow(w, st, None)) else JobId(w, st) !in s.sys.jobs {
      assert JobOk(w, s.sys, st, PhaseOf(s.ctl, st));
    }
  }

  /**
   Exact work: a halted run's row says `success` exactly when its final write was accepted, the context was not
   done at the switch, and every configured stage returned without error; it says `canceled` whenever the
   context was done there; a run that returned without error did all the planned work, and the rows it added are exactly those
   of its steps, executions, jobs and outputs. In terms of the answers: a run returns without error iff all of them
   were good, provided the database lists artifacts correctly.
   */
  lemma ExactWork(w: World, sys0: Sys, schedule: seq<Action>)
    requires FreshIds(w, sys0) && PendingRun(w, sys0) && After(w, sys0, schedule).ctl.Halted?
    ensures
      var s := After(w, sys0, schedule);
      var row := StatusIn(s.sys.runs, w.run);
      && (row == Some(Success) <==> w.final.ok && !s.seen && s.ctl.err.None?)
      && (row == Some(Canceled) <==> w.final.ok && s.seen && s.ctl.err != Some(RunStartRefused))
      && (row == Some(Failed) <==> w.final.ok && !s.seen && s.ctl.err.Some? && s.ctl.err != Some(RunStartRefused))
      && (s.ctl.err.None? ==> AllWorkDone(w, s))
      && Extent.ExactRows(w, sys0, s)
      && (SoundTables(sys0) && SoundListing(w) ==> (s.ctl.err.None? <==> AllGood(w, sys0)))
  {
    hide AllWorkDone, Extent.ExactRows, AllGood, WellShaped, StepTables, JobTable;
    var s := After(w, sys0, schedule);
    Always(w, sys0, schedule);
    Extent.ExactlyItsRows(w, sys0, schedule);
    if s.ctl.err.None? { QuietWorkDone(w, sys0, s); }
    if SoundTables(sys0) && SoundListing(w) { ErrorFree(w, sys0, schedule); }
  }

  /** The context that the switch found done had been cancelled. */
  lemma CanceledMeansCancelled(w: World, sys0: Sys, schedule: seq<Action>)
    requires FreshIds(w, sys0) && PendingRun(w, sys0)
    requires StatusIn(After(w, sys0, schedule).sys.runs, w.run) == Some(Canceled)
    ensures After(w, sys0, schedule).cancelled
  {
    Always(w, sys0, schedule);
  }

  // ---------- Failure prefix ----------

  /** One past the steps a test stage starts when step f is its first failing one. */
  function CallsUpTo(steps: seq<TestStep>, f: nat): nat
    requires f < |steps|
  {
    if steps[f].parallel then Batching.BatchEnd(steps, f) else f + 1
  }

  /** Exactly the steps of stage `st` up to and including n were called, and none failed before `clean`. */
  predicate CleanUpTo(w: World, st: Stage, clean: nat) { forall i :: 0 <= i < clean ==> StepSucceeds(w, Key(st, i)) }

  ghost predicate BuildPrefix(w: World, n: nat, e: Error) {
    match e
    case StepError(k, _) => n > 0 && k == Key(Build, n - 1) && CleanUpTo(w, Build, n - 1) && !StepSucceeds(w, k)
    case RegisterRefused(i, _) => n == i + 1 && CleanUpTo(w, Build, n)
    case _ => n == 0
  }

  ghost predicate TestPrefix(w: World, n: nat, e: Error) {
    match e
    case StepError(k, _) =>
      exists f: nat :: f < |TestSteps(w)| && CleanUpTo(w, Test, f) && !StepSucceeds(w, Key(Test, f))
                       && n == CallsUpTo(TestSteps(w), f) && f <= k.order < n && !StepSucceeds(w, k)
    case _ => n == 0
  }

  ghost predicate DeployPrefix(w: World, n: nat, e: Error) {
    match e
    case StepError(k, _) => n == 1 && k == Key(Deploy, 0) && !StepSucceeds(w, k)
    case _ => n == 0
  }

  /** The stages before the failing one are complete, those after it not begun, and it started the steps it had to. */
  ghost predicate FailedPrefix(w: World, s: State, e: Error) {
    var st := ErrStage(e);
    var n := Count(s.made, st);
    && (forall x :: StageRank(x) < StageRank(st) ==> Count(s.made, x) == Planned(w, x) && CleanUpTo(w, x, Planned(w, x)))
    && (forall x :: StageRank(x) > StageRank(st) ==> Count(s.made, x) == 0 && JobId(w, x) !in s.sys.jobs)
    && match st
       case Build => BuildPrefix(w, n, e)
       case Test => TestPrefix(w, n, e)
       case Deploy => DeployPrefix(w, n, e)
  }

  /** Position of the call with key (st, i) among the threads. */
  function PlaceOf(m: Made, st: Stage, i: nat): nat {
    match st
    case Build => i
    case Test => m.build + i
    case Deploy => m.build + m.test + i
  }

  lemma CallAt(w: World, s: State, st: Stage, i: nat)
    requires Layout(w, s) && i < Count(s.made, st)
    ensures PlaceOf(s.made, st, i) < |s.threads| && s.threads[PlaceOf(s.made, st, i)].task.inv.key == Key(st, i)
  {
    assert s.threads[PlaceOf(s.made, st, i)].task.inv.key == KeyAt(s.made, PlaceOf(s.made, st, i));
  }

  /** Calls placed before thread `lo`, all of which succeeded, had good answers. */
  lemma CleanBefore(w: World, s: State, st: Stage, clean: nat, lo: nat)
    requires Layout(w, s) && StepTables(w, s) && AllSucceeded(s, lo)
    requires clean <= Count(s.made, st) && (clean > 0 ==> PlaceOf(s.made, st, clean - 1) < lo)
    ensures CleanUpTo(w, st, clean)
  {
    forall i | 0 <= i < clean ensures StepSucceeds(w, Key(st, i)) {
      CallAt(w, s, st, i);
      assert Succeeds(s.threads[PlaceOf(s.made, st, i)]);
      FinishedByScript(w, s, PlaceOf(s.made, st, i));
    }
  }

  lemma SameEnd(steps: seq<TestStep>, i: nat, f: nat)
    requires i <= f < |steps| && Batching.AllParallel(steps, i, f + 1)
    ensures Batching.BatchEnd(steps, i) == Batching.BatchEnd(steps, f)
    decreases f - i
  {
    if i < f { SameEnd(steps, i + 1, f); }
  }

  /** The first failing step of a batch, at or before the one the error came from. */
  lemma FirstFailure(w: World, i: nat, bad: nat) returns (f: nat)
    requires i <= bad && !StepSucceeds(w, Key(Test, bad))
    ensures i <= f <= bad && !StepSucceeds(w, Key(Test, f)) && forall j :: i <= j < f ==> StepSucceeds(w, Key(Test, j))
    decreases bad - i
  {
    if !StepSucceeds(w, Key(Test, i)) { f := i; } else { f := FirstFailure(w, i + 1, bad); }
  }

  /** The error of a stage that stopped in a step is that of a failing call of the stage. */
  lemma StoppingCall(w: World, s: State, st: Stage, n: nat, lo: nat, e: Error) returns (k: nat)
    requires Layout(w, s) && StepTables(w, s) && StoppedAt(w, s, st, n, lo, e) && lo < |s.threads|
    ensures lo <= k < |s.threads| && Count(s.made, st) == n > 0
    ensures e.StepError? && e.key == s.threads[k].task.inv.key && e.key.stage == st && ErrStage(e) == st
    ensures !StepSucceeds(w, e.key) && k == PlaceOf(s.made, st, e.key.order) && e.key.order < n
  {
    hide Slot, Path;
    k :| lo <= k < |s.threads| && Result(s.threads[k]) == Some(e);
    ThreadErrorHome(w, s, k, e);
    FinishedByScript(w, s, k);
    assert s.threads[k].task.inv.key == KeyAt(s.made, k);
  }

  lemma TestStopped(w: World, s: State, n: nat, lo: nat, e: Error)
    requires Layout(w, s) && StepTables(w, s) && StoppedAt(w, s, Test, n, lo, e) && lo < |s.threads|
    ensures ErrStage(e) == Test && TestPrefix(w, n, e)
  {
    var k := StoppingCall(w, s, Test, n, lo, e);
    var size := |s.threads| - lo;
    CleanBefore(w, s, Test, n - size, lo);
    var f := FirstFailure(w, n - size, e.key.order);
    LastCallsEnd(w, s, n, lo, f);
  }

  /** The last direct call or batch of a test stage ends where the steps started up to any of its steps end. */
  lemma LastCallsEnd(w: World, s: State, n: nat, lo: nat, f: nat)
    requires Layout(w, s) && CountsAt(w, s.made, Test, n) && n <= |TestSteps(w)| && lo < |s.threads|
    requires LastCalls(w, s, Test, n, lo) && n - (|s.threads| - lo) <= f < n
    ensures CallsUpTo(TestSteps(w), f) == n
  {
    if |s.threads| - lo == 1 && !Goroutine(s.threads[lo]) {
      assert s.threads[lo].task.inv.key == KeyAt(s.made, lo) == Key(Test, n - 1);
      assert TaskOk(w, s.threads[lo].task);
    } else {
      SameEnd(TestSteps(w), n - (|s.threads| - lo), f);
    }
  }

  lemma OtherStopped(w: World, s: State, st: Stage, n: nat, lo: nat, e: Error)
    requires Layout(w, s) && StepTables(w, s) && StoppedAt(w, s, st, n, lo, e) && lo < |s.threads| && st != Test
    ensures ErrStage(e) == st && (st == Build ==> BuildPrefix(w, n, e)) && (st == Deploy ==> DeployPrefix(w, n, e))
  {
    var k := StoppingCall(w, s, st, n, lo, e);
    CleanBefore(w, s, st, n - 1, lo);
  }

  lemma StoppedPrefix(w: World, s: State, st: Stage, e: Error)
    requires Layout(w, s) && StepTables(w, s) && Stopped(w, s, st, e)
    ensures ErrStage(e) == st && CountsAt(w, s.made, st, Count(s.made, st))
    ensures st == Build ==> BuildPrefix(w, s.made.build, e)
    ensures st == Test ==> TestPrefix(w, s.made.test, e)
    ensures st == Deploy ==> DeployPrefix(w, s.made.deploy, e)
    ensures forall x :: StageRank(x) < StageRank(st) ==> CleanUpTo(w, x, Planned(w, x))
  {
    var n, lo :| StoppedAt(w, s, st, n, lo, e);
    if lo == |s.threads| {
      if st == Build { CleanBefore(w, s, Build, n, lo); }
    } else if st == Test { TestStopped(w, s, n, lo, e); } else { OtherStopped(w, s, st, n, lo, e); }
    forall x | StageRank(x) < StageRank(st) ensures CleanUpTo(w, x, Planned(w, x)) { EarlierClean(w, s, st, n, lo, e, x); }
  }

  lemma EarlierClean(w: World, s: State, st: Stage, n: nat, lo: nat, e: Error, x: Stage)
    requires Layout(w, s) && StepTables(w, s) && StoppedAt(w, s, st, n, lo, e) && StageRank(x) < StageRank(st)
    ensures CleanUpTo(w, x, Planned(w, x))
  {
    CleanBefore(w, s, x, Planned(w, x), lo);
  }

  lemma HaltedPrefix(w: World, s: State, e: Error)
    requires Layout(w, s) && StepTables(w, s) && JobTable(w, s) && Ended(w, s, Some(e))
    requires s.ctl == Halted(Some(e)) && e != RunStartRefused
    ensures FailedPrefix(w, s, e)
  {
    var st :| Stopped(w, s, st, e);
    StoppedPrefix(w, s, st, e);
    forall x | StageRank(x) > StageRank(st) ensures JobId(w, x) !in s.sys.jobs { LaterAbsent(w, s, e, x); }
    PrefixFromCounts(w, s, st, e);
  }

  lemma LaterAbsent(w: World, s: State, e: Error, x: Stage)
    requires JobTable(w, s) && s.ctl == Halted(Some(e)) && e != RunStartRefused && StageRank(x) > StageRank(ErrStage(e))
    ensures JobId(w, x) !in s.sys.jobs
  {
    assert JobOk(w, s.sys, x, PhaseOf(s.ctl, x));
  }

  lemma PrefixFromCounts(w: World, s: State, st: Stage, e: Error)
    requires ErrStage(e) == st && CountsAt(w, s.made, st, Count(s.made, st))
    requires st == Build ==> BuildPrefix(w, s.made.build, e)
    requires st == Test ==> TestPrefix(w, s.made.test, e)
    requires st == Deploy ==> DeployPrefix(w, s.made.deploy, e)
    requires forall x :: StageRank(x) < StageRank(st) ==> CleanUpTo(w, x, Planned(w, x))
    requires forall x :: StageRank(x) > StageRank(st) ==> JobId(w, x) !in s.sys.jobs
    ensures FailedPrefix(w, s, e)
  {
  }

  /**
   Failure prefix: a halted run that failed after it was started has completed every stage before the failing
   one, has no job row for any later stage, and has started in the failing stage exactly: for build, the steps
   up to the failing step or the step whose output was refused; for test, the steps up to the end of the batch
   (or the single step) that holds the first failing step; for deploy, at most the one step. The answer behind the
   error is the bad one, every output registered was accepted and came from a successful step, and the state of
   every job and step row is the one its answers lead to.
   */
  lemma FailurePrefix(w: World, sys0: Sys, schedule: seq<Action>)
    requires FreshIds(w, sys0)
    requires var c := After(w, sys0, schedule).ctl; c.Halted? && c.err.Some? && c.err != Some(RunStartRefused)
    ensures FailedPrefix(w, After(w, sys0, schedule), After(w, sys0, schedule).ctl.err.value)
    ensures FailedRows(w, After(w, sys0, schedule), After(w, sys0, schedule).ctl.err.value)
  {
    hide FailedPrefix, JobOk, Slot, Path, StepStatus, JobStatus;
    var s := After(w, sys0, schedule);
    Always(w, sys0, schedule);
    HaltedPrefix(w, s, s.ctl.err.value);
    AlwaysAnswered(w, sys0, schedule);
    RowStates(w, sys0, schedule);
    HaltedRows(w, s, s.ctl.err.value);
  }

  /** The bad answer behind an error other than that of a step. */
  predicate Refused(w: World, s: State, e: Error) {
    match e
    case JobCreateRefused(st) => Configured(w, st) && !w.jobs(st).create.ok
    case JobStartRefused(st) => Configured(w, st) && w.jobs(st).create.ok && !w.jobs(st).start.ok
    case _ => CausedBy(w, s, e)
  }

  ghost predicate FailedRows(w: World, s: State, e: Error) {
    && Refused(w, s, e)
    && (var (i, j) := EndPlace(w, Some(e)); RegisteredWell(w, i, j))
    && (forall st :: JobAnswers(w, st, EndPhase(Some(e), st))
                     && StatusIn(s.sys.jobs, JobId(w, st)) == JobStatus(w, st, EndPhase(Some(e), st)))
    && (forall k :: 0 <= k < |s.threads| ==> StepRowState(s, k) == ReturnedStatus(s.threads[k].task.script))
  }

  lemma HaltedRows(w: World, s: State, e: Error)
    requires Ended(w, s, Some(e)) && s.ctl == Halted(Some(e)) && e != RunStartRefused && Answered(w, s)
    requires forall st :: StatusIn(s.sys.jobs, JobId(w, st)) == JobStatus(w, st, PhaseOf(s.ctl, st))
    requires forall k :: 0 <= k < |s.threads| ==> StepRowState(s, k) == StepStatus(s.threads[k])
    requires StepTables(w, s) && Layout(w, s)
    ensures FailedRows(w, s, e)
  {
    hide JobStatus, CausedBy, RegisteredWell, Slot, Path;
    EndedAllFinished(w, s, Some(e));
    forall st ensures JobAnswers(w, st, EndPhase(Some(e), st)) { assert JobAnswers(w, st, PhaseOf(s.ctl, st)); }
    var st :| Stopped(w, s, st, e);
    StoppedConfigured(w, s, st, e);
    assert JobAnswers(w, st, EndPhase(Some(e), st));
    assert (var (i, j) := EndPlace(w, Some(e)); RegisteredWell(w, i, j));
  }

  /** A stage that stopped was configured, and its error is one of its own. */
  lemma StoppedConfigured(w: World, s: State, st: Stage, e: Error)
    requires Layout(w, s) && StepTables(w, s) && Stopped(w, s, st, e)
    ensures Configured(w, st) && ErrStage(e) == st
    ensures e.StepError? ==> e.key.order < Planned(w, st) && e.key.stage == st && !StepSucceeds(w, e.key)
  {
    hide Slot, Path, TaskOk, StepSucceeds;
    var n: nat, lo: nat :| StoppedAt(w, s, st, n, lo, e);
    if lo < |s.threads| { var k := StoppingCall(w, s, st, n, lo, e); }
  }

  // ---------- When a run ends without error ----------

  /** The run row exists and every answer the run asks for is the good one. */
  ghost predicate AllGood(w: World, sys0: Sys) {
    && w.run in sys0.runs && w.start.ok
    && (forall st :: Configured(w, st) ==> w.jobs(st).create.ok && w.jobs(st).start.ok)
    && (forall k: Key :: k.order < Planned(w, k.stage) ==> StepSucceeds(w, k))
    && (forall i, j :: IsOutput(w, i, j) ==> w.artifacts(i, j).create.ok)
    && (Configured(w, Deploy) ==> w.listOk && exists p, q :: Wanted(w, p, q))
  }

  /** With a correct listing, an empty search means that the run's build declares no output of the wanted type. */
  lemma NothingWanted(w: World, sys0: Sys, s: State)
    requires FreshIds(w, sys0) && SoundTables(sys0) && SoundListing(w) && LedgerOk(w, sys0, s)
    requires s.ctl == Halted(Some(NoArtifact)) && CausedBy(w, s, NoArtifact)
    ensures !exists p, q :: Wanted(w, p, q)
  {
    FoundIsWanted(w, sys0, s.sys.arts, s.buildJob);
  }

  lemma ErrorMeansBad(w: World, sys0: Sys, s: State, e: Error)
    requires FreshIds(w, sys0) && SoundTables(sys0) && SoundListing(w)
    requires Inv(w, sys0, s) && Answered(w, s) && s.ctl == Halted(Some(e))
    ensures !AllGood(w, sys0)
  {
    hide Slot, Path, TaskOk, StepSucceeds, JobOk, WellShaped, RegisteredWell, LedgerOk;
    if e != RunStartRefused {
      var st := EndedStage(w, s, e);
      assert JobAnswers(w, st, PhaseOf(s.ctl, st));
      if e == NoArtifact { NothingWanted(w, sys0, s); }
    }
  }

  lemma EndedStage(w: World, s: State, e: Error) returns (st: Stage)
    requires WellShaped(w, s) && StepTables(w, s) && s.ctl == Halted(Some(e)) && e != RunStartRefused
    ensures Configured(w, st) && ErrStage(e) == st
    ensures e.StepError? ==> e.key.order < Planned(w, st) && e.key.stage == st && !StepSucceeds(w, e.key)
  {
    hide Slot, Path, TaskOk, StepSucceeds;
    st :| Stopped(w, s, st, e);
    StoppedConfigured(w, s, st, e);
  }

  lemma NoErrorMeansGood(w: World, sys0: Sys, s: State)
    requires FreshIds(w, sys0) && SoundTables(sys0) && SoundListing(w) && Inv(w, sys0, s) && Answered(w, s)
    requires s.ctl == Halted(None)
    ensures AllGood(w, sys0)
  {
    hide Slot, Path, TaskOk, StepSucceeds, JobOk, LedgerOk;
    forall st | Configured(w, st) ensures w.jobs(st).create.ok && w.jobs(st).start.ok {
      assert JobAnswers(w, st, PhaseOf(s.ctl, st));
    }
    forall st ensures CleanUpTo(w, st, Planned(w, st)) { CleanBefore(w, s, st, Planned(w, st), |s.threads|); }
    forall k: Key | k.order < Planned(w, k.stage) ensures StepSucceeds(w, k) {
      assert CleanUpTo(w, k.stage, Planned(w, k.stage)) && k == Key(k.stage, k.order);
    }
    forall i, j | IsOutput(w, i, j) ensures w.artifacts(i, j).create.ok {
      assert OutputBefore(w, i, j, |BuildSteps(w)|, 0);
    }
    if Configured(w, Deploy) {
      var last := |s.threads| - 1;
      assert s.threads[last].task.inv.key == KeyAt(s.made, last);
      var p, q, m := ChosenIsOwn(w, sys0, s, last);
      assert DeployChoice(w, s, s.threads[last].task);
    }
  }

  /** A halted run returned without error iff every answer was the good one. */
  lemma ErrorFree(w: World, sys0: Sys, schedule: seq<Action>)
    requires FreshIds(w, sys0) && SoundTables(sys0) && SoundListing(w) && After(w, sys0, schedule).ctl.Halted?
    ensures After(w, sys0, schedule).ctl.err.None? <==> AllGood(w, sys0)
  {
    hide Inv, Answered, AllGood;
    var s := After(w, sys0, schedule);
    Always(w, sys0, schedule);
    AlwaysAnswered(w, sys0, schedule);
    if s.ctl.err.None? { NoErrorMeansGood(w, sys0, s); } else { ErrorMeansBad(w, sys0, s, s.ctl.err.value); }
  }

  // ---------- Parallel errors ----------

  ghost predicate NoDuplicates(errs: seq<Error>) { forall i, j :: 0 <= i < j < |errs| ==> errs[i] != errs[j] }

  /** A goroutine that appends its error is the first to do so. */
  lemma GoNoDuplicates(w: World, s: State, k: nat)
    requires WellShaped(w, s) && StepTables(w, s) && GoEnabled(s, k) && NoDuplicates(s.errs)
    ensures NoDuplicates(GoStep(s, k).errs)
  {
    hide Move, Slot, NoDuplicates, StepTables, Layout;
    var th := s.threads[k];
    ActiveIsCurrent(w, s, k);
    if th.pc.AtReturn? && th.pc.err.Some? {
      forall e | e in s.errs ensures e != th.pc.err.value { NotYetReported(w, s, k, e); }
      AppendNew(s.errs, th.pc.err.value);
    }
  }

  lemma AppendNew(errs: seq<Error>, e: Error)
    requires NoDuplicates(errs) && e !in errs
    ensures NoDuplicates(errs + [e])
  {
  }

  lemma KeysDiffer(w: World, s: State, j: nat, k: nat)
    requires Layout(w, s) && j < |s.threads| && k < |s.threads| && j != k
    ensures s.threads[j].task.inv.key != s.threads[k].task.inv.key
  {
    hide TaskOk;
    assert KeyAt(s.made, j) != KeyAt(s.made, k);
  }

  lemma NotYetReported(w: World, s: State, k: nat, e: Error)
    requires Layout(w, s) && StepTables(w, s) && s.base <= |s.threads| && ErrorsOf(s.threads[s.base..], s.errs) && e in s.errs
    requires k < |s.threads| && s.threads[k].pc.AtReturn?
    ensures s.threads[k].pc.err != Some(e)
  {
    hide Slot, Path, Layout, StepTables;
    var j := Reporter(s, e);
    ThreadErrorHome(w, s, j, e);
    KeysDiffer(w, s, j, k);
    if s.threads[k].pc.err.Some? { ThreadErrorHome(w, s, k, s.threads[k].pc.err.value); }
  }

  lemma MainErrsList(w: World, s: State)
    requires Placed(w, s.ctl) && MainEnabled(s)
    ensures MainStep(w, s).errs == s.errs || MainStep(w, s).errs == []
  {
    match s.ctl
    case AtStep(st, i) => TopErrsList(w, s, st, i);
    case Inline(_, _) =>
    case Spawning(_, _) =>
    case Joining(_, _) =>
    case Registering(_, _) =>
    case Starting =>
    case Considering(_) =>
    case JobCreated(_) =>
    case JobFinal(_, _) =>
    case Choosing(_) =>
    case RunFinalWrite(_, _) =>
  }

  lemma TopErrsList(w: World, s: State, st: Stage, i: nat)
    requires Placed(w, AtStep(st, i))
    ensures StepTop(w, s, st, i).errs == s.errs || StepTop(w, s, st, i).errs == []
  {
  }

  lemma {:induction false} AlwaysNoDuplicates(w: World, sys0: Sys, schedule: seq<Action>)
    requires FreshIds(w, sys0)
    ensures NoDuplicates(After(w, sys0, schedule).errs)
  {
    hide Inv, MainStep, GoStep;
    if schedule != [] {
      var front, a := schedule[..|schedule| - 1], schedule[|schedule| - 1];
      AlwaysNoDuplicates(w, sys0, front);
      Always(w, sys0, front);
      NextNoDuplicates(w, sys0, After(w, sys0, front), a);
    }
  }

  lemma NextNoDuplicates(w: World, sys0: Sys, s: State, a: Action)
    requires Inv(w, sys0, s) && NoDuplicates(s.errs)
    ensures NoDuplicates(Next(w, s, a).errs)
  {
    hide MainStep, GoStep;
    if Enabled(w, s, a) {
      match a
      case CancelCtx =>
      case Main => MainErrsList(w, s);
      case Go(k) => GoNoDuplicates(w, s, k);
    }
  }

  /**
   When a batch is waited out, every goroutine of it is done, and the error list is empty iff every step of
   the batch succeeded; it holds the error of each failing step of the batch once, and nothing else.
   */
  lemma BatchErrors(w: World, sys0: Sys, schedule: seq<Action>)
    requires FreshIds(w, sys0)
    requires After(w, sys0, schedule).ctl.Joining? && After(w, sys0, schedule).wg == 0
    ensures
      var s := After(w, sys0, schedule);
      && s.base <= |s.threads| && (forall k :: s.base <= k < |s.threads| ==> s.threads[k].pc.Done?)
      && (s.errs == [] <==> forall k :: s.base <= k < |s.threads| ==> StepSucceeds(w, s.threads[k].task.inv.key))
      && (forall e :: e in s.errs <==> exists k :: s.base <= k < |s.threads| && s.threads[k].pc == Done(Some(e)))
      && NoDuplicates(s.errs)
  {
    var s := After(w, sys0, schedule);
    Always(w, sys0, schedule);
    AlwaysNoDuplicates(w, sys0, schedule);
    AllDone(s);
    DoneErrs(s);
    DoneByScript(w, s);
  }

  lemma AllDone(s: State)
    requires s.base <= |s.threads| && Live(s.threads[s.base..]) == 0
    ensures forall k :: s.base <= k < |s.threads| ==> s.threads[k].pc.Done?
  {
    NoneLive(s.threads[s.base..]);
    forall k | s.base <= k < |s.threads| ensures s.threads[k].pc.Done? {
      assert s.threads[s.base..][k - s.base] == s.threads[k];
    }
  }

  lemma DoneByScript(w: World, s: State)
    requires Layout(w, s) && StepTables(w, s)
    requires forall k :: s.base <= k < |s.threads| ==> s.threads[k].pc.Done?
    ensures forall k :: s.base <= k < |s.threads| ==>
              (Result(s.threads[k]).None? <==> StepSucceeds(w, s.threads[k].task.inv.key))
  {
    forall k | s.base <= k < |s.threads|
      ensures Result(s.threads[k]).None? <==> StepSucceeds(w, s.threads[k].task.inv.key)
    {
      FinishedByScript(w, s, k);
    }
  }

  lemma DoneErrs(s: State)
    requires s.base <= |s.threads| && ErrorsOf(s.threads[s.base..], s.errs)
    requires forall k :: s.base <= k < |s.threads| ==> s.threads[k].pc.Done?
    ensures forall e :: e in s.errs <==> exists k :: s.base <= k < |s.threads| && s.threads[k].pc == Done(Some(e))
    ensures s.errs == [] <==> forall k :: s.base <= k < |s.threads| ==> Result(s.threads[k]).None?
  {
    var ts := s.threads[s.base..];
    forall k | s.base <= k < |s.threads| ensures ts[k - s.base] == s.threads[k] {}
    if s.errs != [] { var k := Reporter(s, s.errs[0]); }
    forall e ensures e in s.errs <==> exists k :: s.base <= k < |s.threads| && s.threads[k].pc == Done(Some(e)) {
      if e in s.errs {
        var k := Reporter(s, e);
        assert s.threads[k].pc == Done(Some(e));
      }
    }
  }

  // ---------- Timestamps ----------

  /**
   The run row of a halted run: if the store clock did not run backwards, created <= started <= finished, and
   the row has a finish time exactly when its state is terminal.
   */
  lemma RunTimes(w: World, sys0: Sys, schedule: seq<Action>)
    requires FreshIds(w, sys0) && PendingRun(w, sys0) && w.run in sys0.runs
    requires sys0.runs[w.run].life.startedAt.None? && sys0.runs[w.run].life.finishedAt.None?
    requires sys0.runs[w.run].life.createdAt <= w.start.now <= w.final.now
    ensures
      var runs := After(w, sys0, schedule).sys.runs;
      && w.run in runs
      && var l := runs[w.run].life;
         && (l.startedAt.Some? ==> l.createdAt <= l.startedAt.value)
         && (l.finishedAt.Some? ==> l.startedAt.Some? && l.startedAt.value <= l.finishedAt.value)
         && (l.finishedAt.Some? <==> IsTerminalRun(l.status))
  {
    Always(w, sys0, schedule);
    RunTableTimes(w, sys0, After(w, sys0, schedule));
  }

  lemma RunTableTimes(w: World, sys0: Sys, s: State)
    requires RunTable(w, sys0, s) && w.run in sys0.runs && sys0.runs[w.run].life.status == Pending
    requires sys0.runs[w.run].life.startedAt.None? && sys0.runs[w.run].life.finishedAt.None?
    requires sys0.runs[w.run].life.createdAt <= w.start.now <= w.final.now
    ensures w.run in s.sys.runs
    ensures var l := s.sys.runs[w.run].life;
            && (l.startedAt.Some? ==> l.createdAt <= l.startedAt.value)
            && (l.finishedAt.Some? ==> l.startedAt.Some? && l.startedAt.value <= l.finishedAt.value)
            && (l.finishedAt.Some? <==> IsTerminalRun(l.status))
  {
  }

  /**
   Job and step rows are different: `succeeded` is not among the states that stamp a finish time, so a row of
   this run has a finish time exactly when it failed, and a terminal row lacks one exactly when it succeeded.
   */
  lemma FinishTimeOnlyOnFailure(w: World, sys0: Sys, schedule: seq<Action>)
    requires FreshIds(w, sys0)
    ensures
      var s := After(w, sys0, schedule);
      && (forall st :: JobId(w, st) in s.sys.jobs ==> StampedIfFailed(s.sys.jobs[JobId(w, st)].life))
      && (forall k :: 0 <= k < |s.threads| && s.threads[k].task.script.stepId in s.sys.steps ==>
            StampedIfFailed(s.sys.steps[s.threads[k].task.script.stepId].life))
  {
    var s := After(w, sys0, schedule);
    Always(w, sys0, schedule);
    forall st | JobId(w, st) in s.sys.jobs ensures StampedIfFailed(s.sys.jobs[JobId(w, st)].life) { JobStamps(w, s, st); }
    forall k | 0 <= k < |s.threads| && s.threads[k].task.script.stepId in s.sys.steps
      ensures StampedIfFailed(s.sys.steps[s.threads[k].task.script.stepId].life)
    {
      StepStamps(s.sys, s.threads[k]);
    }
  }

  predicate StampedIfFailed(l: Life) { l.finishedAt.Some? <==> l.status == Failed }

  lemma JobStamps(w: World, s: State, st: Stage)
    requires JobTable(w, s) && JobId(w, st) in s.sys.jobs
    ensures StampedIfFailed(s.sys.jobs[JobId(w, st)].life)
  {
    assert JobOk(w, s.sys, st, PhaseOf(s.ctl, st));
  }

  lemma StepStamps(sys: Sys, th: Thread)
    requires Slot(sys, th) && th.task.script.stepId in sys.steps
    ensures StampedIfFailed(sys.steps[th.task.script.stepId].life)
  {
  }
}
