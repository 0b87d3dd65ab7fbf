/** The step rows of a run in every reachable state: each started step owns its rows, and the others own none. */
module Tables {
  import opened Wrappers
  import opened States
  import opened Rows
  import opened Config
  import opened Executor
  import opened Steps
  import opened Pipeline
  import opened Interleaving
  import opened Reference
  import opened Engine
  import opened Shape
  import opened StepRows
  import Batching

  predicate IsStarted(m: Made, k: Key) { k.order < Count(m, k.stage) }

  predicate Unused(w: World, sys: Sys, k: Key) {
    w.steps(k).stepId !in sys.steps && w.steps(k).execId !in sys.execs && k !in sys.subs
  }

  ghost predicate StepTables(w: World, s: State) {
    && (forall k :: 0 <= k < |s.threads| ==> Slot(s.sys, s.threads[k]))
    && (forall k :: 0 <= k < |s.threads| ==> Path(s.threads[k]))
    && (forall k :: 0 <= k < |s.threads| ==> s.threads[k].task.job in s.sys.jobs)
    && (forall key :: !IsStarted(s.made, key) ==> Unused(w, s.sys, key))
  }

  /** Distinct steps of a run have distinct keys, hence share no row. */
  lemma CallsApart(w: World, sys0: Sys, s: State, i: nat, j: nat)
    requires Layout(w, s) && FreshIds(w, sys0) && i < |s.threads| && j < |s.threads| && i != j
    ensures Apart(s.threads[i].task, s.threads[j].task)
  {
    assert KeyAt(s.made, i) != KeyAt(s.made, j);
  }

  lemma StartedKey(w: World, s: State, k: nat)
    requires Layout(w, s) && k < |s.threads|
    ensures IsStarted(s.made, s.threads[k].task.inv.key)
  {
  }

  predicate StepSucceeds(w: World, k: Key) { ScriptSucceeds(w.steps(k)) }

  /** A finished call succeeded iff its answers were all good. */
  lemma FinishedByScript(w: World, s: State, k: nat)
    requires Layout(w, s) && StepTables(w, s) && k < |s.threads| && Finished(s.threads[k])
    ensures Succeeds(s.threads[k]) <==> StepSucceeds(w, s.threads[k].task.inv.key)
  {
    assert Path(s.threads[k]);
    VerdictOfScript(s.threads[k].task);
  }

  /** The thread of a started step. */
  lemma ThreadOf(w: World, s: State, key: Key) returns (k: nat)
    requires Layout(w, s) && IsStarted(s.made, key)
    ensures k < |s.threads| && s.threads[k].task.inv.key == key && s.threads[k].task.script == w.steps(key)
  {
    k := match key.stage
         case Build => key.order
         case Test => s.made.build + key.order
         case Deploy => s.made.build + s.made.test + key.order;
    assert s.threads[k].task.inv.key == KeyAt(s.made, k);
    assert TaskOk(w, s.threads[k].task);
  }

  lemma InitTables(w: World, sys0: Sys)
    requires FreshIds(w, sys0)
    ensures StepTables(w, Init(sys0))
  {
  }

  // ---------- Actions of the steps ----------

  /** A change confined to one step's rows shows in no other row. */
  lemma OnlyElsewhere(a: Sys, b: Sys, t: Task, stepId: Id, execId: Id, key: Key)
    requires Only(a, b, t)
    requires stepId != t.script.stepId && execId != t.script.execId && key != t.inv.key
    ensures Agree(a.steps, b.steps, stepId) && Agree(a.execs, b.execs, execId) && Agree(a.subs, b.subs, key)
  {
    OffAgrees(a.steps, b.steps, t.script.stepId, stepId);
    OffAgrees(a.execs, b.execs, t.script.execId, execId);
    OffAgrees(a.subs, b.subs, t.inv.key, key);
  }

  lemma OthersSlots(w: World, sys0: Sys, s: State, sys': Sys, k: nat, j: nat)
    requires Layout(w, s) && FreshIds(w, sys0) && StepTables(w, s)
    requires k < |s.threads| && j < |s.threads| && j != k && Only(s.sys, sys', s.threads[k].task)
    ensures Slot(sys', s.threads[j])
  {
    CallsApart(w, sys0, s, k, j);
    var u := s.threads[j].task;
    OnlyElsewhere(s.sys, sys', s.threads[k].task, u.script.stepId, u.script.execId, u.inv.key);
    SlotFrame(s.sys, sys', s.threads[j]);
  }

  lemma UnusedStays(w: World, sys0: Sys, s: State, sys': Sys, k: nat, key: Key)
    requires Layout(w, s) && FreshIds(w, sys0) && k < |s.threads| && Only(s.sys, sys', s.threads[k].task)
    requires !IsStarted(s.made, key) && Unused(w, s.sys, key)
    ensures Unused(w, sys', key)
  {
    StartedKey(w, s, k);
    OnlyElsewhere(s.sys, sys', s.threads[k].task, w.steps(key).stepId, w.steps(key).execId, key);
  }

  lemma OwnSlot(w: World, s: State, k: nat)
    requires GoEnabled(s, k) && Slot(s.sys, s.threads[k]) && Path(s.threads[k]) && s.threads[k].task.job in s.sys.jobs
    ensures Slot(GoStep(s, k).sys, GoStep(s, k).threads[k]) && Path(GoStep(s, k).threads[k])
    ensures Only(s.sys, GoStep(s, k).sys, s.threads[k].task)
  {
    MoveSlot(s.sys, s.threads[k]);
    MoveFrame(s.sys, s.threads[k]);
  }

  lemma GoTables(w: World, sys0: Sys, s: State, k: nat)
    requires Layout(w, s) && FreshIds(w, sys0) && StepTables(w, s) && GoEnabled(s, k)
    ensures StepTables(w, GoStep(s, k))
  {
    var s' := GoStep(s, k);
    GoKeeps(w, s, k);
    OwnSlot(w, s, k);
    forall j | 0 <= j < |s.threads| && j != k ensures Slot(s'.sys, s'.threads[j]) && Path(s'.threads[j]) {
      OthersSlots(w, sys0, s, s'.sys, k, j);
      assert s'.threads[j] == s.threads[j];
    }
    forall key | !IsStarted(s'.made, key) ensures Unused(w, s'.sys, key) {
      UnusedStays(w, sys0, s, s'.sys, k, key);
    }
    forall j | 0 <= j < |s'.threads| ensures s'.threads[j].task.job in s'.sys.jobs {
      assert s'.threads[j].task == s.threads[j].task;
    }
  }

  // ---------- Actions of the orchestrator ----------

  /** The orchestrator itself writes no step row, no execution row and nothing in the executor's book. */
  predicate StepTablesUntouched(a: Sys, b: Sys) {
    a.steps == b.steps && a.execs == b.execs && a.subs == b.subs && a.jobs.Keys <= b.jobs.Keys
  }

  lemma MainTouches(w: World, s: State)
    requires Placed(w, s.ctl) && MainEnabled(s)
    ensures StepTablesUntouched(s.sys, MainStep(w, s).sys)
    ensures MainStep(w, s).made == s.made ==> MainStep(w, s).threads == s.threads
  {
    hide MainStep, StepTablesUntouched;
    if s.ctl.Considering? || s.ctl.JobCreated? || s.ctl.JobFinal? { JobWritesTouch(w, s); }
    else if s.ctl.Starting? || s.ctl.Choosing? || s.ctl.RunFinalWrite? { RunWritesTouch(w, s); }
    else { BodyTouches(w, s); }
  }

  lemma BodyTouches(w: World, s: State)
    requires Placed(w, s.ctl) && MainEnabled(s)
    requires s.ctl.AtStep? || s.ctl.Spawning? || s.ctl.Joining? || s.ctl.Registering? || s.ctl.Inline?
    ensures StepTablesUntouched(s.sys, MainStep(w, s).sys)
    ensures MainStep(w, s).made == s.made ==> MainStep(w, s).threads == s.threads
  {
    hide TestTask;
    match s.ctl
    case AtStep(st, i) => StepTopTouches(w, s, st, i);
    case Spawning(i, hi) =>
    case Joining(_, hi) =>
    case Registering(i, j) =>
    case Inline(st, i) =>
  }

  lemma StepTopTouches(w: World, s: State, st: Stage, i: nat)
    requires Placed(w, AtStep(st, i))
    ensures StepTablesUntouched(s.sys, StepTop(w, s, st, i).sys)
    ensures StepTop(w, s, st, i).made == s.made ==> StepTop(w, s, st, i).threads == s.threads
  {
  }

  lemma JobWritesTouch(w: World, s: State)
    requires Placed(w, s.ctl) && (s.ctl.Considering? || s.ctl.JobCreated? || s.ctl.JobFinal?)
    ensures StepTablesUntouched(s.sys, MainStep(w, s).sys)
    ensures MainStep(w, s).threads == s.threads && MainStep(w, s).made == s.made
  {
    match s.ctl
    case Considering(st) =>
    case JobCreated(st) =>
    case JobFinal(st, err) =>
  }

  lemma RunWritesTouch(w: World, s: State)
    requires s.ctl.Starting? || s.ctl.Choosing? || s.ctl.RunFinalWrite?
    ensures StepTablesUntouched(s.sys, MainStep(w, s).sys)
    ensures MainStep(w, s).threads == s.threads && MainStep(w, s).made == s.made
  {
    match s.ctl
    case Starting =>
    case Choosing(_) =>
    case RunFinalWrite(_, _) =>
  }

  lemma QuietTables(w: World, s: State, s': State)
    requires StepTables(w, s) && StepTablesUntouched(s.sys, s'.sys)
    requires s'.threads == s.threads && s'.made == s.made
    ensures StepTables(w, s')
  {
    forall k | 0 <= k < |s.threads| ensures Slot(s'.sys, s'.threads[k]) {
      SlotFrame(s.sys, s'.sys, s.threads[k]);
    }
  }

  /** A new call finds the rows of its key unused. */
  lemma CallTables(w: World, s: State, t: Task, c: Ctl, n: nat)
    requires StepTables(w, s) && TaskOk(w, t) && t.inv.key == Key(t.inv.key.stage, n)
    requires n == Count(s.made, t.inv.key.stage) && t.job in s.sys.jobs
    ensures StepTables(w, CallFrom(s, t, c))
  {
    var s' := CallFrom(s, t, c);
    assert Unused(w, s.sys, t.inv.key);
    forall k | 0 <= k < |s'.threads|
      ensures Slot(s'.sys, s'.threads[k]) && Path(s'.threads[k]) && s'.threads[k].task.job in s'.sys.jobs
    {
      if k < |s.threads| {
        assert s'.threads[k] == s.threads[k];
        SlotFrame(s.sys, s'.sys, s.threads[k]);
      }
    }
    forall key | !IsStarted(s'.made, key) ensures Unused(w, s'.sys, key) {
      assert !IsStarted(s.made, key);
    }
  }

  lemma StepTopTables(w: World, s: State, st: Stage, i: nat)
    requires Placed(w, s.ctl) && StepTables(w, s) && Quiet(w, s, st, i) && s.ctl == AtStep(st, i)
    requires JobId(w, st) in s.sys.jobs
    ensures StepTables(w, StepTop(w, s, st, i))
  {
    StepTopTouches(w, s, st, i);
    match st
    case Build =>
      if i < |BuildSteps(w)| { CallTables(w, s, BuildTask(w, i), Inline(Build, i), i); }
      else { QuietTables(w, s, StepTop(w, s, st, i)); }
    case Test =>
      if i < |TestSteps(w)| && !TestSteps(w)[i].parallel { CallTables(w, s, TestTask(w, i, None), Inline(Test, i), i); }
      else { QuietTables(w, s, StepTop(w, s, st, i)); }
    case Deploy =>
      var cfg := w.cfg.deploy.value;
      var ids := w.listing(s.sys.arts, s.buildJob);
      var k := FirstOfType(s.sys.arts, ids, cfg.artifact);
      if w.listOk && k < |ids| { CallTables(w, s, DeployTask(w, cfg, s.sys.arts[ids[k]].path), Inline(Deploy, 0), 0); }
      else { QuietTables(w, s, StepTop(w, s, st, i)); }
  }

  lemma SpawnTables(w: World, s: State, i: nat, hi: nat)
    requires Placed(w, s.ctl) && StepTables(w, s) && s.ctl == Spawning(i, hi)
    requires s.base <= |s.threads| && CountsAt(w, s.made, Test, i + (|s.threads| - s.base))
    requires JobId(w, Test) in s.sys.jobs
    ensures StepTables(w, Spawn(w, s, i, hi))
  {
    hide Slot, Path, TaskOk;
    var next := i + (|s.threads| - s.base);
    if next < hi {
      SpawnTaskOk(w, i, hi, next);
      QuietTables(w, s, s.(wg := s.wg + 1));
      CallTables(w, s.(wg := s.wg + 1), TestTask(w, next, Some(Batching.GroupName(i))), Spawning(i, hi), next);
    } else {
      QuietTables(w, s, Spawn(w, s, i, hi));
    }
  }
}
