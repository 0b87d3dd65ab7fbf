/** The artifact rows a run registers, the artifact its deployment uses, and the rows of other runs. */
module Ledger {
  import opened Wrappers
  import opened States
  import opened Rows
  import opened Config
  import opened Executor
  import opened Steps
  import opened Pipeline
  import opened Interleaving
  import opened Reference
  import opened Engine
  import opened Shape
  import opened StepRows
  import opened Tables
  import opened Hierarchy
  import Batching

  // ---------- The build ledger ----------

  predicate IsOutput(w: World, i: nat, j: nat) {
    i < |BuildSteps(w)| && j < |BuildSteps(w)[i].outputs|
  }

  /** A place in the flattened list of outputs: before output j of step i, or at the end. */
  predicate IsPlace(w: World, i: nat, j: nat) {
    (i < |BuildSteps(w)| && j <= |BuildSteps(w)[i].outputs|) || (i == |BuildSteps(w)| && j == 0)
  }

  /** The artifacts table once every output before place (i, j) was registered. */
  function Registered(w: World, arts: map<Id, ArtRow>, i: nat, j: nat): map<Id, ArtRow>
    requires IsPlace(w, i, j)
    decreases i, j
  {
    if j > 0 then Registered(w, arts, i, j - 1)[w.artifacts(i, j - 1).id := NewArtRow(w, i, j - 1)]
    else if i > 0 then Registered(w, arts, i - 1, |BuildSteps(w)[i - 1].outputs|)
    else arts
  }

  /** Order of the flattened list of outputs. */
  predicate Before(i: nat, j: nat, p: nat, q: nat) { i < p || (i == p && j < q) }

  /** Output (p, q) lies before place (i, j). */
  predicate OutputBefore(w: World, p: nat, q: nat, i: nat, j: nat) { IsOutput(w, p, q) && Before(p, q, i, j) }

  function OutputId(w: World, p: nat, q: nat): Id { w.artifacts(p, q).id }

  /** The table at place (i, j): the old rows, and one row for each output before the place. */
  lemma {:induction false} RegisteredRows(w: World, sys0: Sys, i: nat, j: nat)
    requires FreshIds(w, sys0) && IsPlace(w, i, j)
    ensures forall p, q :: OutputBefore(w, p, q, i, j) ==>
              OutputId(w, p, q) in Registered(w, sys0.arts, i, j)
              && Registered(w, sys0.arts, i, j)[OutputId(w, p, q)] == NewArtRow(w, p, q)
    ensures forall id :: id in Registered(w, sys0.arts, i, j) ==>
              id in sys0.arts || exists p, q :: OutputBefore(w, p, q, i, j) && id == OutputId(w, p, q)
    ensures forall id :: id in sys0.arts ==>
              id in Registered(w, sys0.arts, i, j) && Registered(w, sys0.arts, i, j)[id] == sys0.arts[id]
    decreases i, j
  {
    if j > 0 {
      RegisteredRows(w, sys0, i, j - 1);
      var old_, now := Registered(w, sys0.arts, i, j - 1), Registered(w, sys0.arts, i, j);
      forall p, q | OutputBefore(w, p, q, i, j)
        ensures OutputId(w, p, q) in now && now[OutputId(w, p, q)] == NewArtRow(w, p, q)
      {
        if p == i && q == j - 1 {} else { assert OutputBefore(w, p, q, i, j - 1); }
      }
      forall id | id in now ensures id in sys0.arts || exists p, q :: OutputBefore(w, p, q, i, j) && id == OutputId(w, p, q) {
        if id in old_ && id !in sys0.arts {
          var p, q :| OutputBefore(w, p, q, i, j - 1) && id == OutputId(w, p, q);
          assert OutputBefore(w, p, q, i, j);
        } else if id !in old_ {
          assert OutputBefore(w, i, j - 1, i, j) && id == OutputId(w, i, j - 1);
        }
      }
    } else if i > 0 {
      var n := |BuildSteps(w)[i - 1].outputs|;
      RegisteredRows(w, sys0, i - 1, n);
      forall p, q | OutputBefore(w, p, q, i, 0) ensures OutputBefore(w, p, q, i - 1, n) {}
      forall p, q | OutputBefore(w, p, q, i - 1, n) ensures OutputBefore(w, p, q, i, 0) {}
    }
  }

  /** How far registration has come. */
  function LedgerPlace(w: World, c: Ctl): (nat, nat) {
    match c
    case Starting => (0, 0)
    case Considering(st) => if st == Build then (0, 0) else (|BuildSteps(w)|, 0)
    case JobCreated(st) => if st == Build then (0, 0) else (|BuildSteps(w)|, 0)
    case AtStep(st, i) => if st == Build then (i, 0) else (|BuildSteps(w)|, 0)
    case Inline(st, i) => if st == Build then (i, 0) else (|BuildSteps(w)|, 0)
    case Registering(i, j) => (i, j)
    case JobFinal(_, err) => EndPlace(w, err)
    case Choosing(err) => EndPlace(w, err)
    case RunFinalWrite(err, _) => EndPlace(w, err)
    case Halted(err) => EndPlace(w, err)
    case _ => (|BuildSteps(w)|, 0)
  }

  /** Where a stage that ended in `err` left the ledger. */
  function EndPlace(w: World, err: Option<Error>): (nat, nat) {
    if err.None? || ErrStage(err.value) != Build then (|BuildSteps(w)|, 0)
    else
      match err.value
      case RegisterRefused(i, j) => (i, j)
      case StepError(k, _) => (k.order, 0)
      case _ => (0, 0)
  }

  predicate LedgerOk(w: World, sys0: Sys, s: State) {
    var (i, j) := LedgerPlace(w, s.ctl);
    IsPlace(w, i, j) && s.sys.arts == Registered(w, sys0.arts, i, j)
  }

  predicate BuildJobOk(w: World, s: State) {
    match s.ctl
    case Considering(st) => s.buildJob == if st != Build && Configured(w, Build) then JobId(w, Build) else ZERO_ID
    case JobCreated(st) => s.buildJob == if st != Build && Configured(w, Build) then JobId(w, Build) else ZERO_ID
    case AtStep(st, _) => s.buildJob == if st != Build && Configured(w, Build) then JobId(w, Build) else ZERO_ID
    case Inline(st, _) => s.buildJob == if st != Build && Configured(w, Build) then JobId(w, Build) else ZERO_ID
    case Spawning(_, _) => s.buildJob == if Configured(w, Build) then JobId(w, Build) else ZERO_ID
    case Joining(_, _) => s.buildJob == if Configured(w, Build) then JobId(w, Build) else ZERO_ID
    case Registering(_, _) => s.buildJob == ZERO_ID
    case JobFinal(st, _) => s.buildJob == if st != Build && Configured(w, Build) then JobId(w, Build) else ZERO_ID
    case Starting => s.buildJob == ZERO_ID
    case _ => s.made.deploy > 0 ==> s.buildJob == if Configured(w, Build) then JobId(w, Build) else ZERO_ID
  }

  /** A deploy call uses the first artifact of the wanted type that the listing of the build job yields. */
  ghost predicate DeployOk(w: World, s: State) {
    forall k :: 0 <= k < |s.threads| && s.threads[k].task.inv.key.stage == Deploy ==> DeployChoice(w, s, s.threads[k].task)
  }

  predicate DeployChoice(w: World, s: State, t: Task) {
    w.cfg.deploy.Some? && w.listOk &&
    var cfg, ids := w.cfg.deploy.value, w.listing(s.sys.arts, s.buildJob);
    var m := FirstOfType(s.sys.arts, ids, cfg.artifact);
    m < |ids| && t == DeployTask(w, cfg, s.sys.arts[ids[m]].path)
  }

  // ---------- Preservation: the ledger ----------

  lemma SameLedger(w: World, sys0: Sys, s: State, s': State)
    requires LedgerOk(w, sys0, s) && s'.sys.arts == s.sys.arts && LedgerPlace(w, s'.ctl) == LedgerPlace(w, s.ctl)
    ensures LedgerOk(w, sys0, s')
  {
  }

  lemma RegisterLedger(w: World, sys0: Sys, s: State, i: nat, j: nat)
    requires Placed(w, s.ctl) && LedgerOk(w, sys0, s) && s.ctl == Registering(i, j)
    ensures LedgerOk(w, sys0, Register(w, s, i, j))
  {
    hide NewArtRow, Registered;
    RegisteredNext(w, sys0.arts, i, j);
    var s' := Register(w, s, i, j);
    if j < |BuildSteps(w)[i].outputs| && RegisterOne(w, s.sys, i, j).ok {
      assert s'.sys.arts == s.sys.arts[w.artifacts(i, j).id := NewArtRow(w, i, j)];
    } else {
      assert s'.sys.arts == s.sys.arts;
    }
  }

  lemma RegisteredNext(w: World, arts: map<Id, ArtRow>, i: nat, j: nat)
    requires i < |BuildSteps(w)| && j <= |BuildSteps(w)[i].outputs|
    ensures if j == |BuildSteps(w)[i].outputs| then Registered(w, arts, i + 1, 0) == Registered(w, arts, i, j)
            else Registered(w, arts, i, j + 1) == Registered(w, arts, i, j)[w.artifacts(i, j).id := NewArtRow(w, i, j)]
  {
  }

  lemma InlineLedger(w: World, sys0: Sys, s: State, st: Stage, i: nat)
    requires LedgerOk(w, sys0, s) && s.ctl == Inline(st, i) && MainEnabled(s) && s.base == |s.threads| - 1
    requires var err := s.threads[s.base].pc.err; err.Some? ==> err.value.StepError? && err.value.key == Key(st, i)
    ensures LedgerOk(w, sys0, CallReturns(s, st, i))
  {
    SameLedger(w, sys0, s, CallReturns(s, st, i));
  }

  lemma ReleaseLedger(w: World, sys0: Sys, s: State, i: nat, hi: nat)
    requires Layout(w, s) && Progress(w, s) && Waiting(s) && StepTables(w, s) && LedgerOk(w, sys0, s)
    requires s.ctl == Joining(i, hi)
    ensures LedgerOk(w, sys0, Release(s, hi))
  {
    JoinErrors(w, s, i, hi);
    SameLedger(w, sys0, s, Release(s, hi));
  }

  lemma StepTopLedger(w: World, sys0: Sys, s: State, st: Stage, i: nat)
    requires Placed(w, s.ctl) && LedgerOk(w, sys0, s) && s.ctl == AtStep(st, i)
    ensures LedgerOk(w, sys0, StepTop(w, s, st, i))
  {
    StepTopRuns(w, s, st, i);
    SameLedger(w, sys0, s, StepTop(w, s, st, i));
  }

  lemma JobWritesLedger(w: World, sys0: Sys, s: State)
    requires Placed(w, s.ctl) && LedgerOk(w, sys0, s)
    requires s.ctl.Considering? || s.ctl.JobCreated? || s.ctl.JobFinal?
    ensures LedgerOk(w, sys0, MainStep(w, s))
  {
    match s.ctl
    case Considering(st) => SameLedger(w, sys0, s, Consider(w, s, st));
    case JobCreated(st) => SameLedger(w, sys0, s, Begin(w, s, st));
    case JobFinal(st, err) => SameLedger(w, sys0, s, EndJob(w, s, st, err));
  }

  lemma RunWritesLedger(w: World, sys0: Sys, s: State)
    requires LedgerOk(w, sys0, s) && (s.ctl.Starting? || s.ctl.Choosing? || s.ctl.RunFinalWrite?)
    ensures LedgerOk(w, sys0, MainStep(w, s))
  {
    match s.ctl
    case Starting => SameLedger(w, sys0, s, Start(w, s));
    case Choosing(err) => SameLedger(w, sys0, s, MainStep(w, s));
    case RunFinalWrite(err, final) => SameLedger(w, sys0, s, MainStep(w, s));
  }

  lemma CallLedger(w: World, sys0: Sys, s: State)
    requires Layout(w, s) && Progress(w, s) && Waiting(s) && StepTables(w, s) && LedgerOk(w, sys0, s)
    requires Placed(w, s.ctl) && MainEnabled(s) && (s.ctl.Inline? || s.ctl.Joining?)
    ensures LedgerOk(w, sys0, MainStep(w, s))
  {
    match s.ctl
    case Inline(st, i) => InlineError(w, s, st, i); InlineLedger(w, sys0, s, st, i);
    case Joining(i, hi) => ReleaseLedger(w, sys0, s, i, hi);
  }

  lemma BodyLedger(w: World, sys0: Sys, s: State)
    requires LedgerOk(w, sys0, s)
    requires Placed(w, s.ctl) && MainEnabled(s) && (s.ctl.AtStep? || s.ctl.Spawning? || s.ctl.Registering?)
    ensures LedgerOk(w, sys0, MainStep(w, s))
  {
    match s.ctl
    case AtStep(st, i) => StepTopLedger(w, sys0, s, st, i);
    case Spawning(i, hi) => SameLedger(w, sys0, s, Spawn(w, s, i, hi));
    case Registering(i, j) => RegisterLedger(w, sys0, s, i, j);
  }

  lemma MainLedger(w: World, sys0: Sys, s: State)
    requires Placed(w, s.ctl) && Layout(w, s) && Progress(w, s) && Waiting(s) && StepTables(w, s)
    requires LedgerOk(w, sys0, s) && MainEnabled(s)
    ensures LedgerOk(w, sys0, MainStep(w, s))
  {
    if s.ctl.Inline? || s.ctl.Joining? { CallLedger(w, sys0, s); }
    else if s.ctl.AtStep? || s.ctl.Spawning? || s.ctl.Registering? { BodyLedger(w, sys0, s); }
    else if s.ctl.Considering? || s.ctl.JobCreated? || s.ctl.JobFinal? { JobWritesLedger(w, sys0, s); }
    else { RunWritesLedger(w, sys0, s); }
  }

  // ---------- Preservation: the deployment's artifact ----------

  /** While the build or test stage runs there is no deploy call. */
  lemma NoDeployYet(w: World, s: State, k: nat)
    requires Layout(w, s) && s.made.deploy == 0 && k < |s.threads|
    ensures s.threads[k].task.inv.key.stage != Deploy
  {
    assert s.threads[k].task.inv.key == KeyAt(s.made, k);
  }

  lemma SameDeploy(w: World, s: State, s': State)
    requires Layout(w, s) && DeployOk(w, s)
    requires |s'.threads| == |s.threads| && forall k :: 0 <= k < |s.threads| ==> s'.threads[k].task == s.threads[k].task
    requires s.made.deploy == 0 || (s'.sys.arts == s.sys.arts && s'.buildJob == s.buildJob)
    ensures DeployOk(w, s')
  {
    forall k | 0 <= k < |s'.threads| && s'.threads[k].task.inv.key.stage == Deploy ensures DeployChoice(w, s', s'.threads[k].task) {
      assert s'.threads[k].task == s.threads[k].task;
      if s.made.deploy == 0 { NoDeployYet(w, s, k); }
    }
  }

  lemma CallDeploy(w: World, s: State, t: Task, c: Ctl)
    requires DeployOk(w, s) && (t.inv.key.stage == Deploy ==> DeployChoice(w, s, t))
    ensures DeployOk(w, CallFrom(s, t, c))
  {
    var s' := CallFrom(s, t, c);
    forall k | 0 <= k < |s'.threads| && s'.threads[k].task.inv.key.stage == Deploy ensures DeployChoice(w, s', s'.threads[k].task) {
      if k < |s.threads| { assert s'.threads[k] == s.threads[k]; }
    }
  }

  lemma StepTopDeploy(w: World, s: State, st: Stage, i: nat)
    requires Placed(w, s.ctl) && Layout(w, s) && DeployOk(w, s) && s.ctl == AtStep(st, i)
    ensures DeployOk(w, StepTop(w, s, st, i))
  {
    match st
    case Build =>
      if i < |BuildSteps(w)| { CallDeploy(w, s, BuildTask(w, i), Inline(Build, i)); }
      else { SameDeploy(w, s, StepTop(w, s, st, i)); }
    case Test =>
      if i < |TestSteps(w)| && !TestSteps(w)[i].parallel { CallDeploy(w, s, TestTask(w, i, None), Inline(Test, i)); }
      else { SameDeploy(w, s, StepTop(w, s, st, i)); }
    case Deploy =>
      var cfg := w.cfg.deploy.value;
      var ids := w.listing(s.sys.arts, s.buildJob);
      var k := FirstOfType(s.sys.arts, ids, cfg.artifact);
      if w.listOk && k < |ids| { CallDeploy(w, s, DeployTask(w, cfg, s.sys.arts[ids[k]].path), Inline(Deploy, 0)); }
      else { SameDeploy(w, s, StepTop(w, s, st, i)); }
  }

  lemma SpawnDeploy(w: World, s: State, i: nat, hi: nat)
    requires Placed(w, s.ctl) && Layout(w, s) && DeployOk(w, s) && s.ctl == Spawning(i, hi) && s.base <= |s.threads|
    ensures DeployOk(w, Spawn(w, s, i, hi))
  {
    var next := i + (|s.threads| - s.base);
    if next < hi {
      SameDeploy(w, s, s.(wg := s.wg + 1));
      CallDeploy(w, s.(wg := s.wg + 1), TestTask(w, next, Some(Batching.GroupName(i))), Spawning(i, hi));
    } else {
      SameDeploy(w, s, Spawn(w, s, i, hi));
    }
  }

  lemma EndJobDeploy(w: World, s: State, st: Stage, err: Option<Error>)
    requires Layout(w, s) && Progress(w, s) && DeployOk(w, s) && s.ctl == JobFinal(st, err)
    ensures DeployOk(w, EndJob(w, s, st, err))
  {
    SameDeploy(w, s, EndJob(w, s, st, err));
  }

  lemma BodyDeploy(w: World, s: State)
    requires Placed(w, s.ctl) && Layout(w, s) && Progress(w, s) && DeployOk(w, s) && MainEnabled(s) && InBodyCtl(s.ctl)
    ensures DeployOk(w, MainStep(w, s))
  {
    match s.ctl
    case AtStep(st, i) => StepTopDeploy(w, s, st, i);
    case Inline(st, i) => SameDeploy(w, s, CallReturns(s, st, i));
    case Spawning(i, hi) => SpawnDeploy(w, s, i, hi);
    case Joining(i, hi) => SameDeploy(w, s, Release(s, hi));
    case Registering(i, j) => SameDeploy(w, s, Register(w, s, i, j));
  }

  lemma RowWritesDeploy(w: World, s: State)
    requires Placed(w, s.ctl) && Layout(w, s) && Progress(w, s) && DeployOk(w, s) && MainEnabled(s) && !InBodyCtl(s.ctl)
    ensures DeployOk(w, MainStep(w, s))
  {
    match s.ctl
    case Starting => SameDeploy(w, s, Start(w, s));
    case Considering(st) => SameDeploy(w, s, Consider(w, s, st));
    case JobCreated(st) => SameDeploy(w, s, Begin(w, s, st));
    case JobFinal(st, err) => EndJobDeploy(w, s, st, err);
    case Choosing(err) => SameDeploy(w, s, MainStep(w, s));
    case RunFinalWrite(err, final) => SameDeploy(w, s, MainStep(w, s));
  }

  lemma MainDeploy(w: World, s: State)
    requires Placed(w, s.ctl) && Layout(w, s) && Progress(w, s) && DeployOk(w, s) && MainEnabled(s)
    ensures DeployOk(w, MainStep(w, s))
  {
    if InBodyCtl(s.ctl) { BodyDeploy(w, s); } else { RowWritesDeploy(w, s); }
  }

  lemma EndJobBuildJob(w: World, s: State, st: Stage, err: Option<Error>)
    requires Placed(w, s.ctl) && Progress(w, s) && BuildJobOk(w, s) && s.ctl == JobFinal(st, err)
    ensures BuildJobOk(w, EndJob(w, s, st, err))
  {
  }

  lemma StepTopBuildJob(w: World, s: State, st: Stage, i: nat)
    requires Placed(w, s.ctl) && BuildJobOk(w, s) && s.ctl == AtStep(st, i)
    ensures BuildJobOk(w, StepTop(w, s, st, i))
  {
    StepTopRuns(w, s, st, i);
  }

  lemma ConsiderBuildJob(w: World, s: State, st: Stage)
    requires Progress(w, s) && BuildJobOk(w, s) && (s.ctl == Considering(st) || (s.ctl == JobCreated(st) && Configured(w, st)))
    ensures s.ctl.Considering? ==> BuildJobOk(w, Consider(w, s, st))
    ensures s.ctl.JobCreated? ==> BuildJobOk(w, Begin(w, s, st))
  {
  }

  lemma BodyBuildJob(w: World, s: State)
    requires Placed(w, s.ctl) && BuildJobOk(w, s) && MainEnabled(s)
    requires s.ctl.Inline? || s.ctl.Spawning? || s.ctl.Joining? || s.ctl.Registering?
    ensures BuildJobOk(w, MainStep(w, s))
  {
    match s.ctl
    case Inline(st, i) =>
    case Spawning(i, hi) =>
    case Joining(i, hi) =>
    case Registering(i, j) =>
  }

  lemma MainBuildJob(w: World, s: State)
    requires Placed(w, s.ctl) && Progress(w, s) && BuildJobOk(w, s) && MainEnabled(s)
    ensures BuildJobOk(w, MainStep(w, s))
  {
    match s.ctl
    case Starting =>
    case Considering(st) => ConsiderBuildJob(w, s, st);
    case JobCreated(st) => ConsiderBuildJob(w, s, st);
    case AtStep(st, i) => StepTopBuildJob(w, s, st, i);
    case Inline(st, i) => BodyBuildJob(w, s);
    case Spawning(i, hi) => BodyBuildJob(w, s);
    case Joining(i, hi) => BodyBuildJob(w, s);
    case Registering(i, j) => BodyBuildJob(w, s);
    case JobFinal(st, err) => EndJobBuildJob(w, s, st, err);
    case Choosing(err) =>
    case RunFinalWrite(err, final) =>
  }

  // ---------- Rows of other runs ----------

  /** Every row of the first table is still there, unchanged, in the second. */
  ghost predicate Keeps<K, V>(a: map<K, V>, b: map<K, V>) {
    forall k :: k in a ==> k in b && b[k] == a[k]
  }

  ghost predicate ForeignOk(sys0: Sys, s: State) {
    Keeps(sys0.steps, s.sys.steps) && Keeps(sys0.execs, s.sys.execs) && Keeps(sys0.jobs, s.sys.jobs)
  }

  lemma KeepsOff<K, V>(a: map<K, V>, b: map<K, V>, c: map<K, V>, k: K)
    requires Keeps(a, b) && k !in a && b - {k} == c - {k}
    ensures Keeps(a, c)
  {
    forall j | j in a ensures j in c && c[j] == a[j] { OffAgrees(b, c, k, j); }
  }

  lemma GoForeign(w: World, sys0: Sys, s: State, k: nat)
    requires FreshIds(w, sys0) && Layout(w, s) && ForeignOk(sys0, s) && GoEnabled(s, k)
    ensures ForeignOk(sys0, GoStep(s, k))
  {
    GoKeeps(w, s, k);
    MoveFrame(s.sys, s.threads[k]);
    var t, sys' := s.threads[k].task, GoStep(s, k).sys;
    assert t.script == w.steps(t.inv.key);
    KeepsOff(sys0.steps, s.sys.steps, Move(s.sys, s.threads[k]).0.steps, t.script.stepId);
    KeepsOff(sys0.execs, s.sys.execs, Move(s.sys, s.threads[k]).0.execs, t.script.execId);
  }

  lemma JobWritesForeign(w: World, sys0: Sys, s: State)
    requires FreshIds(w, sys0) && Placed(w, s.ctl) && ForeignOk(sys0, s)
    requires s.ctl.Considering? || s.ctl.JobCreated? || s.ctl.JobFinal?
    ensures ForeignOk(sys0, MainStep(w, s))
  {
    var st := s.ctl.stage;
    InsertFrame(s.sys.jobs, JobId(w, st), NewJobRow(w, st), w.run in s.sys.runs, w.jobs(st).create);
    UpdateFrame(s.sys.jobs, JobId(w, st), Running, w.jobs(st).start);
    if s.ctl.JobFinal? { UpdateFrame(s.sys.jobs, JobId(w, st), StepFinal(s.ctl.err), w.jobs(st).final); }
    assert MainStep(w, s).sys.jobs - {JobId(w, st)} == s.sys.jobs - {JobId(w, st)};
    KeepsOff(sys0.jobs, s.sys.jobs, MainStep(w, s).sys.jobs, JobId(w, st));
  }

  lemma MainForeign(w: World, sys0: Sys, s: State)
    requires FreshIds(w, sys0) && Placed(w, s.ctl) && ForeignOk(sys0, s) && MainEnabled(s)
    ensures ForeignOk(sys0, MainStep(w, s))
  {
    match s.ctl
    case Starting =>
    case Considering(st) => JobWritesForeign(w, sys0, s);
    case JobCreated(st) => JobWritesForeign(w, sys0, s);
    case AtStep(st, i) => StepTopRuns(w, s, st, i); StepTopTouches(w, s, st, i);
    case Inline(st, i) =>
    case Spawning(i, hi) =>
    case Joining(i, hi) =>
    case Registering(i, j) =>
    case JobFinal(st, err) => JobWritesForeign(w, sys0, s);
    case Choosing(err) =>
    case RunFinalWrite(err, final) =>
  }

  lemma {:induction false} RegisteredKeeps(w: World, sys0: Sys, i: nat, j: nat)
    requires FreshIds(w, sys0) && IsPlace(w, i, j)
    ensures Keeps(sys0.arts, Registered(w, sys0.arts, i, j))
    decreases i, j
  {
    if j > 0 { RegisteredKeeps(w, sys0, i, j - 1); }
    else if i > 0 { RegisteredKeeps(w, sys0, i - 1, |BuildSteps(w)[i - 1].outputs|); }
  }
}
