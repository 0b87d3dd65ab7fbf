/** What the orchestrator's position says about the answers it was given: which were good, and which refusal stopped it. */
module Answers {
  import opened Wrappers
  import opened States
  import opened Rows
  import opened Config
  import opened Executor
  import opened Steps
  import opened Pipeline
  import opened Interleaving
  import opened Reference
  import opened Engine
  import opened Shape
  import opened StepRows
  import opened Tables
  import opened Hierarchy
  import opened Ledger
  import opened Invariant

  /** The answers about a stage's job row that brought the stage to its phase. */
  predicate JobAnswers(w: World, st: Stage, p: Phase) {
    var a := w.jobs(st);
    match p
    case NotYet => true
    case Created => a.create.ok
    case InBody => a.create.ok && a.start.ok
    case Over => Configured(w, st) ==> a.create.ok && a.start.ok
    case FailedBy(e) =>
      if e.JobCreateRefused? then !a.create.ok
      else if e.JobStartRefused? then a.create.ok && !a.start.ok
      else a.create.ok && a.start.ok
  }

  /** Every output before the place was accepted, and came from a step that succeeded. */
  ghost predicate RegisteredWell(w: World, i: nat, j: nat) {
    forall p, q :: OutputBefore(w, p, q, i, j) ==> w.artifacts(p, q).create.ok && StepSucceeds(w, Key(Build, p))
  }

  function ErrOf(c: Ctl): Option<Error> {
    match c
    case JobFinal(_, err) => err
    case Choosing(err) => err
    case RunFinalWrite(err, _) => err
    case Halted(err) => err
    case _ => None
  }

  /** The refusal behind an error that no step and no job row accounts for. */
  predicate CausedBy(w: World, s: State, e: Error) {
    match e
    case RegisterRefused(i, j) => IsOutput(w, i, j) && !w.artifacts(i, j).create.ok && StepSucceeds(w, Key(Build, i))
    case ListRefused => Configured(w, Deploy) && !w.listOk
    case NoArtifact =>
      && Configured(w, Deploy) && w.listOk && NoneListed(w, s)
      && s.buildJob == if Configured(w, Build) then JobId(w, Build) else ZERO_ID
    case _ => true
  }

  /** The listing of the build job shows no artifact of the wanted type. */
  predicate NoneListed(w: World, s: State)
    requires w.cfg.deploy.Some?
  {
    var ids := w.listing(s.sys.arts, s.buildJob);
    FirstOfType(s.sys.arts, ids, w.cfg.deploy.value.artifact) == |ids|
  }

  ghost predicate Answered(w: World, s: State) {
    && (forall st :: JobAnswers(w, st, PhaseOf(s.ctl, st)))
    && (var (i, j) := LedgerPlace(w, s.ctl); RegisteredWell(w, i, j))
    && (ErrOf(s.ctl).Some? ==> CausedBy(w, s, ErrOf(s.ctl).value))
  }

  // ---------- Answers about job rows ----------

  /** Only stage `x` changed its phase. */
  lemma OneAnswer(w: World, s: State, s': State, x: Stage)
    requires forall st :: JobAnswers(w, st, PhaseOf(s.ctl, st))
    requires forall st :: st != x ==> PhaseOf(s'.ctl, st) == PhaseOf(s.ctl, st)
    requires JobAnswers(w, x, PhaseOf(s'.ctl, x))
    ensures forall st :: JobAnswers(w, st, PhaseOf(s'.ctl, st))
  {
  }

  lemma SamePhases(w: World, s: State, s': State)
    requires forall st :: JobAnswers(w, st, PhaseOf(s.ctl, st))
    requires forall st :: PhaseOf(s'.ctl, st) == PhaseOf(s.ctl, st)
    ensures forall st :: JobAnswers(w, st, PhaseOf(s'.ctl, st))
  {
  }

  lemma ConsiderAnswers(w: World, s: State, st: Stage)
    requires forall x :: JobAnswers(w, x, PhaseOf(s.ctl, x))
    requires s.ctl == Considering(st) && JobTable(w, s) && w.run in s.sys.runs
    ensures forall x :: JobAnswers(w, x, PhaseOf(Consider(w, s, st).ctl, x))
  {
    assert JobOk(w, s.sys, st, PhaseOf(s.ctl, st));
    OneAnswer(w, s, Consider(w, s, st), st);
  }

  lemma BeginAnswers(w: World, s: State, st: Stage)
    requires forall x :: JobAnswers(w, x, PhaseOf(s.ctl, x))
    requires s.ctl == JobCreated(st) && JobTable(w, s)
    ensures forall x :: JobAnswers(w, x, PhaseOf(Begin(w, s, st).ctl, x))
  {
    assert JobOk(w, s.sys, st, PhaseOf(s.ctl, st));
    assert JobAnswers(w, st, PhaseOf(s.ctl, st));
    OneAnswer(w, s, Begin(w, s, st), st);
  }

  lemma EndAnswers(w: World, s: State, st: Stage, err: Option<Error>)
    requires forall x :: JobAnswers(w, x, PhaseOf(s.ctl, x))
    requires s.ctl == JobFinal(st, err) && ErrorsAtHome(s)
    ensures forall x :: JobAnswers(w, x, PhaseOf(EndJob(w, s, st, err).ctl, x))
  {
    assert JobAnswers(w, st, PhaseOf(s.ctl, st));
    OneAnswer(w, s, EndJob(w, s, st, err), st);
  }

  lemma BodyPhases(w: World, s: State)
    requires Placed(w, s.ctl) && MainEnabled(s) && InBodyCtl(s.ctl)
    ensures forall x :: PhaseOf(MainStep(w, s).ctl, x) == PhaseOf(s.ctl, x)
  {
    match s.ctl
    case AtStep(st, i) => StepTopRuns(w, s, st, i);
    case Inline(st, i) =>
    case Spawning(i, hi) =>
    case Joining(i, hi) =>
    case Registering(i, j) =>
  }

  lemma MainJobAnswers(w: World, s: State)
    requires forall x :: JobAnswers(w, x, PhaseOf(s.ctl, x))
    requires Placed(w, s.ctl) && MainEnabled(s) && JobTable(w, s) && ErrorsAtHome(s)
    requires s.ctl.Considering? ==> w.run in s.sys.runs
    ensures forall x :: JobAnswers(w, x, PhaseOf(MainStep(w, s).ctl, x))
  {
    if InBodyCtl(s.ctl) { BodyPhases(w, s); }
    else {
      match s.ctl
      case Considering(st) => ConsiderAnswers(w, s, st);
      case JobCreated(st) => BeginAnswers(w, s, st);
      case JobFinal(st, err) => EndAnswers(w, s, st, err);
      case Starting =>
      case Choosing(_) => SamePhases(w, s, MainStep(w, s));
      case RunFinalWrite(_, _) => SamePhases(w, s, MainStep(w, s));
    }
  }

  // ---------- Answers to registrations ----------

  /** The registration of the next output is refused by its answer alone. */
  lemma RegisterByAnswer(w: World, sys0: Sys, s: State, i: nat, j: nat)
    requires FreshIds(w, sys0) && LedgerOk(w, sys0, s) && JobTable(w, s)
    requires s.ctl == Registering(i, j) && IsOutput(w, i, j)
    ensures RegisterOne(w, s.sys, i, j).ok <==> w.artifacts(i, j).create.ok
  {
    assert JobOk(w, s.sys, Build, PhaseOf(s.ctl, Build));
    RegisteredRows(w, sys0, i, j);
    assert OutputId(w, i, j) !in s.sys.arts;
  }

  /** The step whose outputs are being registered has succeeded. */
  lemma RegisteringStepSucceeded(w: World, s: State, i: nat, j: nat)
    requires Layout(w, s) && Progress(w, s) && StepTables(w, s) && s.ctl == Registering(i, j)
    ensures StepSucceeds(w, Key(Build, i))
  {
    assert s.threads[i].task.inv.key == KeyAt(s.made, i);
    assert Succeeds(s.threads[i]);
    FinishedByScript(w, s, i);
  }

  lemma RegisterWell(w: World, sys0: Sys, s: State, i: nat, j: nat)
    requires FreshIds(w, sys0) && LedgerOk(w, sys0, s) && JobTable(w, s)
    requires Placed(w, s.ctl) && Layout(w, s) && Progress(w, s) && StepTables(w, s)
    requires s.ctl == Registering(i, j) && RegisteredWell(w, i, j)
    ensures var s' := Register(w, s, i, j);
            var (p, q) := LedgerPlace(w, s'.ctl);
            RegisteredWell(w, p, q) && (ErrOf(s'.ctl).Some? ==> CausedBy(w, s', ErrOf(s'.ctl).value))
  {
    hide StepSucceeds, Slot, Path, Layout, Progress, StepTables;
    RegisteringStepSucceeded(w, s, i, j);
    if IsOutput(w, i, j) { RegisterByAnswer(w, sys0, s, i, j); }
  }

  // ---------- Everything at once ----------

  lemma InlineAnswered(w: World, s: State, st: Stage, i: nat)
    requires s.ctl == Inline(st, i) && MainEnabled(s) && s.base == |s.threads| - 1
    requires var err := s.threads[s.base].pc.err; err.Some? ==> err.value.StepError? && err.value.key == Key(st, i)
    ensures var c := CallReturns(s, st, i).ctl; LedgerPlace(w, c) == LedgerPlace(w, s.ctl)
    ensures var e := ErrOf(CallReturns(s, st, i).ctl); e.Some? ==> e.value.StepError?
  {
  }

  lemma JoinAnswered(w: World, s: State, i: nat, hi: nat)
    requires Layout(w, s) && Progress(w, s) && Waiting(s) && StepTables(w, s) && s.ctl == Joining(i, hi)
    ensures LedgerPlace(w, Release(s, hi).ctl) == LedgerPlace(w, s.ctl)
    ensures var e := ErrOf(Release(s, hi).ctl); e.Some? ==> e.value.StepError?
  {
    hide Slot, Path, TaskOk;
    JoinErrors(w, s, i, hi);
    if s.errs != [] {
      var k := Reporter(s, s.errs[0]);
      ThreadErrorHome(w, s, k, s.errs[0]);
    }
  }

  lemma TopAnswered(w: World, s: State, st: Stage, i: nat)
    requires Placed(w, s.ctl) && s.ctl == AtStep(st, i) && BuildJobOk(w, s)
    ensures LedgerPlace(w, StepTop(w, s, st, i).ctl) == LedgerPlace(w, s.ctl)
    ensures var s' := StepTop(w, s, st, i); ErrOf(s'.ctl).Some? ==> CausedBy(w, s', ErrOf(s'.ctl).value)
  {
    match st
    case Build =>
    case Test =>
    case Deploy =>
  }

  lemma BodyAnswered(w: World, sys0: Sys, s: State)
    requires FreshIds(w, sys0) && LedgerOk(w, sys0, s) && JobTable(w, s) && BuildJobOk(w, s) && Answered(w, s)
    requires WellShaped(w, s) && StepTables(w, s) && MainEnabled(s) && InBodyCtl(s.ctl)
    ensures var s' := MainStep(w, s);
            var (p, q) := LedgerPlace(w, s'.ctl);
            RegisteredWell(w, p, q) && (ErrOf(s'.ctl).Some? ==> CausedBy(w, s', ErrOf(s'.ctl).value))
  {
    hide Layout, StepTables, JobTable, LedgerOk, RegisteredWell;
    match s.ctl
    case AtStep(st, i) => TopAnswered(w, s, st, i);
    case Inline(st, i) => InlineError(w, s, st, i); InlineAnswered(w, s, st, i);
    case Spawning(i, hi) =>
    case Joining(i, hi) => JoinAnswered(w, s, i, hi);
    case Registering(i, j) => RegisterWell(w, sys0, s, i, j);
  }

  /** What is said of the place and the error survives an action that changes neither, nor the rows they speak of. */
  predicate SameCause(w: World, s: State, s': State) {
    && LedgerPlace(w, s'.ctl) == LedgerPlace(w, s.ctl) && s'.sys.arts == s.sys.arts
    && (ErrOf(s'.ctl).Some? ==>
          (ErrOf(s'.ctl) == ErrOf(s.ctl) && s'.buildJob == s.buildJob)
          || ErrOf(s'.ctl).value.RunStartRefused? || ErrOf(s'.ctl).value.JobCreateRefused? || ErrOf(s'.ctl).value.JobStartRefused?)
  }

  lemma JobWritesCause(w: World, s: State)
    requires Placed(w, s.ctl) && (s.ctl.Considering? || s.ctl.JobCreated? || s.ctl.JobFinal?)
    ensures SameCause(w, s, MainStep(w, s))
  {
    hide UpdateStatus, Insert;
    match s.ctl
    case Considering(st) =>
    case JobCreated(st) =>
    case JobFinal(st, err) =>
  }

  lemma RunWritesCause(w: World, s: State)
    requires s.ctl.Starting? || s.ctl.Choosing? || s.ctl.RunFinalWrite?
    ensures SameCause(w, s, MainStep(w, s))
  {
    hide UpdateStatus;
    match s.ctl
    case Starting =>
    case Choosing(_) =>
    case RunFinalWrite(_, _) =>
  }

  lemma CauseKept(w: World, s: State, s': State)
    requires Answered(w, s) && SameCause(w, s, s')
    ensures var (p, q) := LedgerPlace(w, s'.ctl);
            RegisteredWell(w, p, q) && (ErrOf(s'.ctl).Some? ==> CausedBy(w, s', ErrOf(s'.ctl).value))
  {
    hide FirstOfType;
  }

  lemma RowWritesAnswered(w: World, s: State)
    requires Answered(w, s) && Placed(w, s.ctl) && MainEnabled(s) && !InBodyCtl(s.ctl)
    ensures var s' := MainStep(w, s);
            var (p, q) := LedgerPlace(w, s'.ctl);
            RegisteredWell(w, p, q) && (ErrOf(s'.ctl).Some? ==> CausedBy(w, s', ErrOf(s'.ctl).value))
  {
    hide Answered, MainStep, CausedBy, RegisteredWell;
    if s.ctl.Considering? || s.ctl.JobCreated? || s.ctl.JobFinal? { JobWritesCause(w, s); } else { RunWritesCause(w, s); }
    CauseKept(w, s, MainStep(w, s));
  }

  lemma RunKnown(w: World, sys0: Sys, s: State)
    requires RunTable(w, sys0, s) && s.ctl.Considering?
    ensures w.run in s.sys.runs
  {
  }

  lemma MainAnswered(w: World, sys0: Sys, s: State)
    requires FreshIds(w, sys0) && Inv(w, sys0, s) && Answered(w, s) && MainEnabled(s)
    ensures Answered(w, MainStep(w, s))
  {
    hide Layout, StepTables, JobTable, LedgerOk, RegisteredWell, RunTable, JobAnswers, CausedBy, MainStep;
    if s.ctl.Considering? { RunKnown(w, sys0, s); }
    MainJobAnswers(w, s);
    if InBodyCtl(s.ctl) { BodyAnswered(w, sys0, s); } else { RowWritesAnswered(w, s); }
  }

  lemma SameAnswered(w: World, s: State, s': State)
    requires Answered(w, s) && s'.ctl == s.ctl && s'.sys.arts == s.sys.arts && s'.buildJob == s.buildJob
    ensures Answered(w, s')
  {
  }

  lemma NextAnswered(w: World, sys0: Sys, s: State, a: Action)
    requires FreshIds(w, sys0) && Inv(w, sys0, s) && Answered(w, s)
    ensures Answered(w, Next(w, s, a))
  {
    hide Answered, MainStep, GoStep;
    if Enabled(w, s, a) {
      match a
      case CancelCtx => SameAnswered(w, s, s.(cancelled := true));
      case Main => MainAnswered(w, sys0, s);
      case Go(k) => GoKeeps(w, s, k); SameAnswered(w, s, GoStep(s, k));
    }
  }

  /** After every schedule, the orchestrator stands where its answers have brought it. */
  lemma {:induction false} AlwaysAnswered(w: World, sys0: Sys, schedule: seq<Action>)
    requires FreshIds(w, sys0)
    ensures Answered(w, After(w, sys0, schedule))
  {
    hide Inv, Next;
    if schedule != [] {
      var front, a := schedule[..|schedule| - 1], schedule[|schedule| - 1];
      AlwaysAnswered(w, sys0, front);
      Always(w, sys0, front);
      NextAnswered(w, sys0, After(w, sys0, front), a);
    }
  }
}
