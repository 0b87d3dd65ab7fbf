/** Everything that holds of a run in every reachable state, whatever the schedule and the answers. */
module Invariant {
  import opened Wrappers
  import opened States
  import opened Rows
  import opened Config
  import opened Executor
  import opened Steps
  import opened Pipeline
  import opened Interleaving
  import opened Reference
  import opened Engine
  import opened Shape
  import opened StepRows
  import opened Tables
  import opened Hierarchy
  import opened Ledger

  ghost predicate Inv(w: World, sys0: Sys, s: State) {
    && WellShaped(w, s)
    && StepTables(w, s)
    && JobStarted(w, s)
    && ErrorsAtHome(s)
    && RunTable(w, sys0, s)
    && SeenOk(s)
    && JobTable(w, s)
    && LedgerOk(w, sys0, s)
    && BuildJobOk(w, s)
    && DeployOk(w, s)
    && ForeignOk(sys0, s)
  }

  /** The stage whose body runs has its job row. */
  ghost predicate JobStarted(w: World, s: State) {
    forall st :: PhaseOf(s.ctl, st).InBody? ==> JobId(w, st) in s.sys.jobs
  }

  lemma JobTableStarts(w: World, s: State)
    requires JobTable(w, s)
    ensures JobStarted(w, s)
  {
    forall st | PhaseOf(s.ctl, st).InBody? ensures JobId(w, st) in s.sys.jobs {
      assert JobOk(w, s.sys, st, PhaseOf(s.ctl, st));
    }
  }

  lemma InitInv(w: World, sys0: Sys)
    requires FreshIds(w, sys0)
    ensures Inv(w, sys0, Init(sys0))
  {
    InitShape(w, sys0);
    InitTables(w, sys0);
  }

  lemma MainTables(w: World, s: State)
    requires WellShaped(w, s) && StepTables(w, s) && JobStarted(w, s) && MainEnabled(s)
    ensures StepTables(w, MainStep(w, s))
  {
    hide Slot, Path, Layout, TaskOk, StepTables;
    MainTouches(w, s);
    match s.ctl
    case AtStep(st, i) =>
      assert PhaseOf(s.ctl, st).InBody?;
      StepTopTables(w, s, st, i);
    case Spawning(i, hi) =>
      assert PhaseOf(s.ctl, Test).InBody?;
      SpawnTables(w, s, i, hi);
    case Inline(st, i) => QuietTables(w, s, CallReturns(s, st, i));
    case Joining(i, hi) => QuietTables(w, s, Release(s, hi));
    case Registering(i, j) => QuietTables(w, s, Register(w, s, i, j));
    case Starting => QuietTables(w, s, MainStep(w, s));
    case Considering(_) => QuietTables(w, s, MainStep(w, s));
    case JobCreated(_) => QuietTables(w, s, MainStep(w, s));
    case JobFinal(_, _) => QuietTables(w, s, MainStep(w, s));
    case Choosing(_) => QuietTables(w, s, MainStep(w, s));
    case RunFinalWrite(_, _) => QuietTables(w, s, MainStep(w, s));
  }

  lemma MainSeen(w: World, s: State)
    requires Placed(w, s.ctl) && MainEnabled(s) && SeenOk(s)
    ensures SeenOk(MainStep(w, s))
  {
    match s.ctl
    case AtStep(st, i) => StepTopRuns(w, s, st, i);
    case Spawning(i, hi) =>
    case Inline(st, i) =>
    case Joining(i, hi) =>
    case Registering(i, j) =>
    case Starting =>
    case Considering(_) =>
    case JobCreated(_) =>
    case JobFinal(_, _) =>
    case Choosing(_) =>
    case RunFinalWrite(_, _) =>
  }

  lemma MainInv(w: World, sys0: Sys, s: State)
    requires FreshIds(w, sys0) && Inv(w, sys0, s) && MainEnabled(s)
    ensures Inv(w, sys0, MainStep(w, s))
  {
    var s' := MainStep(w, s);
    MainShape(w, s);
    MainTables(w, s);
    MainErrors(w, s);
    MainRunTable(w, sys0, s);
    MainSeen(w, s);
    if s.ctl.Starting? {
      forall st ensures JobId(w, st) !in s.sys.jobs { assert JobOk(w, s.sys, st, PhaseOf(s.ctl, st)); }
    }
    MainJobs(w, sys0, s);
    JobTableStarts(w, s');
    MainLedger(w, sys0, s);
    MainBuildJob(w, s);
    MainDeploy(w, s);
    MainForeign(w, sys0, s);
  }

  /** What is said of the orchestrator's own rows and variables does not depend on the steps. */
  lemma SameUpper(w: World, sys0: Sys, s: State, s': State)
    requires ErrorsAtHome(s) && RunTable(w, sys0, s) && SeenOk(s) && BuildJobOk(w, s) && JobTable(w, s) && LedgerOk(w, sys0, s)
    requires s'.ctl == s.ctl && s'.made == s.made && s'.buildJob == s.buildJob && s'.seen == s.seen
    requires s.cancelled ==> s'.cancelled
    requires s'.sys.runs == s.sys.runs && s'.sys.jobs == s.sys.jobs && s'.sys.arts == s.sys.arts
    ensures ErrorsAtHome(s') && RunTable(w, sys0, s') && SeenOk(s') && BuildJobOk(w, s') && JobTable(w, s')
    ensures LedgerOk(w, sys0, s')
  {
    SameJobs(w, s, s');
    SameLedger(w, sys0, s, s');
  }

  lemma GoDeploy(w: World, s: State, k: nat)
    requires Layout(w, s) && DeployOk(w, s) && GoEnabled(s, k)
    ensures DeployOk(w, GoStep(s, k))
  {
    var s' := GoStep(s, k);
    GoKeeps(w, s, k);
    assert forall j :: 0 <= j < |s.threads| ==> s'.threads[j].task == s.threads[j].task;
    SameDeploy(w, s, s');
  }

  lemma GoInv(w: World, sys0: Sys, s: State, k: nat)
    requires FreshIds(w, sys0) && Inv(w, sys0, s) && GoEnabled(s, k)
    ensures Inv(w, sys0, GoStep(s, k))
  {
    var s' := GoStep(s, k);
    GoKeeps(w, s, k);
    GoShape(w, s, k);
    GoTables(w, sys0, s, k);
    SameUpper(w, sys0, s, s');
    JobTableStarts(w, s');
    GoDeploy(w, s, k);
    GoForeign(w, sys0, s, k);
  }

  lemma CancelInv(w: World, sys0: Sys, s: State)
    requires Inv(w, sys0, s)
    ensures Inv(w, sys0, s.(cancelled := true))
  {
    var s' := s.(cancelled := true);
    CancelShape(w, s);
    QuietTables(w, s, s');
    SameUpper(w, sys0, s, s');
    JobTableStarts(w, s');
    SameDeploy(w, s, s');
  }

  lemma NextInv(w: World, sys0: Sys, s: State, a: Action)
    requires FreshIds(w, sys0) && Inv(w, sys0, s)
    ensures Inv(w, sys0, Next(w, s, a))
  {
    if Enabled(w, s, a) {
      match a
      case CancelCtx => CancelInv(w, sys0, s);
      case Main => MainInv(w, sys0, s);
      case Go(k) => GoInv(w, sys0, s, k);
    }
  }

  /** The invariant holds after every schedule. */
  lemma {:induction false} Always(w: World, sys0: Sys, schedule: seq<Action>)
    requires FreshIds(w, sys0)
    ensures Inv(w, sys0, After(w, sys0, schedule))
  {
    if schedule == [] {
      InitInv(w, sys0);
    } else {
      Always(w, sys0, schedule[..|schedule| - 1]);
      NextInv(w, sys0, After(w, sys0, schedule[..|schedule| - 1]), schedule[|schedule| - 1]);
    }
  }
}
