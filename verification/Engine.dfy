/**
 The run as a concurrent system. The orchestrator and the steps it started take turns in any order, the context
 may be cancelled at any moment, and every store write and executor call is one atomic action.
 */
module Engine {
  import opened Wrappers
  import opened States
  import opened Rows
  import opened Config
  import opened Executor
  import opened Steps
  import opened Pipeline
  import opened Interleaving
  import opened Reference
  import Batching

  /** What the orchestrator does next. */
  datatype Ctl =
    | Starting                                // write the run's `running`
    | Considering(stage: Stage)               // is the stage configured? then create its job
    | JobCreated(stage: Stage)                // write the job's `running`
    | AtStep(stage: Stage, i: nat)            // top of the stage's loop
    | Inline(stage: Stage, i: nat)            // inside the direct call of step i
    | Spawning(i: nat, hi: nat)               // starting the goroutines of the batch from i to hi
    | Joining(i: nat, hi: nat)                // wg.Wait
    | Registering(i: nat, j: nat)             // output j of build step i
    | JobFinal(stage: Stage, err: Option<Error>)
    | Choosing(err: Option<Error>)            // the switch over the context and the error
    | RunFinalWrite(err: Option<Error>, final: Status)
    | Halted(err: Option<Error>)

  /** Steps started so far, by stage. */
  datatype Made = Made(build: nat, test: nat, deploy: nat)

  function Count(m: Made, st: Stage): nat {
    match st
    case Build => m.build
    case Test => m.test
    case Deploy => m.deploy
  }

  function Bump(m: Made, st: Stage): Made {
    match st
    case Build => m.(build := m.build + 1)
    case Test => m.(test := m.test + 1)
    case Deploy => m.(deploy := m.deploy + 1)
  }

  datatype State = State(
    sys: Sys,
    ctl: Ctl,
    buildJob: Id,
    threads: seq<Thread>,     // every step started in this run, in the order of the starts
    base: nat,                // the steps of the current call or batch are threads[base..]
    wg: int,
    errs: seq<Error>,
    cancelled: bool,
    seen: bool,               // what the switch read from the context
    made: Made)

  datatype Action = CancelCtx | Main | Go(k: nat)

  function Init(sys: Sys): State {
    State(sys, Starting, ZERO_ID, [], 0, 0, [], false, false, Made(0, 0, 0))
  }

  // ---------- The orchestrator's actions ----------

  predicate Placed(w: World, c: Ctl) {
    match c
    case JobCreated(st) => Configured(w, st)
    case AtStep(st, i) => Configured(w, st) && i <= Planned(w, st) && (st == Deploy ==> i == 0)
                          && (st == Test && 0 < i < |TestSteps(w)| && TestSteps(w)[i].parallel ==> !TestSteps(w)[i - 1].parallel)
    case Inline(st, i) => Configured(w, st) && i < Planned(w, st) && (st == Test ==> !TestSteps(w)[i].parallel)
    case Spawning(i, hi) => IsBatch(w, i, hi)
    case Joining(i, hi) => IsBatch(w, i, hi)
    case Registering(i, j) => Configured(w, Build) && i < |BuildSteps(w)| && j <= |BuildSteps(w)[i].outputs|
    case JobFinal(st, _) => Configured(w, st)
    case _ => true
  }

  predicate IsBatch(w: World, i: nat, hi: nat) {
    var steps := TestSteps(w);
    Configured(w, Test) && i < |steps| && steps[i].parallel && hi == Batching.BatchEnd(steps, i)
    && (i > 0 ==> !steps[i - 1].parallel)
  }

  function Advance(st: Stage): Ctl {
    match st
    case Build => Considering(Test)
    case Test => Considering(Deploy)
    case Deploy => Choosing(None)
  }

  function CallFrom(s: State, t: Task, c: Ctl): State {
    s.(sys := Started(s.sys, t.inv), threads := s.threads + [Thread(t, AtCreate)],
       made := Bump(s.made, t.inv.key.stage), ctl := c)
  }

  function Start(w: World, s: State): State {
    var r := StartRun(w, s.sys);
    if r.ok then s.(sys := s.sys.(runs := r.rows), ctl := Considering(Build)) else s.(ctl := Halted(Some(RunStartRefused)))
  }

  function Consider(w: World, s: State, st: Stage): State {
    if !Configured(w, st) then s.(ctl := Advance(st))
    else
      var c := CreateJob(w, s.sys, st);
      if c.ok then s.(sys := s.sys.(jobs := c.rows), ctl := JobCreated(st))
      else s.(ctl := Choosing(Some(JobCreateRefused(st))))
  }

  function Begin(w: World, s: State, st: Stage): State {
    var r := StartJob(w, s.sys, st);
    if r.ok then s.(sys := s.sys.(jobs := r.rows), ctl := AtStep(st, 0))
    else s.(ctl := Choosing(Some(JobStartRefused(st))))
  }

  function StepTop(w: World, s: State, st: Stage, i: nat): State
    requires Placed(w, AtStep(st, i))
  {
    match st
    case Build =>
      if i == |BuildSteps(w)| then s.(ctl := JobFinal(Build, None))
      else CallFrom(s, BuildTask(w, i), Inline(Build, i))
    case Test =>
      var steps := TestSteps(w);
      if i == |steps| then s.(ctl := JobFinal(Test, None))
      else if !steps[i].parallel then CallFrom(s, TestTask(w, i, None), Inline(Test, i))
      else s.(ctl := Spawning(i, Batching.BatchEnd(steps, i)), wg := 0, errs := [])
    case Deploy =>
      if !w.listOk then s.(ctl := JobFinal(Deploy, Some(ListRefused)))
      else
        var cfg := w.cfg.deploy.value;
        var ids := w.listing(s.sys.arts, s.buildJob);
        var k := FirstOfType(s.sys.arts, ids, cfg.artifact);
        if k == |ids| then s.(ctl := JobFinal(Deploy, Some(NoArtifact)))
        else CallFrom(s, DeployTask(w, cfg, s.sys.arts[ids[k]].path), Inline(Deploy, 0))
  }

  /** The direct call of a step has returned. */
  function CallReturns(s: State, st: Stage, i: nat): State
    requires s.base < |s.threads| && s.threads[|s.threads| - 1].pc.AtReturn?
  {
    var err := s.threads[|s.threads| - 1].pc.err;
    var next := if err.Some? then JobFinal(st, err)
                else match st case Build => Registering(i, 0) case Test => AtStep(Test, i + 1) case Deploy => JobFinal(Deploy, None);
    s.(ctl := next, base := |s.threads|)
  }

  function Spawn(w: World, s: State, i: nat, hi: nat): State
    requires Placed(w, Spawning(i, hi)) && s.base <= |s.threads|
  {
    var next := i + (|s.threads| - s.base);
    if next >= hi then s.(ctl := Joining(i, hi))
    else CallFrom(s.(wg := s.wg + 1), TestTask(w, next, Some(Batching.GroupName(i))), Spawning(i, hi))
  }

  function Release(s: State, hi: nat): State {
    s.(ctl := if s.errs != [] then JobFinal(Test, Some(s.errs[0])) else AtStep(Test, hi), base := |s.threads|)
  }

  function Register(w: World, s: State, i: nat, j: nat): State
    requires Placed(w, Registering(i, j))
  {
    if j == |BuildSteps(w)[i].outputs| then s.(ctl := AtStep(Build, i + 1))
    else
      var r := RegisterOne(w, s.sys, i, j);
      if r.ok then s.(sys := s.sys.(arts := r.rows), ctl := Registering(i, j + 1))
      else s.(ctl := JobFinal(Build, Some(RegisterRefused(i, j))))
  }

  function EndJob(w: World, s: State, st: Stage, err: Option<Error>): State {
    s.(sys := FinalJob(w, s.sys, st, err),
       ctl := if err.Some? then Choosing(err) else Advance(st),
       buildJob := if st == Build && err.None? then JobId(w, Build) else s.buildJob)
  }

  predicate MainEnabled(s: State) {
    match s.ctl
    case Inline(_, _) => s.base < |s.threads| && s.threads[|s.threads| - 1].pc.AtReturn?
    case Spawning(_, _) => s.base <= |s.threads|
    case Joining(_, _) => s.wg == 0
    case Halted(_) => false
    case _ => true
  }

  function MainStep(w: World, s: State): State
    requires Placed(w, s.ctl) && MainEnabled(s)
  {
    match s.ctl
    case Starting => Start(w, s)
    case Considering(st) => Consider(w, s, st)
    case JobCreated(st) => Begin(w, s, st)
    case AtStep(st, i) => StepTop(w, s, st, i)
    case Inline(st, i) => CallReturns(s, st, i)
    case Spawning(i, hi) => Spawn(w, s, i, hi)
    case Joining(_, hi) => Release(s, hi)
    case Registering(i, j) => Register(w, s, i, j)
    case JobFinal(st, err) => EndJob(w, s, st, err)
    case Choosing(err) => s.(ctl := RunFinalWrite(err, RunFinal(s.cancelled, err.Some?)), seen := s.cancelled)
    case RunFinalWrite(err, final) => s.(sys := FinalRun(w, s.sys, final), ctl := Halted(err))
  }

  // ---------- The steps' actions ----------

  predicate Goroutine(th: Thread) { th.task.inv.group.Some? }

  predicate GoEnabled(s: State, k: nat) {
    && k < |s.threads|
    && var th := s.threads[k];
       !Starved(th) && (TakesCancel(th) ==> s.cancelled) && !th.pc.Done? && (Returned(th) ==> Goroutine(th))
  }

  function GoStep(s: State, k: nat): State
    requires GoEnabled(s, k)
  {
    var th := s.threads[k];
    match th.pc
    case AtReturn(err) =>
      s.(errs := if err.Some? then s.errs + [err.value] else s.errs, threads := s.threads[k := th.(pc := Logged(err))])
    case Logged(err) =>
      s.(wg := s.wg - 1, threads := s.threads[k := th.(pc := Done(err))])
    case _ =>
      var (sys', pc') := Move(s.sys, th);
      s.(sys := sys', threads := s.threads[k := th.(pc := pc')])
  }

  // ---------- Runs ----------

  predicate Enabled(w: World, s: State, a: Action) {
    match a
    case CancelCtx => true
    case Main => Placed(w, s.ctl) && MainEnabled(s)
    case Go(k) => GoEnabled(s, k)
  }

  /** An action that is not enabled is skipped. */
  function Next(w: World, s: State, a: Action): State {
    if !Enabled(w, s, a) then s
    else
      match a
      case CancelCtx => s.(cancelled := true)
      case Main => MainStep(w, s)
      case Go(k) => GoStep(s, k)
  }

  /** The state after a schedule: any finite sequence of actions whatever. */
  function After(w: World, sys: Sys, schedule: seq<Action>): State {
    if schedule == [] then Init(sys)
    else Next(w, After(w, sys, schedule[..|schedule| - 1]), schedule[|schedule| - 1])
  }
}
