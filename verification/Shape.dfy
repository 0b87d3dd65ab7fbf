/** Where the started steps of a run stand relative to the orchestrator, in every reachable state. */
module Shape {
  import opened Wrappers
  import opened States
  import opened Rows
  import opened Config
  import opened Executor
  import opened Steps
  import opened Pipeline
  import opened Interleaving
  import opened Reference
  import opened Engine
  import Batching

  /** A step no action of which remains: a direct call that returned, or a goroutine whose Done has run. */
  predicate Finished(th: Thread) { if Goroutine(th) then th.pc.Done? else th.pc.AtReturn? }

  predicate Succeeds(th: Thread) { Finished(th) && Result(th).None? }

  /** What a call is asked to do is what its key prescribes. */
  predicate TaskOk(w: World, t: Task) {
    var k := t.inv.key;
    && t.job == JobId(w, k.stage) && t.script == w.steps(k) && k.order < Planned(w, k.stage)
    && match k.stage
       case Build => t == BuildTask(w, k.order)
       case Test => t == TestTask(w, k.order, Batching.GroupOf(TestSteps(w), k.order))
       case Deploy => t.inv.group.None?
  }

  /** Steps are started stage by stage, and in list order within a stage. */
  function KeyAt(m: Made, k: nat): Key {
    if k < m.build then Key(Build, k)
    else if k < m.build + m.test then Key(Test, k - m.build)
    else Key(Deploy, k - m.build - m.test)
  }

  predicate Layout(w: World, s: State) {
    && |s.threads| == s.made.build + s.made.test + s.made.deploy
    && (forall k :: 0 <= k < |s.threads| ==>
          s.threads[k].task.inv.key == KeyAt(s.made, k) && TaskOk(w, s.threads[k].task))
    && (forall k :: 0 <= k < |s.threads| && !Goroutine(s.threads[k]) ==> !s.threads[k].pc.Logged? && !s.threads[k].pc.Done?)
    && |s.sys.starts| == |s.threads| && (forall k :: 0 <= k < |s.threads| ==> s.sys.starts[k] == s.threads[k].task.inv)
  }

  /** Every stage before `st` started all its steps, `st` started n, later ones none. */
  predicate CountsAt(w: World, m: Made, st: Stage, n: nat) {
    match st
    case Build => m == Made(n, 0, 0)
    case Test => m == Made(Planned(w, Build), n, 0)
    case Deploy => m == Made(Planned(w, Build), Planned(w, Test), n)
  }

  predicate AllSucceeded(s: State, n: nat) {
    n <= |s.threads| && forall k :: 0 <= k < n ==> Succeeds(s.threads[k])
  }

  /** Nothing in flight: all steps so far have succeeded. */
  predicate Quiet(w: World, s: State, st: Stage, n: nat) {
    CountsAt(w, s.made, st, n) && s.base == |s.threads| && AllSucceeded(s, |s.threads|)
  }

  /** The steps from `lo` on are a goroutine batch whose first list index is `i`. */
  predicate BatchRuns(s: State, lo: nat, i: nat) {
    forall k :: lo <= k < |s.threads| ==> s.threads[k].task.inv.group == Some(Batching.GroupName(i))
  }

  /** Errors that end stage `st` after n steps without any of them having failed. */
  predicate OwnError(w: World, st: Stage, n: nat, e: Error) {
    match e
    case JobCreateRefused(s) => s == st && n == 0
    case JobStartRefused(s) => s == st && n == 0
    case RegisterRefused(i, j) => st == Build && n == i + 1 && i < |BuildSteps(w)| && j < |BuildSteps(w)[i].outputs|
    case ListRefused => st == Deploy && n == 0
    case NoArtifact => st == Deploy && n == 0
    case _ => false
  }

  /**
   Stage `st` ended in error `e` after n steps: every step before thread `lo` succeeded, and the steps from `lo`
   on are the last direct call or one complete batch, all finished, from one of which `e` comes.
   */
  ghost predicate StoppedAt(w: World, s: State, st: Stage, n: nat, lo: nat, e: Error) {
    && CountsAt(w, s.made, st, n) && n <= Planned(w, st) && Configured(w, st)
    && s.base == |s.threads| && AllSucceeded(s, lo)
    && (forall k :: lo <= k < |s.threads| ==> Finished(s.threads[k]))
    && if lo == |s.threads| then OwnError(w, st, n, e)
       else
         && (exists k :: lo <= k < |s.threads| && Result(s.threads[k]) == Some(e))
         && LastCalls(w, s, st, n, lo)
  }

  /** The threads from `lo` on are the last direct call of the stage, or its last batch, complete. */
  predicate LastCalls(w: World, s: State, st: Stage, n: nat, lo: nat)
    requires lo < |s.threads|
  {
    var size := |s.threads| - lo;
    if size == 1 && !Goroutine(s.threads[lo]) then n > 0
    else st == Test && size <= n && IsBatch(w, n - size, n) && BatchRuns(s, lo, n - size)
  }

  ghost predicate Stopped(w: World, s: State, st: Stage, e: Error) {
    exists n, lo :: StoppedAt(w, s, st, n, lo, e)
  }

  /** How the body of the run ended. */
  ghost predicate Ended(w: World, s: State, err: Option<Error>) {
    if err.None? then Quiet(w, s, Deploy, Planned(w, Deploy))
    else
      || (err == Some(RunStartRefused) && s.threads == [] && s.base == 0 && s.made == Made(0, 0, 0))
      || exists st :: Stopped(w, s, st, err.value)
  }

  ghost predicate Progress(w: World, s: State) {
    match s.ctl
    case Starting => s.threads == [] && s.base == 0 && s.made == Made(0, 0, 0)
    case Considering(st) => Quiet(w, s, st, 0)
    case JobCreated(st) => Quiet(w, s, st, 0)
    case AtStep(st, i) => Quiet(w, s, st, i)
    case Inline(st, i) =>
      && CountsAt(w, s.made, st, i + 1) && s.base == |s.threads| - 1 && AllSucceeded(s, s.base)
      && !Goroutine(s.threads[s.base])
    case Spawning(i, hi) =>
      && s.base <= |s.threads| && CountsAt(w, s.made, Test, i + (|s.threads| - s.base)) && |s.threads| - s.base <= hi - i
      && AllSucceeded(s, s.base) && BatchRuns(s, s.base, i)
    case Joining(i, hi) =>
      && s.base <= |s.threads| && CountsAt(w, s.made, Test, hi) && |s.threads| - s.base == hi - i
      && AllSucceeded(s, s.base) && BatchRuns(s, s.base, i)
    case Registering(i, _) => Quiet(w, s, Build, i + 1)
    case JobFinal(st, err) => if err.None? then Quiet(w, s, st, Planned(w, st)) else Stopped(w, s, st, err.value)
    case Choosing(err) => Ended(w, s, err)
    case RunFinalWrite(err, _) => Ended(w, s, err)
    case Halted(err) => Ended(w, s, err)
  }

  // ---------- The wait group and the error list ----------

  /** Goroutines whose deferred Done has not run. */
  function Live(ts: seq<Thread>): nat {
    if ts == [] then 0 else Live(ts[..|ts| - 1]) + if ts[|ts| - 1].pc.Done? then 0 else 1
  }

  predicate PastLock(th: Thread) { th.pc.Logged? || th.pc.Done? }

  /** The list holds exactly the errors of the goroutines that have left the critical section. */
  ghost predicate ErrorsOf(ts: seq<Thread>, errs: seq<Error>) {
    && (forall e :: e in errs ==> exists k :: 0 <= k < |ts| && Reported(ts[k], e))
    && (forall k :: 0 <= k < |ts| && PastLock(ts[k]) && Result(ts[k]).Some? ==> Result(ts[k]).value in errs)
  }

  predicate Reported(th: Thread, e: Error) { PastLock(th) && Result(th) == Some(e) }

  ghost predicate Waiting(s: State) {
    s.ctl.Spawning? || s.ctl.Joining? ==>
      s.base <= |s.threads| && s.wg == Live(s.threads[s.base..]) && ErrorsOf(s.threads[s.base..], s.errs)
  }

  ghost predicate WellShaped(w: World, s: State) {
    Placed(w, s.ctl) && Layout(w, s) && Progress(w, s) && Waiting(s)
  }

  lemma ErrorsAfterMove(ts: seq<Thread>, errs: seq<Error>, k: nat, th: Thread)
    requires k < |ts| && ErrorsOf(ts, errs)
    requires if PastLock(ts[k]) then PastLock(th) && Result(th) == Result(ts[k]) else !PastLock(th)
    ensures ErrorsOf(ts[k := th], errs)
  {
    var us := ts[k := th];
    forall e | e in errs ensures exists m :: 0 <= m < |us| && Reported(us[m], e) {
      var m :| 0 <= m < |ts| && Reported(ts[m], e);
      assert Reported(us[m], e);
    }
  }

  lemma ErrorsAfterLock(ts: seq<Thread>, errs: seq<Error>, k: nat)
    requires k < |ts| && ErrorsOf(ts, errs) && ts[k].pc.AtReturn?
    ensures var err := ts[k].pc.err;
            ErrorsOf(ts[k := ts[k].(pc := Logged(err))], if err.Some? then errs + [err.value] else errs)
  {
    var err := ts[k].pc.err;
    var us := ts[k := ts[k].(pc := Logged(err))];
    forall e | e in errs ensures exists m :: 0 <= m < |us| && Reported(us[m], e) {
      var m :| 0 <= m < |ts| && Reported(ts[m], e);
      assert Reported(us[m], e);
    }
    if err.Some? { assert Reported(us[k], err.value); }
  }

  lemma ErrorsAfterSpawn(ts: seq<Thread>, errs: seq<Error>, t: Task)
    requires ErrorsOf(ts, errs)
    ensures ErrorsOf(ts + [Thread(t, AtCreate)], errs)
  {
    var us := ts + [Thread(t, AtCreate)];
    forall e | e in errs ensures exists m :: 0 <= m < |us| && Reported(us[m], e) {
      var m :| 0 <= m < |ts| && Reported(ts[m], e);
      assert Reported(us[m], e);
    }
  }

  /** The goroutine that reported an error on the list. */
  lemma Reporter(s: State, e: Error) returns (k: nat)
    requires s.base <= |s.threads| && ErrorsOf(s.threads[s.base..], s.errs) && e in s.errs
    ensures s.base <= k < |s.threads| && Reported(s.threads[k], e)
  {
    var ts := s.threads[s.base..];
    var m :| 0 <= m < |ts| && Reported(ts[m], e);
    k := s.base + m;
  }

  lemma {:induction false} LiveUpdate(ts: seq<Thread>, k: nat, th: Thread)
    requires k < |ts|
    ensures Live(ts[k := th]) == Live(ts) - (if ts[k].pc.Done? then 0 else 1) + if th.pc.Done? then 0 else 1
    decreases |ts|
  {
    var us := ts[k := th];
    if k == |ts| - 1 {
      assert us[..|us| - 1] == ts[..|ts| - 1];
    } else {
      LiveUpdate(ts[..|ts| - 1], k, th);
      assert us[..|us| - 1] == ts[..|ts| - 1][k := th];
    }
  }

  lemma LiveAppend(ts: seq<Thread>, th: Thread)
    ensures Live(ts + [th]) == Live(ts) + if th.pc.Done? then 0 else 1
  {
    assert (ts + [th])[..|ts|] == ts;
  }

  lemma {:induction false} NoneLive(ts: seq<Thread>)
    requires Live(ts) == 0
    ensures forall k :: 0 <= k < |ts| ==> ts[k].pc.Done?
  {
    if ts != [] { NoneLive(ts[..|ts| - 1]); }
  }

  lemma {:induction false} SomeLive(ts: seq<Thread>) returns (k: nat)
    requires Live(ts) > 0
    ensures k < |ts| && !ts[k].pc.Done?
  {
    if !ts[|ts| - 1].pc.Done? { k := |ts| - 1; } else { k := SomeLive(ts[..|ts| - 1]); }
  }

  // ---------- Preservation ----------

  lemma InitShape(w: World, sys: Sys)
    requires sys.starts == []
    ensures WellShaped(w, Init(sys))
  {
  }

  lemma StoppedAllFinished(w: World, s: State, st: Stage, e: Error)
    requires Stopped(w, s, st, e)
    ensures forall k :: 0 <= k < |s.threads| ==> Finished(s.threads[k])
    ensures s.base == |s.threads|
  {
    var n, lo :| StoppedAt(w, s, st, n, lo, e);
    forall k | 0 <= k < |s.threads| ensures Finished(s.threads[k]) {
      if k < lo { assert Succeeds(s.threads[k]); }
    }
  }

  lemma EndedAllFinished(w: World, s: State, err: Option<Error>)
    requires Ended(w, s, err)
    ensures forall k :: 0 <= k < |s.threads| ==> Finished(s.threads[k])
    ensures s.base == |s.threads|
  {
    if err.None? {
      assert forall k :: 0 <= k < |s.threads| ==> Succeeds(s.threads[k]);
    } else if s.threads != [] {
      var st :| Stopped(w, s, st, err.value);
      StoppedAllFinished(w, s, st, err.value);
    }
  }

  /** Outside a call or batch nothing is in flight. */
  lemma RestingAllFinished(w: World, s: State)
    requires Progress(w, s) && !s.ctl.Inline? && !s.ctl.Spawning? && !s.ctl.Joining?
    ensures forall k :: 0 <= k < |s.threads| ==> Finished(s.threads[k])
    ensures s.base == |s.threads|
  {
    match s.ctl
    case JobFinal(st, err) => if err.Some? { StoppedAllFinished(w, s, st, err.value); }
    case Choosing(err) => EndedAllFinished(w, s, err);
    case RunFinalWrite(err, _) => EndedAllFinished(w, s, err);
    case Halted(err) => EndedAllFinished(w, s, err);
    case _ =>
  }

  /** A step that can act is one of the current call or batch. */
  lemma ActiveIsCurrent(w: World, s: State, k: nat)
    requires WellShaped(w, s) && GoEnabled(s, k)
    ensures s.base <= k < |s.threads| && !Finished(s.threads[k])
    ensures s.ctl.Inline? || s.ctl.Spawning? || s.ctl.Joining?
  {
    assert !Finished(s.threads[k]);
    if !s.ctl.Inline? && !s.ctl.Spawning? && !s.ctl.Joining? { RestingAllFinished(w, s); }
    assert k < s.base ==> Succeeds(s.threads[k]);
  }

  /** What one action of a step leaves as it was. */
  lemma GoKeeps(w: World, s: State, k: nat)
    requires GoEnabled(s, k)
    ensures var s' := GoStep(s, k);
            && s'.ctl == s.ctl && s'.base == s.base && s'.made == s.made && s'.buildJob == s.buildJob && s'.seen == s.seen
            && s'.cancelled == s.cancelled
            && |s'.threads| == |s.threads| && s'.threads[k].task == s.threads[k].task
            && s'.threads == s.threads[k := s'.threads[k]]
            && s'.sys.starts == s.sys.starts && s'.sys.runs == s.sys.runs && s'.sys.jobs == s.sys.jobs && s'.sys.arts == s.sys.arts
  {
    MoveFrame(s.sys, s.threads[k]);
  }

  lemma GoLayout(w: World, s: State, k: nat)
    requires Layout(w, s) && GoEnabled(s, k)
    ensures Layout(w, GoStep(s, k))
  {
    hide TaskOk, KeyAt;
    GoKeeps(w, s, k);
    var s' := GoStep(s, k);
    forall j | 0 <= j < |s.threads| ensures s'.threads[j].task == s.threads[j].task {}
  }

  lemma GoProgress(w: World, s: State, s': State, k: nat)
    requires Progress(w, s) && (s.ctl.Inline? || s.ctl.Spawning? || s.ctl.Joining?)
    requires s.base <= k < |s.threads|
    requires s'.ctl == s.ctl && s'.base == s.base && s'.made == s.made
    requires |s'.threads| == |s.threads| && s'.threads == s.threads[k := s'.threads[k]]
    requires s'.threads[k].task == s.threads[k].task
    ensures Progress(w, s')
  {
    assert AllSucceeded(s', s.base) by {
      forall j | 0 <= j < s.base ensures s'.threads[j] == s.threads[j] {}
    }
    forall j | 0 <= j < |s.threads| ensures s'.threads[j].task == s.threads[j].task {}
  }

  lemma GoWg(s: State, k: nat)
    requires GoEnabled(s, k) && s.base <= k && s.wg == Live(s.threads[s.base..])
    ensures GoStep(s, k).wg == Live(GoStep(s, k).threads[s.base..])
  {
    var s' := GoStep(s, k);
    assert s'.threads[s.base..] == s.threads[s.base..][k - s.base := s'.threads[k]];
    LiveUpdate(s.threads[s.base..], k - s.base, s'.threads[k]);
  }

  lemma GoWaiting(w: World, s: State, k: nat)
    requires WellShaped(w, s) && GoEnabled(s, k)
    ensures Waiting(GoStep(s, k))
  {
    GoKeeps(w, s, k);
    ActiveIsCurrent(w, s, k);
    if s.ctl.Spawning? || s.ctl.Joining? {
      GoWg(s, k);
      GoErrs(s, k);
    }
  }

  lemma GoErrs(s: State, k: nat)
    requires GoEnabled(s, k) && s.base <= k && ErrorsOf(s.threads[s.base..], s.errs)
    ensures s.base <= |GoStep(s, k).threads| && ErrorsOf(GoStep(s, k).threads[s.base..], GoStep(s, k).errs)
  {
    hide ErrorsOf;
    var s', ts := GoStep(s, k), s.threads[s.base..];
    assert s'.threads[s.base..] == ts[k - s.base := s'.threads[k]];
    if s.threads[k].pc.AtReturn? { ErrorsAfterLock(ts, s.errs, k - s.base); }
    else { ErrorsAfterMove(ts, s.errs, k - s.base, s'.threads[k]); }
  }

  lemma GoShape(w: World, s: State, k: nat)
    requires WellShaped(w, s) && GoEnabled(s, k)
    ensures WellShaped(w, GoStep(s, k))
  {
    GoKeeps(w, s, k);
    GoLayout(w, s, k);
    ActiveIsCurrent(w, s, k);
    GoProgress(w, s, GoStep(s, k), k);
    GoWaiting(w, s, k);
  }

  // ---------- The orchestrator's actions ----------

  /** A new call extends the layout. */
  lemma CallLayout(w: World, s: State, t: Task, c: Ctl, n: nat)
    requires Layout(w, s) && TaskOk(w, t)
    requires t.inv.key == Key(t.inv.key.stage, n) && CountsAt(w, s.made, t.inv.key.stage, n)
    ensures Layout(w, CallFrom(s, t, c))
    ensures CountsAt(w, CallFrom(s, t, c).made, t.inv.key.stage, n + 1)
  {
    var s' := CallFrom(s, t, c);
    forall k | 0 <= k < |s'.threads|
      ensures s'.threads[k].task.inv.key == KeyAt(s'.made, k)
    {
      if k < |s.threads| { assert s'.threads[k] == s.threads[k]; }
    }
  }

  /** Where the orchestrator made no call, the layout stands. */
  lemma SameLayout(w: World, s: State, s': State)
    requires Layout(w, s)
    requires s'.threads == s.threads && s'.made == s.made && s'.sys.starts == s.sys.starts
    ensures Layout(w, s')
  {
  }

  lemma CallReturnsProgress(w: World, s: State, st: Stage, i: nat)
    requires Placed(w, s.ctl) && Progress(w, s) && s.ctl == Inline(st, i) && MainEnabled(s)
    ensures Progress(w, CallReturns(s, st, i))
  {
    var s', last := CallReturns(s, st, i), s.threads[|s.threads| - 1];
    if last.pc.err.Some? {
      CallFails(w, s, s', st, i, last.pc.err.value);
    } else {
      assert Succeeds(last);
      assert AllSucceeded(s', |s'.threads|);
    }
  }

  lemma CallFails(w: World, s: State, s': State, st: Stage, i: nat, e: Error)
    requires Configured(w, st) && i < Planned(w, st)
    requires CountsAt(w, s.made, st, i + 1) && s.base == |s.threads| - 1 && AllSucceeded(s, s.base)
    requires !Goroutine(s.threads[s.base]) && s.threads[s.base].pc == AtReturn(Some(e))
    requires s'.threads == s.threads && s'.made == s.made && s'.base == |s.threads|
    ensures Stopped(w, s', st, e)
  {
    assert Result(s'.threads[s.base]) == Some(e);
    assert AllSucceeded(s', s.base);
    assert StoppedAt(w, s', st, i + 1, s.base, e);
  }

  lemma OwnErrorStops(w: World, s: State, s': State, st: Stage, n: nat, e: Error)
    requires Quiet(w, s, st, n) && n <= Planned(w, st) && Configured(w, st) && OwnError(w, st, n, e)
    requires s'.threads == s.threads && s'.made == s.made && s'.base == s.base
    ensures Stopped(w, s', st, e)
  {
    assert StoppedAt(w, s', st, n, |s.threads|, e);
  }

  lemma StepTopProgress(w: World, s: State, st: Stage, i: nat)
    requires Placed(w, s.ctl) && Progress(w, s) && s.ctl == AtStep(st, i)
    ensures Progress(w, StepTop(w, s, st, i))
  {
    var s' := StepTop(w, s, st, i);
    if s'.ctl.JobFinal? && s'.ctl.err.Some? {
      OwnErrorStops(w, s, s', Deploy, 0, s'.ctl.err.value);
    } else if s'.ctl.Inline? {
      assert AllSucceeded(s', s.base);
    }
  }

  lemma StepTopLayout(w: World, s: State, st: Stage, i: nat)
    requires Placed(w, s.ctl) && Layout(w, s) && Quiet(w, s, st, i) && s.ctl == AtStep(st, i)
    ensures Layout(w, StepTop(w, s, st, i))
  {
    match st
    case Build =>
      if i < |BuildSteps(w)| { CallLayout(w, s, BuildTask(w, i), Inline(Build, i), i); }
    case Test =>
      if i < |TestSteps(w)| && !TestSteps(w)[i].parallel { CallLayout(w, s, TestTask(w, i, None), Inline(Test, i), i); }
      else { SameLayout(w, s, StepTop(w, s, st, i)); }
    case Deploy =>
      var cfg := w.cfg.deploy.value;
      var ids := w.listing(s.sys.arts, s.buildJob);
      var k := FirstOfType(s.sys.arts, ids, cfg.artifact);
      if w.listOk && k < |ids| { CallLayout(w, s, DeployTask(w, cfg, s.sys.arts[ids[k]].path), Inline(Deploy, 0), 0); }
      else { SameLayout(w, s, StepTop(w, s, st, i)); }
  }

  lemma DropAppend<T>(xs: seq<T>, n: nat, x: T)
    requires n <= |xs|
    ensures (xs + [x])[n..] == xs[n..] + [x]
  {
  }

  lemma SpawnCounts(s: State, s': State, th: Thread)
    requires s.base <= |s.threads| && s.wg == Live(s.threads[s.base..]) && ErrorsOf(s.threads[s.base..], s.errs)
    requires s'.threads == s.threads + [th] && s'.base == s.base && s'.wg == s.wg + 1 && s'.errs == s.errs && th.pc.AtCreate?
    ensures s'.wg == Live(s'.threads[s'.base..]) && ErrorsOf(s'.threads[s'.base..], s'.errs)
  {
    hide Live, ErrorsOf;
    DropAppend(s.threads, s.base, th);
    LiveAppend(s.threads[s.base..], th);
    ErrorsAfterSpawn(s.threads[s.base..], s.errs, th.task);
  }

  lemma SpawnWaiting(w: World, s: State, i: nat, hi: nat)
    requires Placed(w, s.ctl) && s.ctl == Spawning(i, hi) && Waiting(s)
    ensures Waiting(Spawn(w, s, i, hi))
  {
    hide TestTask, Live, ErrorsOf;
    var s', next := Spawn(w, s, i, hi), i + (|s.threads| - s.base);
    if next < hi { SpawnCounts(s, s', Thread(TestTask(w, next, Some(Batching.GroupName(i))), AtCreate)); }
  }

  lemma SpawnTaskOk(w: World, i: nat, hi: nat, k: nat)
    requires IsBatch(w, i, hi) && i <= k < hi
    ensures TaskOk(w, TestTask(w, k, Some(Batching.GroupName(i))))
  {
    Batching.BatchIsGroup(TestSteps(w), i, k);
  }

  lemma SpawnLayout(w: World, s: State, i: nat, hi: nat)
    requires Placed(w, s.ctl) && Layout(w, s) && s.ctl == Spawning(i, hi)
    requires s.base <= |s.threads| && CountsAt(w, s.made, Test, i + (|s.threads| - s.base))
    ensures Layout(w, Spawn(w, s, i, hi))
  {
    var next := i + (|s.threads| - s.base);
    if next < hi {
      SpawnTaskOk(w, i, hi, next);
      SameLayout(w, s, s.(wg := s.wg + 1));
      CallLayout(w, s.(wg := s.wg + 1), TestTask(w, next, Some(Batching.GroupName(i))), Spawning(i, hi), next);
    } else {
      SameLayout(w, s, Spawn(w, s, i, hi));
    }
  }

  lemma SpawnProgress(w: World, s: State, i: nat, hi: nat)
    requires Placed(w, s.ctl) && Progress(w, s) && s.ctl == Spawning(i, hi)
    ensures Progress(w, Spawn(w, s, i, hi))
  {
    var s' := Spawn(w, s, i, hi);
    forall k | 0 <= k < |s.threads| ensures s'.threads[k] == s.threads[k] {}
    assert AllSucceeded(s', s.base);
  }

  lemma ReleaseProgress(w: World, s: State, i: nat, hi: nat)
    requires Placed(w, s.ctl) && Progress(w, s) && Waiting(s) && s.ctl == Joining(i, hi) && s.wg == 0
    ensures Progress(w, Release(s, hi))
  {
    var s' := Release(s, hi);
    NoneLive(s.threads[s.base..]);
    forall k | s.base <= k < |s.threads| ensures Finished(s.threads[k]) && PastLock(s.threads[k]) {
      assert s.threads[s.base..][k - s.base] == s.threads[k];
    }
    if s.errs != [] {
      BatchFails(w, s, s', i, hi, s.errs[0]);
    } else {
      assert AllSucceeded(s', |s.threads|);
    }
  }

  lemma BatchFails(w: World, s: State, s': State, i: nat, hi: nat, e: Error)
    requires Placed(w, s.ctl) && Progress(w, s) && Waiting(s) && s.ctl == Joining(i, hi) && e in s.errs
    requires forall k :: s.base <= k < |s.threads| ==> Finished(s.threads[k])
    requires s'.threads == s.threads && s'.made == s.made && s'.base == |s.threads|
    ensures Stopped(w, s', Test, e)
  {
    var k := Reporter(s, e);
    assert Result(s'.threads[k]) == Some(e);
    assert AllSucceeded(s', s.base);
    assert LastCalls(w, s', Test, hi, s.base);
    assert StoppedAt(w, s', Test, hi, s.base, e);
  }

  lemma RegisterProgress(w: World, s: State, i: nat, j: nat)
    requires Placed(w, s.ctl) && Progress(w, s) && s.ctl == Registering(i, j)
    ensures Progress(w, Register(w, s, i, j))
  {
    var s' := Register(w, s, i, j);
    if s'.ctl.JobFinal? { OwnErrorStops(w, s, s', Build, i + 1, RegisterRefused(i, j)); }
  }

  lemma ConsiderProgress(w: World, s: State, st: Stage)
    requires Progress(w, s) && s.ctl == Considering(st)
    ensures Progress(w, Consider(w, s, st))
  {
    var s' := Consider(w, s, st);
    if s'.ctl.Choosing? && s'.ctl.err.Some? { OwnErrorStops(w, s, s', st, 0, JobCreateRefused(st)); }
  }

  lemma BeginProgress(w: World, s: State, st: Stage)
    requires Placed(w, s.ctl) && Progress(w, s) && s.ctl == JobCreated(st)
    ensures Progress(w, Begin(w, s, st))
  {
    var s' := Begin(w, s, st);
    if s'.ctl.Choosing? { OwnErrorStops(w, s, s', st, 0, JobStartRefused(st)); }
  }

  lemma SameThreadsSameStop(w: World, s: State, s': State, st: Stage, e: Error)
    requires Stopped(w, s, st, e)
    requires s'.threads == s.threads && s'.made == s.made && s'.base == s.base
    ensures Stopped(w, s', st, e)
  {
    var n, lo :| StoppedAt(w, s, st, n, lo, e);
    assert StoppedAt(w, s', st, n, lo, e);
  }

  lemma SameThreadsSameEnd(w: World, s: State, s': State, err: Option<Error>)
    requires Ended(w, s, err)
    requires s'.threads == s.threads && s'.made == s.made && s'.base == s.base
    ensures Ended(w, s', err)
  {
    if err.Some? {
      if st :| Stopped(w, s, st, err.value) { SameThreadsSameStop(w, s, s', st, err.value); }
    }
  }

  lemma EndJobProgress(w: World, s: State, st: Stage, err: Option<Error>)
    requires Placed(w, s.ctl) && Progress(w, s) && s.ctl == JobFinal(st, err)
    ensures Progress(w, EndJob(w, s, st, err))
  {
    if err.Some? { SameThreadsSameStop(w, s, EndJob(w, s, st, err), st, err.value); }
  }

  lemma MainProgress(w: World, s: State)
    requires Placed(w, s.ctl) && Progress(w, s) && Waiting(s) && MainEnabled(s)
    ensures Progress(w, MainStep(w, s))
  {
    match s.ctl
    case Starting =>
    case Considering(st) => ConsiderProgress(w, s, st);
    case JobCreated(st) => BeginProgress(w, s, st);
    case AtStep(st, i) => StepTopProgress(w, s, st, i);
    case Inline(st, i) => CallReturnsProgress(w, s, st, i);
    case Spawning(i, hi) => SpawnProgress(w, s, i, hi);
    case Joining(i, hi) => ReleaseProgress(w, s, i, hi);
    case Registering(i, j) => RegisterProgress(w, s, i, j);
    case JobFinal(st, err) => EndJobProgress(w, s, st, err);
    case Choosing(err) => SameThreadsSameEnd(w, s, MainStep(w, s), err);
    case RunFinalWrite(err, _) => SameThreadsSameEnd(w, s, MainStep(w, s), err);
  }

  lemma MainPlaced(w: World, s: State)
    requires Placed(w, s.ctl) && MainEnabled(s)
    ensures Placed(w, MainStep(w, s).ctl)
  {
    match s.ctl
    case Starting =>
    case Considering(st) =>
    case JobCreated(st) =>
    case AtStep(st, i) => StepTopPlaced(w, s, st, i);
    case Inline(st, i) => CallReturnsPlaced(w, s, st, i);
    case Spawning(i, hi) => SpawnPlaced(w, s, i, hi);
    case Joining(i, hi) => ReleasePlaced(w, s, i, hi);
    case Registering(i, j) => RegisterPlaced(w, s, i, j);
    case JobFinal(st, err) =>
    case Choosing(err) =>
    case RunFinalWrite(err, _) =>
  }

  lemma CallReturnsPlaced(w: World, s: State, st: Stage, i: nat)
    requires Placed(w, Inline(st, i)) && s.base < |s.threads| && s.threads[|s.threads| - 1].pc.AtReturn?
    ensures Placed(w, CallReturns(s, st, i).ctl)
  {
  }

  lemma SpawnPlaced(w: World, s: State, i: nat, hi: nat)
    requires Placed(w, Spawning(i, hi)) && s.base <= |s.threads|
    ensures Placed(w, Spawn(w, s, i, hi).ctl)
  {
  }

  lemma ReleasePlaced(w: World, s: State, i: nat, hi: nat)
    requires Placed(w, Joining(i, hi))
    ensures Placed(w, Release(s, hi).ctl)
  {
  }

  lemma RegisterPlaced(w: World, s: State, i: nat, j: nat)
    requires Placed(w, Registering(i, j))
    ensures Placed(w, Register(w, s, i, j).ctl)
  {
  }

  lemma StepTopPlaced(w: World, s: State, st: Stage, i: nat)
    requires Placed(w, AtStep(st, i))
    ensures Placed(w, StepTop(w, s, st, i).ctl)
  {
  }

  lemma MainLayout(w: World, s: State)
    requires Placed(w, s.ctl) && Layout(w, s) && Progress(w, s) && MainEnabled(s)
    ensures Layout(w, MainStep(w, s))
  {
    match s.ctl
    case AtStep(st, i) => StepTopLayout(w, s, st, i);
    case Spawning(i, hi) => SpawnLayout(w, s, i, hi);
    case Inline(st, i) => SameLayout(w, s, CallReturns(s, st, i));
    case Joining(_, hi) => SameLayout(w, s, Release(s, hi));
    case Registering(i, j) => SameLayout(w, s, Register(w, s, i, j));
    case _ => RowWritesLayout(w, s);
  }

  lemma RowWritesLayout(w: World, s: State)
    requires Placed(w, s.ctl) && Layout(w, s) && MainEnabled(s)
    requires !s.ctl.AtStep? && !s.ctl.Spawning? && !s.ctl.Inline? && !s.ctl.Joining? && !s.ctl.Registering?
    ensures Layout(w, MainStep(w, s))
  {
    match s.ctl
    case Starting => SameLayout(w, s, Start(w, s));
    case Considering(st) => SameLayout(w, s, Consider(w, s, st));
    case JobCreated(st) => SameLayout(w, s, Begin(w, s, st));
    case JobFinal(st, err) => SameLayout(w, s, EndJob(w, s, st, err));
    case Choosing(err) => SameLayout(w, s, MainStep(w, s));
    case RunFinalWrite(err, _) => SameLayout(w, s, MainStep(w, s));
  }

  lemma MainWaiting(w: World, s: State)
    requires Placed(w, s.ctl) && Progress(w, s) && Waiting(s) && MainEnabled(s)
    ensures Waiting(MainStep(w, s))
  {
    match s.ctl
    case AtStep(st, i) => StepTopWaiting(w, s, st, i);
    case Spawning(i, hi) => SpawnWaiting(w, s, i, hi);
    case _ => NoBatchNext(w, s);
  }

  lemma NoBatchNext(w: World, s: State)
    requires Placed(w, s.ctl) && MainEnabled(s) && !s.ctl.AtStep? && !s.ctl.Spawning?
    ensures !MainStep(w, s).ctl.Spawning? && !MainStep(w, s).ctl.Joining?
  {
    match s.ctl
    case Starting =>
    case Considering(st) =>
    case JobCreated(st) =>
    case Inline(st, i) => assert !CallReturns(s, st, i).ctl.Spawning? && !CallReturns(s, st, i).ctl.Joining?;
    case Joining(_, hi) =>
    case Registering(i, j) =>
    case JobFinal(st, err) =>
    case Choosing(err) =>
    case RunFinalWrite(err, _) =>
  }

  lemma StepTopWaiting(w: World, s: State, st: Stage, i: nat)
    requires Placed(w, s.ctl) && s.base == |s.threads| && s.ctl == AtStep(st, i)
    ensures Waiting(StepTop(w, s, st, i))
  {
    assert s.threads[s.base..] == [];
  }

  lemma MainShape(w: World, s: State)
    requires WellShaped(w, s) && MainEnabled(s)
    ensures WellShaped(w, MainStep(w, s))
  {
    MainPlaced(w, s);
    MainLayout(w, s);
    MainProgress(w, s);
    MainWaiting(w, s);
  }

  lemma CancelShape(w: World, s: State)
    requires WellShaped(w, s)
    ensures WellShaped(w, s.(cancelled := true))
  {
    var s' := s.(cancelled := true);
    SameLayout(w, s, s');
    match s.ctl
    case JobFinal(st, err) => if err.Some? { SameThreadsSameStop(w, s, s', st, err.value); }
    case Choosing(err) => SameThreadsSameEnd(w, s, s', err);
    case RunFinalWrite(err, _) => SameThreadsSameEnd(w, s, s', err);
    case Halted(err) => SameThreadsSameEnd(w, s, s', err);
    case _ =>
  }
}
