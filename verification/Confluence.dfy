/**
 Schedule independence. From every reachable state, letting the steps in flight finish one by one and running
 the rest of the program sequentially gives the state that the sequential program gives from the beginning;
 so every schedule that halts has written exactly what the sequential program writes.
 */
module Confluence {
  import opened Wrappers
  import opened States
  import opened Rows
  import opened Config
  import opened Executor
  import opened Steps
  import opened Pipeline
  import opened Interleaving
  import opened Reference
  import opened Engine
  import opened Shape
  import opened StepRows
  import opened Tables
  import opened Hierarchy
  import opened Ledger
  import opened Invariant
  import Batching

  /** Equal states, and both or neither failed; which error of a batch is reported may differ. */
  predicate Same(x: Out, y: Out) { x.sys == y.sys && (x.err.Some? <==> y.err.Some?) }

  // ---------- What remains to be done ----------

  predicate InFlight(w: World, s: State) {
    && Placed(w, s.ctl)
    && match s.ctl
       case Inline(_, _) => s.base < |s.threads|
       case Spawning(i, hi) => s.base <= |s.threads| && |s.threads| - s.base <= hi - i
       case Joining(i, hi) => s.base <= |s.threads| && |s.threads| - s.base == hi - i
       case _ => true
  }

  /** The steps of the batch from `next` on, after those before it have ended in `r`. */
  function BatchTail(w: World, r: Out, i: nat, next: nat, hi: nat): Out
    requires next <= hi <= |TestSteps(w)|
  {
    var b := BatchFrom(w, r.sys, Batching.GroupName(i), next, hi);
    Out(b.sys, First(r.err, b.err))
  }

  /** The rest of a batch: the steps already started, then those not yet started. */
  function BatchRest(w: World, s: State, i: nat, hi: nat): Out
    requires s.base <= |s.threads| && |s.threads| - s.base <= hi - i && hi <= |TestSteps(w)|
  {
    BatchTail(w, FinishAll(s.sys, s.threads[s.base..]), i, i + (|s.threads| - s.base), hi)
  }

  lemma BatchRestIs(w: World, s: State, i: nat, hi: nat, r: Out)
    requires s.base <= |s.threads| && |s.threads| - s.base <= hi - i && hi <= |TestSteps(w)|
    requires r == FinishAll(s.sys, s.threads[s.base..])
    ensures BatchRest(w, s, i, hi) == BatchTail(w, r, i, i + (|s.threads| - s.base), hi)
  {
    hide FinishAll, BatchTail;
  }

  /** What the body of the current stage comes to from here. */
  function BodyRest(w: World, s: State): Out
    requires InFlight(w, s) && InBodyCtl(s.ctl)
  {
    match s.ctl
    case AtStep(st, i) =>
      (match st
        case Build => BuildFrom(w, s.sys, i)
        case Test => TestFrom(w, s.sys, i)
        case Deploy => DeployStage(w, s.sys, s.buildJob))
    case Inline(st, i) => AfterCall(w, Complete(s.sys, s.threads[s.base]), st, i)
    case Spawning(i, hi) => AfterTests(w, BatchRest(w, s, i, hi), i, hi)
    case Joining(i, hi) => AfterTests(w, BatchRest(w, s, i, hi), i, hi)
    case Registering(i, j) => AfterRegister(w, RegisterFrom(w, s.sys, i, j), i)
  }

  function AfterCall(w: World, o: Out, st: Stage, i: nat): Out
    requires Placed(w, Inline(st, i))
  {
    match st
    case Build => AfterBuildStep(w, o, i)
    case Test => AfterTests(w, o, i, i + 1)
    case Deploy => o
  }

  function BodyStage(c: Ctl): Stage
    requires InBodyCtl(c)
  {
    match c
    case AtStep(st, _) => st
    case Inline(st, _) => st
    case Registering(_, _) => Build
    case _ => Test
  }

  /** What the stages come to from here. */
  function StagesRest(w: World, s: State): Out
    requires InFlight(w, s)
    requires !s.ctl.Starting? && !s.ctl.RunFinalWrite? && !s.ctl.Halted?
  {
    if InBodyCtl(s.ctl) then
      var st := BodyStage(s.ctl);
      AfterStage(w, FinishStage(w, BodyRest(w, s), st), st, s.buildJob)
    else
      match s.ctl
      case Considering(st) => StagesFrom(w, s.sys, st, s.buildJob)
      case JobCreated(st) => AfterStage(w, StartStage(w, s.sys, st, s.buildJob), st, s.buildJob)
      case JobFinal(st, err) => AfterStage(w, FinishStage(w, Out(s.sys, err), st), st, s.buildJob)
      case Choosing(err) => Out(s.sys, err)
  }

  function Goal(w: World, sys0: Sys): Out { ExecuteStages(w, sys0.(runs := StartRun(w, sys0).rows)) }

  ghost predicate OnTrack(w: World, sys0: Sys, s: State)
    requires InFlight(w, s)
  {
    match s.ctl
    case Starting => s.sys == sys0 && s.buildJob == ZERO_ID
    case RunFinalWrite(err, _) => Same(Out(s.sys, err), Goal(w, sys0))
    case Halted(err) => Same(Out(s.sys, err), Run(w, sys0, s.seen))
    case _ => Same(StagesRest(w, s), Goal(w, sys0))
  }

  lemma ShapeInFlight(w: World, s: State)
    requires WellShaped(w, s)
    ensures InFlight(w, s)
  {
  }

  // ---------- The program around the body respects sameness ----------

  lemma SameStages(w: World, x: Out, y: Out, st: Stage, buildJob: Id)
    requires Same(x, y)
    ensures Same(AfterStage(w, FinishStage(w, x, st), st, buildJob), AfterStage(w, FinishStage(w, y, st), st, buildJob))
  {
  }

  /** A body that goes on as before, or just ended as it had to, keeps the stages on track. */
  lemma BodyOnTrack(w: World, sys0: Sys, s: State, s': State)
    requires InFlight(w, s) && InFlight(w, s') && InBodyCtl(s.ctl) && InBodyCtl(s'.ctl)
    requires BodyStage(s'.ctl) == BodyStage(s.ctl) && s'.buildJob == s.buildJob
    requires OnTrack(w, sys0, s) && Same(BodyRest(w, s), BodyRest(w, s'))
    ensures OnTrack(w, sys0, s')
  {
    SameStages(w, BodyRest(w, s), BodyRest(w, s'), BodyStage(s.ctl), s.buildJob);
  }

  lemma BodyEndsOnTrack(w: World, sys0: Sys, s: State, s': State)
    requires InFlight(w, s) && InFlight(w, s') && InBodyCtl(s.ctl) && s'.ctl.JobFinal?
    requires s'.ctl.stage == BodyStage(s.ctl) && s'.buildJob == s.buildJob
    requires OnTrack(w, sys0, s) && Same(BodyRest(w, s), Out(s'.sys, s'.ctl.err))
    ensures OnTrack(w, sys0, s')
  {
    SameStages(w, BodyRest(w, s), Out(s'.sys, s'.ctl.err), BodyStage(s.ctl), s.buildJob);
  }

  // ---------- Actions of the steps ----------

  lemma GroupApart(w: World, sys0: Sys, s: State)
    requires Layout(w, s) && FreshIds(w, sys0) && s.base <= |s.threads|
    ensures AllApart(s.threads[s.base..])
  {
    var ts := s.threads[s.base..];
    forall i, j | 0 <= i < j < |ts| ensures Apart(ts[i].task, ts[j].task) {
      CallsApart(w, sys0, s, s.base + i, s.base + j);
    }
  }

  lemma GoGroup(s: State, k: nat)
    requires GoEnabled(s, k) && s.base <= k && AllApart(s.threads[s.base..])
    ensures FinishAll(GoStep(s, k).sys, GoStep(s, k).threads[s.base..]) == FinishAll(s.sys, s.threads[s.base..])
  {
    var ts, th := s.threads[s.base..], s.threads[k];
    GoWithinGroup(s, k);
    if th.pc.AtReturn? {
      SettleInGroup(s.sys, ts, k - s.base, Logged(th.pc.err));
    } else if th.pc.Logged? {
      SettleInGroup(s.sys, ts, k - s.base, Done(th.pc.err));
    } else {
      MoveInGroup(s.sys, ts, k - s.base);
    }
  }

  lemma GoWithinGroup(s: State, k: nat)
    requires GoEnabled(s, k) && s.base <= k
    ensures var s', th := GoStep(s, k), s.threads[k];
            var moved := th.(pc := if th.pc.AtReturn? then Logged(th.pc.err) else if th.pc.Logged? then Done(th.pc.err)
                                   else Move(s.sys, th).1);
            && s'.threads[s.base..] == s.threads[s.base..][k - s.base := moved]
            && s'.sys == if Returned(th) then s.sys else Move(s.sys, th).0
  {
  }

  lemma GoInline(w: World, s: State, k: nat)
    requires s.ctl.Inline? && Placed(w, s.ctl) && Progress(w, s) && GoEnabled(s, k) && s.base <= k < |s.threads|
    requires !Finished(s.threads[k])
    ensures Complete(GoStep(s, k).sys, GoStep(s, k).threads[s.base]) == Complete(s.sys, s.threads[s.base])
  {
    MoveRefines(s.sys, s.threads[k]);
  }

  lemma SameBatch(w: World, s: State, s': State, i: nat, hi: nat, r: Out)
    requires s.base <= |s.threads| && |s.threads| - s.base <= hi - i && hi <= |TestSteps(w)|
    requires s'.base == s.base && |s'.threads| == |s.threads|
    requires r == FinishAll(s.sys, s.threads[s.base..]) == FinishAll(s'.sys, s'.threads[s.base..])
    ensures BatchRest(w, s', i, hi) == BatchRest(w, s, i, hi)
  {
    hide FinishAll, BatchTail;
    BatchRestIs(w, s, i, hi, r);
    BatchRestIs(w, s', i, hi, r);
  }

  lemma SameBody(w: World, s: State, s': State)
    requires InFlight(w, s) && s'.ctl == s.ctl && s'.base == s.base && |s'.threads| == |s.threads|
    requires s.ctl.Inline? || s.ctl.Spawning? || s.ctl.Joining?
    requires s.ctl.Inline? ==> Complete(s'.sys, s'.threads[s.base]) == Complete(s.sys, s.threads[s.base])
    requires !s.ctl.Inline? ==> FinishAll(s'.sys, s'.threads[s.base..]) == FinishAll(s.sys, s.threads[s.base..])
    ensures InFlight(w, s') && BodyRest(w, s') == BodyRest(w, s)
  {
    match s.ctl
    case Inline(st, i) =>
    case Spawning(i, hi) => SameBatch(w, s, s', i, hi, FinishAll(s.sys, s.threads[s.base..]));
    case Joining(i, hi) => SameBatch(w, s, s', i, hi, FinishAll(s.sys, s.threads[s.base..]));
  }

  lemma GoBody(w: World, sys0: Sys, s: State, k: nat)
    requires FreshIds(w, sys0) && WellShaped(w, s) && GoEnabled(s, k)
    ensures InFlight(w, s) && InFlight(w, GoStep(s, k)) && InBodyCtl(s.ctl) && GoStep(s, k).ctl == s.ctl
    ensures BodyRest(w, GoStep(s, k)) == BodyRest(w, s)
  {
    GoKeeps(w, s, k);
    ActiveIsCurrent(w, s, k);
    ShapeInFlight(w, s);
    if s.ctl.Inline? { GoInline(w, s, k); }
    else { GroupApart(w, sys0, s); GoGroup(s, k); }
    SameBody(w, s, GoStep(s, k));
  }

  lemma GoOnTrack(w: World, sys0: Sys, s: State, k: nat)
    requires FreshIds(w, sys0) && WellShaped(w, s) && GoEnabled(s, k) && InFlight(w, s) && OnTrack(w, sys0, s)
    ensures InFlight(w, GoStep(s, k)) && OnTrack(w, sys0, GoStep(s, k))
  {
    GoKeeps(w, s, k);
    GoBody(w, sys0, s, k);
    BodyOnTrack(w, sys0, s, GoStep(s, k));
  }

  // ---------- Actions of the orchestrator ----------

  lemma NothingStarted(w: World, s: State, i: nat, hi: nat)
    requires s.base == |s.threads| && i <= hi <= |TestSteps(w)|
    ensures BatchRest(w, s, i, hi) == BatchFrom(w, s.sys, Batching.GroupName(i), i, hi)
  {
    hide BatchFrom;
    assert s.threads[s.base..] == [];
  }

  lemma StepTopBody(w: World, s: State, st: Stage, i: nat)
    requires Placed(w, s.ctl) && s.ctl == AtStep(st, i) && s.base == |s.threads|
    ensures var s' := StepTop(w, s, st, i);
            && InFlight(w, s') && s'.buildJob == s.buildJob
            && (InBodyCtl(s'.ctl) ==> BodyStage(s'.ctl) == st && BodyRest(w, s') == BodyRest(w, s))
            && (!InBodyCtl(s'.ctl) ==> s'.ctl.JobFinal? && s'.ctl.stage == st && BodyRest(w, s) == Out(s'.sys, s'.ctl.err))
  {
    var s' := StepTop(w, s, st, i);
    StepTopPlaced(w, s, st, i);
    match st
    case Build =>
    case Test =>
      hide FinishAll, BatchFrom, BatchRest;
      if s'.ctl.Spawning? { NothingStarted(w, s', i, s'.ctl.hi); }
    case Deploy =>
  }

  lemma CallReturnsBody(w: World, s: State, st: Stage, i: nat)
    requires Placed(w, s.ctl) && s.ctl == Inline(st, i) && MainEnabled(s) && s.base == |s.threads| - 1
    ensures var s' := CallReturns(s, st, i);
            && InFlight(w, s') && s'.buildJob == s.buildJob
            && (InBodyCtl(s'.ctl) ==> BodyStage(s'.ctl) == st && BodyRest(w, s') == BodyRest(w, s))
            && (!InBodyCtl(s'.ctl) ==> s'.ctl.JobFinal? && s'.ctl.stage == st && BodyRest(w, s) == Out(s'.sys, s'.ctl.err))
  {
    CallReturnsPlaced(w, s, st, i);
    var s' := CallReturns(s, st, i);
    match st
    case Build =>
    case Test =>
    case Deploy =>
  }

  lemma BatchStep(w: World, sys: Sys, group: string, i: nat, hi: nat)
    requires i < hi <= |TestSteps(w)|
    ensures var o := CallStep(sys, TestTask(w, i, Some(group)));
            var rest := BatchFrom(w, o.sys, group, i + 1, hi);
            BatchFrom(w, sys, group, i, hi) == Out(rest.sys, First(o.err, rest.err))
  {
  }

  /** Starting the next goroutine moves one step from the not yet started to the started. */
  lemma SpawnRest(w: World, sys: Sys, ts: seq<Thread>, i: nat, hi: nat, t: Task)
    requires i + |ts| < hi <= |TestSteps(w)| && t == TestTask(w, i + |ts|, Some(Batching.GroupName(i)))
    ensures BatchTail(w, FinishAll(Started(sys, t.inv), ts + [Thread(t, AtCreate)]), i, i + |ts| + 1, hi)
            == BatchTail(w, FinishAll(sys, ts), i, i + |ts|, hi)
  {
    FinishAllIgnoresStarts(sys, ts, t.inv);
    FinishOneMore(Started(sys, t.inv), ts, Thread(t, AtCreate));
    BatchStep(w, FinishAll(sys, ts).sys, Batching.GroupName(i), i + |ts|, hi);
  }

  lemma SpawnMore(w: World, s: State, i: nat, hi: nat)
    requires InFlight(w, s) && s.ctl == Spawning(i, hi) && |s.threads| - s.base < hi - i
    ensures var s' := Spawn(w, s, i, hi);
            && s'.ctl == s.ctl && s'.base == s.base && |s'.threads| == |s.threads| + 1 && s'.buildJob == s.buildJob
            && BatchRest(w, s', i, hi) == BatchRest(w, s, i, hi)
  {
    var next := i + (|s.threads| - s.base);
    hide FinishAll, BatchTail, BatchRest;
    var s', ts, t := Spawn(w, s, i, hi), s.threads[s.base..], TestTask(w, next, Some(Batching.GroupName(i)));
    assert s'.threads[s.base..] == ts + [Thread(t, AtCreate)];
    SpawnRest(w, s.sys, ts, i, hi, t);
    BatchRestIs(w, s, i, hi, FinishAll(s.sys, ts));
    BatchRestIs(w, s', i, hi, FinishAll(Started(s.sys, t.inv), ts + [Thread(t, AtCreate)]));
  }

  lemma SpawnBody(w: World, s: State, i: nat, hi: nat)
    requires InFlight(w, s) && s.ctl == Spawning(i, hi)
    ensures var s' := Spawn(w, s, i, hi);
            && InFlight(w, s') && InBodyCtl(s'.ctl) && BodyStage(s'.ctl) == Test && s'.buildJob == s.buildJob
            && BodyRest(w, s') == BodyRest(w, s)
  {
    if |s.threads| - s.base < hi - i { SpawnMore(w, s, i, hi); }
  }

  lemma ReleaseBody(w: World, s: State, i: nat, hi: nat)
    requires InFlight(w, s) && Waiting(s) && s.ctl == Joining(i, hi) && s.wg == 0
    ensures Same(BatchRest(w, s, i, hi), Out(s.sys, if s.errs != [] then Some(s.errs[0]) else None))
  {
    JoinedErrs(s);
    FinishReturned(s.sys, s.threads[s.base..]);
  }

  /** When the wait is over every goroutine is done, and the error list is empty iff none of them failed. */
  lemma JoinedErrs(s: State)
    requires s.base <= |s.threads| && Live(s.threads[s.base..]) == 0 && ErrorsOf(s.threads[s.base..], s.errs)
    ensures forall k :: 0 <= k < |s.threads[s.base..]| ==> s.threads[s.base..][k].pc.Done?
    ensures s.errs != [] <==> exists k :: 0 <= k < |s.threads[s.base..]| && Result(s.threads[s.base..][k]).Some?
  {
    var ts := s.threads[s.base..];
    NoneLive(ts);
    if s.errs != [] {
      var k := Reporter(s, s.errs[0]);
      assert ts[k - s.base] == s.threads[k];
    } else {
      forall k | 0 <= k < |ts| ensures Result(ts[k]).None? { assert ts[k] == s.threads[s.base + k]; }
    }
  }

  lemma ReleaseOnTrack(w: World, sys0: Sys, s: State, i: nat, hi: nat)
    requires InFlight(w, s) && WellShaped(w, s) && OnTrack(w, sys0, s) && s.ctl == Joining(i, hi) && s.wg == 0
    ensures InFlight(w, Release(s, hi)) && OnTrack(w, sys0, Release(s, hi))
  {
    var s' := Release(s, hi);
    ReleasePlaced(w, s, i, hi);
    ReleaseBody(w, s, i, hi);
    if s.errs != [] {
      assert BodyRest(w, s) == BatchRest(w, s, i, hi);
      BodyEndsOnTrack(w, sys0, s, s');
    } else {
      assert BodyRest(w, s) == TestFrom(w, s.sys, hi);
      BodyOnTrack(w, sys0, s, s');
    }
  }

  lemma RegisterBody(w: World, s: State, i: nat, j: nat)
    requires InFlight(w, s) && s.ctl == Registering(i, j)
    ensures var s' := Register(w, s, i, j);
            && InFlight(w, s') && s'.buildJob == s.buildJob
            && (InBodyCtl(s'.ctl) ==> BodyStage(s'.ctl) == Build && BodyRest(w, s') == BodyRest(w, s))
            && (!InBodyCtl(s'.ctl) ==> s'.ctl.JobFinal? && s'.ctl.stage == Build && BodyRest(w, s) == Out(s'.sys, s'.ctl.err))
  {
    RegisterPlaced(w, s, i, j);
    var s' := Register(w, s, i, j);
    if j == |BuildSteps(w)[i].outputs| {
      assert RegisterFrom(w, s.sys, i, j) == Out(s.sys, None);
    } else if RegisterOne(w, s.sys, i, j).ok {
      assert RegisterFrom(w, s.sys, i, j) == RegisterFrom(w, s'.sys, i, j + 1);
    }
  }

  lemma ConsiderRest(w: World, s: State, st: Stage)
    requires s.ctl == Considering(st)
    ensures var s' := Consider(w, s, st);
            && Placed(w, s'.ctl) && (s'.ctl.Considering? || s'.ctl.JobCreated? || s'.ctl.Choosing?)
            && StagesRest(w, s') == StagesFrom(w, s.sys, st, s.buildJob)
  {
    match st
    case Build =>
    case Test =>
    case Deploy =>
  }

  lemma BeginRest(w: World, s: State, st: Stage)
    requires s.ctl == JobCreated(st) && Configured(w, st)
    ensures var s' := Begin(w, s, st);
            && Placed(w, s'.ctl) && (s'.ctl.AtStep? || s'.ctl.Choosing?)
            && StagesRest(w, s') == AfterStage(w, StartStage(w, s.sys, st, s.buildJob), st, s.buildJob)
  {
    match st
    case Build =>
    case Test =>
    case Deploy =>
  }

  lemma EndRest(w: World, s: State, st: Stage, err: Option<Error>)
    requires s.ctl == JobFinal(st, err) && Configured(w, st)
    ensures var s' := EndJob(w, s, st, err);
            && Placed(w, s'.ctl) && (s'.ctl.Considering? || s'.ctl.Choosing?)
            && StagesRest(w, s') == AfterStage(w, FinishStage(w, Out(s.sys, err), st), st, s.buildJob)
  {
    match st
    case Build =>
    case Test =>
    case Deploy =>
  }

  lemma StartOnTrack(w: World, sys0: Sys, s: State)
    requires s.ctl.Starting? && OnTrack(w, sys0, s)
    ensures InFlight(w, Start(w, s)) && OnTrack(w, sys0, Start(w, s))
  {
  }

  lemma MainOnTrack(w: World, sys0: Sys, s: State)
    requires WellShaped(w, s) && RunTable(w, sys0, s)
    requires InFlight(w, s) && OnTrack(w, sys0, s) && MainEnabled(s)
    ensures InFlight(w, MainStep(w, s)) && OnTrack(w, sys0, MainStep(w, s))
  {
    if InBodyCtl(s.ctl) { BodyMainOnTrack(w, sys0, s); }
    else if s.ctl.Considering? || s.ctl.JobCreated? || s.ctl.JobFinal? { StageMainOnTrack(w, sys0, s); }
    else { RunMainOnTrack(w, sys0, s); }
  }

  lemma RunMainOnTrack(w: World, sys0: Sys, s: State)
    requires RunTable(w, sys0, s) && InFlight(w, s) && OnTrack(w, sys0, s) && MainEnabled(s)
    requires s.ctl.Starting? || s.ctl.Choosing? || s.ctl.RunFinalWrite?
    ensures InFlight(w, MainStep(w, s)) && OnTrack(w, sys0, MainStep(w, s))
  {
    match s.ctl
    case Starting => StartOnTrack(w, sys0, s);
    case Choosing(err) => ChooseOnTrack(w, sys0, s, err);
    case RunFinalWrite(err, final) => HaltOnTrack(w, sys0, s, err, final);
  }

  lemma ChooseOnTrack(w: World, sys0: Sys, s: State, err: Option<Error>)
    requires InFlight(w, s) && OnTrack(w, sys0, s) && s.ctl == Choosing(err)
    ensures InFlight(w, MainStep(w, s)) && OnTrack(w, sys0, MainStep(w, s))
  {
  }

  lemma StageMainOnTrack(w: World, sys0: Sys, s: State)
    requires InFlight(w, s) && OnTrack(w, sys0, s) && (s.ctl.Considering? || s.ctl.JobCreated? || s.ctl.JobFinal?)
    ensures InFlight(w, MainStep(w, s)) && OnTrack(w, sys0, MainStep(w, s))
  {
    match s.ctl
    case Considering(st) => ConsiderRest(w, s, st);
    case JobCreated(st) => BeginRest(w, s, st);
    case JobFinal(st, err) => EndRest(w, s, st, err);
  }

  lemma BodyMainOnTrack(w: World, sys0: Sys, s: State)
    requires WellShaped(w, s) && InFlight(w, s) && OnTrack(w, sys0, s) && MainEnabled(s) && InBodyCtl(s.ctl)
    ensures InFlight(w, MainStep(w, s)) && OnTrack(w, sys0, MainStep(w, s))
  {
    match s.ctl
    case AtStep(st, i) => StepTopBody(w, s, st, i); BodyAdvances(w, sys0, s, StepTop(w, s, st, i));
    case Inline(st, i) => CallReturnsBody(w, s, st, i); BodyAdvances(w, sys0, s, CallReturns(s, st, i));
    case Spawning(i, hi) => SpawnBody(w, s, i, hi); BodyAdvances(w, sys0, s, Spawn(w, s, i, hi));
    case Joining(i, hi) => ReleaseOnTrack(w, sys0, s, i, hi);
    case Registering(i, j) => RegisterBody(w, s, i, j); BodyAdvances(w, sys0, s, Register(w, s, i, j));
  }

  lemma BodyAdvances(w: World, sys0: Sys, s: State, s': State)
    requires InFlight(w, s) && InFlight(w, s') && InBodyCtl(s.ctl) && OnTrack(w, sys0, s) && s'.buildJob == s.buildJob
    requires InBodyCtl(s'.ctl) ==> BodyStage(s'.ctl) == BodyStage(s.ctl) && BodyRest(w, s') == BodyRest(w, s)
    requires !InBodyCtl(s'.ctl) ==>
      s'.ctl.JobFinal? && s'.ctl.stage == BodyStage(s.ctl) && BodyRest(w, s) == Out(s'.sys, s'.ctl.err)
    ensures OnTrack(w, sys0, s')
  {
    if InBodyCtl(s'.ctl) { BodyOnTrack(w, sys0, s, s'); } else { BodyEndsOnTrack(w, sys0, s, s'); }
  }

  lemma HaltOnTrack(w: World, sys0: Sys, s: State, err: Option<Error>, final: Status)
    requires s.ctl == RunFinalWrite(err, final) && RunTable(w, sys0, s) && Same(Out(s.sys, err), Goal(w, sys0))
    ensures Same(Out(FinalRun(w, s.sys, final), err), Run(w, sys0, s.seen))
  {
  }

  lemma NextOnTrack(w: World, sys0: Sys, s: State, a: Action)
    requires FreshIds(w, sys0) && Inv(w, sys0, s) && InFlight(w, s) && OnTrack(w, sys0, s)
    ensures InFlight(w, Next(w, s, a)) && OnTrack(w, sys0, Next(w, s, a))
  {
    if Enabled(w, s, a) {
      match a
      case CancelCtx => CancelOnTrack(w, sys0, s);
      case Main => MainOnTrack(w, sys0, s);
      case Go(k) => GoOnTrack(w, sys0, s, k);
    }
  }

  lemma CancelOnTrack(w: World, sys0: Sys, s: State)
    requires InFlight(w, s) && OnTrack(w, sys0, s)
    ensures InFlight(w, s.(cancelled := true)) && OnTrack(w, sys0, s.(cancelled := true))
  {
    if InBodyCtl(s.ctl) { CancelBody(w, s); }
  }

  lemma CancelBody(w: World, s: State)
    requires InFlight(w, s) && InBodyCtl(s.ctl)
    ensures BodyRest(w, s.(cancelled := true)) == BodyRest(w, s)
  {
    var s' := s.(cancelled := true);
    match s.ctl
    case Spawning(i, hi) => SameBatch(w, s, s', i, hi, FinishAll(s.sys, s.threads[s.base..]));
    case Joining(i, hi) => SameBatch(w, s, s', i, hi, FinishAll(s.sys, s.threads[s.base..]));
    case AtStep(_, _) =>
    case Inline(_, _) =>
    case Registering(_, _) =>
  }

  lemma {:induction false} AlwaysOnTrack(w: World, sys0: Sys, schedule: seq<Action>)
    requires FreshIds(w, sys0)
    ensures InFlight(w, After(w, sys0, schedule)) && OnTrack(w, sys0, After(w, sys0, schedule))
  {
    if schedule != [] {
      var front := schedule[..|schedule| - 1];
      Always(w, sys0, front);
      AlwaysOnTrack(w, sys0, front);
      NextOnTrack(w, sys0, After(w, sys0, front), schedule[|schedule| - 1]);
    }
  }

  /**
   Schedule independence: a run that has halted has left in every table, in the executor's book and in the call
   log exactly what the sequential program leaves, and has failed iff that program fails; all that the
   schedule contributes is whether the context was done when the final state was chosen.
   */
  lemma ScheduleIndependence(w: World, sys0: Sys, schedule: seq<Action>)
    requires FreshIds(w, sys0)
    requires After(w, sys0, schedule).ctl.Halted?
    ensures
      var s, r := After(w, sys0, schedule), Run(w, sys0, After(w, sys0, schedule).seen);
      s.sys == r.sys && (s.ctl.err.None? <==> r.err.None?)
  {
    AlwaysOnTrack(w, sys0, schedule);
  }

  /** Two schedules of the same run that read the same from the context at the switch end in the same state. */
  lemma AnyTwoSchedulesAgree(w: World, sys0: Sys, one: seq<Action>, two: seq<Action>)
    requires FreshIds(w, sys0)
    requires After(w, sys0, one).ctl.Halted? && After(w, sys0, two).ctl.Halted?
    requires After(w, sys0, one).seen == After(w, sys0, two).seen
    ensures After(w, sys0, one).sys == After(w, sys0, two).sys
    ensures After(w, sys0, one).ctl.err.None? <==> After(w, sys0, two).ctl.err.None?
  {
    ScheduleIndependence(w, sys0, one);
    ScheduleIndependence(w, sys0, two);
  }

  /**
   Two halted runs that got the same answers have started, submitted and written the same, whenever and whether the
   context was cancelled; only the run's own row can differ. The engine itself looks at the context in the poll and
   at the final switch only; whatever else a cancellation does, it does through the answers of the store and the
   executor, to which the context is passed.
   */
  lemma OnlyTheRunRowDiffers(w: World, sys0: Sys, one: seq<Action>, two: seq<Action>)
    requires FreshIds(w, sys0)
    requires After(w, sys0, one).ctl.Halted? && After(w, sys0, two).ctl.Halted?
    ensures var a, b := After(w, sys0, one), After(w, sys0, two);
            a.sys.(runs := b.sys.runs) == b.sys && (a.ctl.err.None? <==> b.ctl.err.None?)
  {
    hide After, Run;
    ScheduleIndependence(w, sys0, one);
    ScheduleIndependence(w, sys0, two);
    SwitchWritesRunOnly(w, sys0, After(w, sys0, one).seen, After(w, sys0, two).seen);
  }

  lemma SwitchWritesRunOnly(w: World, sys: Sys, x: bool, y: bool)
    ensures Run(w, sys, x).sys.(runs := Run(w, sys, y).sys.runs) == Run(w, sys, y).sys
    ensures Run(w, sys, x).err == Run(w, sys, y).err
  {
    hide ExecuteStages;
  }
}
