/** The test stage: sequential steps run alone, and each stretch of parallel ones as a batch of goroutines. */
module Testinator {
  import opened Wrappers
  import opened States
  import opened Rows
  import opened Config
  import opened Executor
  import opened Steps
  import opened Pipeline
  import opened Interleaving
  import opened Reference
  import opened Shape
  import opened StepRunner
  import opened Goroutines
  import opened Errors
  import opened Batching
  import Confluence
  import Decimal
  import Outcomes
  import Returns

  /** The goroutines of a batch that begins at step `base`, in the order they were started. */
  ghost predicate IsGroup(w: World, ts: seq<Thread>, base: nat, hi: nat, group: string) {
    && base + |ts| <= hi <= |TestSteps(w)|
    && (forall k :: 0 <= k < |ts| ==> ts[k].task == TestTask(w, base + k, Some(group)))
    && (forall k :: 0 <= k < |ts| ==> OnCourse(ts[k]))
  }

  lemma GroupApart(w: World, ts: seq<Thread>, base: nat, hi: nat, group: string)
    requires IsGroup(w, ts, base, hi, group) && DistinctStepIds(w)
    ensures AllApart(ts) && forall k :: 0 <= k < |ts| ==> OnCourse(ts[k])
  {
    hide OnCourse;
    forall i, j | 0 <= i < j < |ts| ensures Apart(ts[i].task, ts[j].task) {
      assert ts[i].task == TestTask(w, base + i, Some(group)) && ts[j].task == TestTask(w, base + j, Some(group));
    }
  }

  lemma StillGroup(w: World, ts: seq<Thread>, us: seq<Thread>, k: nat, base: nat, hi: nat, group: string)
    requires IsGroup(w, ts, base, hi, group) && k < |ts| == |us| && us == ts[k := us[k]]
    requires us[k].task == ts[k].task && OnCourse(us[k])
    ensures IsGroup(w, us, base, hi, group)
  {
    hide OnCourse, TestTask;
  }

  // ---------- What each step of a batch returns ----------

  /** Step i of the batch: its goroutine if that was started, else the goroutine about to be. */
  function Member(w: World, ts: seq<Thread>, base: nat, i: nat, group: string): Thread
    requires base + i < |TestSteps(w)|
  {
    if i < |ts| then ts[i] else Thread(TestTask(w, base + i, Some(group)), AtCreate)
  }

  /** Every step of the batch is going to return what it returns when it runs alone from `sys0`. */
  ghost predicate SameVerdicts(w: World, sys0: Sys, sys: Sys, ts: seq<Thread>, base: nat, hi: nat, group: string)
    requires base <= hi <= |TestSteps(w)|
  {
    forall i: nat :: base + i < hi ==> Complete(sys, Member(w, ts, base, i, group)).err == Alone(w, sys0, base, i, group)
  }

  lemma MemberApart(w: World, ts: seq<Thread>, base: nat, hi: nat, group: string, i: nat, k: nat)
    requires IsGroup(w, ts, base, hi, group) && DistinctStepIds(w) && base + i < hi && k < |ts| && i != k
    ensures Apart(Member(w, ts, base, i, group).task, ts[k].task)
  {
    hide OnCourse;
    assert ts[k].task == TestTask(w, base + k, Some(group));
    assert Member(w, ts, base, i, group).task == TestTask(w, base + i, Some(group));
  }

  lemma VerdictsAfterMove(w: World, sys0: Sys, sys: Sys, ts: seq<Thread>, k: nat, base: nat, hi: nat, group: string)
    requires IsGroup(w, ts, base, hi, group) && DistinctStepIds(w) && k < |ts|
    requires base <= hi <= |TestSteps(w)|
    requires SameVerdicts(w, sys0, sys, ts, base, hi, group)
    ensures var (sys', pc') := Move(sys, ts[k]); SameVerdicts(w, sys0, sys', ts[k := ts[k].(pc := pc')], base, hi, group)
  {
    hide Move, Complete, OnCourse, TestTask, IsGroup;
    var (sys', pc') := Move(sys, ts[k]);
    var us := ts[k := ts[k].(pc := pc')];
    forall i: nat | base + i < hi ensures Complete(sys', Member(w, us, base, i, group)).err == Alone(w, sys0, base, i, group) {
      assert Complete(sys, Member(w, ts, base, i, group)).err == Alone(w, sys0, base, i, group);
      if i == k { MoveRefines(sys, ts[k]); }
      else {
        MemberApart(w, ts, base, hi, group, i, k);
        MoveCommutes(sys, Member(w, ts, base, i, group), ts[k]);
      }
    }
  }

  lemma VerdictsAfterReturn(w: World, sys0: Sys, sys: Sys, ts: seq<Thread>, k: nat, th: Thread, base: nat, hi: nat, group: string)
    requires IsGroup(w, ts, base, hi, group) && k < |ts| && Returned(ts[k]) && Returned(th) && Result(th) == Result(ts[k])
    requires SameVerdicts(w, sys0, sys, ts, base, hi, group)
    ensures SameVerdicts(w, sys0, sys, ts[k := th], base, hi, group)
  {
    hide OnCourse, TestTask;
    ReturnedVerdict(sys, ts[k]);
    ReturnedVerdict(sys, th);
    hide Complete;
    forall i: nat | base + i < hi
      ensures Complete(sys, Member(w, ts[k := th], base, i, group)).err == Alone(w, sys0, base, i, group)
    {
      assert Complete(sys, Member(w, ts, base, i, group)).err == Alone(w, sys0, base, i, group);
    }
  }

  lemma ReturnedVerdict(sys: Sys, th: Thread)
    requires Returned(th)
    ensures Complete(sys, th).err == Result(th)
  {
  }

  lemma VerdictsAfterSpawn(w: World, sys0: Sys, sys: Sys, ts: seq<Thread>, base: nat, hi: nat, group: string, t: Task)
    requires IsGroup(w, ts, base, hi, group) && base + |ts| < hi && t == TestTask(w, base + |ts|, Some(group))
    requires SameVerdicts(w, sys0, sys, ts, base, hi, group)
    ensures SameVerdicts(w, sys0, Started(sys, t.inv), ts + [Thread(t, AtCreate)], base, hi, group)
  {
    hide Complete, OnCourse, TestTask;
    var us := ts + [Thread(t, AtCreate)];
    forall i: nat | base + i < hi
      ensures Complete(Started(sys, t.inv), Member(w, us, base, i, group)).err == Alone(w, sys0, base, i, group)
    {
      assert Complete(sys, Member(w, ts, base, i, group)).err == Alone(w, sys0, base, i, group);
      assert Member(w, us, base, i, group) == Member(w, ts, base, i, group);
      CompleteIgnoresStarts(sys, Member(w, ts, base, i, group), t.inv);
    }
  }

  /** What the goroutines of a batch share: the wait group and the error list. */
  class Batch {
    var threads: seq<Thread>
    var wg: int
    var errs: seq<Error>

    /** The wait count is the number of goroutines not done; the list holds the errors reported so far. */
    ghost predicate Valid()
      reads this
    {
      wg == Live(threads) && ErrorsOf(threads, errs)
    }

    constructor ()
      ensures Valid() && threads == []
    {
      threads, wg, errs := [], 0, [];
    }

    method Spawn(t: Task)
      requires Valid()
      modifies this
      ensures Valid() && threads == old(threads) + [Thread(t, AtCreate)]
    {
      LiveAppend(threads, Thread(t, AtCreate));
      ErrorsAfterSpawn(threads, errs, t);
      wg := wg + 1;
      threads := threads + [Thread(t, AtCreate)];
    }

    /** Goroutine k takes its next action: one of its step, the append to the error list, or Done. */
    method Advance(runner: Runner, k: nat)
      requires Valid() && k < |threads| && !threads[k].pc.Done? && AllApart(threads) && OnCourse(threads[k])
      modifies this, runner.db`steps, runner.db`execs, runner.cluster
      ensures Valid() && |threads| == |old(threads)| && threads == old(threads)[k := threads[k]]
      ensures threads[k].task == old(threads)[k].task && OnCourse(threads[k])
      ensures FinishAll(runner.Snapshot(), threads) == FinishAll(old(runner.Snapshot()), old(threads))
      ensures TotalFuel(threads) < TotalFuel(old(threads))
      ensures var th := old(threads)[k];
              if Returned(th) then runner.Snapshot() == old(runner.Snapshot()) && Returned(threads[k]) && Result(threads[k]) == Result(th)
              else (runner.Snapshot(), threads[k].pc) == Move(old(runner.Snapshot()), th)
    {
      hide FinishAll, Move, ErrorsOf;
      var ts, th, pc := threads, threads[k], Done(None);
      if th.pc.AtReturn? {
        pc := Logged(th.pc.err);
        ErrorsAfterLock(ts, errs, k);
        SettleInGroup(runner.Snapshot(), ts, k, pc);
        if th.pc.err.Some? {
          errs := errs + [th.pc.err.value];
        }
      } else if th.pc.Logged? {
        pc := Done(th.pc.err);
        ErrorsAfterMove(ts, errs, k, th.(pc := pc));
        SettleInGroup(runner.Snapshot(), ts, k, pc);
        wg := wg - 1;
      } else {
        MoveBurns(runner.Snapshot(), th);
        MoveInGroup(runner.Snapshot(), ts, k);
        pc := runner.Act(th);
        ErrorsAfterMove(ts, errs, k, th.(pc := pc));
      }
      threads := ts[k := th.(pc := pc)];
      LiveUpdate(ts, k, th.(pc := pc));
      TotalFuelUpdate(ts, k, th.(pc := pc));
    }
  }

  /** An error that a step of the test stage between `lo` and `hi` returned. */
  predicate FromSteps(e: Error, lo: nat, hi: nat) {
    e.StepError? && e.key.stage == Test && lo <= e.key.order < hi
  }

  /** A batch that is waited out has come to what its steps come to one by one. */
  lemma Joined(w: World, sys: Sys, ts: seq<Thread>, errs: seq<Error>, base: nat, hi: nat, group: string)
    requires IsGroup(w, ts, base, hi, group) && base + |ts| == hi && Live(ts) == 0 && ErrorsOf(ts, errs)
    ensures FinishAll(sys, ts).sys == sys && forall k :: 0 <= k < |ts| ==> Returned(ts[k])
    ensures FinishAll(sys, ts).err.Some? <==> errs != []
    ensures errs != [] ==> FromSteps(errs[0], base, hi) && exists k: nat :: k < |ts| && Result(ts[k]) == Some(errs[0])
  {
    hide FinishAll;
    NoneLive(ts);
    FinishReturned(sys, ts);
    if errs != [] {
      assert errs[0] in errs;
      var k :| 0 <= k < |ts| && Reported(ts[k], errs[0]);
      assert OnCourse(ts[k]) && ts[k].task == TestTask(w, base + k, Some(group));
    }
  }

  /** An error that a returned goroutine ended in is what its step returns when it runs alone. */
  lemma ReturnedAlone(w: World, sys0: Sys, sys: Sys, ts: seq<Thread>, base: nat, hi: nat, group: string, e: Error)
    requires IsGroup(w, ts, base, hi, group) && base + |ts| == hi && SameVerdicts(w, sys0, sys, ts, base, hi, group)
    requires (forall k :: 0 <= k < |ts| ==> Returned(ts[k])) && exists k: nat :: k < |ts| && Result(ts[k]) == Some(e)
    ensures exists i: nat :: base + i < hi && Some(e) == Alone(w, sys0, base, i, group)
  {
    hide Complete, TestTask;
    var k: nat :| k < |ts| && Result(ts[k]) == Some(e);
    assert Complete(sys, Member(w, ts, base, k, group)).err == Alone(w, sys0, base, k, group);
    ReturnedVerdict(sys, ts[k]);
  }

  lemma NoneStarted(w: World, sys: Sys, base: nat, hi: nat)
    requires base <= hi <= |TestSteps(w)|
    ensures Confluence.BatchTail(w, FinishAll(sys, []), base, base, hi) == BatchFrom(w, sys, GroupName(base), base, hi)
    ensures IsGroup(w, [], base, hi, GroupName(base)) && SameVerdicts(w, sys, sys, [], base, hi, GroupName(base))
  {
    hide BatchFrom;
  }

  lemma AllStarted(w: World, r: Out, base: nat, hi: nat)
    requires base <= hi <= |TestSteps(w)|
    ensures Confluence.BatchTail(w, r, base, hi, hi) == r
  {
  }

  lemma SequentialOnce(w: World, sys: Sys, i: nat)
    requires i < |TestSteps(w)| && !TestSteps(w)[i].parallel
    ensures var o := CallStep(sys, TestTask(w, i, None)); TestFrom(w, sys, i) == if o.err.Some? then o else TestFrom(w, o.sys, i + 1)
  {
    hide CallStep;
  }

  lemma BatchOnce(w: World, sys: Sys, i: nat)
    requires i < |TestSteps(w)| && TestSteps(w)[i].parallel
    ensures var hi := BatchEnd(TestSteps(w), i);
            var o := BatchFrom(w, sys, GroupName(i), i, hi);
            TestFrom(w, sys, i) == if o.err.Some? then o else TestFrom(w, o.sys, hi)
  {
    hide BatchFrom;
  }

  lemma NothingBefore(w: World)
    ensures Outcomes.CleanUpTo(w, Test, 0)
  {
  }

  lemma SequentialErrors(w: World, sys: Sys, i: nat)
    requires i < |TestSteps(w)| && !TestSteps(w)[i].parallel
    ensures var o := CallStep(sys, TestTask(w, i, None));
            forall e :: TestMayReturn(w, sys, i, e) <==> if o.err.Some? then o.err == Some(e) else TestMayReturn(w, o.sys, i + 1, e)
  {
    hide CallStep;
  }

  lemma BatchedErrors(w: World, sys: Sys, i: nat)
    requires i < |TestSteps(w)| && TestSteps(w)[i].parallel
    ensures var hi := BatchEnd(TestSteps(w), i);
            var o := BatchFrom(w, sys, GroupName(i), i, hi);
            forall e :: TestMayReturn(w, sys, i, e) <==> if o.err.Some? then BatchMayReturn(w, sys, i, hi, e) else TestMayReturn(w, o.sys, hi, e)
  {
    hide BatchFrom, BatchMayReturn;
  }

  lemma TestsOver(w: World, sys: Sys)
    ensures TestFrom(w, sys, |TestSteps(w)|) == Out(sys, None)
  {
  }

  /** A maximal stretch of parallel steps from i ends where BatchEnd says. */
  lemma {:induction false} EndsHere(steps: seq<TestStep>, i: nat, hi: nat)
    requires i <= hi && AllParallel(steps, i, hi) && (hi < |steps| ==> !steps[hi].parallel)
    ensures BatchEnd(steps, i) == hi
    decreases hi - i
  {
    if i < hi { EndsHere(steps, i + 1, hi); }
  }

  class Testinator {
    const runner: Runner

    constructor (runner: Runner)
      ensures this.runner == runner
    {
      this.runner := runner;
    }

    /** Starts the goroutine of the batch's next step. */
    method SpawnNext(w: World, jobId: Id, batch: seq<TestStep>, orderBase: nat, group: string, b: Batch, ghost sys0: Sys)
      requires orderBase + |batch| <= |TestSteps(w)| && batch == TestSteps(w)[orderBase..orderBase + |batch|]
      requires jobId == JobId(w, Test) && group == GroupName(orderBase) && AllEnd(w)
      requires b.Valid() && |b.threads| < |batch| && IsGroup(w, b.threads, orderBase, orderBase + |batch|, group)
      requires SameVerdicts(w, sys0, runner.Snapshot(), b.threads, orderBase, orderBase + |batch|, group)
      modifies runner`starts, b
      ensures b.Valid() && |b.threads| == |old(b.threads)| + 1
      ensures IsGroup(w, b.threads, orderBase, orderBase + |batch|, group)
      ensures SameVerdicts(w, sys0, runner.Snapshot(), b.threads, orderBase, orderBase + |batch|, group)
      ensures var hi, n := orderBase + |batch|, orderBase + |old(b.threads)|;
              Confluence.BatchTail(w, FinishAll(runner.Snapshot(), b.threads), orderBase, n + 1, hi)
              == Confluence.BatchTail(w, FinishAll(old(runner.Snapshot()), old(b.threads)), orderBase, n, hi)
    {
      hide FinishAll, BatchFrom, Confluence.BatchTail, ErrorsOf, Live, TotalFuel;
      var i := |b.threads|;
      var s, key := batch[i], Key(Test, orderBase + i);
      var spec := ExecutionSpec(w.image, ["sh", "-c", s.run], map[], []);
      var task := Task(Invocation(key, s.name, Some(group), spec), jobId, w.steps(key));
      assert task == TestTask(w, orderBase + i, Some(group));
      Confluence.SpawnRest(w, runner.Snapshot(), b.threads, orderBase, orderBase + |batch|, task);
      VerdictsAfterSpawn(w, sys0, runner.Snapshot(), b.threads, orderBase, orderBase + |batch|, group, task);
      runner.starts := runner.starts + [task.inv];
      b.Spawn(task);
    }

    /** Some goroutine that is not done, whichever, takes its next action. */
    method AdvanceAny(ghost w: World, ghost base: nat, ghost hi: nat, ghost group: string, b: Batch, ghost sys0: Sys)
      requires DistinctStepIds(w) && b.Valid() && b.wg != 0 && IsGroup(w, b.threads, base, hi, group)
      requires base <= hi <= |TestSteps(w)| && SameVerdicts(w, sys0, runner.Snapshot(), b.threads, base, hi, group)
      modifies b, runner.db`steps, runner.db`execs, runner.cluster
      ensures b.Valid() && |b.threads| == |old(b.threads)| && IsGroup(w, b.threads, base, hi, group)
      ensures SameVerdicts(w, sys0, runner.Snapshot(), b.threads, base, hi, group)
      ensures FinishAll(runner.Snapshot(), b.threads) == FinishAll(old(runner.Snapshot()), old(b.threads))
      ensures TotalFuel(b.threads) < TotalFuel(old(b.threads))
    {
      hide FinishAll, OnCourse, ErrorsOf, TotalFuel, TestTask, IsGroup, Live, SameVerdicts, Move;
      ghost var live := SomeLive(b.threads);
      GroupApart(w, b.threads, base, hi, group);
      ghost var ts, sys := b.threads, runner.Snapshot();
      var k: nat :| k < |b.threads| && !b.threads[k].pc.Done?;
      b.Advance(runner, k);
      StillGroup(w, ts, b.threads, k, base, hi, group);
      if Returned(ts[k]) { VerdictsAfterReturn(w, sys0, sys, ts, k, b.threads[k], base, hi, group); }
      else {
        VerdictsAfterMove(w, sys0, sys, ts, k, base, hi, group);
        assert b.threads == ts[k := ts[k].(pc := b.threads[k].pc)];
      }
    }

    /**
     Runs a batch, one goroutine a step, and waits for all of them. Starting the next goroutine and the actions
     of those already started come in any order; every step runs, also after another has failed.
     */
    method RunParallel(w: World, jobId: Id, batch: seq<TestStep>, orderBase: nat, group: string)
      returns (err: Option<Error>)
      requires orderBase + |batch| <= |TestSteps(w)| && batch == TestSteps(w)[orderBase..orderBase + |batch|]
      requires jobId == JobId(w, Test) && group == GroupName(orderBase)
      requires DistinctStepIds(w) && AllEnd(w)
      modifies runner, runner.db`steps, runner.db`execs, runner.cluster
      ensures Confluence.Same(Out(runner.Snapshot(), err),
                BatchFrom(w, old(runner.Snapshot()), group, orderBase, orderBase + |batch|))
      ensures err.Some? ==> FromSteps(err.value, orderBase, orderBase + |batch|)
      ensures err.Some? ==> BatchMayReturn(w, old(runner.Snapshot()), orderBase, orderBase + |batch|, err.value)
    {
      hide FinishAll, BatchFrom, Confluence.BatchTail, IsGroup, ErrorsOf, TotalFuel, Live, SameVerdicts, Alone;
      ghost var hi, sys0 := orderBase + |batch|, runner.Snapshot();
      var b := new Batch();
      NoneStarted(w, runner.Snapshot(), orderBase, hi);
      while true
        invariant b.Valid() && |b.threads| <= |batch| && IsGroup(w, b.threads, orderBase, hi, group)
        invariant SameVerdicts(w, sys0, runner.Snapshot(), b.threads, orderBase, hi, group)
        invariant Confluence.BatchTail(w, FinishAll(runner.Snapshot(), b.threads), orderBase, orderBase + |b.threads|, hi)
                  == BatchFrom(w, old(runner.Snapshot()), group, orderBase, hi)
        decreases |batch| - |b.threads|, TotalFuel(b.threads)
      {
        if {
          case |b.threads| < |batch| => SpawnNext(w, jobId, batch, orderBase, group, b, sys0);
          case b.wg != 0 => AdvanceAny(w, orderBase, hi, group, b, sys0);
          case |b.threads| == |batch| && b.wg == 0 => break;
        }
      }
      AllStarted(w, FinishAll(runner.Snapshot(), b.threads), orderBase, hi);
      Joined(w, runner.Snapshot(), b.threads, b.errs, orderBase, hi, group);
      if |b.errs| > 0 {
        ReturnedAlone(w, sys0, runner.Snapshot(), b.threads, orderBase, hi, group, b.errs[0]);
        return Some(b.errs[0]);
      }
      return None;
    }

    /** Runs the test steps, batching adjacent parallel ones. */
    method Run(w: World, jobId: Id, steps: seq<TestStep>) returns (err: Option<Error>)
      requires w.cfg.test == Some(steps) && jobId == JobId(w, Test)
      requires DistinctStepIds(w) && AllEnd(w)
      modifies runner, runner.db`steps, runner.db`execs, runner.cluster
      ensures Confluence.Same(Out(runner.Snapshot(), err), TestFrom(w, old(runner.Snapshot()), 0))
      ensures err.Some? ==> FromSteps(err.value, 0, |steps|)
      ensures err.Some? ==> TestMayReturn(w, old(runner.Snapshot()), 0, err.value)
      ensures Returns.Clear(w, old(runner.Snapshot()), Test, 0) && jobId in old(runner.db.jobs) ==>
                if err.None? then Outcomes.CleanUpTo(w, Test, |steps|) else Returns.TestFails(w, err.value)
    {
      hide TestFrom, CallStep, BatchFrom, TestMayReturn, BatchMayReturn, Returns.Clear, Returns.TestFails, Outcomes.CleanUpTo;
      if Returns.Clear(w, runner.Snapshot(), Test, 0) && jobId in runner.db.jobs {
        assert Outcomes.CleanUpTo(w, Test, 0) by { NothingBefore(w); }
        Returns.TestReturns(w, runner.Snapshot(), 0);
      }
      var i, order := 0, 0;
      while i < |steps|
        invariant order == i <= |steps|
        invariant TestFrom(w, runner.Snapshot(), i) == TestFrom(w, old(runner.Snapshot()), 0)
        invariant forall e :: TestMayReturn(w, runner.Snapshot(), i, e) ==> TestMayReturn(w, old(runner.Snapshot()), 0, e)
      {
        ghost var before, first := runner.Snapshot(), i;
        if !steps[i].parallel {
          var s, key := steps[i], Key(Test, order);
          var spec := ExecutionSpec(w.image, ["sh", "-c", s.run], map[], []);
          err := runner.RunStep(Task(Invocation(key, s.name, None, spec), jobId, w.steps(key)));
          SequentialOnce(w, before, first);
          SequentialErrors(w, before, first);
          if err.Some? {
            return;
          }
          i := i + 1;
          order := order + 1;
          continue;
        }
        var group := "parallel-" + Decimal.Print(order);
        var batch := [];
        while i < |steps| && steps[i].parallel
          invariant first <= i <= |steps| && batch == steps[first..i] && AllParallel(steps, first, i)
        {
          batch := batch + [steps[i]];
          i := i + 1;
        }
        EndsHere(steps, first, i);
        err := RunParallel(w, jobId, batch, order, group);
        BatchOnce(w, before, first);
        BatchedErrors(w, before, first);
        if err.Some? {
          return;
        }
        order := order + |batch|;
      }
      TestsOver(w, runner.Snapshot());
      return None;
    }
  }
}
