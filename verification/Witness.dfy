/**
 Small runs played out in full, which show that what the theorems leave possible does happen: a row that stays
 `running` under a parent that has ended, and a submission after the context was cancelled.
 */
module Witness {
  import opened Wrappers
  import opened States
  import opened Rows
  import opened Config
  import opened Executor
  import opened Steps
  import opened Pipeline
  import opened Interleaving
  import opened Reference
  import opened Engine
  import opened Hierarchy
  import opened Safety

  /** The state reached from `s` by the actions in turn. */
  function Play(w: World, s: State, actions: seq<Action>): State
    decreases |actions|
  {
    if actions == [] then s else Play(w, Next(w, s, actions[0]), actions[1..])
  }

  lemma {:induction false} PlayMore(w: World, s: State, actions: seq<Action>, a: Action)
    ensures Play(w, s, actions + [a]) == Next(w, Play(w, s, actions), a)
    decreases |actions|
  {
    hide Next;
    if actions == [] {
      assert (actions + [a])[1..] == [];
      assert Play(w, Next(w, s, a), []) == Next(w, s, a);
    } else {
      assert (actions + [a])[1..] == actions[1..] + [a];
      PlayMore(w, Next(w, s, actions[0]), actions[1..], a);
    }
  }

  lemma {:induction false} AfterIsPlay(w: World, sys: Sys, schedule: seq<Action>)
    ensures After(w, sys, schedule) == Play(w, Init(sys), schedule)
  {
    hide Next;
    if schedule != [] {
      var front := schedule[..|schedule| - 1];
      AfterIsPlay(w, sys, front);
      PlayMore(w, Init(sys), front, schedule[|schedule| - 1]);
      assert front + [schedule[|schedule| - 1]] == schedule;
    }
  }

  // ---------- A run of one test step ----------

  const YES := Answer(true, 0)

  /** A number for each pair. */
  function Pair(i: nat, j: nat): (n: nat)
    ensures n > 0
  {
    if i == 0 then 2 * j + 1 else 2 * Pair(i - 1, j)
  }

  lemma {:induction false} PairInjective(i: nat, j: nat, p: nat, q: nat)
    requires Pair(i, j) == Pair(p, q)
    ensures i == p && j == q
    decreases i
  {
    if i > 0 && p > 0 { PairInjective(i - 1, j, p - 1, q); }
  }

  function Number(k: Key): nat { 3 * k.order + StageRank(k.stage) }

  /** One sequential test step; the answers given are to its finalising write, its job's, and its submission. */
  function Tiny(stepFinal: bool, jobFinal: bool, submit: Option<string>): World {
    World(Config(None, Some([TestStep("unit", "make test", false)]), None), 1, "builder", "nfs", "/artifacts", YES, YES,
          st => JobScript(1 + StageRank(st), YES, YES, Answer(jobFinal, 0)),
          k => StepScript(Number(k), YES, YES, submit, Number(k), YES, [], Answer(stepFinal, 0)),
          (i: nat, j: nat) => ArtScript(Pair(i, j), YES), true, (arts, job) => [])
  }

  /** A database that holds nothing but the pending row of the run. */
  const FRESH := Sys(map[1 := Row(RunInfo(1, "main", ""), NewLife(0))], map[], map[], map[], map[], map[], [])

  lemma TinyIsSound(stepFinal: bool, jobFinal: bool, submit: Option<string>)
    ensures var w := Tiny(stepFinal, jobFinal, submit); FreshIds(w, FRESH) && SoundTables(FRESH) && PendingRun(w, FRESH)
  {
    var w := Tiny(stepFinal, jobFinal, submit);
    forall s, t | JobId(w, s) == JobId(w, t) ensures s == t {}
    forall i, j, p, q | w.artifacts(i, j).id == w.artifacts(p, q).id ensures i == p && j == q { PairInjective(i, j, p, q); }
  }

  const TO_STEP := [Main, Main, Main, Main, Main]
  const TO_SUBMIT := [Go(0), Go(0)]
  const TO_RETURN := [Go(0), Go(0)]
  const TO_END := [Main, Main, Main, Main]

  /** The step is called and its row not yet created. */
  predicate AtCall(s: State, w: World) {
    && |TestSteps(w)| > 0 && s.ctl == Inline(Test, 0) && s.base == 0 && s.threads == [Thread(TestTask(w, 0, None), AtCreate)]
    && JobId(w, Test) in s.sys.jobs && w.run in s.sys.runs && s.sys.steps == map[] && s.sys.execs == map[]
  }

  lemma PlayToStep(w: World, s: State, stepFinal: bool, jobFinal: bool, submit: Option<string>)
    requires w == Tiny(stepFinal, jobFinal, submit)
    requires s == Init(FRESH) || s == Init(FRESH).(cancelled := true)
    ensures var s' := Play(w, s, TO_STEP); AtCall(s', w) && s'.cancelled == s.cancelled
  {
    var s1 := Next(w, s, Main);
    assert s1.ctl == Considering(Build);
    var s2 := Next(w, s1, Main);
    assert s2.ctl == Considering(Test);
    var s3 := Next(w, s2, Main);
    assert s3.ctl == JobCreated(Test);
    JobToStep(w, s3, stepFinal, jobFinal, submit);
    var s5 := Next(w, Next(w, s3, Main), Main);
    assert Play(w, s, TO_STEP) == s5 by { hide Next; }
  }

  lemma JobToStep(w: World, s: State, stepFinal: bool, jobFinal: bool, submit: Option<string>)
    requires w == Tiny(stepFinal, jobFinal, submit)
    requires s.ctl == JobCreated(Test) && s.threads == [] && s.base == 0 && JobId(w, Test) in s.sys.jobs && w.run in s.sys.runs
    requires s.sys.steps == map[] && s.sys.execs == map[]
    ensures var s' := Next(w, Next(w, s, Main), Main); AtCall(s', w) && s'.cancelled == s.cancelled
  {
    var s4 := Next(w, s, Main);
    assert s4.ctl == AtStep(Test, 0);
    var s5 := Next(w, s4, Main);
    assert s5.ctl == Inline(Test, 0);
  }

  lemma PlaySplit(w: World, s: State, one: seq<Action>, two: seq<Action>)
    ensures Play(w, s, one + two) == Play(w, Play(w, s, one), two)
    decreases |one|
  {
    hide Next;
    if one == [] {
      assert one + two == two;
    } else {
      assert (one + two)[1..] == one[1..] + two;
      PlaySplit(w, Next(w, s, one[0]), one[1..], two);
    }
  }

  /** The step is created and started, and about to be submitted. */
  predicate AtSubmission(s: State, w: World) {
    && |TestSteps(w)| > 0 && s.ctl == Inline(Test, 0) && s.base == 0
    && s.threads == [Thread(TestTask(w, 0, None), AtSubmit)] && s.sys.execs == map[]
  }

  lemma PlayToSubmit(w: World, s: State, stepFinal: bool, jobFinal: bool, submit: Option<string>)
    requires w == Tiny(stepFinal, jobFinal, submit) && AtCall(s, w)
    ensures var s' := Play(w, s, TO_SUBMIT); AtSubmission(s', w) && s'.cancelled == s.cancelled
  {
    var s1 := Next(w, s, Go(0));
    assert s1.threads == [Thread(TestTask(w, 0, None), AtStart)];
    var s2 := Next(w, s1, Go(0));
    assert s2.threads == [Thread(TestTask(w, 0, None), AtSubmit)];
    assert Play(w, s, TO_SUBMIT) == s2 by { hide Next; }
  }

  // ---------- A row left running ----------

  /** The error of a submission that was refused. */
  const REFUSED := StepError(Key(Test, 0), SubmitRefused)

  lemma PlayRefused(w: World, s: State, stepFinal: bool, jobFinal: bool)
    requires w == Tiny(stepFinal, jobFinal, None) && AtSubmission(s, w)
    ensures var s' := Play(w, s, TO_RETURN);
            && s'.ctl == Inline(Test, 0) && s'.base == 0
            && s'.threads == [Thread(TestTask(w, 0, None), AtReturn(Some(REFUSED)))] && s'.cancelled == s.cancelled
  {
    var s1 := Next(w, s, Go(0));
    assert s1.threads == [Thread(TestTask(w, 0, None), AtFinal(Some(REFUSED)))];
    var s2 := Next(w, s1, Go(0));
    assert s2.threads == [Thread(TestTask(w, 0, None), AtReturn(Some(REFUSED)))];
    assert Play(w, s, TO_RETURN) == s2 by { hide Next; }
  }

  lemma PlayToEnd(w: World, s: State)
    requires s.ctl == Inline(Test, 0) && Configured(w, Test) && |TestSteps(w)| == 1 && !TestSteps(w)[0].parallel
    requires !s.cancelled && s.base == 0 && |s.threads| == 1 && s.threads[0].pc == AtReturn(Some(REFUSED))
    ensures var s' := Play(w, s, TO_END); s'.ctl == Halted(Some(REFUSED)) && s'.threads == s.threads && !s'.seen
  {
    var s1 := Next(w, s, Main);
    assert s1.ctl == JobFinal(Test, Some(REFUSED));
    var s2 := Next(w, s1, Main);
    assert s2.ctl == Choosing(Some(REFUSED));
    var s3 := Next(w, s2, Main);
    assert s3.ctl.RunFinalWrite? && !s3.seen;
    var s4 := Next(w, s3, Main);
    assert s4.ctl == Halted(Some(REFUSED)) && s4.threads == s.threads;
    assert Play(w, s, TO_END) == s4 by { hide Next; }
  }

  /**
   The submission of the only step is refused and the run fails. If the store refuses the step's finalising write,
   the step stays `running` under a job that has failed; if it refuses the job's, the job stays `running` under a
   run that has failed.
   */
  lemma RowsLeftRunning(stepFinal: bool, jobFinal: bool)
    ensures
      var w := Tiny(stepFinal, jobFinal, None);
      var s := After(w, FRESH, REFUSED_RUN);
      && FreshIds(w, FRESH) && PendingRun(w, FRESH) && s.ctl.Halted? && |s.threads| == 1
      && StepRowState(s, 0) == Some(if stepFinal then Failed else Running)
      && StatusIn(s.sys.jobs, JobId(w, Test)) == Some(if jobFinal then Failed else Running)
      && StatusIn(s.sys.runs, w.run) == Some(Failed)
  {
    var w := Tiny(stepFinal, jobFinal, None);
    PlayRefusedRun(w, stepFinal, jobFinal);
    AfterIsPlay(w, FRESH, REFUSED_RUN);
    TinyIsSound(stepFinal, jobFinal, None);
    hide Play, Next, After, FreshIds;
    RowStates(w, FRESH, REFUSED_RUN);
    assert PhaseOf(Halted(Some(REFUSED)), Test) == FailedBy(REFUSED);
  }

  const REFUSED_RUN := TO_STEP + TO_SUBMIT + TO_RETURN + TO_END

  lemma PlayRefusedRun(w: World, stepFinal: bool, jobFinal: bool)
    requires w == Tiny(stepFinal, jobFinal, None)
    ensures var s := Play(w, Init(FRESH), REFUSED_RUN);
            s.ctl == Halted(Some(REFUSED)) && !s.seen && s.threads == [Thread(TestTask(w, 0, None), AtReturn(Some(REFUSED)))]
  {
    hide Play, Next;
    PlayToStep(w, Init(FRESH), stepFinal, jobFinal, None);
    PlaySplit(w, Init(FRESH), TO_STEP, TO_SUBMIT);
    PlayToSubmit(w, Play(w, Init(FRESH), TO_STEP), stepFinal, jobFinal, None);
    PlaySplit(w, Init(FRESH), TO_STEP + TO_SUBMIT, TO_RETURN);
    PlayRefused(w, Play(w, Init(FRESH), TO_STEP + TO_SUBMIT), stepFinal, jobFinal);
    PlaySplit(w, Init(FRESH), TO_STEP + TO_SUBMIT + TO_RETURN, TO_END);
    PlayToEnd(w, Play(w, Init(FRESH), TO_STEP + TO_SUBMIT + TO_RETURN));
  }

  // ---------- A submission after cancellation ----------

  const CANCELLED_RUN := [CancelCtx] + TO_STEP + TO_SUBMIT + [Go(0)]

  /** The context is cancelled before the run begins, and its step is submitted all the same. */
  lemma SubmittedAfterCancellation(handle: string)
    ensures
      var w := Tiny(true, true, Some(handle));
      && FreshIds(w, FRESH)
      && After(w, FRESH, [CancelCtx]).cancelled && Key(Test, 0) !in After(w, FRESH, [CancelCtx]).sys.subs
      && Key(Test, 0) in After(w, FRESH, CANCELLED_RUN).sys.subs
  {
    var w := Tiny(true, true, Some(handle));
    TinyIsSound(true, true, Some(handle));
    PlayCancel(w);
    PlayCancelledRun(w, handle);
    AfterIsPlay(w, FRESH, [CancelCtx]);
    AfterIsPlay(w, FRESH, CANCELLED_RUN);
  }

  lemma PlayCancel(w: World)
    ensures Play(w, Init(FRESH), [CancelCtx]) == Init(FRESH).(cancelled := true)
  {
    assert [CancelCtx][1..] == [];
  }

  lemma PlayCancelledRun(w: World, handle: string)
    requires w == Tiny(true, true, Some(handle))
    ensures Key(Test, 0) in Play(w, Init(FRESH), CANCELLED_RUN).sys.subs
  {
    hide Play, Next;
    PlayCancel(w);
    PlaySplit(w, Init(FRESH), [CancelCtx], TO_STEP);
    PlayToStep(w, Init(FRESH).(cancelled := true), true, true, Some(handle));
    PlaySplit(w, Init(FRESH), [CancelCtx] + TO_STEP, TO_SUBMIT);
    PlayToSubmit(w, Play(w, Init(FRESH), [CancelCtx] + TO_STEP), true, true, Some(handle));
    PlaySplit(w, Init(FRESH), [CancelCtx] + TO_STEP + TO_SUBMIT, [Go(0)]);
    PlaySubmission(w, Play(w, Init(FRESH), [CancelCtx] + TO_STEP + TO_SUBMIT), handle);
  }

  lemma PlaySubmission(w: World, s: State, handle: string)
    requires w == Tiny(true, true, Some(handle)) && AtSubmission(s, w)
    ensures Key(Test, 0) in Play(w, s, [Go(0)]).sys.subs
  {
    assert [Go(0)][1..] == [];
    assert Play(w, s, [Go(0)]) == Next(w, s, Go(0));
  }
}
