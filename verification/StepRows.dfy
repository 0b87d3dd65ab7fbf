/**
 The rows and the executor book entry of a single step at every point of its life, and how its end follows
 from the environment's answers.
 */
module StepRows {
  import opened Wrappers
  import opened States
  import opened Rows
  import opened Executor
  import opened Steps
  import opened Interleaving

  // ---------- What the answers decide ----------

  /** The error the step must return, read off its script alone; None means success. */
  function Verdict(t: Task): Option<Error> {
    var s := t.script;
    if !s.create.ok then Fail(t, CreateRefused)
    else if !s.start.ok then Fail(t, StartRefused)
    else if s.submit.None? then Fail(t, SubmitRefused)
    else if !s.record.ok then Fail(t, RecordRefused)
    else
      var d := Decision(s.polls);
      if d.None? then Fail(t, Undecided)
      else if d.value.CtxDone? then Fail(t, ContextDone)
      else PhaseVerdict(t, d.value.phase)
  }

  /** All the answers to a step are the good ones. */
  predicate ScriptSucceeds(sc: StepScript) {
    sc.create.ok && sc.start.ok && sc.submit.Some? && sc.record.ok && PollSucceeds(sc.polls)
  }

  lemma VerdictOfScript(t: Task)
    ensures Verdict(t).None? <==> ScriptSucceeds(t.script)
  {
  }

  predicate UndecidedBefore(t: Task, n: nat) {
    n <= |t.script.polls| && forall i :: 0 <= i < n ==> !Decisive(t.script.polls[i])
  }

  /** The answers that the step's position says were good. */
  predicate GoodSoFar(th: Thread) {
    var s := th.task.script;
    match th.pc
    case AtStart => s.create.ok
    case AtSubmit => s.create.ok && s.start.ok
    case AtRecord => s.create.ok && s.start.ok && s.submit.Some?
    case AtPoll(n) => s.create.ok && s.start.ok && s.submit.Some? && s.record.ok && UndecidedBefore(th.task, n)
    case AtStore(n) => s.create.ok && s.start.ok && s.submit.Some? && s.record.ok && UndecidedBefore(th.task, n)
                       && n < |s.polls| && s.polls[n].Observed?
    case AtFinal(_) => s.create.ok && s.start.ok
    case _ => true
  }

  /** The step is where its answers have brought it: they were good so far, or decided its verdict. */
  predicate Path(th: Thread) {
    && GoodSoFar(th)
    && match th.pc
       case AtFinal(err) => err == Verdict(th.task)
       case AtReturn(err) => err == Verdict(th.task)
       case Logged(err) => err == Verdict(th.task)
       case Done(err) => err == Verdict(th.task)
       case _ => true
  }

  // ---------- The rows ----------

  predicate Absent(sys: Sys, t: Task) {
    t.script.stepId !in sys.steps && t.script.execId !in sys.execs && t.inv.key !in sys.subs
  }

  predicate HasStep(sys: Sys, t: Task, row: StepRow) {
    t.script.stepId in sys.steps && sys.steps[t.script.stepId] == row
  }

  predicate HasExec(sys: Sys, t: Task, row: ExecRow) {
    t.script.execId in sys.execs && sys.execs[t.script.execId] == row
  }

  function StartedRow(t: Task): StepRow {
    Row(NewStepRow(t).info, Touch(NewLife(t.script.create.now), Running, t.script.start.now))
  }

  /** The row a step leaves behind when it was started: finalised, unless the finalising write was refused. */
  function FinalRow(t: Task, err: Option<Error>): StepRow {
    if t.script.final.ok
    then Row(NewStepRow(t).info, Touch(StartedRow(t).life, StepFinal(err), t.script.final.now))
    else StartedRow(t)
  }

  /** The execution row after the first n poll events: the last phase whose storing was accepted. */
  function ExecAfter(t: Task, handle: string, n: nat): ExecRow
    requires n <= |t.script.polls|
  {
    if n == 0 then NewExecRow(t, handle)
    else
      var row, e := ExecAfter(t, handle, n - 1), t.script.polls[n - 1];
      if e.Observed? && e.write.ok then TouchExec(row, e.phase, e.write.now) else row
  }

  /** The poll events that were consumed when the step is over. */
  function Consumed(t: Task): nat {
    var d := FirstDecisive(t.script.polls, 0);
    if d < |t.script.polls| then d + 1 else d
  }

  /** The executor's book entry for the step while it is being polled. */
  predicate Open(sys: Sys, t: Task, handle: string) {
    t.inv.key in sys.subs &&
    var b := sys.subs[t.inv.key];
    b.spec == t.inv.spec && b.handle == handle && b.cancels == 0
  }

  /** The answers let the step come as far as a submission. */
  predicate Submits(sc: StepScript) { sc.create.ok && sc.start.ok && sc.submit.Some? }

  /**
   What became of the submission of a step that ends in `err`: there was none; or its execution record was
   refused and it was left alone; or the context's end came first and it was cancelled once, without a terminal
   phase ever having been observed; or its terminal phase was observed and it was not cancelled.
   */
  predicate Settled(sys: Sys, t: Task, err: Option<Error>) {
    if !Submits(t.script) then t.inv.key !in sys.subs && t.script.execId !in sys.execs && err.Some?
    else
      && t.inv.key in sys.subs
      && var b := sys.subs[t.inv.key];
         && t.script.submit == Some(b.handle) && b.spec == t.inv.spec
         && if !t.script.record.ok then Orphaned(sys, t, b, err)
            else if Decision(t.script.polls) == Some(CtxDone) then WasCancelled(sys, t, b, err)
            else WasObserved(sys, t, b, err)
  }

  predicate Orphaned(sys: Sys, t: Task, b: Submission, err: Option<Error>) {
    t.script.execId !in sys.execs && b.polls == 0 && b.observed.None? && b.cancels == 0 && err.Some?
  }

  predicate WasObserved(sys: Sys, t: Task, b: Submission, err: Option<Error>) {
    && HasExec(sys, t, ExecAfter(t, b.handle, Consumed(t)))
    && b.cancels == 0 && b.observed.Some? && IsTerminalPhase(b.observed.value)
    && (err.None? <==> b.observed == Some(Succeeded))
  }

  predicate WasCancelled(sys: Sys, t: Task, b: Submission, err: Option<Error>) {
    && HasExec(sys, t, ExecAfter(t, b.handle, Consumed(t)))
    && b.cancels == 1 && (b.observed.Some? ==> !IsTerminalPhase(b.observed.value)) && err.Some?
  }

  /** The step row of a step that has returned, read off its answers. */
  predicate LeftBehind(sys: Sys, t: Task, err: Option<Error>) {
    if !t.script.create.ok then t.script.stepId !in sys.steps && err.Some? && t.inv.key !in sys.subs
    else if !t.script.start.ok then HasStep(sys, t, NewStepRow(t)) && err.Some? && t.inv.key !in sys.subs
    else HasStep(sys, t, FinalRow(t, err))
  }

  predicate Polling(sys: Sys, t: Task, n: nat) {
    && n <= |t.script.polls| && t.script.submit.Some? && HasStep(sys, t, StartedRow(t))
    && HasExec(sys, t, ExecAfter(t, t.script.submit.value, n)) && Open(sys, t, t.script.submit.value)
  }

  /** The rows of a step at every position. */
  predicate Slot(sys: Sys, th: Thread) {
    var t := th.task;
    match th.pc
    case AtCreate => Absent(sys, t)
    case AtStart => HasStep(sys, t, NewStepRow(t)) && t.script.execId !in sys.execs && t.inv.key !in sys.subs
    case AtSubmit => HasStep(sys, t, StartedRow(t)) && t.script.execId !in sys.execs && t.inv.key !in sys.subs
    case AtRecord =>
      && HasStep(sys, t, StartedRow(t)) && t.script.execId !in sys.execs && t.script.submit.Some?
      && Open(sys, t, t.script.submit.value) && sys.subs[t.inv.key].polls == 0 && sys.subs[t.inv.key].observed.None?
    case AtPoll(n) =>
      && Polling(sys, t, n)
      && var o := sys.subs[t.inv.key].observed; o.Some? ==> !IsTerminalPhase(o.value)
    case AtStore(n) =>
      && n < |t.script.polls| && t.script.polls[n].Observed? && Polling(sys, t, n)
      && sys.subs[t.inv.key].observed == Some(t.script.polls[n].phase)
    case AtFinal(err) => HasStep(sys, t, StartedRow(t)) && Settled(sys, t, err)
    case AtReturn(err) => LeftBehind(sys, t, err) && Settled(sys, t, err)
    case Logged(err) => LeftBehind(sys, t, err) && Settled(sys, t, err)
    case Done(err) => LeftBehind(sys, t, err) && Settled(sys, t, err)
  }

  // ---------- Preservation by the step's own actions ----------

  lemma PollSlot(sys: Sys, th: Thread, n: nat)
    requires th.pc == AtPoll(n) && Slot(sys, th) && Path(th)
    ensures var (sys', pc') := PollMove(sys, th.task, n); Slot(sys', th.(pc := pc')) && Path(th.(pc := pc'))
  {
    var t := th.task;
    if n < |t.script.polls| && t.script.polls[n].CtxDone? {
      FirstDecisiveUnique(t.script.polls, n);
      var (sys', pc') := PollMove(sys, t, n);
      assert WasCancelled(sys', t, sys'.subs[t.inv.key], pc'.err);
    }
  }

  lemma StoreSlot(sys: Sys, th: Thread, n: nat)
    requires th.pc == AtStore(n) && Slot(sys, th) && Path(th)
    ensures var (sys', pc') := StoreMove(sys, th.task, n); Slot(sys', th.(pc := pc')) && Path(th.(pc := pc'))
  {
    var t := th.task;
    var (sys', pc') := StoreMove(sys, t, n);
    assert HasExec(sys', t, ExecAfter(t, t.script.submit.value, n + 1));
    if IsTerminalPhase(t.script.polls[n].phase) {
      FirstDecisiveUnique(t.script.polls, n);
      assert WasObserved(sys', t, sys'.subs[t.inv.key], pc'.err);
    }
  }

  lemma RecordSlot(sys: Sys, th: Thread)
    requires th.pc == AtRecord && Slot(sys, th) && Path(th)
    ensures var (sys', pc') := RecordMove(sys, th.task); Slot(sys', th.(pc := pc')) && Path(th.(pc := pc'))
  {
    var t := th.task;
    var (sys', pc') := RecordMove(sys, t);
    if pc'.AtFinal? { assert Orphaned(sys', t, sys'.subs[t.inv.key], pc'.err); }
  }

  lemma EarlySlot(sys: Sys, th: Thread)
    requires th.pc.AtCreate? || th.pc.AtStart? || th.pc.AtSubmit?
    requires Slot(sys, th) && Path(th) && th.task.job in sys.jobs
    ensures Slot(Move(sys, th).0, th.(pc := Move(sys, th).1)) && Path(th.(pc := Move(sys, th).1))
  {
    match th.pc
    case AtCreate =>
    case AtStart =>
    case AtSubmit =>
  }

  lemma FinalSlot(sys: Sys, th: Thread)
    requires th.pc.AtFinal? && Slot(sys, th) && Path(th)
    ensures Slot(Move(sys, th).0, th.(pc := Move(sys, th).1)) && Path(th.(pc := Move(sys, th).1))
  {
    var sys', t, err := Move(sys, th).0, th.task, th.pc.err;
    assert HasStep(sys', t, FinalRow(t, err));
  }

  lemma MoveSlot(sys: Sys, th: Thread)
    requires Slot(sys, th) && Path(th) && th.task.job in sys.jobs
    ensures Slot(Move(sys, th).0, th.(pc := Move(sys, th).1)) && Path(th.(pc := Move(sys, th).1))
  {
    match th.pc
    case AtRecord => RecordSlot(sys, th);
    case AtPoll(n) => PollSlot(sys, th, n);
    case AtStore(n) => StoreSlot(sys, th, n);
    case AtFinal(_) => FinalSlot(sys, th);
    case AtReturn(_) => assert th.(pc := th.pc) == th;
    case Logged(_) => assert th.(pc := th.pc) == th;
    case Done(_) => assert th.(pc := th.pc) == th;
    case _ => EarlySlot(sys, th);
  }

  /** Actions of other steps do not show in this step's rows. */
  lemma SlotFrame(a: Sys, b: Sys, th: Thread)
    requires Slot(a, th)
    requires Agree(a.steps, b.steps, th.task.script.stepId) && Agree(a.execs, b.execs, th.task.script.execId)
    requires Agree(a.subs, b.subs, th.task.inv.key)
    ensures Slot(b, th)
  {
    match th.pc
    case AtFinal(err) => SettledFrame(a, b, th.task, err);
    case AtReturn(err) => SettledFrame(a, b, th.task, err);
    case Logged(err) => SettledFrame(a, b, th.task, err);
    case Done(err) => SettledFrame(a, b, th.task, err);
    case _ =>
  }

  lemma SettledFrame(a: Sys, b: Sys, t: Task, err: Option<Error>)
    requires Settled(a, t, err)
    requires Agree(a.execs, b.execs, t.script.execId) && Agree(a.subs, b.subs, t.inv.key)
    ensures Settled(b, t, err)
  {
  }

  // ---------- What the execution row holds ----------

  /** The execution row's status is the last phase whose storing was accepted, and `pending` before any. */
  lemma {:induction false} ExecHoldsLastAccepted(t: Task, handle: string, n: nat)
    requires n <= |t.script.polls|
    ensures
      var row := ExecAfter(t, handle, n);
      || (row.status == Pending && forall i :: 0 <= i < n ==> !Stored(t, i))
      || exists i :: 0 <= i < n && Stored(t, i) && row.status == t.script.polls[i].phase
                     && forall j :: i < j < n ==> !Stored(t, j)
  {
    if n > 0 {
      ExecHoldsLastAccepted(t, handle, n - 1);
      if Stored(t, n - 1) { assert ExecAfter(t, handle, n).status == t.script.polls[n - 1].phase; }
    }
  }

  /** It is stamped complete exactly when some stored phase was one that the helper knows as an end. */
  lemma {:induction false} ExecCompletedExactly(t: Task, handle: string, n: nat)
    requires n <= |t.script.polls|
    ensures ExecAfter(t, handle, n).completedAt.Some? <==>
              exists i :: 0 <= i < n && Stored(t, i) && Finishes(t.script.polls[i].phase)
  {
    if n > 0 {
      ExecCompletedExactly(t, handle, n - 1);
      if Stored(t, n - 1) { assert Stored(t, n - 1); }
    }
  }

  predicate Stored(t: Task, i: nat)
    requires i < |t.script.polls|
  {
    t.script.polls[i].Observed? && t.script.polls[i].write.ok
  }
}
