/**
 The life of one job step, twice: as the program `runStep` runs from beginning to end, and as a machine
 that performs one atomic action at a time so that several steps can be interleaved.
 */
module Steps {
  import opened Wrappers
  import opened States
  import opened Rows
  import opened Executor

  datatype Stage = Build | Test | Deploy

  /** A step of a run: its stage, and its execution order there. */
  datatype Key = Key(stage: Stage, order: nat)

  /** The arguments with which the step function is called. */
  datatype Invocation = Invocation(key: Key, name: string, group: Option<string>, spec: ExecutionSpec)

  /** The executor's book entry for one accepted Submit. */
  datatype Submission = Submission(spec: ExecutionSpec, handle: string, polls: nat, observed: Option<Status>, cancels: nat)

  /**
   Everything a run touches: the tables, the executor's book, and the steps started so far. A step is started where
   its stage calls the step function, or where the `go` statement of its goroutine is executed.
   */
  datatype Sys = Sys(
    runs: map<Id, RunRow>,
    jobs: map<Id, JobRow>,
    steps: map<Id, StepRow>,
    execs: map<Id, ExecRow>,
    arts: map<Id, ArtRow>,
    subs: map<Key, Submission>,
    starts: seq<Invocation>)

  /** What the environment answers to one step, from first to last. */
  datatype StepScript = StepScript(
    stepId: Id, create: Answer, start: Answer,
    submit: Option<string>,
    execId: Id, record: Answer,
    polls: seq<PollEvent>,
    final: Answer)

  datatype Task = Task(inv: Invocation, job: Id, script: StepScript)

  datatype Cause = CreateRefused | StartRefused | SubmitRefused | RecordRefused | ContextDone | PhaseError(phase: Status) | Undecided

  datatype Error =
    | RunStartRefused
    | JobCreateRefused(stage: Stage)
    | JobStartRefused(stage: Stage)
    | StepError(key: Key, cause: Cause)
    | RegisterRefused(step: nat, output: nat)
    | ListRefused
    | NoArtifact

  /** A state and the error returned in it. */
  datatype Out = Out(sys: Sys, err: Option<Error>)

  // ---------- The atomic actions of a step ----------

  function Fail(t: Task, c: Cause): Option<Error> { Some(StepError(t.inv.key, c)) }

  function NewStepRow(t: Task): StepRow {
    Row(StepInfo(t.job, t.inv.name, t.inv.key.order, t.inv.group), NewLife(t.script.create.now))
  }

  function NewExecRow(t: Task, handle: string): ExecRow {
    ExecRow(t.script.stepId, "kubernetes", handle, Pending, t.script.record.now, None)
  }

  function CreateStep(sys: Sys, t: Task): Written<StepRow> {
    Insert(sys.steps, t.script.stepId, NewStepRow(t), t.job in sys.jobs, t.script.create)
  }

  function StartStep(sys: Sys, t: Task): Written<StepRow> {
    UpdateStatus(sys.steps, t.script.stepId, Running, t.script.start)
  }

  function StepFinal(err: Option<Error>): Status { if err.Some? then Failed else Succeeded }

  function FinalStep(sys: Sys, t: Task, err: Option<Error>): Written<StepRow> {
    UpdateStatus(sys.steps, t.script.stepId, StepFinal(err), t.script.final)
  }

  function RecordExec(sys: Sys, t: Task, handle: string): Written<ExecRow> {
    Insert(sys.execs, t.script.execId, NewExecRow(t, handle), t.script.stepId in sys.steps, t.script.record)
  }

  /** Submit: the executor opens a book entry. */
  function Submitted(sys: Sys, t: Task, handle: string): Sys {
    sys.(subs := sys.subs[t.inv.key := Submission(t.inv.spec, handle, 0, None, 0)])
  }

  /** One Status call, which may or may not have told a phase. */
  function Polled(sys: Sys, t: Task, seen: Option<Status>): Sys {
    var k := t.inv.key;
    if k !in sys.subs then sys
    else
      var b := sys.subs[k];
      sys.(subs := sys.subs[k := b.(polls := b.polls + 1, observed := Coalesce(seen, b.observed))])
  }

  function Cancelled(sys: Sys, t: Task): Sys {
    var k := t.inv.key;
    if k !in sys.subs then sys
    else sys.(subs := sys.subs[k := sys.subs[k].(cancels := sys.subs[k].cancels + 1)])
  }

  function StoredPhase(sys: Sys, t: Task, phase: Status, a: Answer): Sys {
    sys.(execs := UpdateExec(sys.execs, t.script.execId, phase, a).rows)
  }

  function PhaseVerdict(t: Task, phase: Status): Option<Error> {
    if phase == Succeeded then None else Fail(t, PhaseError(phase))
  }

  // ---------- The step as one program ----------

  /** `poll`, from its n-th round on. A script that ends undecided never returns from the real loop. */
  function Poll(sys: Sys, t: Task, n: nat): Out
    decreases |t.script.polls| - n, 1
  {
    if n >= |t.script.polls| then Out(sys, Fail(t, Undecided))
    else
      match t.script.polls[n]
      case CtxDone => Out(Cancelled(sys, t), Fail(t, ContextDone))
      case StatusErr => Poll(Polled(sys, t, None), t, n + 1)
      case Observed(phase, _) => StorePhase(Polled(sys, t, Some(phase)), t, n)
  }

  /** The rest of a poll round once its n-th event, an observation, was received. */
  function StorePhase(sys: Sys, t: Task, n: nat): Out
    decreases |t.script.polls| - n, 0
  {
    if n >= |t.script.polls| || !t.script.polls[n].Observed? then Out(sys, Fail(t, Undecided))
    else
      var phase := t.script.polls[n].phase;
      var sys' := StoredPhase(sys, t, phase, t.script.polls[n].write);
      if IsTerminalPhase(phase) then Out(sys', PhaseVerdict(t, phase)) else Poll(sys', t, n + 1)
  }

  function Record(sys: Sys, t: Task): Out {
    if t.script.submit.None? then Out(sys, Fail(t, SubmitRefused))
    else
      var w := RecordExec(sys, t, t.script.submit.value);
      if !w.ok then Out(sys, Fail(t, RecordRefused)) else Poll(sys.(execs := w.rows), t, 0)
  }

  function ExecuteAndPoll(sys: Sys, t: Task): Out {
    if t.script.submit.None? then Out(sys, Fail(t, SubmitRefused))
    else Record(Submitted(sys, t, t.script.submit.value), t)
  }

  /** The finalising write, whose refusal is only logged. */
  function Finish(o: Out, t: Task): Out { Out(o.sys.(steps := FinalStep(o.sys, t, o.err).rows), o.err) }

  function StartAndRun(sys: Sys, t: Task): Out {
    var w := StartStep(sys, t);
    if !w.ok then Out(sys, Fail(t, StartRefused)) else Finish(ExecuteAndPoll(sys.(steps := w.rows), t), t)
  }

  function RunStep(sys: Sys, t: Task): Out {
    var w := CreateStep(sys, t);
    if !w.ok then Out(sys, Fail(t, CreateRefused)) else StartAndRun(sys.(steps := w.rows), t)
  }

  // ---------- The step as a machine ----------

  /** Where a step in flight stands: the action it performs next. */
  datatype Pc =
    | AtCreate | AtStart | AtSubmit | AtRecord
    | AtPoll(n: nat)                      // at the select of its n-th round
    | AtStore(n: nat)                     // event n told a phase that is not yet stored
    | AtFinal(err: Option<Error>)
    | AtReturn(err: Option<Error>)        // the step function has returned err
    | Logged(err: Option<Error>)          // a goroutine that has left the critical section around errs
    | Done(err: Option<Error>)            // a goroutine whose deferred Done has run

  datatype Thread = Thread(task: Task, pc: Pc)

  predicate Returned(th: Thread) { th.pc.AtReturn? || th.pc.Logged? || th.pc.Done? }

  function Result(th: Thread): Option<Error>
    requires Returned(th)
  {
    th.pc.err
  }

  function RecordMove(sys: Sys, t: Task): (Sys, Pc) {
    if t.script.submit.None? then (sys, AtFinal(Fail(t, SubmitRefused)))
    else
      var w := RecordExec(sys, t, t.script.submit.value);
      (sys.(execs := w.rows), if w.ok then AtPoll(0) else AtFinal(Fail(t, RecordRefused)))
  }

  function PollMove(sys: Sys, t: Task, n: nat): (Sys, Pc) {
    if n >= |t.script.polls| then (sys, AtPoll(n))
    else
      match t.script.polls[n]
      case CtxDone => (Cancelled(sys, t), AtFinal(Fail(t, ContextDone)))
      case StatusErr => (Polled(sys, t, None), AtPoll(n + 1))
      case Observed(phase, _) => (Polled(sys, t, Some(phase)), AtStore(n))
  }

  function StoreMove(sys: Sys, t: Task, n: nat): (Sys, Pc) {
    if n >= |t.script.polls| || !t.script.polls[n].Observed? then (sys, AtFinal(Fail(t, Undecided)))
    else
      var phase := t.script.polls[n].phase;
      (StoredPhase(sys, t, phase, t.script.polls[n].write),
       if IsTerminalPhase(phase) then AtFinal(PhaseVerdict(t, phase)) else AtPoll(n + 1))
  }

  /** The next atomic action of a step that has not returned; a step whose script ran out stays put. */
  function Move(sys: Sys, th: Thread): (Sys, Pc) {
    var t := th.task;
    match th.pc
    case AtCreate =>
      var w := CreateStep(sys, t);
      (sys.(steps := w.rows), if w.ok then AtStart else AtReturn(Fail(t, CreateRefused)))
    case AtStart =>
      var w := StartStep(sys, t);
      (sys.(steps := w.rows), if w.ok then AtSubmit else AtReturn(Fail(t, StartRefused)))
    case AtSubmit =>
      if t.script.submit.None? then (sys, AtFinal(Fail(t, SubmitRefused)))
      else (Submitted(sys, t, t.script.submit.value), AtRecord)
    case AtRecord => RecordMove(sys, t)
    case AtPoll(n) => PollMove(sys, t, n)
    case AtStore(n) => StoreMove(sys, t, n)
    case AtFinal(err) => (sys.(steps := FinalStep(sys, t, err).rows), AtReturn(err))
    case _ => (sys, th.pc)
  }

  /** A step that waits for an event its script does not hold. */
  predicate Starved(th: Thread) { th.pc.AtPoll? && th.pc.n >= |th.task.script.polls| }

  /** A step about to take the context's Done channel. */
  predicate TakesCancel(th: Thread) {
    th.pc.AtPoll? && th.pc.n < |th.task.script.polls| && th.task.script.polls[th.pc.n].CtxDone?
  }

  /** What running the step alone to its return from here would give. */
  function Complete(sys: Sys, th: Thread): Out {
    var t := th.task;
    match th.pc
    case AtCreate => RunStep(sys, t)
    case AtStart => StartAndRun(sys, t)
    case AtSubmit => Finish(ExecuteAndPoll(sys, t), t)
    case AtRecord => Finish(Record(sys, t), t)
    case AtPoll(n) => Finish(Poll(sys, t, n), t)
    case AtStore(n) => Finish(StorePhase(sys, t, n), t)
    case AtFinal(err) => Finish(Out(sys, err), t)
    case AtReturn(err) => Out(sys, err)
    case Logged(err) => Out(sys, err)
    case Done(err) => Out(sys, err)
  }

  /** The machine refines the program: a move never changes how the step ends. */
  lemma MoveRefines(sys: Sys, th: Thread)
    ensures Complete(Move(sys, th).0, th.(pc := Move(sys, th).1)) == Complete(sys, th)
  {
    match th.pc
    case AtCreate =>
    case AtStart =>
    case AtSubmit =>
    case AtRecord =>
    case AtPoll(n) => PollRound(sys, th.task, n);
    case AtStore(n) =>
    case _ =>
  }

  lemma PollRound(sys: Sys, t: Task, n: nat)
    ensures var (sys', pc') := Move(sys, Thread(t, AtPoll(n)));
            Complete(sys', Thread(t, pc')) == Finish(Poll(sys, t, n), t)
  {
    if n < |t.script.polls| {
      match t.script.polls[n]
      case CtxDone =>
      case StatusErr =>
      case Observed(phase, _) =>
    }
  }
}
