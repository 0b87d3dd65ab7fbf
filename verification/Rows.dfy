/** Table rows and the row semantics of the store's INSERT and UPDATE statements. */
module Rows {
  import opened Wrappers
  import opened States

  /** A UUID; the all-zero value is the one `ensureID` replaces. */
  type Id = nat
  const ZERO_ID: Id := 0

  type Time = nat

  /** The columns that runs, jobs and steps share. */
  datatype Life = Life(status: Status, createdAt: Time, startedAt: Option<Time>, finishedAt: Option<Time>)

  datatype Row<T> = Row(info: T, life: Life)

  datatype RunInfo = RunInfo(pipeline: Id, gitRef: string, gitSha: string)
  datatype JobInfo = JobInfo(run: Id, jobType: string, name: string)
  datatype StepInfo = StepInfo(job: Id, name: string, order: nat, group: Option<string>)

  type RunRow = Row<RunInfo>
  type JobRow = Row<JobInfo>
  type StepRow = Row<StepInfo>

  datatype ExecRow = ExecRow(step: Id, executorType: string, externalId: string, status: Status,
                             submittedAt: Time, completedAt: Option<Time>)

  datatype ArtRow = ArtRow(job: Id, artifactType: string, backend: string, path: string, createdAt: Time)

  /** What the environment answers to one write: whether it is accepted, and what `time.Now()` read. */
  datatype Answer = Answer(ok: bool, now: Time)

  /** A table after a write, and whether the write was accepted. */
  datatype Written<T> = Written(rows: map<Id, T>, ok: bool)

  function StartedFinished(status: Status, now: Time): (Option<Time>, Option<Time>) {
    match status
    case Running => (Some(now), None)
    case Success => (None, Some(now))
    case Failed => (None, Some(now))
    case Canceled => (None, Some(now))
    case _ => (None, None)
  }

  function CompletedAt(status: Status, now: Time): Option<Time> {
    match status
    case Success => Some(now)
    case Failed => Some(now)
    case Canceled => Some(now)
    case _ => None
  }

  function Coalesce<T>(a: Option<T>, b: Option<T>): Option<T> { if a.Some? then a else b }

  /** The SET clause of the three UPDATE ... SET status statements over runs, jobs and steps. */
  function Touch(life: Life, status: Status, now: Time): Life {
    var (started, finished) := StartedFinished(status, now);
    Life(status, life.createdAt, Coalesce(started, life.startedAt), Coalesce(finished, life.finishedAt))
  }

  function TouchExec(row: ExecRow, status: Status, now: Time): ExecRow {
    row.(status := status, completedAt := Coalesce(CompletedAt(status, now), row.completedAt))
  }

  function DefaultStatus(status: Status, fallback: Status): Status { if status == BLANK then fallback else status }

  function NewLife(now: Time): Life { Life(Pending, now, None, None) }

  /** INSERT: refused by the environment, by a missing foreign key, or by a primary key already present. */
  function Insert<T>(rows: map<Id, T>, id: Id, row: T, parent: bool, a: Answer): Written<T> {
    if a.ok && parent && id !in rows then Written(rows[id := row], true) else Written(rows, false)
  }

  /** UPDATE ... WHERE id = $n: refused by the environment, or no row affected. */
  function UpdateStatus<T>(rows: map<Id, Row<T>>, id: Id, status: Status, a: Answer): Written<Row<T>> {
    if a.ok && id in rows
    then Written(rows[id := rows[id].(life := Touch(rows[id].life, status, a.now))], true)
    else Written(rows, false)
  }

  function UpdateExec(rows: map<Id, ExecRow>, id: Id, status: Status, a: Answer): Written<ExecRow> {
    if a.ok && id in rows then Written(rows[id := TouchExec(rows[id], status, a.now)], true) else Written(rows, false)
  }

  function StatusIn<T>(rows: map<Id, Row<T>>, id: Id): Option<Status> {
    if id in rows then Some(rows[id].life.status) else None
  }

  /** One accepted status write. */
  datatype StatusWrite = StatusWrite(status: Status, now: Time)

  function Replay(life: Life, ws: seq<StatusWrite>): Life {
    if ws == [] then life
    else
      var last := ws[|ws| - 1];
      Touch(Replay(life, ws[..|ws| - 1]), last.status, last.now)
  }

  predicate Starts(s: Status) { s == Running }

  predicate Finishes(s: Status) { s in [Success, Failed, Canceled] }

  /** Write `k` is the last one in `ws` whose status is of the kind. */
  ghost predicate IsLast(kind: Status -> bool, ws: seq<StatusWrite>, k: nat) {
    k < |ws| && kind(ws[k].status) && forall m :: k < m < |ws| ==> !kind(ws[m].status)
  }

  /** `at` is the time of the last write of the kind, or `initial` when there is no such write. */
  ghost predicate LastOf(kind: Status -> bool, ws: seq<StatusWrite>, initial: Option<Time>, at: Option<Time>) {
    || (exists k: nat :: IsLast(kind, ws, k) && at == Some(ws[k].now))
    || ((forall k :: 0 <= k < |ws| ==> !kind(ws[k].status)) && at == initial)
  }

  lemma LastOfStep(kind: Status -> bool, ws: seq<StatusWrite>, w: StatusWrite, initial: Option<Time>, at: Option<Time>)
    requires LastOf(kind, ws, initial, at)
    ensures LastOf(kind, ws + [w], initial, if kind(w.status) then Some(w.now) else at)
  {
    var all := ws + [w];
    if kind(w.status) {
      assert IsLast(kind, all, |ws|);
    } else if k: nat :| IsLast(kind, ws, k) && at == Some(ws[k].now) {
      assert IsLast(kind, all, k);
    }
  }

  lemma {:induction false} StartedIsLast(life: Life, ws: seq<StatusWrite>)
    ensures LastOf(Starts, ws, life.startedAt, Replay(life, ws).startedAt)
  {
    if ws != [] {
      var front, last := ws[..|ws| - 1], ws[|ws| - 1];
      StartedIsLast(life, front);
      LastOfStep(Starts, front, last, life.startedAt, Replay(life, front).startedAt);
      assert front + [last] == ws;
    }
  }

  lemma {:induction false} FinishedIsLast(life: Life, ws: seq<StatusWrite>)
    ensures LastOf(Finishes, ws, life.finishedAt, Replay(life, ws).finishedAt)
  {
    if ws != [] {
      var front, last := ws[..|ws| - 1], ws[|ws| - 1];
      FinishedIsLast(life, front);
      LastOfStep(Finishes, front, last, life.finishedAt, Replay(life, front).finishedAt);
      assert front + [last] == ws;
    }
  }

  lemma {:induction false} ReplayKeeps(life: Life, ws: seq<StatusWrite>)
    ensures Replay(life, ws).createdAt == life.createdAt
    ensures Replay(life, ws).status == if ws == [] then life.status else ws[|ws| - 1].status
    ensures life.startedAt.Some? ==> Replay(life, ws).startedAt.Some?
    ensures life.finishedAt.Some? ==> Replay(life, ws).finishedAt.Some?
  {
    if ws != [] { ReplayKeeps(life, ws[..|ws| - 1]); }
  }

  /** Timestamp folding: each timestamp is that of the last write of its kind, and neither is ever reset. */
  lemma TimestampsAreLastWrites(life: Life, ws: seq<StatusWrite>)
    ensures LastOf(Starts, ws, life.startedAt, Replay(life, ws).startedAt)
    ensures LastOf(Finishes, ws, life.finishedAt, Replay(life, ws).finishedAt)
    ensures Replay(life, ws).createdAt == life.createdAt
    ensures Replay(life, ws).status == if ws == [] then life.status else ws[|ws| - 1].status
    ensures life.startedAt.Some? ==> Replay(life, ws).startedAt.Some?
    ensures life.finishedAt.Some? ==> Replay(life, ws).finishedAt.Some?
  {
    StartedIsLast(life, ws);
    FinishedIsLast(life, ws);
    ReplayKeeps(life, ws);
  }

  /**
   A row that reaches a terminal state is stamped with a finish time in the run's life cycle always, but in the
   life cycle of jobs and steps only when it failed, and an execution that ends is stamped only when it did not
   succeed: `succeeded` is not among the texts the helpers know.
   */
  lemma StampedAtTheEnd(life: Life, exec: ExecRow, status: Status, now: Time)
    requires life.finishedAt.None? && exec.completedAt.None?
    ensures IsTerminalRun(status) ==> Touch(life, status, now).finishedAt == Some(now)
    ensures IsTerminalStage(status) ==> (Touch(life, status, now).finishedAt.Some? <==> status == Failed)
    ensures status in [Succeeded, Failed, Canceled] ==> (TouchExec(exec, status, now).completedAt.Some? <==> status != Succeeded)
  {
  }

  /** A step that was started at time 1 and succeeded at time 2 is terminal and has no finish time. */
  lemma SucceededWithoutFinishTime()
    ensures var life := Replay(NewLife(0), [StatusWrite(Running, 1), StatusWrite(Succeeded, 2)]);
            IsTerminalStage(life.status) && life.startedAt == Some(1) && life.finishedAt.None?
  {
  }
}
