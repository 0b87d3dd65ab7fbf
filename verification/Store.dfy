/**
 The stores as objects: a database whose tables are updated in place by INSERT and UPDATE statements, the records
 that callers hand to INSERT and find filled in afterwards, and the executor's book of submissions.
 */
module Store {
  import opened Wrappers
  import opened States
  import opened Rows
  import opened Executor
  import opened Steps
  import opened Pipeline

  /** Why a statement failed: the environment or a constraint refused it, or no row had the ID. */
  datatype StoreError = Refused | NotFound

  /** A row in the hands of a caller, on its way into a table. */
  class Record<T> {
    var id: Id
    var row: T

    constructor (id: Id, row: T)
      ensures this.id == id && this.row == row
    {
      this.id := id;
      this.row := row;
    }

    method AssignId(generated: Id)
      modifies this`id
      ensures id == if old(id) == ZERO_ID then generated else old(id)
    {
      if id == ZERO_ID {
        id := generated;
      }
    }
  }

  /** What INSERT is given for a record: creation time and, if it has none, the default status filled in. */
  function Filled<T>(row: Row<T>, now: Time): Row<T> {
    row.(life := row.life.(createdAt := now, status := DefaultStatus(row.life.status, Pending)))
  }

  method FillIn<T>(rec: Record<Row<T>>, generated: Id, now: Time)
    modifies rec
    ensures rec.id == if old(rec.id) == ZERO_ID then generated else old(rec.id)
    ensures rec.row == Filled(old(rec.row), now)
    ensures rec.row.info == old(rec.row).info && rec.row.life.createdAt == now
    ensures rec.row.life.status == if old(rec.row).life.status == BLANK then Pending else old(rec.row).life.status
    ensures rec.row.life.startedAt == old(rec.row).life.startedAt && rec.row.life.finishedAt == old(rec.row).life.finishedAt
  {
    rec.AssignId(generated);
    rec.row := rec.row.(life := rec.row.life.(createdAt := now));
    if rec.row.life.status == BLANK {
      rec.row := rec.row.(life := rec.row.life.(status := Pending));
    }
  }

  /** One status write: the state, the start time on `running`, the finish time on the three ends it knows; no more. */
  predicate Advanced(before: Life, after: Life, status: Status, now: Time) {
    && after.status == status && after.createdAt == before.createdAt
    && after.startedAt == (if status == Running then Some(now) else before.startedAt)
    && after.finishedAt == (if status in [Success, Failed, Canceled] then Some(now) else before.finishedAt)
  }

  /** The error of an INSERT statement with this effect. */
  function InsertError<T>(w: Written<T>): Option<StoreError> { if w.ok then None else Some(Refused) }

  /** The error of an UPDATE statement: refused, or it found no row. */
  function UpdateError<T>(rows: map<Id, T>, id: Id, a: Answer): Option<StoreError> {
    if !a.ok then Some(Refused) else if id in rows then None else Some(NotFound)
  }

  method EnsureRowsAffected(affected: nat) returns (err: Option<StoreError>)
    ensures err == if affected == 0 then Some(NotFound) else None
  {
    if affected == 0 { return Some(NotFound); }
    return None;
  }

  /** The tables, which accept or refuse each statement as a whole. */
  class Database {
    var runs: map<Id, RunRow>
    var jobs: map<Id, JobRow>
    var steps: map<Id, StepRow>
    var execs: map<Id, ExecRow>
    var arts: map<Id, ArtRow>

    /** The foreign keys between the tables. */
    ghost predicate ForeignKeysHold()
      reads this
    {
      && (forall id :: id in jobs ==> jobs[id].info.run in runs)
      && (forall id :: id in steps ==> steps[id].info.job in jobs)
      && (forall id :: id in execs ==> execs[id].step in steps)
      && (forall id :: id in arts ==> arts[id].job in jobs)
    }

    // ---------- INSERT ----------

    method CreateRun(run: Record<RunRow>, generated: Id, pipelineExists: bool, a: Answer) returns (err: Option<StoreError>)
      modifies this`runs, run
      ensures run.id == if old(run.id) == ZERO_ID then generated else old(run.id)
      ensures run.row == Filled(old(run.row), a.now)
      ensures var w := Insert(old(runs), run.id, run.row, pipelineExists, a);
              runs == w.rows && err == InsertError(w)
      ensures err.None? <==> a.ok && pipelineExists && run.id !in old(runs)
      ensures runs == if err.None? then old(runs)[run.id := run.row] else old(runs)
      ensures old(ForeignKeysHold()) ==> ForeignKeysHold()
    {
      FillIn(run, generated, a.now);
      if !a.ok || run.id in runs || !pipelineExists {
        return Some(Refused);
      }
      runs := runs[run.id := run.row];
      return None;
    }

    method CreateJob(job: Record<JobRow>, generated: Id, a: Answer) returns (err: Option<StoreError>)
      modifies this`jobs, job
      ensures job.id == if old(job.id) == ZERO_ID then generated else old(job.id)
      ensures job.row == Filled(old(job.row), a.now)
      ensures var w := Insert(old(jobs), job.id, job.row, job.row.info.run in runs, a);
              jobs == w.rows && err == InsertError(w)
      ensures err.None? <==> a.ok && job.row.info.run in runs && job.id !in old(jobs)
      ensures jobs == if err.None? then old(jobs)[job.id := job.row] else old(jobs)
      ensures old(ForeignKeysHold()) ==> ForeignKeysHold()
    {
      FillIn(job, generated, a.now);
      if !a.ok || job.id in jobs || !(job.row.info.run in runs) {
        return Some(Refused);
      }
      jobs := jobs[job.id := job.row];
      return None;
    }

    method CreateStep(step: Record<StepRow>, generated: Id, a: Answer) returns (err: Option<StoreError>)
      modifies this`steps, step
      ensures step.id == if old(step.id) == ZERO_ID then generated else old(step.id)
      ensures step.row == Filled(old(step.row), a.now)
      ensures var w := Insert(old(steps), step.id, step.row, step.row.info.job in jobs, a);
              steps == w.rows && err == InsertError(w)
      ensures err.None? <==> a.ok && step.row.info.job in jobs && step.id !in old(steps)
      ensures steps == if err.None? then old(steps)[step.id := step.row] else old(steps)
      ensures old(ForeignKeysHold()) ==> ForeignKeysHold()
    {
      FillIn(step, generated, a.now);
      if !a.ok || step.id in steps || !(step.row.info.job in jobs) {
        return Some(Refused);
      }
      steps := steps[step.id := step.row];
      return None;
    }

    method CreateExecution(execution: Record<ExecRow>, generated: Id, a: Answer) returns (err: Option<StoreError>)
      modifies this`execs, execution
      ensures execution.id == if old(execution.id) == ZERO_ID then generated else old(execution.id)
      ensures execution.row == old(execution.row).(submittedAt := a.now, status := DefaultStatus(old(execution.row).status, Pending))
      ensures var w := Insert(old(execs), execution.id, execution.row, execution.row.step in steps, a);
              execs == w.rows && err == InsertError(w)
      ensures err.None? <==> a.ok && execution.row.step in steps && execution.id !in old(execs)
      ensures execs == if err.None? then old(execs)[execution.id := execution.row] else old(execs)
      ensures old(ForeignKeysHold()) ==> ForeignKeysHold()
    {
      execution.AssignId(generated);
      execution.row := execution.row.(submittedAt := a.now);
      if execution.row.status == BLANK {
        execution.row := execution.row.(status := Pending);
      }
      if !a.ok || execution.id in execs || !(execution.row.step in steps) {
        return Some(Refused);
      }
      execs := execs[execution.id := execution.row];
      return None;
    }

    method CreateArtifact(artifact: Record<ArtRow>, generated: Id, a: Answer) returns (err: Option<StoreError>)
      modifies this`arts, artifact
      ensures artifact.id == if old(artifact.id) == ZERO_ID then generated else old(artifact.id)
      ensures artifact.row == old(artifact.row).(createdAt := a.now)
      ensures var w := Insert(old(arts), artifact.id, artifact.row, artifact.row.job in jobs, a);
              arts == w.rows && err == InsertError(w)
      ensures err.None? <==> a.ok && artifact.row.job in jobs && artifact.id !in old(arts)
      ensures arts == if err.None? then old(arts)[artifact.id := artifact.row] else old(arts)
      ensures old(ForeignKeysHold()) ==> ForeignKeysHold()
    {
      artifact.AssignId(generated);
      artifact.row := artifact.row.(createdAt := a.now);
      if !a.ok || artifact.id in arts || !(artifact.row.job in jobs) {
        return Some(Refused);
      }
      arts := arts[artifact.id := artifact.row];
      return None;
    }

    // ---------- UPDATE ... SET status ----------

    method UpdateRun(id: Id, status: Status, a: Answer) returns (err: Option<StoreError>)
      modifies this`runs
      ensures runs == UpdateStatus(old(runs), id, status, a).rows && err == UpdateError(old(runs), id, a)
      ensures err.None? <==> a.ok && id in old(runs)
      ensures runs.Keys == old(runs).Keys && forall other :: other in runs && (other != id || err.Some?) ==> runs[other] == old(runs)[other]
      ensures err.None? ==> runs[id].info == old(runs)[id].info && Advanced(old(runs)[id].life, runs[id].life, status, a.now)
      ensures old(ForeignKeysHold()) ==> ForeignKeysHold()
    {
      var (started, finished) := StartedFinished(status, a.now);
      if !a.ok { return Some(Refused); }
      var affected := 0;
      if id in runs {
        var l := runs[id].life;
        runs := runs[id := runs[id].(life := Life(status, l.createdAt, Coalesce(started, l.startedAt), Coalesce(finished, l.finishedAt)))];
        affected := 1;
      }
      err := EnsureRowsAffected(affected);
    }

    method UpdateJob(id: Id, status: Status, a: Answer) returns (err: Option<StoreError>)
      modifies this`jobs
      ensures jobs == UpdateStatus(old(jobs), id, status, a).rows && err == UpdateError(old(jobs), id, a)
      ensures err.None? <==> a.ok && id in old(jobs)
      ensures jobs.Keys == old(jobs).Keys && forall other :: other in jobs && (other != id || err.Some?) ==> jobs[other] == old(jobs)[other]
      ensures err.None? ==> jobs[id].info == old(jobs)[id].info && Advanced(old(jobs)[id].life, jobs[id].life, status, a.now)
      ensures old(ForeignKeysHold()) ==> ForeignKeysHold()
    {
      var (started, finished) := StartedFinished(status, a.now);
      if !a.ok { return Some(Refused); }
      var affected := 0;
      if id in jobs {
        var l := jobs[id].life;
        jobs := jobs[id := jobs[id].(life := Life(status, l.createdAt, Coalesce(started, l.startedAt), Coalesce(finished, l.finishedAt)))];
        affected := 1;
      }
      err := EnsureRowsAffected(affected);
    }

    method UpdateStep(id: Id, status: Status, a: Answer) returns (err: Option<StoreError>)
      modifies this`steps
      ensures steps == UpdateStatus(old(steps), id, status, a).rows && err == UpdateError(old(steps), id, a)
      ensures err.None? <==> a.ok && id in old(steps)
      ensures steps.Keys == old(steps).Keys && forall other :: other in steps && (other != id || err.Some?) ==> steps[other] == old(steps)[other]
      ensures err.None? ==> steps[id].info == old(steps)[id].info && Advanced(old(steps)[id].life, steps[id].life, status, a.now)
      ensures old(ForeignKeysHold()) ==> ForeignKeysHold()
    {
      var (started, finished) := StartedFinished(status, a.now);
      if !a.ok { return Some(Refused); }
      var affected := 0;
      if id in steps {
        var l := steps[id].life;
        steps := steps[id := steps[id].(life := Life(status, l.createdAt, Coalesce(started, l.startedAt), Coalesce(finished, l.finishedAt)))];
        affected := 1;
      }
      err := EnsureRowsAffected(affected);
    }

    method UpdateExecution(id: Id, status: Status, a: Answer) returns (err: Option<StoreError>)
      modifies this`execs
      ensures execs == UpdateExec(old(execs), id, status, a).rows && err == UpdateError(old(execs), id, a)
      ensures err.None? <==> a.ok && id in old(execs)
      ensures execs.Keys == old(execs).Keys && forall other :: other in execs && (other != id || err.Some?) ==> execs[other] == old(execs)[other]
      ensures err.None? ==> execs[id] == old(execs)[id].(status := status,
                completedAt := if status in [Success, Failed, Canceled] then Some(a.now) else old(execs)[id].completedAt)
      ensures old(ForeignKeysHold()) ==> ForeignKeysHold()
    {
      var completed := CompletedAt(status, a.now);
      if !a.ok { return Some(Refused); }
      var affected := 0;
      if id in execs {
        execs := execs[id := execs[id].(status := status, completedAt := Coalesce(completed, execs[id].completedAt))];
        affected := 1;
      }
      err := EnsureRowsAffected(affected);
    }

    // ---------- SELECT ... ORDER BY created_at ----------

    /** Reads the rows of a job from the query's cursor, which yields them in `cursor` order. */
    method ListArtifacts(job: Id, cursor: seq<Id>, ok: bool) returns (list: Option<seq<ArtRow>>)
      requires IsListing(arts, job, cursor)
      ensures list.Some? <==> ok
      ensures ok ==> |list.value| == |cursor| && forall i :: 0 <= i < |cursor| ==> list.value[i] == arts[cursor[i]]
      ensures ok ==> forall a :: a in list.value <==> exists id :: id in arts && arts[id] == a && a.job == job
      ensures ok ==> forall i, j :: 0 <= i < j < |list.value| ==> list.value[i].createdAt <= list.value[j].createdAt
    {
      if !ok { return None; }
      var artifacts: seq<ArtRow> := [];
      for n := 0 to |cursor|
        invariant |artifacts| == n && forall i :: 0 <= i < n ==> artifacts[i] == arts[cursor[i]]
      {
        assert cursor[n] in cursor;
        artifacts := artifacts + [arts[cursor[n]]];
      }
      forall i | 0 <= i < |cursor| ensures arts[cursor[i]].job == job && cursor[i] in arts { assert cursor[i] in cursor; }
      forall id | id in arts && arts[id].job == job ensures arts[id] in artifacts {
        assert id in cursor;
        var i :| 0 <= i < |cursor| && cursor[i] == id;
        assert artifacts[i] == arts[id];
      }
      return Some(artifacts);
    }
  }

  // ---------- The executor ----------

  /** The executor as an oracle: it answers what the script says and keeps a book of what it was asked. */
  class Cluster {
    var subs: map<Key, Submission>

    method Submit(t: Task) returns (handle: Option<string>)
      modifies this
      ensures handle == t.script.submit
      ensures subs == if handle.Some? then old(subs)[t.inv.key := Submission(t.inv.spec, handle.value, 0, None, 0)] else old(subs)
    {
      handle := t.script.submit;
      if handle.Some? {
        subs := subs[t.inv.key := Submission(t.inv.spec, handle.value, 0, None, 0)];
      }
    }

    /** A status call: `seen` is the phase the executor tells, or None when the call fails. */
    method Status(key: Key, seen: Option<Status>)
      modifies this
      ensures subs == if key in old(subs)
                      then old(subs)[key := old(subs)[key].(polls := old(subs)[key].polls + 1, observed := Coalesce(seen, old(subs)[key].observed))]
                      else old(subs)
    {
      if key in subs {
        subs := subs[key := subs[key].(polls := subs[key].polls + 1, observed := Coalesce(seen, subs[key].observed))];
      }
    }

    method Cancel(key: Key)
      modifies this
      ensures subs == if key in old(subs) then old(subs)[key := old(subs)[key].(cancels := old(subs)[key].cancels + 1)] else old(subs)
    {
      if key in subs {
        subs := subs[key := subs[key].(cancels := subs[key].cancels + 1)];
      }
    }
  }
}
