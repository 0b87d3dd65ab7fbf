/** The part of the orchestrator that takes one step through its life, writing its rows as it goes. */
module StepRunner {
  import opened Wrappers
  import opened States
  import opened Rows
  import opened Executor
  import opened Steps
  import opened Interleaving
  import opened Pipeline
  import opened Reference
  import opened Store
  import Polling

  /** A script whose poll, if it comes to that, ends. On any other the real loop never returns. */
  predicate Ends(sc: StepScript) {
    sc.create.ok && sc.start.ok && sc.submit.Some? && sc.record.ok ==> Decided(sc.polls)
  }

  /** No step of the run is left polling for ever. */
  ghost predicate AllEnd(w: World) { forall k :: Ends(w.steps(k)) }

  /** The book entry of the step, if there was one, is still there and still of the same spec. */
  predicate KeepsSpec(key: Key, before: map<Key, Submission>, after: map<Key, Submission>) {
    key in before ==> key in after && after[key].spec == before[key].spec
  }

  class Runner {
    const db: Database
    const cluster: Cluster
    ghost var starts: seq<Invocation>

    constructor (db: Database, cluster: Cluster)
      ensures this.db == db && this.cluster == cluster && starts == []
    {
      this.db := db;
      this.cluster := cluster;
      starts := [];
    }

    ghost function Snapshot(): Sys
      reads this, db, cluster
    {
      Sys(db.runs, db.jobs, db.steps, db.execs, db.arts, cluster.subs, starts)
    }

    /** Waits for a terminal phase or the context's end. */
    method Poll(t: Task, execId: Id) returns (err: Option<Error>)
      requires Decided(t.script.polls) && execId == t.script.execId
      modifies db`execs, cluster
      ensures Out(Snapshot(), err) == Steps.Poll(old(Snapshot()), t, 0)
      ensures err.None? <==> PollSucceeds(t.script.polls)
      ensures KeepsSpec(t.inv.key, old(cluster.subs), cluster.subs)
      ensures err.Some? ==> err.value.StepError? && err.value.key == t.inv.key
    {
      hide Steps.Poll, FirstDecisive;
      var n, key := 0, t.inv.key;
      while true
        invariant n <= |t.script.polls| && forall i :: 0 <= i < n ==> !Decisive(t.script.polls[i])
        invariant Steps.Poll(Snapshot(), t, n) == Steps.Poll(old(Snapshot()), t, 0)
        invariant KeepsSpec(key, old(cluster.subs), cluster.subs)
        decreases |t.script.polls| - n
      {
        Polling.PollOnce(Snapshot(), t, n);
        match t.script.polls[n]
        case CtxDone =>
          FirstDecisiveUnique(t.script.polls, n);
          cluster.Cancel(key);
          return Fail(t, ContextDone);
        case StatusErr =>
          cluster.Status(key, None);
          n := n + 1;
        case Observed(phase, write) =>
          cluster.Status(key, Some(phase));
          var ignored := db.UpdateExecution(execId, phase, write);
          if !IsTerminalPhase(phase) {
            n := n + 1;
            continue;
          }
          FirstDecisiveUnique(t.script.polls, n);
          if phase != Succeeded {
            return Fail(t, PhaseError(phase));
          }
          return None;
      }
    }

    /** Submits the step, records the execution, and polls it. */
    method ExecuteAndPoll(t: Task, stepId: Id) returns (err: Option<Error>)
      requires stepId == t.script.stepId && (t.script.submit.Some? && t.script.record.ok ==> Decided(t.script.polls))
      modifies db`execs, cluster
      ensures Out(Snapshot(), err) == Steps.ExecuteAndPoll(old(Snapshot()), t)
      ensures t.script.submit.Some? ==> t.inv.key in cluster.subs && cluster.subs[t.inv.key].spec == t.inv.spec
      ensures err.Some? ==> err.value.StepError? && err.value.key == t.inv.key
    {
      var handle := cluster.Submit(t);
      if handle.None? {
        return Fail(t, SubmitRefused);
      }
      var exec := new Record(ZERO_ID, ExecRow(stepId, "kubernetes", handle.value, Pending, 0, None));
      var refused := db.CreateExecution(exec, t.script.execId, t.script.record);
      if refused.Some? {
        return Fail(t, RecordRefused);
      }
      err := Poll(t, exec.id);
    }

    /** The full lifecycle of one step: create, start, execute, finalise. */
    method RunStep(t: Task) returns (err: Option<Error>)
      requires Ends(t.script)
      modifies this, db`steps, db`execs, cluster
      ensures Out(Snapshot(), err) == CallStep(old(Snapshot()), t)
      ensures t.script.stepId in db.steps && t.script.stepId !in old(db.steps) ==>
                && db.steps[t.script.stepId].info == StepInfo(t.job, t.inv.name, t.inv.key.order, t.inv.group)
                && db.steps[t.script.stepId].life.createdAt == t.script.create.now
      ensures t.inv.key in cluster.subs && t.inv.key !in old(cluster.subs) ==> cluster.subs[t.inv.key].spec == t.inv.spec
      ensures err.Some? ==> err.value.StepError? && err.value.key == t.inv.key
    {
      starts := starts + [t.inv];
      var step := new Record(ZERO_ID, Row(StepInfo(t.job, t.inv.name, t.inv.key.order, t.inv.group), Life(BLANK, 0, None, None)));
      var refused := db.CreateStep(step, t.script.stepId, t.script.create);
      if refused.Some? {
        return Fail(t, CreateRefused);
      }
      refused := db.UpdateStep(step.id, Running, t.script.start);
      if refused.Some? {
        return Fail(t, StartRefused);
      }
      err := ExecuteAndPoll(t, step.id);
      var finalState := Succeeded;
      if err.Some? {
        finalState := Failed;
      }
      var ignored := db.UpdateStep(step.id, finalState, t.script.final);
    }

    // ---------- The same life, one atomic action at a time ----------

    /** The next action of a step in flight. */
    method Act(th: Thread) returns (pc: Pc)
      requires !Returned(th)
      modifies db`steps, db`execs, cluster
      ensures (Snapshot(), pc) == Move(old(Snapshot()), th)
    {
      var t := th.task;
      match th.pc
      case AtCreate =>
        var step := new Record(ZERO_ID, Row(StepInfo(t.job, t.inv.name, t.inv.key.order, t.inv.group), Life(BLANK, 0, None, None)));
        var refused := db.CreateStep(step, t.script.stepId, t.script.create);
        pc := if refused.Some? then AtReturn(Fail(t, CreateRefused)) else AtStart;
      case AtStart =>
        var refused := db.UpdateStep(t.script.stepId, Running, t.script.start);
        pc := if refused.Some? then AtReturn(Fail(t, StartRefused)) else AtSubmit;
      case AtSubmit =>
        var handle := cluster.Submit(t);
        pc := if handle.None? then AtFinal(Fail(t, SubmitRefused)) else AtRecord;
      case AtRecord => pc := ActRecord(t);
      case AtPoll(n) => pc := ActPoll(t, n);
      case AtStore(n) => pc := ActStore(t, n);
      case AtFinal(err) =>
        var ignored := db.UpdateStep(t.script.stepId, if err.Some? then Failed else Succeeded, t.script.final);
        pc := AtReturn(err);
    }

    method ActRecord(t: Task) returns (pc: Pc)
      modifies db`execs
      ensures (Snapshot(), pc) == RecordMove(old(Snapshot()), t)
    {
      if t.script.submit.None? {
        return AtFinal(Fail(t, SubmitRefused));
      }
      var exec := new Record(ZERO_ID, ExecRow(t.script.stepId, "kubernetes", t.script.submit.value, Pending, 0, None));
      var refused := db.CreateExecution(exec, t.script.execId, t.script.record);
      pc := if refused.Some? then AtFinal(Fail(t, RecordRefused)) else AtPoll(0);
    }

    method ActPoll(t: Task, n: nat) returns (pc: Pc)
      modifies cluster
      ensures (Snapshot(), pc) == PollMove(old(Snapshot()), t, n)
    {
      if n >= |t.script.polls| {
        return AtPoll(n);
      }
      match t.script.polls[n]
      case CtxDone =>
        cluster.Cancel(t.inv.key);
        pc := AtFinal(Fail(t, ContextDone));
      case StatusErr =>
        cluster.Status(t.inv.key, None);
        pc := AtPoll(n + 1);
      case Observed(phase, _) =>
        cluster.Status(t.inv.key, Some(phase));
        pc := AtStore(n);
    }

    method ActStore(t: Task, n: nat) returns (pc: Pc)
      modifies db`execs
      ensures (Snapshot(), pc) == StoreMove(old(Snapshot()), t, n)
    {
      if n >= |t.script.polls| || !t.script.polls[n].Observed? {
        return AtFinal(Fail(t, Undecided));
      }
      var phase := t.script.polls[n].phase;
      var ignored := db.UpdateExecution(t.script.execId, phase, t.script.polls[n].write);
      pc := if !IsTerminalPhase(phase) then AtPoll(n + 1)
            else if phase != Succeeded then AtFinal(Fail(t, PhaseError(phase))) else AtFinal(None);
    }
  }
}
