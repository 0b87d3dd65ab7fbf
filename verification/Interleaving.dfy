/**
 Steps in flight side by side. Every action of a step reads and writes only the step's own rows, so the actions
 of distinct steps commute, and however a group of steps is interleaved it ends as if they had run one by one.
 */
module Interleaving {
  import opened Wrappers
  import opened States
  import opened Rows
  import opened Executor
  import opened Steps

  // ---------- Footprint of one step ----------

  /** The two maps have the same entry, or both none, at `k`. */
  ghost predicate Agree<K, V>(m: map<K, V>, n: map<K, V>, k: K) {
    (k in m <==> k in n) && (k in m ==> m[k] == n[k])
  }

  /** `b` differs from `a` at most in the rows of step `t`. */
  ghost predicate Only(a: Sys, b: Sys, t: Task) {
    && a.runs == b.runs && a.jobs == b.jobs && a.arts == b.arts && a.starts == b.starts
    && a.steps - {t.script.stepId} == b.steps - {t.script.stepId}
    && a.execs - {t.script.execId} == b.execs - {t.script.execId}
    && a.subs - {t.inv.key} == b.subs - {t.inv.key}
  }

  /** `a` and `b` look the same to step `t`. */
  ghost predicate SameView(a: Sys, b: Sys, t: Task) {
    && Agree(a.steps, b.steps, t.script.stepId)
    && Agree(a.execs, b.execs, t.script.execId)
    && Agree(a.subs, b.subs, t.inv.key)
    && (t.job in a.jobs <==> t.job in b.jobs)
  }

  /** Two steps that share no row. */
  predicate Apart(t: Task, u: Task) {
    t.script.stepId != u.script.stepId && t.script.execId != u.script.execId && t.inv.key != u.inv.key
  }

  lemma PutOff<K, V>(m: map<K, V>, k: K, v: V)
    ensures m[k := v] - {k} == m - {k}
  {
  }

  lemma OffAgrees<K, V>(m: map<K, V>, n: map<K, V>, k: K, j: K)
    requires m - {k} == n - {k} && j != k
    ensures Agree(m, n, j)
  {
    assert j in m <==> j in m - {k};
    assert j in n <==> j in n - {k};
    if j in m { assert m[j] == (m - {k})[j] == (n - {k})[j] == n[j]; }
  }

  lemma InsertFrame<T>(rows: map<Id, T>, id: Id, row: T, parent: bool, a: Answer)
    ensures Insert(rows, id, row, parent, a).rows - {id} == rows - {id}
  {
    PutOff(rows, id, row);
  }

  lemma UpdateFrame<T>(rows: map<Id, Row<T>>, id: Id, status: Status, a: Answer)
    ensures UpdateStatus(rows, id, status, a).rows - {id} == rows - {id}
  {
    if id in rows { PutOff(rows, id, rows[id].(life := Touch(rows[id].life, status, a.now))); }
  }

  lemma SubmittedFrame(sys: Sys, t: Task, handle: string)
    ensures Only(sys, Submitted(sys, t, handle), t)
  {
    PutOff(sys.subs, t.inv.key, Submission(t.inv.spec, handle, 0, None, 0));
  }

  lemma PolledFrame(sys: Sys, t: Task, seen: Option<Status>)
    ensures Only(sys, Polled(sys, t, seen), t)
  {
    var k := t.inv.key;
    if k in sys.subs { PutOff(sys.subs, k, Polled(sys, t, seen).subs[k]); }
  }

  lemma CancelledFrame(sys: Sys, t: Task)
    ensures Only(sys, Cancelled(sys, t), t)
  {
    var k := t.inv.key;
    if k in sys.subs { PutOff(sys.subs, k, Cancelled(sys, t).subs[k]); }
  }

  lemma StoredFrame(sys: Sys, t: Task, phase: Status, a: Answer)
    ensures Only(sys, StoredPhase(sys, t, phase, a), t)
  {
    var id := t.script.execId;
    if id in sys.execs { PutOff(sys.execs, id, TouchExec(sys.execs[id], phase, a.now)); }
  }

  lemma CreateFrame(sys: Sys, t: Task)
    ensures Only(sys, sys.(steps := CreateStep(sys, t).rows), t)
  {
    InsertFrame(sys.steps, t.script.stepId, NewStepRow(t), t.job in sys.jobs, t.script.create);
  }

  lemma StatusFrame(sys: Sys, t: Task, status: Status, a: Answer)
    ensures Only(sys, sys.(steps := UpdateStatus(sys.steps, t.script.stepId, status, a).rows), t)
  {
    UpdateFrame(sys.steps, t.script.stepId, status, a);
  }

  lemma RecordRowFrame(sys: Sys, t: Task, handle: string)
    ensures Only(sys, sys.(execs := RecordExec(sys, t, handle).rows), t)
  {
    InsertFrame(sys.execs, t.script.execId, NewExecRow(t, handle), t.script.stepId in sys.steps, t.script.record);
  }

  lemma SameFrame(sys: Sys, t: Task)
    ensures Only(sys, sys, t)
  {
  }

  lemma MoveFrame(sys: Sys, th: Thread)
    ensures Only(sys, Move(sys, th).0, th.task)
  {
    var t := th.task;
    hide Only, Submitted, StoredPhase, Polled, Cancelled, CreateStep, RecordExec, UpdateStatus;
    SameFrame(sys, t);
    match th.pc
    case AtCreate => CreateFrame(sys, t);
    case AtStart => StatusFrame(sys, t, Running, t.script.start);
    case AtSubmit => if t.script.submit.Some? { SubmittedFrame(sys, t, t.script.submit.value); }
    case AtRecord => if t.script.submit.Some? { RecordRowFrame(sys, t, t.script.submit.value); }
    case AtPoll(n) =>
      if n < |t.script.polls| {
        match t.script.polls[n]
        case CtxDone => CancelledFrame(sys, t);
        case StatusErr => PolledFrame(sys, t, None);
        case Observed(phase, _) => PolledFrame(sys, t, Some(phase));
      }
    case AtStore(n) =>
      if n < |t.script.polls| && t.script.polls[n].Observed? {
        StoredFrame(sys, t, t.script.polls[n].phase, t.script.polls[n].write);
      }
    case AtFinal(err) => StatusFrame(sys, t, StepFinal(err), t.script.final);
    case _ =>
  }

  lemma {:induction false} PollFrame(sys: Sys, t: Task, n: nat)
    ensures Only(sys, Poll(sys, t, n).sys, t)
    decreases |t.script.polls| - n, 1
  {
    if n < |t.script.polls| {
      match t.script.polls[n]
      case CtxDone => CancelledFrame(sys, t);
      case StatusErr => PolledFrame(sys, t, None); PollFrame(Polled(sys, t, None), t, n + 1);
      case Observed(phase, _) => PolledFrame(sys, t, Some(phase)); StoreFrame(Polled(sys, t, Some(phase)), t, n);
    }
  }

  lemma {:induction false} StoreFrame(sys: Sys, t: Task, n: nat)
    ensures Only(sys, StorePhase(sys, t, n).sys, t)
    decreases |t.script.polls| - n, 0
  {
    if n < |t.script.polls| && t.script.polls[n].Observed? {
      var e := t.script.polls[n];
      StoredFrame(sys, t, e.phase, e.write);
      if !IsTerminalPhase(e.phase) { PollFrame(StoredPhase(sys, t, e.phase, e.write), t, n + 1); }
    }
  }

  lemma FinishFrame(sys: Sys, o: Out, t: Task)
    requires Only(sys, o.sys, t)
    ensures Only(sys, Finish(o, t).sys, t)
  {
    StatusFrame(o.sys, t, StepFinal(o.err), t.script.final);
  }

  lemma RecordFrame(sys: Sys, t: Task)
    ensures Only(sys, Record(sys, t).sys, t)
  {
    if t.script.submit.Some? {
      var w := RecordExec(sys, t, t.script.submit.value);
      RecordRowFrame(sys, t, t.script.submit.value);
      if w.ok { PollFrame(sys.(execs := w.rows), t, 0); }
    }
  }

  lemma ExecuteFrame(sys: Sys, t: Task)
    ensures Only(sys, ExecuteAndPoll(sys, t).sys, t)
  {
    if t.script.submit.Some? { SubmittedFrame(sys, t, t.script.submit.value); RecordFrame(Submitted(sys, t, t.script.submit.value), t); }
  }

  lemma StartFrame(sys: Sys, t: Task)
    ensures Only(sys, StartAndRun(sys, t).sys, t)
  {
    var w := StartStep(sys, t);
    StatusFrame(sys, t, Running, t.script.start);
    if w.ok {
      ExecuteFrame(sys.(steps := w.rows), t);
      FinishFrame(sys, ExecuteAndPoll(sys.(steps := w.rows), t), t);
    }
  }

  lemma CompleteFrame(sys: Sys, th: Thread)
    ensures Only(sys, Complete(sys, th).sys, th.task)
  {
    var t := th.task;
    match th.pc
    case AtCreate =>
      var w := CreateStep(sys, t);
      CreateFrame(sys, t);
      if w.ok { StartFrame(sys.(steps := w.rows), t); }
    case AtStart => StartFrame(sys, t);
    case AtSubmit => ExecuteFrame(sys, t); FinishFrame(sys, ExecuteAndPoll(sys, t), t);
    case AtRecord => RecordFrame(sys, t); FinishFrame(sys, Record(sys, t), t);
    case AtPoll(n) => PollFrame(sys, t, n); FinishFrame(sys, Poll(sys, t, n), t);
    case AtStore(n) => StoreFrame(sys, t, n); FinishFrame(sys, StorePhase(sys, t, n), t);
    case AtFinal(err) => FinishFrame(sys, Out(sys, err), t);
    case _ =>
  }

  // ---------- A step sees nothing but its view ----------

  lemma PolledView(a: Sys, b: Sys, t: Task, seen: Option<Status>)
    requires SameView(a, b, t)
    ensures SameView(Polled(a, t, seen), Polled(b, t, seen), t)
  {
  }

  lemma CancelledView(a: Sys, b: Sys, t: Task)
    requires SameView(a, b, t)
    ensures SameView(Cancelled(a, t), Cancelled(b, t), t)
  {
  }

  lemma StoredView(a: Sys, b: Sys, t: Task, phase: Status, w: Answer)
    requires SameView(a, b, t)
    ensures SameView(StoredPhase(a, t, phase, w), StoredPhase(b, t, phase, w), t)
  {
  }

  lemma PollMoveView(a: Sys, b: Sys, t: Task, n: nat)
    requires SameView(a, b, t)
    ensures SameView(PollMove(a, t, n).0, PollMove(b, t, n).0, t)
    ensures PollMove(a, t, n).1 == PollMove(b, t, n).1
  {
    if n < |t.script.polls| {
      match t.script.polls[n]
      case CtxDone => CancelledView(a, b, t);
      case StatusErr => PolledView(a, b, t, None);
      case Observed(phase, _) => PolledView(a, b, t, Some(phase));
    }
  }

  lemma StoreMoveView(a: Sys, b: Sys, t: Task, n: nat)
    requires SameView(a, b, t)
    ensures SameView(StoreMove(a, t, n).0, StoreMove(b, t, n).0, t)
    ensures StoreMove(a, t, n).1 == StoreMove(b, t, n).1
  {
    if n < |t.script.polls| && t.script.polls[n].Observed? {
      StoredView(a, b, t, t.script.polls[n].phase, t.script.polls[n].write);
    }
  }

  lemma CreateView(a: Sys, b: Sys, t: Task)
    requires SameView(a, b, t)
    ensures SameView(a.(steps := CreateStep(a, t).rows), b.(steps := CreateStep(b, t).rows), t)
    ensures CreateStep(a, t).ok == CreateStep(b, t).ok
  {
  }

  lemma StatusView(a: Sys, b: Sys, t: Task, status: Status, w: Answer)
    requires SameView(a, b, t)
    ensures var v, u := UpdateStatus(a.steps, t.script.stepId, status, w), UpdateStatus(b.steps, t.script.stepId, status, w);
            SameView(a.(steps := v.rows), b.(steps := u.rows), t) && v.ok == u.ok
  {
  }

  lemma SubmittedView(a: Sys, b: Sys, t: Task, handle: string)
    requires SameView(a, b, t)
    ensures SameView(Submitted(a, t, handle), Submitted(b, t, handle), t)
  {
  }

  lemma RecordMoveView(a: Sys, b: Sys, t: Task)
    requires SameView(a, b, t)
    ensures SameView(RecordMove(a, t).0, RecordMove(b, t).0, t)
    ensures RecordMove(a, t).1 == RecordMove(b, t).1
  {
  }

  /** The moves that write the step's own row. */
  lemma RowMoveView(a: Sys, b: Sys, th: Thread)
    requires SameView(a, b, th.task)
    requires th.pc.AtCreate? || th.pc.AtStart? || th.pc.AtFinal?
    ensures SameView(Move(a, th).0, Move(b, th).0, th.task) && Move(a, th).1 == Move(b, th).1
  {
    match th.pc
    case AtCreate => CreateView(a, b, th.task);
    case AtStart => StatusView(a, b, th.task, Running, th.task.script.start);
    case AtFinal(err) => StatusView(a, b, th.task, StepFinal(err), th.task.script.final);
  }

  lemma MoveView(a: Sys, b: Sys, th: Thread)
    requires SameView(a, b, th.task)
    ensures SameView(Move(a, th).0, Move(b, th).0, th.task) && Move(a, th).1 == Move(b, th).1
  {
    match th.pc
    case AtSubmit => if th.task.script.submit.Some? { SubmittedView(a, b, th.task, th.task.script.submit.value); }
    case AtRecord => RecordMoveView(a, b, th.task);
    case AtPoll(n) => PollMoveView(a, b, th.task, n);
    case AtStore(n) => StoreMoveView(a, b, th.task, n);
    case AtReturn(_) =>
    case Logged(_) =>
    case Done(_) =>
    case _ => RowMoveView(a, b, th);
  }

  lemma {:induction false} PollView(a: Sys, b: Sys, t: Task, n: nat)
    requires SameView(a, b, t)
    ensures SameView(Poll(a, t, n).sys, Poll(b, t, n).sys, t)
    ensures Poll(a, t, n).err == Poll(b, t, n).err
    decreases |t.script.polls| - n, 1
  {
    if n < |t.script.polls| {
      match t.script.polls[n]
      case CtxDone => CancelledView(a, b, t);
      case StatusErr =>
        PolledView(a, b, t, None);
        PollView(Polled(a, t, None), Polled(b, t, None), t, n + 1);
      case Observed(phase, _) =>
        PolledView(a, b, t, Some(phase));
        StoreView(Polled(a, t, Some(phase)), Polled(b, t, Some(phase)), t, n);
    }
  }

  lemma {:induction false} StoreView(a: Sys, b: Sys, t: Task, n: nat)
    requires SameView(a, b, t)
    ensures SameView(StorePhase(a, t, n).sys, StorePhase(b, t, n).sys, t)
    ensures StorePhase(a, t, n).err == StorePhase(b, t, n).err
    decreases |t.script.polls| - n, 0
  {
    if n < |t.script.polls| && t.script.polls[n].Observed? {
      var e := t.script.polls[n];
      StoredView(a, b, t, e.phase, e.write);
      if !IsTerminalPhase(e.phase) {
        PollView(StoredPhase(a, t, e.phase, e.write), StoredPhase(b, t, e.phase, e.write), t, n + 1);
      }
    }
  }

  lemma FinishView(x: Out, y: Out, t: Task)
    requires SameView(x.sys, y.sys, t) && x.err == y.err
    ensures SameView(Finish(x, t).sys, Finish(y, t).sys, t)
    ensures Finish(x, t).err == Finish(y, t).err
  {
  }

  lemma RecordView(a: Sys, b: Sys, t: Task)
    requires SameView(a, b, t)
    ensures SameView(Record(a, t).sys, Record(b, t).sys, t)
    ensures Record(a, t).err == Record(b, t).err
  {
    if t.script.submit.Some? {
      var h := t.script.submit.value;
      if RecordExec(a, t, h).ok {
        PollView(a.(execs := RecordExec(a, t, h).rows), b.(execs := RecordExec(b, t, h).rows), t, 0);
      }
    }
  }

  lemma ExecuteView(a: Sys, b: Sys, t: Task)
    requires SameView(a, b, t)
    ensures SameView(ExecuteAndPoll(a, t).sys, ExecuteAndPoll(b, t).sys, t)
    ensures ExecuteAndPoll(a, t).err == ExecuteAndPoll(b, t).err
  {
    if t.script.submit.Some? {
      RecordView(Submitted(a, t, t.script.submit.value), Submitted(b, t, t.script.submit.value), t);
    }
  }

  lemma StartView(a: Sys, b: Sys, t: Task)
    requires SameView(a, b, t)
    ensures SameView(StartAndRun(a, t).sys, StartAndRun(b, t).sys, t)
    ensures StartAndRun(a, t).err == StartAndRun(b, t).err
  {
    var v, w := StartStep(a, t), StartStep(b, t);
    if v.ok {
      ExecuteView(a.(steps := v.rows), b.(steps := w.rows), t);
      FinishView(ExecuteAndPoll(a.(steps := v.rows), t), ExecuteAndPoll(b.(steps := w.rows), t), t);
    }
  }

  lemma CompleteView(a: Sys, b: Sys, th: Thread)
    requires SameView(a, b, th.task)
    ensures SameView(Complete(a, th).sys, Complete(b, th).sys, th.task)
    ensures Complete(a, th).err == Complete(b, th).err
  {
    var t := th.task;
    match th.pc
    case AtCreate =>
      var v, w := CreateStep(a, t), CreateStep(b, t);
      if v.ok { StartView(a.(steps := v.rows), b.(steps := w.rows), t); }
    case AtStart => StartView(a, b, t);
    case AtSubmit => ExecuteView(a, b, t); FinishView(ExecuteAndPoll(a, t), ExecuteAndPoll(b, t), t);
    case AtRecord => RecordView(a, b, t); FinishView(Record(a, t), Record(b, t), t);
    case AtPoll(n) => PollView(a, b, t, n); FinishView(Poll(a, t, n), Poll(b, t, n), t);
    case AtStore(n) => StoreView(a, b, t, n); FinishView(StorePhase(a, t, n), StorePhase(b, t, n), t);
    case AtFinal(err) => FinishView(Out(a, err), Out(b, err), t);
    case _ =>
  }

  // ---------- Commutation ----------

  /** Two ways round the same square: `t` first or `u` first. */
  lemma Square(sys: Sys, t: Task, u: Task, a: Sys, ab: Sys, b: Sys, ba: Sys)
    requires Apart(t, u)
    requires Only(sys, a, t) && Only(a, ab, u)
    requires Only(sys, b, u) && Only(b, ba, t)
    requires SameView(a, ba, t) && SameView(b, ab, u)
    ensures ab == ba
  {
    SquareMap(sys.steps, t.script.stepId, u.script.stepId, a.steps, ab.steps, b.steps, ba.steps);
    SquareMap(sys.execs, t.script.execId, u.script.execId, a.execs, ab.execs, b.execs, ba.execs);
    SquareMap(sys.subs, t.inv.key, u.inv.key, a.subs, ab.subs, b.subs, ba.subs);
  }

  lemma SquareMap<K, V>(m: map<K, V>, i: K, j: K, a: map<K, V>, ab: map<K, V>, b: map<K, V>, ba: map<K, V>)
    requires i != j
    requires m - {i} == a - {i} && a - {j} == ab - {j}
    requires m - {j} == b - {j} && b - {i} == ba - {i}
    requires Agree(a, ba, i) && Agree(b, ab, j)
    ensures ab == ba
  {
    forall k ensures (k in ab <==> k in ba) && (k in ab ==> ab[k] == ba[k]) {
      if k != i { OffAgrees(m, a, i, k); OffAgrees(b, ba, i, k); }
      if k != j { OffAgrees(a, ab, j, k); OffAgrees(m, b, j, k); }
    }
  }

  lemma OthersViewUnchanged(a: Sys, b: Sys, t: Task, u: Task)
    requires Apart(t, u) && Only(a, b, t)
    ensures SameView(a, b, u)
  {
    OffAgrees(a.steps, b.steps, t.script.stepId, u.script.stepId);
    OffAgrees(a.execs, b.execs, t.script.execId, u.script.execId);
    OffAgrees(a.subs, b.subs, t.inv.key, u.inv.key);
  }

  /** An action of `u` may be taken before or after all the rest of `t`. */
  lemma MoveCommutes(sys: Sys, t: Thread, u: Thread)
    requires Apart(t.task, u.task)
    ensures Move(Complete(sys, t).sys, u).0 == Complete(Move(sys, u).0, t).sys
    ensures Move(Complete(sys, t).sys, u).1 == Move(sys, u).1
    ensures Complete(Move(sys, u).0, t).err == Complete(sys, t).err
  {
    var a, b := Complete(sys, t).sys, Move(sys, u).0;
    var ab, ba := Move(a, u).0, Complete(b, t).sys;
    CompleteFrame(sys, t);
    MoveFrame(a, u);
    MoveFrame(sys, u);
    CompleteFrame(b, t);
    OthersViewUnchanged(sys, b, u.task, t.task);
    CompleteView(sys, b, t);
    OthersViewUnchanged(sys, a, t.task, u.task);
    MoveView(sys, a, u);
    Square(sys, t.task, u.task, a, ab, b, ba);
  }

  // ---------- Groups of steps ----------

  predicate AllApart(ts: seq<Thread>) {
    forall i, j :: 0 <= i < j < |ts| ==> Apart(ts[i].task, ts[j].task)
  }

  function First<T>(x: Option<T>, y: Option<T>): Option<T> { if x.Some? then x else y }

  /** What a group of steps comes to when each in turn is run alone to its end. */
  function FinishAll(sys: Sys, ts: seq<Thread>): Out
    decreases |ts|
  {
    if ts == [] then Out(sys, None)
    else
      var c := Complete(sys, ts[0]);
      var rest := FinishAll(c.sys, ts[1..]);
      Out(rest.sys, First(c.err, rest.err))
  }

  /** Whichever step of the group acts next, the group comes to the same end. */
  lemma {:induction false} MoveInGroup(sys: Sys, ts: seq<Thread>, k: nat)
    requires k < |ts| && AllApart(ts)
    ensures FinishAll(Move(sys, ts[k]).0, ts[k := ts[k].(pc := Move(sys, ts[k]).1)]) == FinishAll(sys, ts)
    decreases |ts|
  {
    var (sys', pc') := Move(sys, ts[k]);
    var us := ts[k := ts[k].(pc := pc')];
    if k == 0 {
      MoveRefines(sys, ts[0]);
      assert us[1..] == ts[1..];
    } else {
      MoveCommutes(sys, ts[0], ts[k]);
      MoveInGroup(Complete(sys, ts[0]).sys, ts[1..], k - 1);
      assert us[1..] == ts[1..][k - 1 := ts[k].(pc := pc')];
    }
  }

  /** Leaving the critical section and running the deferred Done change nothing. */
  lemma {:induction false} SettleInGroup(sys: Sys, ts: seq<Thread>, k: nat, pc: Pc)
    requires k < |ts| && Returned(ts[k])
    requires pc.Logged? || pc.Done?
    requires pc.err == Result(ts[k])
    ensures FinishAll(sys, ts[k := ts[k].(pc := pc)]) == FinishAll(sys, ts)
    decreases |ts|
  {
    var us := ts[k := ts[k].(pc := pc)];
    if k == 0 {
      assert us[1..] == ts[1..];
    } else {
      SettleInGroup(Complete(sys, ts[0]).sys, ts[1..], k - 1, pc);
      assert us[1..] == ts[1..][k - 1 := ts[k].(pc := pc)];
    }
  }

  lemma {:induction false} FinishOneMore(sys: Sys, ts: seq<Thread>, th: Thread)
    ensures var r := FinishAll(sys, ts);
            FinishAll(sys, ts + [th]) == Out(Complete(r.sys, th).sys, First(r.err, Complete(r.sys, th).err))
    decreases |ts|
  {
    if ts == [] {
      assert (ts + [th])[1..] == [];
    } else {
      FinishOneMore(Complete(sys, ts[0]).sys, ts[1..], th);
      assert (ts + [th])[1..] == ts[1..] + [th];
    }
  }

  lemma {:induction false} FinishReturned(sys: Sys, ts: seq<Thread>)
    requires forall k :: 0 <= k < |ts| ==> Returned(ts[k])
    ensures FinishAll(sys, ts).sys == sys
    ensures FinishAll(sys, ts).err.Some? <==> exists k :: 0 <= k < |ts| && Result(ts[k]).Some?
    decreases |ts|
  {
    if ts != [] {
      FinishReturned(sys, ts[1..]);
      assert forall k :: 0 < k < |ts| ==> ts[1..][k - 1] == ts[k];
      if k :| 0 <= k < |ts[1..]| && Result(ts[1..][k]).Some? { assert ts[k + 1] == ts[1..][k]; }
    }
  }

  /** One more step is started. */
  function Started(sys: Sys, inv: Invocation): Sys { sys.(starts := sys.starts + [inv]) }

  lemma CompleteIgnoresStarts(sys: Sys, th: Thread, inv: Invocation)
    ensures Complete(Started(sys, inv), th) == Out(Started(Complete(sys, th).sys, inv), Complete(sys, th).err)
  {
    var logged := Started(sys, inv);
    var a, b, t := Complete(sys, th).sys, Complete(logged, th).sys, th.task;
    CompleteFrame(sys, th);
    CompleteFrame(logged, th);
    CompleteView(sys, logged, th);
    SameMap(a.steps, b.steps, t.script.stepId);
    SameMap(a.execs, b.execs, t.script.execId);
    SameMap(a.subs, b.subs, t.inv.key);
  }

  lemma SameMap<K, V>(m: map<K, V>, n: map<K, V>, k: K)
    requires m - {k} == n - {k} && Agree(m, n, k)
    ensures m == n
  {
    forall j ensures (j in m <==> j in n) && (j in m ==> m[j] == n[j]) {
      if j != k { OffAgrees(m, n, k, j); }
    }
  }

  lemma {:induction false} FinishAllIgnoresStarts(sys: Sys, ts: seq<Thread>, inv: Invocation)
    ensures FinishAll(Started(sys, inv), ts) == Out(Started(FinishAll(sys, ts).sys, inv), FinishAll(sys, ts).err)
    decreases |ts|
  {
    if ts != [] {
      CompleteIgnoresStarts(sys, ts[0], inv);
      FinishAllIgnoresStarts(Complete(sys, ts[0]).sys, ts[1..], inv);
    }
  }
}
