/** Status calls that fail: they change nothing that a step decides or writes, only the number of calls made. */
module Polling {
  import opened Wrappers
  import opened States
  import opened Rows
  import opened Executor
  import opened Steps
  import opened Interleaving

  /** The step with one more failed status call, after the events of `front`. */
  function WithFailure(t: Task, front: seq<PollEvent>, back: seq<PollEvent>): Task {
    t.(script := t.script.(polls := front + [StatusErr] + back))
  }

  /** The two differ at most in how often the step was polled. */
  predicate AlikeButPolls(a: Sys, b: Sys, key: Key) {
    && a.(subs := b.subs) == b && a.subs - {key} == b.subs - {key} && (key in a.subs <==> key in b.subs)
    && (key in a.subs ==> a.subs[key].(polls := 0) == b.subs[key].(polls := 0))
  }

  predicate OutAlike(x: Out, y: Out, key: Key) { x.err == y.err && AlikeButPolls(x.sys, y.sys, key) }

  lemma PutAlike(a: Sys, b: Sys, key: Key, x: Submission, y: Submission)
    requires AlikeButPolls(a, b, key) && x.(polls := 0) == y.(polls := 0)
    ensures AlikeButPolls(a.(subs := a.subs[key := x]), b.(subs := b.subs[key := y]), key)
  {
    PutOff(a.subs, key, x);
    PutOff(b.subs, key, y);
  }

  lemma PolledAlike(a: Sys, b: Sys, t: Task, seen: Option<Status>)
    requires AlikeButPolls(a, b, t.inv.key)
    ensures AlikeButPolls(Polled(a, t, seen), Polled(b, t, seen), t.inv.key)
  {
    var k := t.inv.key;
    if k in a.subs { PutAlike(a, b, k, Polled(a, t, seen).subs[k], Polled(b, t, seen).subs[k]); }
  }

  lemma FailureAlike(a: Sys, b: Sys, t: Task)
    requires AlikeButPolls(a, b, t.inv.key)
    ensures AlikeButPolls(a, Polled(b, t, None), t.inv.key)
  {
    var k := t.inv.key;
    if k in b.subs { PutOff(b.subs, k, Polled(b, t, None).subs[k]); }
  }

  lemma CancelledAlike(a: Sys, b: Sys, t: Task)
    requires AlikeButPolls(a, b, t.inv.key)
    ensures AlikeButPolls(Cancelled(a, t), Cancelled(b, t), t.inv.key)
  {
    var k := t.inv.key;
    if k in a.subs { PutAlike(a, b, k, Cancelled(a, t).subs[k], Cancelled(b, t).subs[k]); }
  }

  lemma StoredAlike(a: Sys, b: Sys, t: Task, u: Task, phase: Status, w: Answer)
    requires AlikeButPolls(a, b, t.inv.key) && u.script.execId == t.script.execId
    ensures AlikeButPolls(StoredPhase(a, t, phase, w), StoredPhase(b, u, phase, w), t.inv.key)
  {
  }

  /** One round of the poll. */
  lemma PollOnce(sys: Sys, t: Task, n: nat)
    ensures Poll(sys, t, n) ==
            if n >= |t.script.polls| then Out(sys, Fail(t, Undecided))
            else
              match t.script.polls[n]
              case CtxDone => Out(Cancelled(sys, t), Fail(t, ContextDone))
              case StatusErr => Poll(Polled(sys, t, None), t, n + 1)
              case Observed(phase, write) =>
                var sys' := StoredPhase(Polled(sys, t, Some(phase)), t, phase, write);
                if IsTerminalPhase(phase) then Out(sys', PhaseVerdict(t, phase)) else Poll(sys', t, n + 1)
  {
  }

  /** One round in which both receive the same event, and after which both go on alike. */
  lemma RoundAlike(a: Sys, b: Sys, t: Task, u: Task, n: nat, m: nat)
    requires AlikeButPolls(a, b, t.inv.key) && u == t.(script := t.script.(polls := u.script.polls))
    requires n < |t.script.polls| && m < |u.script.polls| && t.script.polls[n] == u.script.polls[m]
    requires forall x, y :: AlikeButPolls(x, y, t.inv.key) ==> OutAlike(Poll(x, t, n + 1), Poll(y, u, m + 1), t.inv.key)
    ensures OutAlike(Poll(a, t, n), Poll(b, u, m), t.inv.key)
  {
    hide Poll, AlikeButPolls, StoredPhase, Polled, Cancelled;
    PollOnce(a, t, n);
    PollOnce(b, u, m);
    match t.script.polls[n]
    case CtxDone => CancelledAlike(a, b, t); SameActions(b, t, u, None);
    case StatusErr => PolledAlike(a, b, t, None); SameActions(b, t, u, None);
    case Observed(phase, write) =>
      PolledAlike(a, b, t, Some(phase));
      SameActions(b, t, u, Some(phase));
      StoredAlike(Polled(a, t, Some(phase)), Polled(b, t, Some(phase)), t, u, phase, write);
  }

  lemma SameActions(sys: Sys, t: Task, u: Task, seen: Option<Status>)
    requires u.inv == t.inv
    ensures Polled(sys, u, seen) == Polled(sys, t, seen) && Cancelled(sys, u) == Cancelled(sys, t)
  {
  }

  /** Beyond the failed call, one round behind. */
  lemma {:induction false} PollBehind(a: Sys, b: Sys, t: Task, front: seq<PollEvent>, back: seq<PollEvent>, n: nat)
    requires t.script.polls == front + back && |front| <= n && AlikeButPolls(a, b, t.inv.key)
    ensures OutAlike(Poll(a, t, n), Poll(b, WithFailure(t, front, back), n + 1), t.inv.key)
    decreases |t.script.polls| - n
  {
    hide Poll, AlikeButPolls, StoredPhase, Polled, Cancelled;
    var u := WithFailure(t, front, back);
    if n < |t.script.polls| {
      assert u.script.polls[n + 1] == t.script.polls[n];
      forall x, y | AlikeButPolls(x, y, t.inv.key) ensures OutAlike(Poll(x, t, n + 1), Poll(y, u, n + 2), t.inv.key) {
        PollBehind(x, y, t, front, back, n + 1);
      }
      RoundAlike(a, b, t, u, n, n + 1);
    } else {
      PollOnce(a, t, n);
      PollOnce(b, u, n + 1);
    }
  }

  /** Up to the failed call, in step. */
  lemma {:induction false} PollAhead(a: Sys, b: Sys, t: Task, front: seq<PollEvent>, back: seq<PollEvent>, n: nat)
    requires t.script.polls == front + back && n <= |front| && AlikeButPolls(a, b, t.inv.key)
    ensures OutAlike(Poll(a, t, n), Poll(b, WithFailure(t, front, back), n), t.inv.key)
    decreases |front| - n
  {
    hide Poll, AlikeButPolls, StoredPhase, Polled, Cancelled;
    var u := WithFailure(t, front, back);
    if n == |front| {
      assert u.script.polls[n] == StatusErr;
      FailureAlike(a, b, t);
      PollOnce(b, u, n);
      SameActions(b, t, u, None);
      PollBehind(a, Polled(b, t, None), t, front, back, n);
    } else {
      assert u.script.polls[n] == t.script.polls[n];
      forall x, y | AlikeButPolls(x, y, t.inv.key) ensures OutAlike(Poll(x, t, n + 1), Poll(y, u, n + 1), t.inv.key) {
        PollAhead(x, y, t, front, back, n + 1);
      }
      RoundAlike(a, b, t, u, n, n);
    }
  }

  lemma ExecuteAlike(sys: Sys, t: Task, front: seq<PollEvent>, back: seq<PollEvent>)
    requires t.script.polls == front + back
    ensures OutAlike(ExecuteAndPoll(sys, t), ExecuteAndPoll(sys, WithFailure(t, front, back)), t.inv.key)
  {
    hide Poll;
    if t.script.submit.Some? {
      var a := Submitted(sys, t, t.script.submit.value);
      var w := RecordExec(a, t, t.script.submit.value);
      if w.ok { PollAhead(a.(execs := w.rows), a.(execs := w.rows), t, front, back, 0); }
    }
  }

  /**
   A failed status call leaves no trace in a step's life: the step ends in the same error and leaves the same rows
   in every table; only the number of status calls in the executor's book differs.
   */
  lemma FailedStatusCallsLeaveNoTrace(sys: Sys, t: Task, front: seq<PollEvent>, back: seq<PollEvent>)
    requires t.script.polls == front + back
    ensures OutAlike(RunStep(sys, t), RunStep(sys, WithFailure(t, front, back)), t.inv.key)
  {
    hide ExecuteAndPoll;
    var w := CreateStep(sys, t);
    if w.ok {
      var a := sys.(steps := w.rows);
      var v := StartStep(a, t);
      if v.ok { ExecuteAlike(a.(steps := v.rows), t, front, back); }
    }
  }
}
