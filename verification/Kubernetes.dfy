/** Translation of a Kubernetes Job object into an execution status, and what it makes of a poll. */
module Kubernetes {
  import opened Wrappers
  import opened States
  import opened Rows
  import opened Executor

  datatype ConditionType = Complete | JobFailed | OtherCondition(text: string)
  datatype ConditionStatus = True | False | Unknown
  datatype Condition = Condition(kind: ConditionType, status: ConditionStatus)
  datatype K8sJob = K8sJob(active: int, startTime: Option<Time>, completionTime: Option<Time>, conditions: seq<Condition>)

  /** The condition types that end a Job. */
  predicate Ends(c: Condition) { c.status == True && (c.kind == Complete || c.kind == JobFailed) }

  function PhaseOf(c: Condition): Status { if c.kind == Complete then Succeeded else Failed }

  /** Condition `k` is the first of the list that ends the Job. */
  predicate FirstEnding(cs: seq<Condition>, k: nat) {
    k < |cs| && Ends(cs[k]) && forall i :: 0 <= i < k ==> !Ends(cs[i])
  }

  /** Index of the first condition that ends the Job, or |cs|. */
  function EndingIndex(cs: seq<Condition>): (k: nat)
    ensures k <= |cs|
    ensures k < |cs| ==> FirstEnding(cs, k)
    ensures k == |cs| ==> forall i :: 0 <= i < |cs| ==> !Ends(cs[i])
  {
    if cs == [] then 0 else if Ends(cs[0]) then 0 else 1 + EndingIndex(cs[1..])
  }

  function StatusOf(job: K8sJob): ExecutionStatus {
    var k := EndingIndex(job.conditions);
    if job.active > 0 then ExecutionStatus(Running, job.startTime, None)
    else if k < |job.conditions| then ExecutionStatus(PhaseOf(job.conditions[k]), job.startTime, job.completionTime)
    else ExecutionStatus(Pending, job.startTime, None)
  }

  method JobToStatus(job: K8sJob) returns (status: ExecutionStatus)
    ensures status == StatusOf(job)
    ensures status.startedAt == job.startTime
    ensures status.finishedAt == if status.phase == Succeeded || status.phase == Failed then job.completionTime else None
    ensures job.active > 0 ==> status.phase == Running
    ensures job.active <= 0 ==>
      || (status.phase == Pending && forall i :: 0 <= i < |job.conditions| ==> !Ends(job.conditions[i]))
      || exists k: nat :: FirstEnding(job.conditions, k) && status.phase == PhaseOf(job.conditions[k])
  {
    status := ExecutionStatus(Pending, None, None);
    if job.startTime.Some? {
      status := status.(startedAt := job.startTime);
    }
    if job.active > 0 {
      status := status.(phase := Running);
      return;
    }
    for i := 0 to |job.conditions|
      invariant status == ExecutionStatus(Pending, job.startTime, None)
      invariant forall j :: 0 <= j < i ==> !Ends(job.conditions[j])
    {
      var cond := job.conditions[i];
      if cond.kind == Complete && cond.status == True {
        assert FirstEnding(job.conditions, i);
        status := status.(phase := Succeeded);
        if job.completionTime.Some? {
          status := status.(finishedAt := job.completionTime);
        }
        return;
      }
      if cond.kind == JobFailed && cond.status == True {
        assert FirstEnding(job.conditions, i);
        status := status.(phase := Failed);
        if job.completionTime.Some? {
          status := status.(finishedAt := job.completionTime);
        }
        return;
      }
    }
  }

  /** One answer of the API server to a status request. */
  datatype Fetch = Unreachable | Fetched(job: K8sJob, write: Answer)

  /** What the poll loop sees of that answer. */
  function Event(f: Fetch): PollEvent {
    match f
    case Unreachable => StatusErr
    case Fetched(job, write) => Observed(StatusOf(job).phase, write)
  }

  function Events(fs: seq<Fetch>): seq<PollEvent> { seq(|fs|, i requires 0 <= i < |fs| => Event(fs[i])) }

  /** A Job that was fetched, runs no pod, and carries a condition that ends it. */
  predicate Settled(f: Fetch) {
    f.Fetched? && f.job.active <= 0 && exists k :: 0 <= k < |f.job.conditions| && Ends(f.job.conditions[k])
  }

  /** The first settled fetch of the list is number `i`, and its first ending condition is Complete. */
  ghost predicate CompletesFirst(fs: seq<Fetch>, i: nat) {
    && i < |fs| && Settled(fs[i]) && (forall j :: 0 <= j < i ==> !Settled(fs[j]))
    && exists k: nat :: FirstEnding(fs[i].job.conditions, k) && fs[i].job.conditions[k].kind == Complete
  }

  lemma SettledIsDecisive(f: Fetch)
    ensures Settled(f) <==> Decisive(Event(f))
  {
  }

  /** A poll over fetched Jobs succeeds iff the first settled Job has Complete before any true JobFailed. */
  lemma PollOverKubernetes(fs: seq<Fetch>)
    ensures PollSucceeds(Events(fs)) <==> exists i: nat :: CompletesFirst(fs, i)
  {
    forall f | f in fs ensures Settled(f) <==> Decisive(Event(f)) { SettledIsDecisive(f); }
    var es := Events(fs);
    var d := FirstDecisive(es, 0);
    forall i: nat | CompletesFirst(fs, i) ensures i == d { FirstDecisiveUnique(es, i); }
    if d < |fs| {
      assert es[d] == Event(fs[d]);
      assert forall j :: 0 <= j < d ==> !Settled(fs[j]) by {
        forall j | 0 <= j < d ensures !Settled(fs[j]) { assert es[j] == Event(fs[j]); }
      }
      var cs := fs[d].job.conditions;
      assert FirstEnding(cs, EndingIndex(cs));
      assert forall k: nat :: FirstEnding(cs, k) ==> k == EndingIndex(cs);
      assert PollSucceeds(es) ==> CompletesFirst(fs, d);
    }
  }

  /** Some reordering of the Job's conditions reads differently. */
  ghost predicate OrderMatters(job: K8sJob) {
    exists cs: seq<Condition> ::
      multiset(cs) == multiset(job.conditions) && StatusOf(job.(conditions := cs)) != StatusOf(job)
  }

  lemma SameConditions(cs: seq<Condition>, ds: seq<Condition>, c: Condition)
    requires multiset(cs) == multiset(ds)
    ensures c in cs <==> c in ds
  {
    assert c in cs <==> c in multiset(cs);
    assert c in ds <==> c in multiset(ds);
  }

  /** A reordering of the conditions that puts a given ending one first. */
  lemma ToFront(job: K8sJob, c: Condition) returns (moved: seq<Condition>)
    requires job.active <= 0 && c in job.conditions && Ends(c)
    ensures multiset(moved) == multiset(job.conditions)
    ensures StatusOf(job.(conditions := moved)).phase == PhaseOf(c)
  {
    var cs := job.conditions;
    var i :| 0 <= i < |cs| && cs[i] == c;
    moved := [c] + (cs[..i] + cs[i + 1..]);
    assert cs == cs[..i] + [c] + cs[i + 1..];
  }

  /** The order of the conditions is read only on an idle Job that claims both endings at once. */
  lemma ConditionOrderMatters(job: K8sJob)
    ensures OrderMatters(job) <==>
      job.active <= 0 && Condition(Complete, True) in job.conditions && Condition(JobFailed, True) in job.conditions
  {
    var cs, done, failed := job.conditions, Condition(Complete, True), Condition(JobFailed, True);
    if job.active <= 0 && done in cs && failed in cs {
      var wanted := if StatusOf(job).phase == Succeeded then failed else done;
      var moved := ToFront(job, wanted);
      assert StatusOf(job.(conditions := moved)) != StatusOf(job);
    } else {
      forall ds: seq<Condition> | multiset(ds) == multiset(cs)
        ensures StatusOf(job.(conditions := ds)) == StatusOf(job)
      {
        OneEndingOnly(job, ds);
      }
    }
  }

  lemma OneEndingOnly(job: K8sJob, ds: seq<Condition>)
    requires multiset(ds) == multiset(job.conditions)
    requires job.active > 0 || Condition(Complete, True) !in job.conditions || Condition(JobFailed, True) !in job.conditions
    ensures StatusOf(job.(conditions := ds)) == StatusOf(job)
  {
    var k, m := EndingIndex(job.conditions), EndingIndex(ds);
    if k < |job.conditions| { SameConditions(ds, job.conditions, job.conditions[k]); }
    if m < |ds| { SameConditions(ds, job.conditions, ds[m]); SameConditions(ds, job.conditions, Condition(Complete, True)); }
    SameConditions(ds, job.conditions, Condition(JobFailed, True));
  }
}
