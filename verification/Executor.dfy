/** The executor contract: what is submitted, and which phases end an execution. */
module Executor {
  import opened Wrappers
  import opened States
  import opened Rows

  datatype ArtifactSpec = ArtifactSpec(kind: string, path: string)

  datatype ExecutionSpec = ExecutionSpec(image: string, command: seq<string>, env: map<string, string>,
                                         artifacts: seq<ArtifactSpec>)

  datatype ExecutionStatus = ExecutionStatus(phase: Status, startedAt: Option<Time>, finishedAt: Option<Time>)

  /** A phase is any text; these three are the terminal ones. */
  predicate IsTerminalPhase(phase: Status) { phase in [Succeeded, Failed, Canceled] }

  /** What one round of the poll loop's select and status call meets. */
  datatype PollEvent =
    | CtxDone                                   // the context's Done channel was taken
    | StatusErr                                 // the tick was taken and Status failed
    | Observed(phase: Status, write: Answer)    // Status answered; `write` answers the row update that follows

  predicate Decisive(e: PollEvent) { e.CtxDone? || (e.Observed? && IsTerminalPhase(e.phase)) }

  predicate Decided(events: seq<PollEvent>) { exists i :: 0 <= i < |events| && Decisive(events[i]) }

  /** Index of the first decisive event at or after `n`; |events| when there is none. */
  function FirstDecisive(events: seq<PollEvent>, n: nat): (d: nat)
    requires n <= |events|
    ensures n <= d <= |events|
    ensures forall i :: n <= i < d ==> !Decisive(events[i])
    ensures d < |events| ==> Decisive(events[d])
    decreases |events| - n
  {
    if n == |events| || Decisive(events[n]) then n else FirstDecisive(events, n + 1)
  }

  /** The decisive event itself, or None when the poll never ends. */
  function Decision(events: seq<PollEvent>): Option<PollEvent> {
    var d := FirstDecisive(events, 0);
    if d < |events| then Some(events[d]) else None
  }

  /** A poll succeeds when the event that ends it is the observation of `succeeded`. */
  predicate PollSucceeds(events: seq<PollEvent>) {
    var d := Decision(events);
    d.Some? && d.value.Observed? && d.value.phase == Succeeded
  }

  /**
   What ends a poll, in full: event d does iff it is the context's end or the observation of `succeeded`, `failed`
   or `canceled`, and no event before it is one of these.
   */
  lemma PollEndsAt(events: seq<PollEvent>, d: nat)
    ensures d < |events| && FirstDecisive(events, 0) == d <==>
              && d < |events|
              && (events[d] == CtxDone || (events[d].Observed? &&
                    (events[d].phase == Succeeded || events[d].phase == Failed || events[d].phase == Canceled)))
              && forall i :: 0 <= i < d ==>
                   events[i] == StatusErr || (events[i].Observed? &&
                     events[i].phase != Succeeded && events[i].phase != Failed && events[i].phase != Canceled)
  {
    if d < |events| && Decisive(events[d]) && forall i :: 0 <= i < d ==> !Decisive(events[i]) { FirstDecisiveUnique(events, d); }
  }

  lemma FirstDecisiveUnique(events: seq<PollEvent>, d: nat)
    requires d <= |events|
    requires forall i :: 0 <= i < d ==> !Decisive(events[i])
    requires d < |events| ==> Decisive(events[d])
    ensures FirstDecisive(events, 0) == d
  {
  }

  /** Status calls that fail decide nothing: inserting one anywhere leaves the decision as it is. */
  lemma FailedStatusCallsDoNotMatter(front: seq<PollEvent>, back: seq<PollEvent>)
    ensures Decision(front + [StatusErr] + back) == Decision(front + back)
  {
    var without, with := front + back, front + [StatusErr] + back;
    var d := FirstDecisive(without, 0);
    if d < |front| {
      forall i | 0 <= i <= d ensures with[i] == without[i] {}
      FirstDecisiveUnique(with, d);
    } else {
      forall i | 0 <= i < d + 1 ensures !Decisive(with[i]) {
        if i < |front| { assert with[i] == without[i]; }
        else if i > |front| { assert with[i] == without[i - 1]; }
      }
      if d < |without| { assert with[d + 1] == without[d]; }
      FirstDecisiveUnique(with, d + 1);
    }
  }
}
