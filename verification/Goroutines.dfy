/** A batch of goroutines on its way: what each relies on to end, how far it is from its end, and the error list. */
module Goroutines {
  import opened Wrappers
  import opened States
  import opened Rows
  import opened Executor
  import opened Steps
  import opened Interleaving
  import opened Shape
  import opened StepRows
  import opened StepRunner

  /** The step's poll will end, its answers were good so far, and an error it ends in is its own. */
  predicate OnCourse(th: Thread) {
    && Ends(th.task.script) && GoodSoFar(th)
    && (th.pc.AtFinal? || Returned(th) ==>
          th.pc.err.Some? ==> th.pc.err.value.StepError? && th.pc.err.value.key == th.task.inv.key)
  }

  /** An upper bound on the actions a goroutine has left. */
  function Fuel(th: Thread): nat {
    var rounds := |th.task.script.polls|;
    match th.pc
    case AtCreate => 2 * rounds + 7
    case AtStart => 2 * rounds + 6
    case AtSubmit => 2 * rounds + 5
    case AtRecord => 2 * rounds + 4
    case AtPoll(n) => if n < rounds then 2 * (rounds - n) + 3 else 3
    case AtStore(n) => if n < rounds then 2 * (rounds - n) + 2 else 4
    case AtFinal(_) => 3
    case AtReturn(_) => 2
    case Logged(_) => 1
    case Done(_) => 0
  }

  /** Every action of a step brings it nearer to its end. */
  lemma MoveBurns(sys: Sys, th: Thread)
    requires OnCourse(th) && !Returned(th)
    ensures var th' := th.(pc := Move(sys, th).1); OnCourse(th') && Fuel(th') < Fuel(th) && !PastLock(th')
  {
    match th.pc
    case AtPoll(n) => PollBurns(sys, th, n);
    case AtStore(n) =>
    case AtCreate =>
    case AtStart =>
    case AtSubmit =>
    case AtRecord =>
    case AtFinal(_) =>
  }

  lemma PollBurns(sys: Sys, th: Thread, n: nat)
    requires OnCourse(th) && th.pc == AtPoll(n)
    ensures var th' := th.(pc := PollMove(sys, th.task, n).1); OnCourse(th') && Fuel(th') < Fuel(th)
  {
    assert n < |th.task.script.polls|;
  }

  function TotalFuel(ts: seq<Thread>): nat { if ts == [] then 0 else TotalFuel(ts[..|ts| - 1]) + Fuel(ts[|ts| - 1]) }

  lemma {:induction false} TotalFuelUpdate(ts: seq<Thread>, k: nat, th: Thread)
    requires k < |ts|
    ensures TotalFuel(ts[k := th]) == TotalFuel(ts) - Fuel(ts[k]) + Fuel(th)
  {
    var us := ts[k := th];
    if k == |ts| - 1 {
      assert us[..|us| - 1] == ts[..|ts| - 1];
    } else {
      TotalFuelUpdate(ts[..|ts| - 1], k, th);
      assert us[..|us| - 1] == ts[..|ts| - 1][k := th];
    }
  }
}
