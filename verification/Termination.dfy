/**
 Runs end. Every action of the orchestrator or of a step brings the run nearer to its end, and from every
 reachable state some continuation ends it, provided no executor leaves a step polling for ever.
 */
module Termination {
  import opened Wrappers
  import opened States
  import opened Rows
  import opened Config
  import opened Executor
  import opened Steps
  import opened Pipeline
  import opened Interleaving
  import opened Reference
  import opened Engine
  import opened Shape
  import opened StepRows
  import opened Tables
  import opened Invariant
  import opened StepRunner
  import opened Goroutines
  import Safety

  // ---------- A measure ----------

  /** How far a run is from its end: stages, steps of the stage, outputs or goroutines to start, and step actions. */
  datatype Measure = Measure(stages: nat, steps: nat, parts: nat, fuel: nat)

  predicate Less(a: Measure, b: Measure) {
    || a.stages < b.stages
    || (a.stages == b.stages && a.steps < b.steps)
    || (a.stages == b.stages && a.steps == b.steps && a.parts < b.parts)
    || (a.stages == b.stages && a.steps == b.steps && a.parts == b.parts && a.fuel < b.fuel)
  }

  function Nat(x: int): nat { if x < 0 then 0 else x }

  function StagesLeft(c: Ctl): nat {
    match c
    case Starting => 15
    case Considering(st) => 4 * (2 - StageRank(st)) + 6
    case JobCreated(st) => 4 * (2 - StageRank(st)) + 5
    case AtStep(st, _) => 4 * (2 - StageRank(st)) + 4
    case Inline(st, _) => 4 * (2 - StageRank(st)) + 4
    case Spawning(_, _) => 8
    case Joining(_, _) => 8
    case Registering(_, _) => 12
    case JobFinal(st, _) => 4 * (2 - StageRank(st)) + 3
    case Choosing(_) => 2
    case RunFinalWrite(_, _) => 1
    case Halted(_) => 0
  }

  function StepsLeft(w: World, c: Ctl): nat {
    match c
    case AtStep(st, i) => Nat(3 * (Planned(w, st) - i) + 2)
    case Inline(st, i) => Nat(3 * (Planned(w, st) - i) + 1)
    case Spawning(i, _) => Nat(3 * (Planned(w, Test) - i) + 1)
    case Joining(i, _) => Nat(3 * (Planned(w, Test) - i))
    case Registering(i, _) => Nat(3 * (Planned(w, Build) - i))
    case _ => 0
  }

  function PartsLeft(w: World, s: State): nat {
    match s.ctl
    case Spawning(i, hi) => Nat(hi - i - (|s.threads| - s.base))
    case Registering(i, j) => if i < |BuildSteps(w)| then Nat(|BuildSteps(w)[i].outputs| - j) else 0
    case _ => 0
  }

  function Remaining(w: World, s: State): Measure {
    Measure(StagesLeft(s.ctl), StepsLeft(w, s.ctl), PartsLeft(w, s), TotalFuel(s.threads))
  }

  // ---------- Every action counts ----------

  /** The orchestrator's actions come nearer to the end whatever becomes of the last component. */
  predicate CtlLess(w: World, a: State, b: State) {
    || StagesLeft(a.ctl) < StagesLeft(b.ctl)
    || (StagesLeft(a.ctl) == StagesLeft(b.ctl) && StepsLeft(w, a.ctl) < StepsLeft(w, b.ctl))
    || (StagesLeft(a.ctl) == StagesLeft(b.ctl) && StepsLeft(w, a.ctl) == StepsLeft(w, b.ctl) && PartsLeft(w, a) < PartsLeft(w, b))
  }

  lemma InlineCounts(w: World, s: State, st: Stage, i: nat)
    requires Placed(w, s.ctl) && MainEnabled(s) && s.ctl == Inline(st, i)
    ensures CtlLess(w, CallReturns(s, st, i), s)
  {
  }

  lemma SpawnCounts(w: World, s: State, i: nat, hi: nat)
    requires Placed(w, s.ctl) && MainEnabled(s) && s.ctl == Spawning(i, hi)
    ensures CtlLess(w, Spawn(w, s, i, hi), s)
  {
    hide TestTask;
  }

  lemma ReleaseCounts(w: World, s: State, i: nat, hi: nat)
    requires Placed(w, s.ctl) && s.ctl == Joining(i, hi)
    ensures CtlLess(w, Release(s, hi), s)
  {
  }

  lemma RegisterCounts(w: World, s: State, i: nat, j: nat)
    requires Placed(w, s.ctl) && s.ctl == Registering(i, j)
    ensures CtlLess(w, Register(w, s, i, j), s)
  {
    hide RegisterOne;
  }

  lemma BodyCounts(w: World, s: State)
    requires Placed(w, s.ctl) && MainEnabled(s)
    requires s.ctl.Inline? || s.ctl.Spawning? || s.ctl.Joining? || s.ctl.Registering?
    ensures CtlLess(w, MainStep(w, s), s)
  {
    hide CtlLess, Spawn, Register, Release, CallReturns;
    match s.ctl
    case Inline(st, i) => InlineCounts(w, s, st, i);
    case Spawning(i, hi) => SpawnCounts(w, s, i, hi);
    case Joining(i, hi) => ReleaseCounts(w, s, i, hi);
    case Registering(i, j) => RegisterCounts(w, s, i, j);
  }

  lemma TopCounts(w: World, s: State, st: Stage, i: nat)
    requires Placed(w, s.ctl) && s.ctl == AtStep(st, i)
    ensures CtlLess(w, StepTop(w, s, st, i), s)
  {
    match st
    case Build =>
    case Test =>
    case Deploy =>
  }

  lemma RowWritesCount(w: World, s: State)
    requires Placed(w, s.ctl) && MainEnabled(s)
    requires !s.ctl.AtStep? && !s.ctl.Inline? && !s.ctl.Spawning? && !s.ctl.Joining? && !s.ctl.Registering?
    ensures CtlLess(w, MainStep(w, s), s)
  {
    hide UpdateStatus, Insert;
    match s.ctl
    case Starting =>
    case Considering(st) =>
    case JobCreated(st) =>
    case JobFinal(st, err) =>
    case Choosing(err) =>
    case RunFinalWrite(err, _) =>
  }

  lemma MainCounts(w: World, s: State)
    requires Placed(w, s.ctl) && MainEnabled(s)
    ensures Less(Remaining(w, MainStep(w, s)), Remaining(w, s))
  {
    if s.ctl.AtStep? { TopCounts(w, s, s.ctl.stage, s.ctl.i); }
    else if s.ctl.Inline? || s.ctl.Spawning? || s.ctl.Joining? || s.ctl.Registering? { BodyCounts(w, s); }
    else { RowWritesCount(w, s); }
  }

  /** A thread of a reachable state is on course. */
  lemma ThreadOnCourse(w: World, s: State, k: nat)
    requires Layout(w, s) && StepTables(w, s) && AllEnd(w) && k < |s.threads|
    ensures OnCourse(s.threads[k])
  {
    assert Path(s.threads[k]);
  }

  lemma GoCounts(w: World, s: State, k: nat)
    requires Layout(w, s) && StepTables(w, s) && AllEnd(w) && GoEnabled(s, k)
    ensures Less(Remaining(w, GoStep(s, k)), Remaining(w, s))
  {
    hide Fuel;
    GoKeeps(w, s, k);
    ThreadOnCourse(w, s, k);
    GoBurns(s, k);
    TotalFuelUpdate(s.threads, k, GoStep(s, k).threads[k]);
  }

  lemma GoBurns(s: State, k: nat)
    requires GoEnabled(s, k) && OnCourse(s.threads[k])
    ensures |GoStep(s, k).threads| == |s.threads| && Fuel(GoStep(s, k).threads[k]) < Fuel(s.threads[k])
  {
    hide Move;
    if !Returned(s.threads[k]) { MoveBurns(s.sys, s.threads[k]); }
  }

  /** Every action that is taken, save a cancellation, brings the run nearer to its end: no run goes on for ever. */
  lemma EveryActionCounts(w: World, sys0: Sys, schedule: seq<Action>, a: Action)
    requires FreshIds(w, sys0) && AllEnd(w)
    requires a != CancelCtx && Enabled(w, After(w, sys0, schedule), a)
    ensures Less(Remaining(w, After(w, sys0, schedule + [a])), Remaining(w, After(w, sys0, schedule)))
  {
    var s := After(w, sys0, schedule);
    Always(w, sys0, schedule);
    AfterOne(w, sys0, schedule, a);
    match a
    case Main => MainCounts(w, s);
    case Go(k) => GoCounts(w, s, k);
  }

  lemma AfterOne(w: World, sys0: Sys, schedule: seq<Action>, a: Action)
    ensures After(w, sys0, schedule + [a]) == Next(w, After(w, sys0, schedule), a)
  {
    var longer := schedule + [a];
    assert longer[..|longer| - 1] == schedule;
  }

  // ---------- Every run can end ----------

  /** A run that has not halted has an action to take; if that is a cancellation, it is the first one. */
  lemma SomethingToDo(w: World, sys0: Sys, s: State) returns (a: Action)
    requires Inv(w, sys0, s) && AllEnd(w) && !s.ctl.Halted?
    ensures Enabled(w, s, a) && (a == CancelCtx ==> !s.cancelled)
  {
    if Enabled(w, s, Main) {
      a := Main;
    } else {
      Safety.ShapeGoesOn(w, s);
      var k: nat :| Safety.ActsOrWaits(s, k);
      ThreadOnCourse(w, s, k);
      NeverStarved(s.threads[k]);
      a := if GoEnabled(s, k) then Go(k) else CancelCtx;
    }
  }

  lemma NeverStarved(th: Thread)
    requires OnCourse(th)
    ensures !Starved(th)
  {
  }

  lemma CancelCounts(w: World, sys0: Sys, schedule: seq<Action>)
    ensures var s' := After(w, sys0, schedule + [CancelCtx]);
            s'.cancelled && Remaining(w, s') == Remaining(w, After(w, sys0, schedule))
  {
    AfterOne(w, sys0, schedule, CancelCtx);
  }

  /** Whatever has happened so far, the run can still be brought to its end. */
  lemma {:induction false} EveryRunCanHalt(w: World, sys0: Sys, schedule: seq<Action>) returns (more: seq<Action>)
    requires FreshIds(w, sys0) && AllEnd(w)
    ensures After(w, sys0, schedule + more).ctl.Halted?
    decreases Remaining(w, After(w, sys0, schedule)).stages, Remaining(w, After(w, sys0, schedule)).steps,
              Remaining(w, After(w, sys0, schedule)).parts, Remaining(w, After(w, sys0, schedule)).fuel,
              if After(w, sys0, schedule).cancelled then 0 else 1
  {
    hide Remaining, After, Inv, Enabled;
    var s := After(w, sys0, schedule);
    if s.ctl.Halted? {
      more := [];
      assert schedule + more == schedule;
    } else {
      Always(w, sys0, schedule);
      var a := SomethingToDo(w, sys0, s);
      if a == CancelCtx { CancelCounts(w, sys0, schedule); } else { EveryActionCounts(w, sys0, schedule, a); }
      var rest := EveryRunCanHalt(w, sys0, schedule + [a]);
      more := [a] + rest;
      assert schedule + more == schedule + [a] + rest;
    }
  }
}
