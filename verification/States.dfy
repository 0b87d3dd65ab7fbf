/** State values persisted in the database, and the two transition tables that govern them. */
module States {
  import opened Wrappers

  /** The persisted state literals, one constructor each; `Other` is any text that is none of them. */
  datatype Status = Pending | Running | Success | Failed | Canceled | Succeeded | Other(text: string)

  const BLANK := Other("")

  /** Successor lists of the pipeline-run table; None when the state has no entry at all. */
  function RunTargets(s: Status): Option<seq<Status>> {
    match s
    case Pending => Some([Running, Failed, Canceled])
    case Running => Some([Success, Failed, Canceled])
    case Success => Some([])
    case Failed => Some([])
    case Canceled => Some([])
    case _ => None
  }

  /** Successor lists of the stage table, which jobs and steps share. */
  function StageTargets(s: Status): Option<seq<Status>> {
    match s
    case Pending => Some([Running])
    case Running => Some([Succeeded, Failed])
    case Succeeded => Some([])
    case Failed => Some([])
    case _ => None
  }

  /** ValidateTransition, for either table: staying put is always allowed. */
  predicate Validate(targets: Option<seq<Status>>, current: Status, target: Status) {
    current == target || (targets.Some? && target in targets.value)
  }

  predicate ValidateRun(current: Status, target: Status) { Validate(RunTargets(current), current, target) }

  predicate ValidateStage(current: Status, target: Status) { Validate(StageTargets(current), current, target) }

  predicate IsTerminalRun(s: Status) { s in [Success, Failed, Canceled] }

  predicate IsTerminalStage(s: Status) { s in [Succeeded, Failed] }

  /** Depth of a state on the way from pending to a terminal state. */
  function Depth(s: Status): nat {
    match s
    case Pending => 0
    case Running => 1
    case _ => 2
  }

  /** A terminal state is exactly a table entry with no way out, and every move goes strictly deeper. */
  lemma RunTableShape(s: Status, t: Status)
    ensures ValidateRun(s, t) <==>
              || s == t || (s == Pending && (t == Running || t == Failed || t == Canceled))
              || (s == Running && (t == Success || t == Failed || t == Canceled))
    ensures IsTerminalRun(s) <==> RunTargets(s) == Some([])
    ensures ValidateRun(s, t) && s != t ==> Depth(s) < Depth(t) && !IsTerminalRun(s)
  {
  }

  lemma StageTableShape(s: Status, t: Status)
    ensures ValidateStage(s, t) <==>
              s == t || (s == Pending && t == Running) || (s == Running && (t == Succeeded || t == Failed))
    ensures IsTerminalStage(s) <==> StageTargets(s) == Some([])
    ensures ValidateStage(s, t) && s != t ==> Depth(s) < Depth(t) && !IsTerminalStage(s)
  {
  }

  /** A history of distinct successive states that a table accepts at every step. */
  predicate Walk(validate: (Status, Status) -> bool, h: seq<Status>) {
    forall i :: 0 < i < |h| ==> h[i - 1] != h[i] && validate(h[i - 1], h[i])
  }
}
