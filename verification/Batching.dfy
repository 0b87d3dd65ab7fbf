/** How a list of test steps splits into numbered sequential steps and maximal batches of parallel ones. */
module Batching {
  import opened Wrappers
  import opened Config
  import Decimal

  /** All steps from i up to and excluding j are parallel. */
  predicate AllParallel(steps: seq<TestStep>, i: nat, j: nat) {
    j <= |steps| && forall k :: i <= k < j ==> steps[k].parallel
  }

  /** One past the last step of the maximal parallel stretch that begins at i. */
  function BatchEnd(steps: seq<TestStep>, i: nat): (hi: nat)
    requires i <= |steps|
    ensures i <= hi && AllParallel(steps, i, hi)
    ensures hi < |steps| ==> !steps[hi].parallel
    decreases |steps| - i
  {
    if i < |steps| && steps[i].parallel then BatchEnd(steps, i + 1) else i
  }

  /** First step of the maximal parallel stretch that ends at i. */
  function BatchStart(steps: seq<TestStep>, i: nat): (lo: nat)
    requires i < |steps| && steps[i].parallel
    ensures lo <= i && AllParallel(steps, lo, i + 1)
    ensures lo > 0 ==> !steps[lo - 1].parallel
  {
    if i > 0 && steps[i - 1].parallel then BatchStart(steps, i - 1) else i
  }

  function GroupName(order: nat): string { "parallel-" + Decimal.Print(order) }

  /** The group step i belongs to, read off the list alone. */
  function GroupOf(steps: seq<TestStep>, i: nat): Option<string>
    requires i < |steps|
  {
    if steps[i].parallel then Some(GroupName(BatchStart(steps, i))) else None
  }

  lemma GroupNameInjective(m: nat, n: nat)
    requires GroupName(m) == GroupName(n)
    ensures m == n
  {
    var prefix := "parallel-";
    assert GroupName(m)[|prefix|..] == Decimal.Print(m);
    assert GroupName(n)[|prefix|..] == Decimal.Print(n);
    Decimal.PrintInjective(m, n);
  }

  /** All steps of one stretch have the same beginning. */
  lemma SameStart(steps: seq<TestStep>, i: nat, j: nat)
    requires i <= j < |steps| && AllParallel(steps, i, j + 1)
    ensures BatchStart(steps, i) == BatchStart(steps, j)
    decreases j - i
  {
    if i < j { SameStart(steps, i, j - 1); }
  }

  /** Two steps share a group exactly when everything between them, ends included, is parallel. */
  lemma GroupsAreParallelStretches(steps: seq<TestStep>, i: nat, j: nat)
    requires i <= j < |steps|
    ensures GroupOf(steps, i).Some? && GroupOf(steps, i) == GroupOf(steps, j) <==> AllParallel(steps, i, j + 1)
  {
    if AllParallel(steps, i, j + 1) {
      SameStart(steps, i, j);
    } else if GroupOf(steps, i).Some? && GroupOf(steps, i) == GroupOf(steps, j) {
      GroupNameInjective(BatchStart(steps, i), BatchStart(steps, j));
    }
  }

  /** A batch that the loop collects from the top of its own stretch is one whole group. */
  lemma BatchIsGroup(steps: seq<TestStep>, i: nat, k: nat)
    requires i < |steps| && steps[i].parallel && (i > 0 ==> !steps[i - 1].parallel)
    requires i <= k < BatchEnd(steps, i)
    ensures GroupOf(steps, k) == Some(GroupName(i))
  {
    SameStart(steps, i, k);
  }
}
