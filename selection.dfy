/** The scan every threat assessment in the controller performs: walk the snapshot
    once, keep the entry with the smallest cost seen so far, and replace it only on
    a strictly smaller cost, so that the first entry wins on ties. Entries that do
    not qualify have no cost. */
module Selection {
  import opened Common

  type Costs = seq<Option<real>>

  /** `choice` is the first entry of least cost, or None when nothing qualifies. */
  ghost predicate IsFirstMin(costs: Costs, choice: Option<nat>) {
    match choice
    case None => forall k :: 0 <= k < |costs| ==> costs[k].None?
    case Some(m) =>
      && m < |costs| && costs[m].Some?
      && (forall k :: 0 <= k < m && costs[k].Some? ==> costs[k].value > costs[m].value)
      && (forall k :: m < k < |costs| && costs[k].Some? ==> costs[k].value >= costs[m].value)
  }

  /** One step of the scan: entry i replaces the current choice when it qualifies
      and its cost is strictly below the current choice's. */
  function Consider(costs: Costs, i: nat, best: Option<nat>): Option<nat>
    requires i < |costs|
    requires best.Some? ==> best.value < |costs| && costs[best.value].Some?
  {
    if costs[i].Some? && (best.None? || costs[i].value < costs[best.value].value) then Some(i)
    else best
  }

  /** The scan from entry i onwards, starting from choice `best`. */
  function MinFrom(costs: Costs, i: nat, best: Option<nat>): Option<nat>
    requires i <= |costs|
    requires best.Some? ==> best.value < i && costs[best.value].Some?
    decreases |costs| - i
  {
    if i == |costs| then best
    else MinFrom(costs, i + 1, Consider(costs, i, best))
  }

  /** The whole scan. */
  function FirstMin(costs: Costs): Option<nat> {
    MinFrom(costs, 0, None)
  }

  /** The scan finds the first entry of least cost. */
  lemma {:induction false} FirstMinIsFirstMin(costs: Costs)
    ensures IsFirstMin(costs, FirstMin(costs))
  {
    MinFromIsFirstMin(costs, 0, None);
  }

  lemma {:induction false} MinFromIsFirstMin(costs: Costs, i: nat, best: Option<nat>)
    requires i <= |costs|
    requires best.Some? ==> best.value < i && costs[best.value].Some?
    requires IsFirstMin(costs[..i], best)
    ensures IsFirstMin(costs, MinFrom(costs, i, best))
    decreases |costs| - i
  {
    if i == |costs| {
      assert costs[..i] == costs;
    } else {
      var next := Consider(costs, i, best);
      assert costs[..i + 1][..i] == costs[..i];
      MinFromIsFirstMin(costs, i + 1, next);
    }
  }

  /** At most one choice answers the description, so the scan is determined by it. */
  lemma IsFirstMinUnique(costs: Costs, a: Option<nat>, b: Option<nat>)
    requires IsFirstMin(costs, a) && IsFirstMin(costs, b)
    ensures a == b
  {
    if a.Some? && b.Some? {
      var m, n := a.value, b.value;
      assert costs[m].Some? && costs[n].Some?;
      assert !(m < n) && !(n < m);
    }
  }

  /** Every qualifying entry costs at least as much as the choice, which is how the
      scan is usually described. */
  lemma FirstMinIsLeast(costs: Costs, k: nat)
    requires k < |costs| && costs[k].Some?
    ensures FirstMin(costs).Some?
    ensures FirstMin(costs).value < |costs| && costs[FirstMin(costs).value].Some?
    ensures costs[FirstMin(costs).value].value <= costs[k].value
  {
    FirstMinIsFirstMin(costs);
  }
}
