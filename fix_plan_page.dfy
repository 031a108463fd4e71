/**
 * The fix-plan page's expand/collapse state (client/src/pages/FixPlan.jsx): an object from
 * plan id to a flag, where a missing id counts as collapsed.
 */
module FixPlanPage {

  /** `expandedItems[id]` read for truthiness: an absent entry is falsy. */
  predicate IsExpanded(expanded: map<int, bool>, id: int) {
    id in expanded && expanded[id]
  }

  /** Initially `expandedItems` is `{}`. */
  const InitialExpanded: map<int, bool> := map[]

  /** `toggleExpanded(id)`: a copy of the object with entry `id` set to the negation of its old value. */
  function ToggleExpanded(expanded: map<int, bool>, id: int): map<int, bool> {
    expanded[id := !IsExpanded(expanded, id)]
  }

  /** A plan's details are rendered exactly when its entry is truthy. */
  predicate DetailsShown(expanded: map<int, bool>, planId: int) {
    IsExpanded(expanded, planId)
  }

  /** No plan starts expanded. */
  lemma NothingExpandedInitially(id: int)
    ensures !DetailsShown(InitialExpanded, id)
  {
  }

  /** A toggle flips its own plan and leaves every other entry exactly as it was. */
  lemma ToggleFlipsOnlyItsPlan(expanded: map<int, bool>, id: int)
    ensures DetailsShown(ToggleExpanded(expanded, id), id) == !DetailsShown(expanded, id)
    ensures id in ToggleExpanded(expanded, id)
    ensures forall k :: k != id ==> (k in ToggleExpanded(expanded, id) <==> k in expanded)
    ensures forall k :: k != id && k in expanded ==> ToggleExpanded(expanded, id)[k] == expanded[k]
  {
  }

  /** Toggling the same plan twice restores what every plan shows. */
  lemma ToggleTwiceRestores(expanded: map<int, bool>, id: int, k: int)
    ensures DetailsShown(ToggleExpanded(ToggleExpanded(expanded, id), id), k) == DetailsShown(expanded, k)
  {
  }

  /** The numbered implementation steps: each step paired with `stepIndex + 1`. */
  function NumberedSteps(steps: seq<string>): (r: seq<(int, string)>)
    ensures |r| == |steps|
    ensures forall i :: 0 <= i < |r| ==> r[i].1 == steps[i]
    ensures |r| > 0 ==> r[0].0 == 1
    ensures forall i :: 0 < i < |r| ==> r[i].0 == r[i - 1].0 + 1
  {
    seq(|steps|, i requires 0 <= i < |steps| => (i + 1, steps[i]))
  }
}
