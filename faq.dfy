/** The FAQ accordion's click rule (`wireFAQ`): clicking a toggle closes every
    other open toggle and flips the clicked one, so at most one answer panel
    is open at a time. The page is abstracted to three flags per toggle, in
    document order: whether its `aria-expanded` is "true", whether its panel
    carries `hidden`, and whether its `aria-controls` names an existing panel. */
module Faq {

  /** At most one toggle is expanded. */
  ghost predicate AtMostOneOpen(expanded: seq<bool>)
  {
    forall i, j :: 0 <= i < |expanded| && 0 <= j < |expanded| && expanded[i] && expanded[j] ==> i == j
  }

  /** Every toggle that has a panel shows it exactly when it is expanded. */
  ghost predicate PanelsMatch(expanded: seq<bool>, hidden: seq<bool>, hasPanel: seq<bool>)
    requires |expanded| == |hidden| == |hasPanel|
  {
    forall i :: 0 <= i < |hasPanel| && hasPanel[i] ==> hidden[i] == !expanded[i]
  }

  /** The `aria-expanded` flags after clicking toggle k: only k can be open,
      and it is open exactly when it was closed. */
  function ExpandedAfterClick(expanded: seq<bool>, k: nat): (r: seq<bool>)
    requires k < |expanded|
    ensures |r| == |expanded|
  {
    seq(|expanded|, i requires 0 <= i < |expanded| => i == k && !expanded[k])
  }

  /** The panels' `hidden` flags after clicking toggle k: the panel of every
      other open toggle is hidden, the clicked toggle's panel is hidden exactly
      when it was open, and every other panel is left as it was. */
  function HiddenAfterClick(expanded: seq<bool>, hidden: seq<bool>, hasPanel: seq<bool>, k: nat): (r: seq<bool>)
    requires |expanded| == |hidden| == |hasPanel| && k < |expanded|
    ensures |r| == |hidden|
  {
    seq(|hidden|, i requires 0 <= i < |hidden| =>
      if i == k then (if hasPanel[k] then expanded[k] else hidden[k])
      else if expanded[i] && hasPanel[i] then true
      else hidden[i])
  }

  /** After any click at most one toggle is expanded. */
  lemma {:induction false} ClickLeavesAtMostOneOpen(expanded: seq<bool>, k: nat)
    requires k < |expanded|
    ensures AtMostOneOpen(ExpandedAfterClick(expanded, k))
  {
  }

  /** Clicking a closed toggle makes it the only open one; clicking an open
      toggle leaves none open. */
  lemma {:induction false} ClickTogglesOnlyTheClicked(expanded: seq<bool>, k: nat)
    requires k < |expanded|
    ensures !expanded[k] ==> ExpandedAfterClick(expanded, k)[k]
    ensures forall i :: 0 <= i < |expanded| && i != k ==> !ExpandedAfterClick(expanded, k)[i]
    ensures expanded[k] ==> forall i :: 0 <= i < |expanded| ==> !ExpandedAfterClick(expanded, k)[i]
  {
  }

  /** For the toggles the click touches (the clicked one and every one that was
      open) a panel is hidden exactly when its toggle is not expanded; other
      panels keep their state. */
  lemma {:induction false} ClickSyncsTouchedPanels(expanded: seq<bool>, hidden: seq<bool>, hasPanel: seq<bool>, k: nat)
    requires |expanded| == |hidden| == |hasPanel| && k < |expanded|
    ensures forall i :: 0 <= i < |expanded| && (i == k || expanded[i]) && hasPanel[i] ==>
              HiddenAfterClick(expanded, hidden, hasPanel, k)[i] == !ExpandedAfterClick(expanded, k)[i]
    ensures forall i :: 0 <= i < |expanded| && !(i == k || expanded[i]) ==>
              HiddenAfterClick(expanded, hidden, hasPanel, k)[i] == hidden[i]
  {
  }

  /** A page whose panels match their toggles and has at most one open toggle
      stays that way after a click. */
  lemma {:induction false} ClickPreservesConsistency(expanded: seq<bool>, hidden: seq<bool>, hasPanel: seq<bool>, k: nat)
    requires |expanded| == |hidden| == |hasPanel| && k < |expanded|
    requires PanelsMatch(expanded, hidden, hasPanel)
    ensures PanelsMatch(ExpandedAfterClick(expanded, k), HiddenAfterClick(expanded, hidden, hasPanel, k), hasPanel)
    ensures AtMostOneOpen(ExpandedAfterClick(expanded, k))
  {
    var e' := ExpandedAfterClick(expanded, k);
    var h' := HiddenAfterClick(expanded, hidden, hasPanel, k);
    forall i | 0 <= i < |hasPanel| && hasPanel[i]
      ensures h'[i] == !e'[i]
    {
      if i != k && !expanded[i] {
        assert h'[i] == hidden[i];
      }
    }
  }

  /** The toggles and panels of one FAQ section. */
  class Accordion {
    var expanded: seq<bool>
    var hidden: seq<bool>
    const hasPanel: seq<bool>

    ghost predicate Valid()
      reads this
    {
      |expanded| == |hidden| == |hasPanel|
    }

    constructor (expanded0: seq<bool>, hidden0: seq<bool>, hasPanel0: seq<bool>)
      requires |expanded0| == |hidden0| == |hasPanel0|
      ensures Valid()
      ensures expanded == expanded0 && hidden == hidden0 && hasPanel == hasPanel0
    {
      expanded := expanded0;
      hidden := hidden0;
      hasPanel := hasPanel0;
    }

    /** The click handler of toggle k: close every other open toggle and hide
        its panel, then flip toggle k and show or hide its panel to match. */
    method Click(k: nat)
      requires Valid() && k < |expanded|
      modifies this
      ensures Valid()
      ensures expanded == ExpandedAfterClick(old(expanded), k)
      ensures hidden == HiddenAfterClick(old(expanded), old(hidden), hasPanel, k)
      ensures AtMostOneOpen(expanded)
    {
      var isOpen := expanded[k];
      var n := |expanded|;
      for j := 0 to n
        invariant |expanded| == |hidden| == n
        invariant expanded[k] == isOpen
        invariant forall i :: 0 <= i < j ==> expanded[i] == (i == k && old(expanded)[i])
        invariant forall i :: j <= i < n ==> expanded[i] == old(expanded)[i]
        invariant forall i :: 0 <= i < j ==>
                    hidden[i] == if i != k && old(expanded)[i] && hasPanel[i] then true else old(hidden)[i]
        invariant forall i :: j <= i < n ==> hidden[i] == old(hidden)[i]
      {
        if expanded[j] && j != k {
          expanded := expanded[j := false];
          if hasPanel[j] {
            hidden := hidden[j := true];
          }
        }
      }
      expanded := expanded[k := !isOpen];
      if hasPanel[k] {
        hidden := hidden[k := isOpen];
      }
      ClickLeavesAtMostOneOpen(old(expanded), k);
    }
  }
}
