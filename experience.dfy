/**
 * src/components/sections/ExperienceSection.tsx: at most one experience card
 * is open, recorded as a nullable index, and every card's aria flags and
 * caption follow it.
 */
module Experience {
  import opened Wrappers
  import Selection

  /** `aria-expanded` on card `i` and on its inner button. */
  predicate AriaExpanded(openIndex: Option<nat>, i: nat) {
    Selection.IsSelected(openIndex, i)
  }

  /** The inner button's caption for card `i`. */
  function ToggleLabel(openIndex: Option<nat>, i: nat): (caption: string)
    ensures caption == "Hide Details" <==> AriaExpanded(openIndex, i)
    ensures caption == "Show Details" <==> !AriaExpanded(openIndex, i)
  {
    if openIndex == Some(i) then "Hide Details" else "Show Details"
  }

  /** `aria-hidden` on card `i`'s description: hidden exactly when the card is not open. */
  predicate DescriptionHidden(openIndex: Option<nat>, i: nat) {
    openIndex != Some(i)
  }

  /** Exactly the open card is expanded and shows its description; no other card does. */
  lemma RenderFollowsOpenIndex(openIndex: Option<nat>, i: nat, j: nat)
    ensures AriaExpanded(openIndex, i) <==> !DescriptionHidden(openIndex, i)
    ensures AriaExpanded(openIndex, i) && AriaExpanded(openIndex, j) ==> i == j
  {
  }

  class ExperienceSection {
    /** The number of experience cards rendered. */
    const count: nat
    var openIndex: Option<nat>

    /** Only a rendered card can be open. */
    predicate Valid()
      reads this
    {
      openIndex.Some? ==> openIndex.value < count
    }

    /** `useState<number | null>(null)`. */
    constructor (count: nat)
      ensures this.count == count && openIndex == None && Valid()
    {
      this.count := count;
      openIndex := None;
    }

    /** `handleToggle(idx)`: close card `idx` if it is open, otherwise open it (closing any other). */
    method HandleToggle(idx: nat)
      requires Valid() && idx < count
      modifies this`openIndex
      ensures Valid()
      ensures openIndex == Selection.Toggle(old(openIndex), idx)
      ensures AriaExpanded(openIndex, idx) <==> !AriaExpanded(old(openIndex), idx)
    {
      openIndex := if openIndex == Some(idx) then None else Some(idx);
    }

    /**
     * A click on card `idx`'s inner button. It stops propagation, so the
     * card's own click handler does not run: one toggle from the rendered
     * `openIndex`.
     */
    method ClickInnerButton(idx: nat)
      requires Valid() && idx < count
      modifies this`openIndex
      ensures Valid()
      ensures openIndex == Selection.Toggle(old(openIndex), idx)
    {
      HandleToggle(idx);
    }
  }
}
