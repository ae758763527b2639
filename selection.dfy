/**
 * The nullable single-selection toggle shared by the project cards
 * (ProjectsSection.tsx, `expandedProject === project.id ? null : project.id`)
 * and the experience cards (ExperienceSection.tsx, `handleToggle`).
 */
module Selection {
  import opened Wrappers

  /** The selection after clicking `clicked`: the same item collapses, any other replaces it. */
  function Toggle<T(==)>(current: Option<T>, clicked: T): (next: Option<T>)
    ensures next == None <==> current == Some(clicked)
    ensures next != None ==> next == Some(clicked)
  {
    if current == Some(clicked) then None else Some(clicked)
  }

  /** Whether item `x` is the selected one (shows its details, is aria-expanded). */
  predicate IsSelected<T(==)>(current: Option<T>, x: T) {
    current == Some(x)
  }

  /** Clicking an item selects it unless it was already the selected one. */
  lemma ToggleSelects<T>(current: Option<T>, clicked: T, other: T)
    ensures IsSelected(Toggle(current, clicked), other) <==> other == clicked && !IsSelected(current, clicked)
  {
  }

  /**
   * Clicking the same item twice restores the earlier selection exactly when
   * nothing or that item was selected; when another item was selected, the
   * two clicks leave nothing selected.
   */
  lemma ToggleTwice<T>(current: Option<T>, clicked: T)
    ensures Toggle(Toggle(current, clicked), clicked) == current <==> current == None || current == Some(clicked)
    ensures current != None && current != Some(clicked) ==> Toggle(Toggle(current, clicked), clicked) == None
  {
  }

  /** At most one item is selected at any time. */
  lemma AtMostOneSelected<T>(current: Option<T>, x: T, y: T)
    requires IsSelected(current, x) && IsSelected(current, y)
    ensures x == y
  {
  }
}
