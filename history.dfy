/**
 * src/components/sections/HistorySection.tsx: a two-tab selector between
 * the work experience and the education timelines.
 */
module History {

  datatype Tab = ExperienceTab | EducationTab

  /** Which timeline is rendered: the experience list iff that tab is active, likewise for education. */
  predicate ExperienceRendered(activeTab: Tab) {
    activeTab == ExperienceTab
  }

  predicate EducationRendered(activeTab: Tab) {
    activeTab == EducationTab
  }

  /** Whether the button for `tab` carries the highlighted style. */
  predicate Highlighted(activeTab: Tab, tab: Tab) {
    activeTab == tab
  }

  /** Exactly one of the two content blocks is rendered, and its button is the highlighted one. */
  lemma ExactlyOneRendered(activeTab: Tab)
    ensures ExperienceRendered(activeTab) != EducationRendered(activeTab)
    ensures ExperienceRendered(activeTab) <==> Highlighted(activeTab, ExperienceTab)
    ensures EducationRendered(activeTab) <==> Highlighted(activeTab, EducationTab)
    ensures Highlighted(activeTab, ExperienceTab) != Highlighted(activeTab, EducationTab)
  {
  }

  class HistorySection {
    var activeTab: Tab

    /** `useState("experience")`. */
    constructor ()
      ensures activeTab == ExperienceTab && ExperienceRendered(activeTab)
    {
      activeTab := ExperienceTab;
    }

    /** `handleTabChange(tab)`: the clicked tab becomes active; clicking the active tab changes nothing. */
    method HandleTabChange(tab: Tab)
      modifies this`activeTab
      ensures activeTab == tab
      ensures old(activeTab) == tab ==> activeTab == old(activeTab)
      ensures Highlighted(activeTab, tab)
    {
      activeTab := tab;
    }
  }
}
