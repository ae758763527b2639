/**
 * The section table of `scrollToSection` in src/pages/index.tsx: the four
 * names that have a section ref. Any other name (including "home", which
 * the logo asks for) finds no ref and scrolls nowhere.
 */
module Sections {
  import opened Wrappers

  datatype Section = About | Experience | Projects | Skills

  /** The sections in page order. */
  const AllSections: seq<Section> := [About, Experience, Projects, Skills]

  /** The key under which a section's ref is registered. */
  function SectionName(s: Section): string {
    match s
    case About => "about"
    case Experience => "experience"
    case Projects => "projects"
    case Skills => "skills"
  }

  /** `sectionRefs[sectionName]`: the section registered under `name`, if any. */
  function SectionFor(name: string): (r: Option<Section>)
    ensures r.Some? ==> SectionName(r.value) == name
    ensures r.None? ==> forall s :: SectionName(s) != name
  {
    if name == "about" then Some(About)
    else if name == "experience" then Some(Experience)
    else if name == "projects" then Some(Projects)
    else if name == "skills" then Some(Skills)
    else None
  }

  /**
   * The section the page scrolls to: the one registered under `name`, and
   * only when its ref is attached to a mounted element (`targetRef?.current`).
   */
  function ScrollTarget(name: string, attached: set<Section>): (target: Option<Section>)
    ensures target.Some? <==> SectionFor(name).Some? && SectionFor(name).value in attached
    ensures target.Some? ==> SectionName(target.value) == name
  {
    match SectionFor(name)
    case Some(s) => if s in attached then Some(s) else None
    case None => None
  }

  /** Every section is found under its own name, and the table has exactly these four entries. */
  lemma SectionNameRoundTrip(s: Section)
    ensures SectionFor(SectionName(s)) == Some(s)
    ensures s in AllSections
  {
  }

  /** "home" is not in the table, so asking for it never scrolls. */
  lemma HomeIsUnknown(attached: set<Section>)
    ensures SectionFor("home") == None
    ensures ScrollTarget("home", attached) == None
  {
  }
}
