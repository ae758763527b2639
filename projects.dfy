/**
 * src/components/sections/ProjectsSection.tsx: the "first four or all"
 * pagination owned by the section, what each card renders from the
 * page-owned `expandedProject`, and where its link buttons lead.
 */
module Projects {
  import opened Wrappers
  import Selection

  /** A project record (src/types.ts). */
  datatype Project = Project(
    id: int,
    title: string,
    description: string,
    technologies: seq<string>,
    githubUrl: string,
    liveUrl: Option<string>,
    videoUrl: Option<string>,
    imageUrl: string)

  /** How many projects show while the list is collapsed. */
  const PageSize: nat := 4

  /** `hasMore`: there are more projects than fit on the collapsed page. */
  predicate HasMore(projects: seq<Project>) {
    |projects| > PageSize
  }

  /** `visibleProjects`: all of them when `showAll`, otherwise `projects.slice(0, 4)`. */
  function VisibleProjects(projects: seq<Project>, showAll: bool): (visible: seq<Project>)
    ensures visible <= projects
    ensures |visible| == if showAll || !HasMore(projects) then |projects| else PageSize
    ensures !HasMore(projects) ==> visible == projects
  {
    if showAll then projects
    else if |projects| <= PageSize then projects
    else projects[..PageSize]
  }

  /** Project ids are unique within the list (they are the render keys). */
  ghost predicate UniqueIds(projects: seq<Project>) {
    forall i, j :: 0 <= i < j < |projects| ==> projects[i].id != projects[j].id
  }

  /** A card shows its description and technologies exactly when it is the expanded project. */
  predicate DetailsShown(expandedProject: Option<int>, p: Project) {
    Selection.IsSelected(expandedProject, p.id)
  }

  /** The caption under each card. */
  function DetailsLabel(expandedProject: Option<int>, p: Project): (caption: string)
    ensures caption == "Hide Details" <==> DetailsShown(expandedProject, p)
    ensures caption == "Hide Details" || caption == "Show Details"
  {
    if expandedProject == Some(p.id) then "Hide Details" else "Show Details"
  }

  /** The label of the pagination button, and whether that button is rendered at all. */
  function MoreButton(projects: seq<Project>, showAll: bool): (button: Option<string>)
    ensures button.Some? <==> HasMore(projects)
    ensures button.Some? ==> (button.value == "Show Less" <==> showAll)
    ensures button.Some? ==> (button.value == "View More" <==> !showAll)
  {
    if HasMore(projects) then Some(if showAll then "Show Less" else "View More") else None
  }

  /** The three link buttons on a card. */
  datatype Link = GitHub | Live | Demo

  /** A JavaScript string used as a condition: present and non-empty. */
  predicate Truthy(s: Option<string>) {
    s.Some? && s.value != ""
  }

  /**
   * The URL a link button opens, or None when the button is not rendered:
   * GitHub always is, Live and Demo only for a truthy URL.
   */
  function LinkUrl(p: Project, link: Link): (url: Option<string>)
    ensures link == GitHub ==> url == Some(p.githubUrl)
    ensures link == Live ==> (url.Some? <==> Truthy(p.liveUrl)) && (url.Some? ==> url == p.liveUrl)
    ensures link == Demo ==> (url.Some? <==> Truthy(p.videoUrl)) && (url.Some? ==> url == p.videoUrl)
  {
    match link
    case GitHub => Some(p.githubUrl)
    case Live => if Truthy(p.liveUrl) then p.liveUrl else None
    case Demo => if Truthy(p.videoUrl) then p.videoUrl else None
  }

  /** With unique ids, at most one visible card shows its details, and it is the expanded one. */
  lemma AtMostOneDetailsShown(projects: seq<Project>, showAll: bool, expandedProject: Option<int>, i: nat, j: nat)
    requires UniqueIds(projects)
    requires i < |VisibleProjects(projects, showAll)| && j < |VisibleProjects(projects, showAll)|
    requires DetailsShown(expandedProject, VisibleProjects(projects, showAll)[i])
    requires DetailsShown(expandedProject, VisibleProjects(projects, showAll)[j])
    ensures i == j
    ensures expandedProject == Some(projects[i].id)
  {
    var visible := VisibleProjects(projects, showAll);
    assert visible[i] == projects[i] && visible[j] == projects[j];
  }

  /**
   * `showAll` matters exactly when the pagination button is rendered: with
   * more than four projects the two layouts differ, otherwise both show all.
   */
  lemma ShowAllMatters(projects: seq<Project>, showAll: bool)
    ensures VisibleProjects(projects, !showAll) != VisibleProjects(projects, showAll) <==> MoreButton(projects, showAll).Some?
  {
  }

  /** The section's own state: whether the list is expanded past the first four. */
  class ProjectsSection {
    const projects: seq<Project>
    var showAll: bool

    /** `React.useState(false)`. */
    constructor (projects: seq<Project>)
      ensures this.projects == projects && !showAll
      ensures Visible() == VisibleProjects(projects, false)
    {
      this.projects := projects;
      showAll := false;
    }

    /** The projects rendered now. */
    function Visible(): (visible: seq<Project>)
      reads this
      ensures visible <= projects
    {
      VisibleProjects(projects, showAll)
    }

    /** The pagination button's click: `setShowAll((prev) => !prev)`. */
    method ToggleShowAll()
      modifies this`showAll
      ensures showAll == !old(showAll)
      ensures HasMore(projects) ==> Visible() != old(Visible())
    {
      showAll := !showAll;
    }
  }
}
