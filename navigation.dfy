/**
 * The navigation bar of src/components/layout/Navigation.tsx: its item table,
 * the callbacks a click issues, and the icons and panel chosen from its props.
 */
module Navigation {
  import opened Wrappers
  import Sections

  /** A menu entry: its label and the section name it asks to scroll to. */
  datatype NavItem = NavItem(name: string, section: string)

  /** `navigationItems`, in display order. */
  const NavigationItems: seq<NavItem> := [
    NavItem("About", "about"),
    NavItem("Experience", "experience"),
    NavItem("Projects", "projects"),
    NavItem("Skills", "skills")
  ]

  /** A call the bar makes into its parent's props. */
  datatype Callback = SectionScroll(section: string) | MobileMenuToggle

  /** The section the logo button asks for. */
  const HomeSection: string := "home"

  /** `handleNavClick(section)`: always ask for the scroll, then toggle the menu only if it is open. */
  function HandleNavClick(section: string, isMobileMenuOpen: bool): (calls: seq<Callback>)
    ensures |calls| > 0 && calls[0] == SectionScroll(section)
    ensures MobileMenuToggle in calls <==> isMobileMenuOpen
    ensures |calls| == if isMobileMenuOpen then 2 else 1
  {
    [SectionScroll(section)] + if isMobileMenuOpen then [MobileMenuToggle] else []
  }

  /** The logo button's click: a scroll request for "home", and nothing else. */
  function LogoClick(): (calls: seq<Callback>)
    ensures |calls| == 1 && calls[0].SectionScroll? && calls[0].section == HomeSection
  {
    [SectionScroll(HomeSection)]
  }

  datatype Icon = Sun | Moon | MenuBars | CloseX

  /** The theme button's icon (desktop and mobile): Sun in dark mode, Moon in light mode. */
  function ThemeIcon(isDarkMode: bool): (icon: Icon)
    ensures icon == Sun || icon == Moon
    ensures icon == Sun <==> isDarkMode
  {
    if isDarkMode then Sun else Moon
  }

  /** The mobile menu button's icon: a close cross while the menu is open, bars otherwise. */
  function MenuIcon(isMobileMenuOpen: bool): (icon: Icon)
    ensures icon == CloseX || icon == MenuBars
    ensures icon == CloseX <==> MobilePanelRendered(isMobileMenuOpen)
  {
    if isMobileMenuOpen then CloseX else MenuBars
  }

  /** The mobile menu panel is rendered exactly while the menu is open. */
  predicate MobilePanelRendered(isMobileMenuOpen: bool) {
    isMobileMenuOpen
  }

  /**
   * The items are About, Experience, Projects, Skills in page order; each
   * names the section of the same position, so every item scrolls somewhere.
   */
  lemma NavigationItemsMatchSections(i: nat)
    requires i < |NavigationItems|
    ensures |NavigationItems| == |Sections.AllSections| == 4
    ensures Sections.SectionFor(NavigationItems[i].section) == Some(Sections.AllSections[i])
    ensures NavigationItems[i].section == Sections.SectionName(Sections.AllSections[i])
  {
  }

  /** The logo's request names no registered section, so it never scrolls. */
  lemma LogoScrollsNowhere(attached: set<Sections.Section>)
    ensures Sections.ScrollTarget(LogoClick()[0].section, attached).None?
  {
  }
}
