/**
 * The page component of src/pages/index.tsx, restricted to its state: the
 * theme (with the local-storage entry and the root "dark" class it writes),
 * the mobile menu, the loading gate with its progress interval, and the
 * expanded project card. Its methods connect the page's handlers to the
 * navigation bar of src/components/layout/Navigation.tsx and the cards of
 * src/components/sections/ProjectsSection.tsx through their prop names.
 */
module Portfolio {
  import opened Wrappers
  import opened ThemeResolution
  import opened Sections
  import Navigation
  import Progress
  import Selection
  import Projects

  class Page {
    var isDarkMode: bool
    var isMobileMenuOpen: bool
    var isLoading: bool
    var loadingProgress: int
    var intervalActive: bool
    var expandedProject: Option<int>
    /** The local-storage entry under "theme". */
    var stored: Option<string>
    /** Whether `document.documentElement` has the "dark" class. */
    var darkClass: bool

    /** What the progress interval keeps true. */
    ghost predicate ProgressValid()
      reads this
    {
      0 <= loadingProgress <= Progress.Complete && loadingProgress % Progress.Increment == 0 &&
      (loadingProgress == Progress.Complete ==> !intervalActive)
    }

    /** First render and the progress effect: dark, menu closed, loading at 0, nothing expanded. */
    constructor (stored: Option<string>, darkClass: bool)
      ensures isDarkMode && !isMobileMenuOpen && isLoading && expandedProject == None
      ensures loadingProgress == 0 && intervalActive && ProgressValid()
      ensures this.stored == stored && this.darkClass == darkClass
      ensures RendersLoadingScreen()
    {
      isDarkMode := true;
      isMobileMenuOpen := false;
      isLoading := true;
      loadingProgress := 0;
      intervalActive := true;
      expandedProject := None;
      this.stored := stored;
      this.darkClass := darkClass;
    }

    /** The page shows the loading screen instead of its content while loading. */
    predicate RendersLoadingScreen()
      reads this
    {
      isLoading
    }

    /** The theme effect: resolve the saved theme against the system preference and apply the class. */
    method InitTheme(prefersDark: bool)
      modifies this`isDarkMode, this`darkClass
      ensures isDarkMode == ShouldUseDarkMode(stored, prefersDark)
      ensures darkClass == isDarkMode
      ensures stored == Some(Light) ==> !isDarkMode
    {
      var shouldUseDarkMode := ShouldUseDarkMode(stored, prefersDark);
      isDarkMode := shouldUseDarkMode;
      darkClass := shouldUseDarkMode;
    }

    /** One firing of the progress interval, as in the loading hook. */
    method ProgressTick()
      modifies this`loadingProgress, this`intervalActive
      ensures old(ProgressValid()) ==> ProgressValid()
      ensures old(intervalActive) ==> loadingProgress == Progress.Tick(old(loadingProgress))
      ensures !old(intervalActive) ==> loadingProgress == old(loadingProgress)
      ensures intervalActive <==> old(intervalActive) && loadingProgress < Progress.Complete
    {
      if intervalActive {
        var newProgress := loadingProgress + Progress.Increment;
        if newProgress >= Progress.Complete {
          intervalActive := false;
          loadingProgress := Progress.Complete;
        } else {
          loadingProgress := newProgress;
        }
      }
    }

    /** `toggleTheme`: flip the mode, apply the class, store `"dark"` or `"light"`. */
    method ToggleTheme()
      modifies this`isDarkMode, this`darkClass, this`stored
      ensures isDarkMode == !old(isDarkMode) && darkClass == isDarkMode
      ensures stored == Some(ThemeName(isDarkMode))
      ensures stored == Some(Dark) <==> isDarkMode
      ensures Navigation.ThemeIcon(isDarkMode) != Navigation.ThemeIcon(old(isDarkMode))
    {
      var newTheme := !isDarkMode;
      isDarkMode := newTheme;
      darkClass := newTheme;
      stored := Some(if newTheme then Dark else Light);
    }

    /**
     * `scrollToSection(name)`: scroll to the registered section when its ref
     * is attached (`attached`), and close the mobile menu in every case.
     */
    method ScrollToSection(name: string, attached: set<Section>) returns (scrolledTo: Option<Section>)
      modifies this`isMobileMenuOpen
      ensures !isMobileMenuOpen
      ensures scrolledTo == ScrollTarget(name, attached)
      ensures SectionFor(name).None? ==> scrolledTo.None?
    {
      scrolledTo := None;
      var targetRef := SectionFor(name);
      if targetRef.Some? && targetRef.value in attached {
        scrolledTo := targetRef;
      }
      isMobileMenuOpen := false;
    }

    /** The menu button's prop, `() => setIsMobileMenuOpen(!isMobileMenuOpen)`, closing over the rendered value. */
    method ToggleMobileMenu(rendered: bool)
      modifies this`isMobileMenuOpen
      ensures isMobileMenuOpen == !rendered
    {
      isMobileMenuOpen := !rendered;
    }

    /**
     * A click on a navigation item: the page runs the callbacks the
     * navigation bar issues, with the props of the current render.
     */
    method NavClick(section: string, attached: set<Section>) returns (scrolledTo: Option<Section>)
      modifies this`isMobileMenuOpen
      ensures !isMobileMenuOpen
      ensures scrolledTo == ScrollTarget(section, attached)
    {
      var rendered := isMobileMenuOpen;
      var calls := Navigation.HandleNavClick(section, rendered);
      scrolledTo := ScrollToSection(calls[0].section, attached);
      if |calls| == 2 {
        ToggleMobileMenu(rendered);
      }
    }

    /** The logo button: a scroll request for "home", which finds no section; the menu still closes. */
    method LogoClick(attached: set<Section>) returns (scrolledTo: Option<Section>)
      modifies this`isMobileMenuOpen
      ensures !isMobileMenuOpen && scrolledTo.None?
    {
      var calls := Navigation.LogoClick();
      HomeIsUnknown(attached);
      scrolledTo := ScrollToSection(calls[0].section, attached);
    }

    /** A click on project card `id`: collapse it if it is the expanded one, otherwise expand it instead. */
    method ClickProjectCard(id: int)
      modifies this`expandedProject
      ensures expandedProject == Selection.Toggle(old(expandedProject), id)
      ensures expandedProject == None <==> old(expandedProject) == Some(id)
    {
      expandedProject := if expandedProject == Some(id) then None else Some(id);
    }

    /**
     * A click on a card's link button: it stops propagation, so the card does
     * not toggle; the page state stays as it is and the link's URL is opened.
     */
    method ClickProjectLink(p: Projects.Project, link: Projects.Link) returns (url: Option<string>)
      ensures url == Projects.LinkUrl(p, link)
    {
      url := Projects.LinkUrl(p, link);
    }

    /** `handleLoadingComplete`: leave the loading screen for the page content. */
    method HandleLoadingComplete()
      modifies this`isLoading
      ensures !isLoading && !RendersLoadingScreen()
    {
      isLoading := false;
    }
  }

  /**
   * Toggling the theme twice restores the mode and leaves the class in step
   * with it (so the class is restored when it was in step before); the storage
   * then names the original mode.
   */
  method ToggleThemeTwice(page: Page)
    modifies page`isDarkMode, page`darkClass, page`stored
    ensures page.isDarkMode == old(page.isDarkMode) && page.darkClass == page.isDarkMode
    ensures old(page.darkClass == page.isDarkMode) ==> page.darkClass == old(page.darkClass)
    ensures page.stored == Some(ThemeName(page.isDarkMode))
  {
    page.ToggleTheme();
    page.ToggleTheme();
  }

  /** Expanding project 2 and then project 3 leaves exactly project 3 expanded. */
  method ExpandTwoThenThree(page: Page)
    modifies page`expandedProject
    ensures page.expandedProject == Some(3)
  {
    page.ClickProjectCard(2);
    page.ClickProjectCard(3);
  }
}
