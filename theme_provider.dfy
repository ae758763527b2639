/**
 * The theme context of src/providers/ThemeProvider.tsx. Besides the
 * provider's `isDarkMode` state, the object holds the two pieces of browser
 * state its handlers write: the local-storage entry under "theme" and
 * whether the root element carries the "dark" class.
 */
module ThemeProvider {
  import opened Wrappers
  import opened ThemeResolution

  /** What the context hands to consumers. */
  datatype ThemeContext = ThemeContext(isDarkMode: bool)

  /** The message `useTheme` throws outside a provider. */
  const OutsideProvider: string := "useTheme must be used within a ThemeProvider"

  /** `useTheme`: the context when a provider is present, otherwise the thrown error. */
  function UseTheme(context: Option<ThemeContext>): (r: Result<ThemeContext>)
    ensures r.Failure? <==> context.None?
    ensures r.Failure? ==> r.error == OutsideProvider
    ensures r.Success? ==> r.value == context.value
  {
    match context
    case None => Failure(OutsideProvider)
    case Some(c) => Success(c)
  }

  class Provider {
    var isDarkMode: bool
    /** The local-storage entry under "theme". */
    var stored: Option<string>
    /** Whether `document.documentElement` has the "dark" class. */
    var darkClass: bool
    /** The `detail` of every "theme-change" event this provider dispatched, oldest first. */
    var dispatched: seq<string>

    /** The root class tracks the mode: what every handler re-establishes. */
    predicate ClassTracksMode()
      reads this
    {
      darkClass == isDarkMode
    }

    /** First render: `useState(true)`; storage and the document class are as the browser has them. */
    constructor (stored: Option<string>, darkClass: bool)
      ensures isDarkMode
      ensures this.stored == stored && this.darkClass == darkClass && dispatched == []
    {
      isDarkMode := true;
      this.stored := stored;
      this.darkClass := darkClass;
      dispatched := [];
    }

    /** The mount effect: resolve the mode from storage and the system preference, and apply the class. */
    method Init(prefersDark: bool)
      modifies this`isDarkMode, this`darkClass
      ensures isDarkMode == ShouldUseDarkMode(stored, prefersDark)
      ensures ClassTracksMode()
    {
      var shouldUseDarkMode := ShouldUseDarkMode(stored, prefersDark);
      isDarkMode := shouldUseDarkMode;
      darkClass := shouldUseDarkMode;
    }

    /**
     * A "storage" event from another tab. The other tab's write has already
     * reached the shared storage: for key "theme" the entry is `newValue`
     * (None when it was removed) and the mode becomes `newValue == "dark"`; a
     * null key is `localStorage.clear()`, which removes the entry but, like
     * any other key, leaves the mode and the class alone.
     */
    method OnStorage(key: Option<string>, newValue: Option<string>)
      modifies this`isDarkMode, this`darkClass, this`stored
      ensures key == Some(ThemeKey) ==> isDarkMode == (newValue == Some(Dark)) && ClassTracksMode() && stored == newValue
      ensures key != Some(ThemeKey) ==> isDarkMode == old(isDarkMode) && darkClass == old(darkClass)
      ensures key == None ==> stored == None
      ensures key.Some? && key != Some(ThemeKey) ==> stored == old(stored)
      ensures old(ClassTracksMode()) ==> ClassTracksMode()
    {
      if key == Some(ThemeKey) {
        stored := newValue;
        isDarkMode := newValue == Some(Dark);
        darkClass := newValue == Some(Dark);
      } else if key == None {
        stored := None;
      }
    }

    /** A "theme-change" custom event: the mode becomes `detail == "dark"`. */
    method OnThemeChange(detail: string)
      modifies this`isDarkMode, this`darkClass
      ensures isDarkMode == (detail == Dark)
      ensures ClassTracksMode()
    {
      isDarkMode := detail == Dark;
      darkClass := detail == Dark;
    }

    /**
     * `toggleTheme`: store the opposite mode's name, switch to it, apply the
     * class and dispatch a "theme-change" event whose (synchronous) listener
     * is this provider's own `OnThemeChange`.
     */
    method Toggle()
      modifies this
      ensures stored == Some(ThemeName(!old(isDarkMode)))
      ensures isDarkMode == !old(isDarkMode)
      ensures isDarkMode == (stored == Some(Dark))
      ensures ClassTracksMode()
      ensures dispatched == old(dispatched) + [stored.value]
    {
      var newTheme := if !isDarkMode then Dark else Light;
      stored := Some(newTheme);
      isDarkMode := newTheme == Dark;
      darkClass := newTheme == Dark;
      dispatched := dispatched + [newTheme];
      OnThemeChange(newTheme);
    }

    /** The value consumers see. */
    function Context(): (c: ThemeContext)
      reads this
      ensures c.isDarkMode == isDarkMode
    {
      ThemeContext(isDarkMode)
    }
  }

  /**
   * Toggling twice restores the mode and leaves the class in step with it;
   * the storage then holds the original mode's name, and the two events
   * carried the opposite mode's name and then the original's.
   */
  method ToggleTwice(p: Provider)
    modifies p
    ensures p.isDarkMode == old(p.isDarkMode)
    ensures p.ClassTracksMode()
    ensures old(p.ClassTracksMode()) ==> p.darkClass == old(p.darkClass)
    ensures p.dispatched == old(p.dispatched) + [ThemeName(!old(p.isDarkMode)), ThemeName(old(p.isDarkMode))]
    ensures p.stored == Some(ThemeName(old(p.isDarkMode)))
  {
    p.Toggle();
    p.Toggle();
  }

  /** After a toggle, a reload (a fresh provider over the same storage) resolves the stored value back to the toggled mode, whatever the system prefers. */
  method ToggleThenReload(p: Provider, prefersDark: bool) returns (reloaded: Provider)
    modifies p
    ensures p.isDarkMode == !old(p.isDarkMode)
    ensures reloaded.isDarkMode == p.isDarkMode && reloaded.ClassTracksMode()
    ensures reloaded.stored == p.stored
  {
    p.Toggle();
    StoredNameResolves(p.isDarkMode, prefersDark);
    reloaded := new Provider(p.stored, p.darkClass);
    reloaded.Init(prefersDark);
  }
}
