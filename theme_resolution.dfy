/**
 * How a page decides between dark and light mode, shared by
 * src/pages/index.tsx and src/providers/ThemeProvider.tsx: the string saved in
 * local storage under "theme", falling back to the system colour-scheme
 * preference when nothing usable is saved.
 */
module ThemeResolution {
  import opened Wrappers

  /** The local-storage key and the two values written under it. */
  const ThemeKey: string := "theme"
  const Dark: string := "dark"
  const Light: string := "light"

  /** `!savedTheme`: true for a missing entry and for the empty string, both falsy in the source. */
  predicate IsUnset(saved: Option<string>) {
    saved == None || saved == Some("")
  }

  /** `savedTheme === "dark" || (!savedTheme && prefersDark)`. */
  function ShouldUseDarkMode(saved: Option<string>, prefersDark: bool): bool {
    saved == Some(Dark) || (IsUnset(saved) && prefersDark)
  }

  /** The string stored for a mode: `"dark"` or `"light"`. */
  function ThemeName(isDark: bool): (name: string)
    ensures name == Dark <==> isDark
    ensures name == Dark || name == Light
  {
    if isDark then Dark else Light
  }

  /**
   * The three cases of the resolution: a saved "dark" wins, any other saved
   * non-empty string (such as "light") means light whatever the system
   * prefers, and without a usable saved value the system preference decides.
   */
  lemma ResolutionCases(saved: Option<string>, prefersDark: bool)
    ensures saved == Some(Dark) ==> ShouldUseDarkMode(saved, prefersDark)
    ensures saved.Some? && saved.value != Dark && saved.value != "" ==> !ShouldUseDarkMode(saved, prefersDark)
    ensures IsUnset(saved) ==> ShouldUseDarkMode(saved, prefersDark) == prefersDark
  {
  }

  /** A value written by a toggle resolves back to that mode on the next load, whatever the system prefers. */
  lemma StoredNameResolves(isDark: bool, prefersDark: bool)
    ensures ShouldUseDarkMode(Some(ThemeName(isDark)), prefersDark) == isDark
  {
  }
}
