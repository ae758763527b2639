# Portfolio UI state machines in Dafny

This project models the small, deterministic pieces of UI state in a
single-page React portfolio site, and proves what each piece promises. Timer
ticks, clicks and browser events become abstract steps: one method call, or
one application of a transition function.

- **Typewriter** (`typewriter.dfy`, HeroSection): the class `Typewriter` holds
  `typingText`, `currentWordIndex`, `currentCharIndex` and `isDeleting`. `Tick`
  is one firing of the effect's timeout, specified by the transition function
  `Next`. The invariant `WellFormed` says that the text is always the current
  word cut to the character index, and that both indices stay in range. The
  lemmas prove that a word is typed out, flipped, deleted and followed by the
  next word in `2|w| + 2` ticks, wrapping around the list.
- **Loading progress** (`progress.dfy`, useLoading): `Tick` is `min(p + 4, 100)`.
  `Ticks` runs it repeatedly, and the lemmas prove that `k` ticks from 0 give
  `min(4k, 100)`: monotone, bounded, a multiple of 4, and terminal after 25
  ticks. The class `LoadingHook` holds the hook's state; only `setIsLoading`
  changes `isLoading`.
- **Theme** (`theme_resolution.dfy`, `theme_provider.dfy`, and `Page` in
  `portfolio.dfy`): `ShouldUseDarkMode` resolves the saved string against the
  system preference. The mode and the root "dark" class start independent
  (the constructors take the browser's class as it is). The initialisation
  and every theme handler (storage event for "theme", custom event, toggle)
  set both to the same value. Every other handler changes neither, so once
  the initialisation has run, each object's class tracks its own mode. A toggle
  stores the name of the new mode, and that name resolves back to the same
  mode on reload.
- **Greeting loader** (`loading_screen.dfy`): the class `Greeter` holds the
  greeting index, the heading text, the two timers, the exit tween and the
  number of completion calls. Its invariant gives: after `k` ticks the heading
  shows `greetings[k mod n]`; completion happens at most once per run of the
  effect, only after the interval has been cleared, and only after the whole
  greeting list has been shown in order.
- **Single selection** (`selection.dfy`, `projects.dfy`, `experience.dfy`,
  `history.dfy`): the nullable "expanded" value, where clicking the same item
  collapses it and clicking another replaces it. Also the projects' "first four
  or all" pagination and the two-tab history selector.
- **Navigation and scrolling** (`sections.dfy`, `navigation.dfy`, `Page` in
  `portfolio.dfy`): the name-to-section table, the callbacks a navigation
  click issues, and the icons. `scrollToSection` always closes the mobile
  menu, and an unknown name such as "home" scrolls nowhere.

Browser state is modelled as plain fields or inputs:
- the local-storage entry under "theme" is an `Option<string>` field;
- whether the root element has the "dark" class is a `bool` field;
- the system colour-scheme preference is a `bool` parameter;
- which section refs are attached to mounted elements is a `set<Section>`
  parameter.

Predicates such as `ShouldUseDarkMode`, `IsUnset`, `HasMore`, `DetailsShown`,
`AriaExpanded`, `DescriptionHidden`, `ExperienceRendered` and `TotalDuration` are plain
definitions taken from the code. The lemmas and methods in the table below
state their properties.

Behaviour of the code that a reader may not expect:
- `!savedTheme` is true both for a missing entry and for an empty string.
  `IsUnset` covers both cases, so an empty saved value falls back to the
  system preference.
- Clicking the same project or experience card twice restores the earlier
  selection only when nothing, or that card, was selected. When another card
  was selected, the two clicks leave nothing selected (`Selection.ToggleTwice`).
- The loader's cleanup clears the interval and the exit timeout, but it does
  not stop an exit tween that is already running. The completion callback can
  therefore arrive after cleanup (`LoadingScreen.CompletionAfterCleanup`). So
  completion happens at most once per run of the effect, not exactly once.
- The table used by `scrollToSection` has no "history" or "home" entry, so
  asking for either scrolls nowhere.
- In the page, the menu button's callback is `setIsMobileMenuOpen(!isMobileMenuOpen)`.
  It uses the value from the current render (`Page.ToggleMobileMenu(rendered)`).
  Wired to the navigation bar of `layout/Navigation.tsx`, a navigation click
  whose menu was open would therefore set `false` twice and end closed.
- `ThemeProvider.toggleTheme` dispatches "theme-change" synchronously, and the
  provider's own listener runs inside the toggle (`Provider.Toggle` calls
  `OnThemeChange`).
- A "storage" event reports another tab's write to the shared storage, so the
  model's `stored` field becomes `newValue` when the key is "theme". A null
  key reports `localStorage.clear()`, which empties it.

## Model

| member | source | states |
|---|---|---|
| `Selection.Toggle` | src/components/sections/ProjectsSection.tsx:51-55 | the new selection is null exactly when the clicked item was the one selected, and is the clicked item otherwise |
| `Selection.ToggleSelects` | src/components/sections/ExperienceSection.tsx:17-19 | after a click, an item is selected iff it is the clicked one and that one was not already selected |
| `Selection.ToggleTwice` | src/components/sections/ProjectsSection.tsx:51-55 | two clicks on one item restore the earlier selection iff nothing or that item was selected; with another item selected they end with nothing selected |
| `Selection.AtMostOneSelected` | src/components/sections/ExperienceSection.tsx:50 | two selected items are the same item |
| `Progress.Tick` | src/hooks/useLoading.ts:15-21 | a tick never exceeds 100, never decreases a value at most 100, adds exactly 4 unless it clamps to 100, and stays below 100 iff `p + 4 < 100` |
| `Progress.TicksFromZero` | src/hooks/useLoading.ts:14-23 | after `k` ticks from 0 the progress is `min(4k, 100)` |
| `Progress.TicksFrom` | src/hooks/useLoading.ts:15-21 | from any `p` in [0, 100], `k` ticks give `min(p + 4k, 100)` |
| `Progress.TickAtComplete` | src/hooks/useLoading.ts:17-19 | once at 100, any number of further ticks leaves 100 |
| `Progress.TerminatesAfter25` | src/hooks/useLoading.ts:14-23 | the progress from 0 is 100 exactly from the 25th tick on |
| `Progress.TicksMonotone` | src/hooks/useLoading.ts:16-21 | along the ticks the progress stays in [0, 100] and never decreases |
| `Progress.MultipleOfFour` | src/hooks/useLoading.ts:16-19 | every progress value reached from 0 is a multiple of 4 |
| `Progress.LoadingHook.constructor` | src/hooks/useLoading.ts:9-14 | loading starts true, progress 0, the interval set |
| `Progress.LoadingHook.IntervalTick` | src/hooks/useLoading.ts:14-23 | an active interval maps progress to `Tick` of it and is cleared exactly by the tick that reaches 100; a cleared one changes nothing; `isLoading` is untouched; the progress invariant is kept |
| `Progress.LoadingHook.Unmount` | src/hooks/useLoading.ts:26-29 | cleanup leaves the interval cleared |
| `Progress.LoadingHook.SetIsLoading` | src/hooks/useLoading.ts:32 | the returned setter is the only operation that writes `isLoading` |
| `Progress.LoadingHook.SetLoadingProgress` | src/hooks/useLoading.ts:32 | the returned progress setter writes any value |
| `ThemeResolution.ThemeName` | src/pages/index.tsx:619 | the stored name is "dark" iff the mode is dark, otherwise "light" |
| `ThemeResolution.ResolutionCases` | src/pages/index.tsx:363-369 | a saved "dark" gives dark; any other non-empty saved string (such as "light") gives light whatever the system prefers; with nothing usable saved the system preference decides |
| `ThemeResolution.StoredNameResolves` | src/providers/ThemeProvider.tsx:15-17 | the name a toggle writes resolves back to that same mode, whatever the system prefers |
| `ThemeProvider.UseTheme` | src/providers/ThemeProvider.tsx:60-66 | without a provider the hook fails with "useTheme must be used within a ThemeProvider"; with one it returns that context |
| `ThemeProvider.Provider.constructor` | src/providers/ThemeProvider.tsx:11 | the mode is dark before initialisation; storage and class are the browser's |
| `ThemeProvider.Provider.Init` | src/providers/ThemeProvider.tsx:14-20 | the mode is the resolution of the stored value and the system preference, and the class tracks it |
| `ThemeProvider.Provider.OnStorage` | src/providers/ThemeProvider.tsx:23-32 | for key "theme" the mode becomes `newValue == "dark"` (a removed entry means light) and the class tracks it; other keys leave the mode and the class alone, a null key (storage cleared) also empties the entry, and a class that tracked the mode still does |
| `ThemeProvider.Provider.OnThemeChange` | src/providers/ThemeProvider.tsx:35-42 | the mode becomes `detail == "dark"` and the class tracks it |
| `ThemeProvider.Provider.Toggle` | src/providers/ThemeProvider.tsx:44-51 | stores the opposite mode's name, takes the opposite mode, which equals `stored == "dark"`, keeps the class in step and dispatches the stored name as the event detail |
| `ThemeProvider.Provider.Context` | src/providers/ThemeProvider.tsx:53-55 | consumers see the provider's current mode |
| `ThemeProvider.ToggleTwice` | src/providers/ThemeProvider.tsx:44-51 | two toggles restore the mode, keep the class in step (restoring it when it was in step before), leave the original mode's name stored, and dispatch the opposite name and then the original one |
| `ThemeProvider.ToggleThenReload` | src/providers/ThemeProvider.tsx:14-20 | after a toggle, a fresh provider over the same storage resolves to the toggled mode, whatever the system prefers |
| `Sections.SectionFor` | src/pages/index.tsx:632-639 | a found section is registered under exactly that name; a name not found belongs to no section |
| `Sections.ScrollTarget` | src/pages/index.tsx:639-647 | the page scrolls iff the name is in the table and that section's ref is attached, and then to the named section |
| `Sections.SectionNameRoundTrip` | src/pages/index.tsx:632-637 | every one of the four sections is found under its own name |
| `Sections.HomeIsUnknown` | src/pages/index.tsx:632-640 | "home" is not in the table and never scrolls |
| `Navigation.HandleNavClick` | src/components/layout/Navigation.tsx:59-65 | a click always asks to scroll to its section first, and calls the menu toggle iff the menu is open |
| `Navigation.LogoClick` | src/components/layout/Navigation.tsx:80-87 | the logo issues a single scroll request, for "home" |
| `Navigation.ThemeIcon` | src/components/layout/Navigation.tsx:120-124 | the theme button shows Sun iff dark mode, Moon otherwise |
| `Navigation.MenuIcon` | src/components/layout/Navigation.tsx:149-153 | the menu button shows a cross iff the mobile panel is rendered, bars otherwise |
| `Navigation.NavigationItemsMatchSections` | src/components/layout/Navigation.tsx:48-53 | there are four items, each naming the section of the same position in page order (About, Experience, Projects, Skills), so each resolves in the page's table |
| `Navigation.LogoScrollsNowhere` | src/components/layout/Navigation.tsx:82 | the logo's request for "home" never scrolls |
| `Projects.VisibleProjects` | src/components/sections/ProjectsSection.tsx:33-34 | the visible projects are always a prefix of the list: all of them when `showAll` or when there are at most four, otherwise exactly the first four |
| `Projects.DetailsLabel` | src/components/sections/ProjectsSection.tsx:140-142 | a card reads "Hide Details" iff it shows its details, otherwise "Show Details" |
| `Projects.MoreButton` | src/components/sections/ProjectsSection.tsx:150-161 | the pagination button exists iff there are more than four projects, and reads "Show Less" iff `showAll`, "View More" otherwise |
| `Projects.LinkUrl` | src/components/sections/ProjectsSection.tsx:74-113 | GitHub always opens the repository URL; Live and Demo are rendered only for a non-empty URL and open exactly it |
| `Projects.AtMostOneDetailsShown` | src/components/sections/ProjectsSection.tsx:116-134 | with unique ids, two visible cards showing details are the same card, and it is the expanded project |
| `Projects.ShowAllMatters` | src/components/sections/ProjectsSection.tsx:150-158 | flipping `showAll` changes the rendered list exactly when the pagination button is rendered, i.e. when there are more than four projects |
| `Projects.ProjectsSection.constructor` | src/components/sections/ProjectsSection.tsx:32 | the section starts collapsed to the first four |
| `Projects.ProjectsSection.Visible` | src/components/sections/ProjectsSection.tsx:34 | what is rendered is a prefix of the projects |
| `Projects.ProjectsSection.ToggleShowAll` | src/components/sections/ProjectsSection.tsx:156 | the click negates `showAll`, and the rendered list changes when there are more than four |
| `Experience.ToggleLabel` | src/components/sections/ExperienceSection.tsx:117-119 | the button reads "Hide Details" iff the card is expanded, "Show Details" iff it is not |
| `Experience.RenderFollowsOpenIndex` | src/components/sections/ExperienceSection.tsx:137-145 | a card is aria-expanded iff its description is not aria-hidden, and no two cards are expanded |
| `Experience.ExperienceSection.constructor` | src/components/sections/ExperienceSection.tsx:15 | no card is open at first |
| `Experience.ExperienceSection.HandleToggle` | src/components/sections/ExperienceSection.tsx:17-19 | the open index becomes null if it was `idx`, otherwise `idx`; the clicked card's expansion flips |
| `Experience.ExperienceSection.ClickInnerButton` | src/components/sections/ExperienceSection.tsx:110-113 | a click on the inner button applies one toggle to the rendered `openIndex`; the card's own handler does not run |
| `History.ExactlyOneRendered` | src/components/sections/HistorySection.tsx:71-137 | exactly one of the experience and education blocks is rendered, and it is the one whose button is highlighted |
| `History.HistorySection.constructor` | src/components/sections/HistorySection.tsx:27-29 | the experience tab is active at first |
| `History.HistorySection.HandleTabChange` | src/components/sections/HistorySection.tsx:31-33 | the clicked tab becomes active and highlighted; clicking the active tab changes nothing |
| `Typewriter.Next` | src/components/sections/HeroSection.tsx:53-79 | a tick keeps the invariant, so the text is a prefix of the current word; typing adds exactly one character, deleting removes exactly one; the word changes only when deleting reaches 0, and then to `(i + 1) mod n` in the typing phase; a typing tick at full length always flips to deleting and no other typing tick does; the phase flips back only at 0 |
| `Typewriter.Steps` | src/components/sections/HeroSection.tsx:48-82 | any number of ticks keeps the invariant |
| `Typewriter.TypesOut` | src/components/sections/HeroSection.tsx:67-71 | typing from character `c` shows the whole word after `|w| - c` ticks |
| `Typewriter.DeletesDown` | src/components/sections/HeroSection.tsx:57-61 | deleting from character `c` reaches the empty text after `c` ticks |
| `Typewriter.FullCycle` | src/components/sections/HeroSection.tsx:55-75 | from the start of word `i`, `2|w| + 2` ticks lead to the start of word `(i + 1) mod n` |
| `Typewriter.WordOrder` | src/components/sections/HeroSection.tsx:37-65 | "an Engineer", "a Developer" and "a Gamer" are visited in order, and then the first comes back |
| `Typewriter.Typewriter.constructor` | src/components/sections/HeroSection.tsx:31-37 | the effect starts with empty text, word 0, character 0, typing |
| `Typewriter.Typewriter.Tick` | src/components/sections/HeroSection.tsx:53-79 | the four state variables take the values of `Next`, and the text stays the current word cut to the character index |
| `LoadingScreen.Greeter.constructor` | src/components/LoadingScreen.tsx:25-53 | the heading shows `greetings[0]`, both timers are set and nothing has completed |
| `LoadingScreen.Greeter.IntervalTick` | src/components/LoadingScreen.tsx:31-50 | an active interval advances the index to `(index + 1) mod n` and appends the new heading to the history of headings shown; after `k` ticks the heading shows `greetings[k mod n]` |
| `LoadingScreen.Greeter.ExitTimeout` | src/components/LoadingScreen.tsx:27-61 | the exit timer, due at one interval per greeting, clears the interval and starts the exit tween, once; when it fires, at least `n` headings have been shown |
| `LoadingScreen.Greeter.TweenComplete` | src/components/LoadingScreen.tsx:55-60 | the completion callback runs only when the exit tween completes, after the interval was cleared, and at most once per run; once it has run, the first `n` headings shown were the greetings in list order |
| `LoadingScreen.Greeter.FirstCycleInOrder` | src/components/LoadingScreen.tsx:26-43 | once `n` headings have been shown, they are `greetings[0]`, ..., `greetings[n-1]` in that order |
| `LoadingScreen.Greeter.Cleanup` | src/components/LoadingScreen.tsx:63-66 | cleanup clears both timers; afterwards nothing can happen unless the exit tween was already running |
| `LoadingScreen.MountAndCycle` | src/components/LoadingScreen.tsx:25-50 | after the mount and `n - 1` interval ticks the heading shows the last greeting and both timers are still set |
| `LoadingScreen.RunToCompletion` | src/components/LoadingScreen.tsx:26-66 | repeated or late timer and tween events still give exactly one completion, preceded by the whole greeting list in order |
| `LoadingScreen.CompletionAfterCleanup` | src/components/LoadingScreen.tsx:53-66 | an exit tween that was running at cleanup still delivers its completion |
| `Portfolio.Page.constructor` | src/pages/index.tsx:53-66 | the page starts dark, menu closed, loading at progress 0 with the interval set, nothing expanded, and shows the loading screen |
| `Portfolio.Page.InitTheme` | src/pages/index.tsx:362-374 | the mode is the resolution of the saved value and the system preference, a saved "light" gives light, and the class tracks the mode |
| `Portfolio.Page.ProgressTick` | src/pages/index.tsx:339-350 | the page's interval clamps at 100 and stops there, exactly like the hook's |
| `Portfolio.Page.ToggleTheme` | src/pages/index.tsx:611-622 | the mode flips, the class tracks it, the stored value is "dark" iff the new mode is dark, and the theme icon changes |
| `Portfolio.Page.ScrollToSection` | src/pages/index.tsx:631-651 | it scrolls to the attached registered section of that name, if any; an unknown name scrolls nowhere; the mobile menu ends closed in every case |
| `Portfolio.Page.ToggleMobileMenu` | src/pages/index.tsx:729 | the menu becomes the negation of the rendered value |
| `Portfolio.Page.NavClick` | src/components/layout/Navigation.tsx:59-65 | a navigation click scrolls as `scrollToSection` does and always leaves the menu closed |
| `Portfolio.Page.LogoClick` | src/components/layout/Navigation.tsx:80-87 | the logo scrolls nowhere and closes the menu |
| `Portfolio.Page.ClickProjectCard` | src/components/sections/ProjectsSection.tsx:51-55 | the expanded project becomes null iff the clicked card was expanded, otherwise the clicked card |
| `Portfolio.Page.ClickProjectLink` | src/components/sections/ProjectsSection.tsx:78-81 | a link button opens its URL and, stopping propagation, changes no page state |
| `Portfolio.Page.HandleLoadingComplete` | src/pages/index.tsx:455-472 | loading ends and the loading screen is no longer rendered |
| `Portfolio.ToggleThemeTwice` | src/pages/index.tsx:611-622 | two toggles restore the mode and leave the class in step with it, so the class is restored when it was in step before; the stored value then names the original mode; only the theme fields change |
| `Portfolio.ExpandTwoThenThree` | src/components/sections/ProjectsSection.tsx:51-55 | expanding project 2 and then project 3 leaves exactly project 3 expanded; only the expansion changes |

## Left out

- Real time: the 150/100/1500 ms typing delays, the 100 ms progress interval, and the 600 ms greeting interval with its 0.25 s fades. The model also does not fix the order of the interval's last tick and the exit timeout when both fall due at the same moment. Ticks and events are abstract steps, in any order the methods allow.
- `Greeter.ExitTimeout` requires that every greeting-interval firing due before the exit timeout (all but possibly the one due at the same moment) has already fired. The proof that the whole greeting list is shown before completion rests on this timing assumption. Browsers that throttle or coalesce timers, as in a background tab, can break it, and the model does not cover that case.
- `Portfolio.Page.NavClick`, `Portfolio.Page.LogoClick`, `Portfolio.Page.ClickProjectCard` and `Portfolio.Page.ClickProjectLink` connect the page's handlers (src/pages/index.tsx:611-651, 729) to src/components/layout/Navigation.tsx and src/components/sections/ProjectsSection.tsx through the prop names they share. This wiring is an assumption. src/pages/index.tsx as written imports `@/components/Navigation`, `@/components/HeroSection` and `@/components/ProjectsSection`, which are not part of this model, and the stateless `src/components/ExperienceSection.tsx`. `layout/Navigation.tsx` is rendered only by `AppLayout`, which nothing in the repository renders.
- `Portfolio.Page` and `ThemeProvider.Provider` each keep their own `stored` and `darkClass` fields. In the app they stand for one shared local-storage entry and one shared root element, because src/App.tsx renders the page inside `ThemeProvider`. The model does not compose the two objects. Two paths put the shared class out of step with one of the two modes: a "storage" event from another tab reaches only the provider, which rewrites the class but leaves the page's `isDarkMode` (its colours and Sun/Moon icon) unchanged; and the page's `toggleTheme` writes the class and the entry without dispatching "theme-change", which leaves the provider's `isDarkMode` stale.
- HeroSection's pause timer (`setTimeout(() => setIsDeleting(true), 1500)`) is folded into the typing tick at full length, which sets `isDeleting` directly. HeroSection's effect cleanup does not clear this timer, and the effect re-runs on every render of HeroSection because `typingWords` is a new array each time (src/components/sections/HeroSection.tsx:37, 82). A re-render during the pause therefore leaves a second pause timer, which can set `isDeleting` in the middle of the next word. The model does not capture this.
- LoadingScreen's per-tick GSAP timeline (fade out, change the text, fade in) is one atomic step. A timeline still running after cleanup, which could change the text later, is not modelled. A re-run of the effect is a new `Greeter`, and the model describes one run. In the page, `handleLoadingComplete` is a new function on every render, and each 100 ms progress tick re-renders the page. So the loader's effect, whose dependency is `onLoadingComplete`, is cleaned up and restarted on each of the about 25 progress ticks. No greeting interval fires during those first 2.5 s, and the exit runs a full cycle after the last progress tick, about 7.9 s after mount. The page-level composition of the progress hook with the loader is not modelled.
- GSAP tweens and ScrollTrigger, the Lenis smooth-scroll provider, the scroll animation itself, `initializeAnimations`, and the style writes in `handleLoadingComplete`: these are calls into third-party libraries and the DOM.
- The cursor follower: floating-point easing driven by animation frames.
- `window.open` (the résumé button and the project links), console logging, `matchMedia` (it becomes the `prefersDark` input), and failures of local storage.
- Adding and removing the ThemeProvider's event listeners: the handlers are modelled as methods that are always registered while the provider exists.
- The static content arrays and the purely presentational sections (About, Skills, Education, Footer, the layout). `Project` keeps the record shape from `src/types.ts`.
- JavaScript object-key lookup in `sectionRefs` also finds inherited keys such as "toString". Those values have no `current`, so they scroll nowhere, which is the model's `None`.
