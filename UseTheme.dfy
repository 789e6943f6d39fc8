/**
 * The theme composable of src/composables/useTheme.ts. The browser is reduced to
 * what it reads: whether `window` exists, whether the dark-scheme media query
 * matches, and the class names on the document root.
 */
module UseTheme {
  import opened Theme

  /** `FA_DARK_CLASS`: the root class that switches the page to dark. */
  const DarkClass := "dark"

  /** The platform as the composable sees it at one moment. */
  datatype Platform = Platform(hasWindow: bool, prefersDark: bool)

  /** `getSystemTheme`. */
  function GetSystemTheme(platform: Platform): (t: AppliedTheme)
    ensures !platform.hasWindow ==> t == Light
    ensures platform.hasWindow ==> (t == Dark <==> platform.prefersDark)
  {
    if !platform.hasWindow then Light
    else if platform.prefersDark then Dark else Light
  }

  /** The choice made by `updateTheme`: the system theme for `system`, the mode itself otherwise. */
  function Resolve(mode: ThemeMode, platform: Platform): (t: AppliedTheme)
    ensures mode == LightMode ==> t == Light
    ensures mode == DarkMode ==> t == Dark
    ensures mode == SystemMode ==> t == GetSystemTheme(platform)
  {
    match mode
    case LightMode => Light
    case DarkMode => Dark
    case SystemMode => GetSystemTheme(platform)
  }

  /** Only the `system` mode depends on the platform. */
  lemma ResolveFixedModes(mode: ThemeMode, p: Platform, q: Platform)
    requires mode != SystemMode
    ensures Resolve(mode, p) == Resolve(mode, q)
  {
  }

  /** `document.documentElement`, reduced to its class list. */
  class DocumentRoot {
    var classList: set<string>

    constructor (classList: set<string>)
      ensures this.classList == classList
    {
      this.classList := classList;
    }
  }

  class ThemeController {
    const store: ThemeStore
    const root: DocumentRoot
    /** `mediaQuery` is non-null. */
    var hasMediaQuery: bool
    /** `handleSystemThemeChange` is registered on the media query held in `mediaQuery`. */
    var listening: bool
    /**
     * Registrations of `handleSystemThemeChange` left on media queries that an
     * earlier `initTheme` created and a later one replaced: `cleanup` no longer
     * reaches them.
     */
    var strayListeners: nat

    constructor (store: ThemeStore, root: DocumentRoot)
      ensures this.store == store && this.root == root
      ensures !hasMediaQuery && !listening && strayListeners == 0
    {
      this.store := store;
      this.root := root;
      hasMediaQuery := false;
      listening := false;
      strayListeners := 0;
    }

    /** `applyTheme`: the root has the dark class exactly for the dark theme; no other class changes. */
    method ApplyTheme(theme: AppliedTheme)
      modifies root, store`appliedTheme
      ensures root.classList == if theme == Dark then old(root.classList) + {DarkClass} else old(root.classList) - {DarkClass}
      ensures DarkClass in root.classList <==> theme == Dark
      ensures store.appliedTheme == theme
    {
      if theme == Dark {
        root.classList := root.classList + {DarkClass};
      } else {
        root.classList := root.classList - {DarkClass};
      }
      store.SetAppliedTheme(theme);
    }

    /** `updateTheme`: apply what the current mode resolves to. */
    method UpdateTheme(platform: Platform)
      modifies root, store`appliedTheme
      ensures store.appliedTheme == Resolve(store.currentTheme, platform)
      ensures DarkClass in root.classList <==> store.appliedTheme == Dark
      ensures root.classList - {DarkClass} == old(root.classList) - {DarkClass}
    {
      var applied: AppliedTheme;
      if store.currentTheme == SystemMode {
        applied := GetSystemTheme(platform);
      } else {
        applied := if store.currentTheme == DarkMode then Dark else Light;
      }
      ApplyTheme(applied);
    }

    /** `handleSystemThemeChange`: follow the system only while the mode is `system`. */
    method HandleSystemThemeChange(matches: bool)
      modifies root, store`appliedTheme
      ensures store.currentTheme != SystemMode ==> store.appliedTheme == old(store.appliedTheme) && root.classList == old(root.classList)
      ensures store.currentTheme == SystemMode ==> store.appliedTheme == (if matches then Dark else Light)
      ensures store.currentTheme == SystemMode ==> (DarkClass in root.classList <==> matches)
      ensures root.classList - {DarkClass} == old(root.classList) - {DarkClass}
    {
      if store.currentTheme == SystemMode {
        ApplyTheme(if matches then Dark else Light);
      }
    }

    /** `setTheme` of the composable: record the mode, then apply its resolution. */
    method SetTheme(theme: ThemeMode, platform: Platform)
      modifies root, store
      ensures store.currentTheme == theme
      ensures store.appliedTheme == Resolve(theme, platform)
      ensures DarkClass in root.classList <==> Resolve(theme, platform) == Dark
      ensures root.classList - {DarkClass} == old(root.classList) - {DarkClass}
    {
      store.SetTheme(theme);
      UpdateTheme(platform);
    }

    /**
     * `initTheme`: with a window, listen on a new media query, which replaces the
     * one held before; then apply the current mode. A listener still registered
     * on the replaced query stays there.
     */
    method InitTheme(platform: Platform)
      modifies this, root, store`appliedTheme
      ensures hasMediaQuery == (old(hasMediaQuery) || platform.hasWindow)
      ensures listening == (old(listening) || platform.hasWindow)
      ensures strayListeners == old(strayListeners) + if platform.hasWindow && old(listening) then 1 else 0
      ensures store.appliedTheme == Resolve(store.currentTheme, platform)
      ensures DarkClass in root.classList <==> store.appliedTheme == Dark
      ensures root.classList - {DarkClass} == old(root.classList) - {DarkClass}
    {
      if platform.hasWindow {
        if listening {
          strayListeners := strayListeners + 1;
        }
        hasMediaQuery := true;
        listening := true;
      }
      UpdateTheme(platform);
    }

    /**
     * `cleanup`: unregister the listener from the media query held now; without
     * one it does nothing. Stray registrations on replaced queries are untouched.
     */
    method Cleanup()
      modifies this`listening
      ensures listening == (old(listening) && !hasMediaQuery)
      ensures strayListeners == old(strayListeners)
    {
      if hasMediaQuery {
        listening := false;
      }
    }
  }
}
