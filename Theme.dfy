/** The theme store of src/stores/theme.ts: the chosen mode and the theme actually applied. */
module Theme {

  /** `ThemeMode`: what the user chose. */
  datatype ThemeMode = LightMode | DarkMode | SystemMode

  /** `AppliedTheme`: what the page shows. */
  datatype AppliedTheme = Light | Dark

  /** `FA_DEFAULT_THEME`. */
  const DefaultTheme := SystemMode

  class ThemeStore {
    var currentTheme: ThemeMode
    var appliedTheme: AppliedTheme

    constructor ()
      ensures currentTheme == DefaultTheme && appliedTheme == Light
      ensures IsSystem() && IsLight() && !IsDark()
    {
      currentTheme := DefaultTheme;
      appliedTheme := Light;
    }

    /** `isDark`; exactly one of `isDark` and `isLight` holds. */
    predicate IsDark()
      reads this
      ensures IsDark() <==> !IsLight()
    {
      appliedTheme == Dark
    }

    /** `isLight`. */
    predicate IsLight()
      reads this
    {
      appliedTheme == Light
    }

    /** `isSystem`. */
    predicate IsSystem()
      reads this
    {
      currentTheme == SystemMode
    }

    /** `setTheme` of the store: records the mode only. */
    method SetTheme(theme: ThemeMode)
      modifies this`currentTheme
      ensures currentTheme == theme
      ensures IsSystem() <==> theme == SystemMode
    {
      currentTheme := theme;
    }

    /** `setAppliedTheme`: records the applied theme only. */
    method SetAppliedTheme(theme: AppliedTheme)
      modifies this`appliedTheme
      ensures appliedTheme == theme
      ensures IsDark() <==> theme == Dark
    {
      appliedTheme := theme;
    }
  }
}
