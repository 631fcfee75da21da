/** The colour theme: `'light'`, `'dark'` or `'system'`, the last resolved from
    the browser's colour-scheme preference, and the `dark` class on the
    document's root element that the styles key on. The stored theme is plain
    text, so any string can come back from storage. */
module Theme {
  import opened Outcomes
  import opened Browser

  const Light := "light"
  const Dark := "dark"
  const System := "system"

  /** What the browser offers for resolving `'system'`: whether there is a
      window at all, and the answer of the `(prefers-color-scheme: dark)` media
      query, `None` when `matchMedia` is missing. */
  datatype Environment = Environment(hasWindow: bool, prefersDark: Option<bool>)

  /** `resolveSystemTheme()`. */
  function ResolveSystemTheme(env: Environment): (r: string)
    ensures r == Light || r == Dark
    ensures r == Dark <==> env.hasWindow && env.prefersDark == Some(true)
    ensures !env.hasWindow ==> r == Light
  {
    if !env.hasWindow then Light
    else if env.prefersDark.Some? && env.prefersDark.value then Dark
    else Light
  }

  /** The theme `applyTheme` acts on: the system's for `'system'`, the given one
      otherwise. */
  function EffectiveTheme(theme: string, env: Environment): (r: string)
    ensures theme == System ==> r == ResolveSystemTheme(env)
    ensures theme != System ==> r == theme
    ensures r == Dark <==> theme == Dark || (theme == System && ResolveSystemTheme(env) == Dark)
  {
    if theme == System then ResolveSystemTheme(env) else theme
  }

  /** The root's classes once a theme has been applied: `dark` added for the
      dark theme and removed for any other; no other class is touched. */
  function ThemeClasses(classes: set<string>, effective: string): (r: set<string>)
    ensures Dark in r <==> effective == Dark
    ensures r - {Dark} == classes - {Dark}
  {
    if effective == Dark then classes + {Dark} else classes - {Dark}
  }

  /** Applying the same theme twice is applying it once. */
  lemma ThemeClassesIdempotent(classes: set<string>, effective: string)
    ensures ThemeClasses(ThemeClasses(classes, effective), effective) == ThemeClasses(classes, effective)
  {
  }

  /** A string other than `'dark'` and `'system'`, such as a misspelt or empty
      stored theme, leaves the root without the `dark` class. */
  lemma UnrecognisedThemeIsLight(classes: set<string>, theme: string, env: Environment)
    requires theme != Dark && theme != System
    ensures Dark !in ThemeClasses(classes, EffectiveTheme(theme, env))
  {
  }

  /** The theme `applyThemeFromStorage` applies: the stored text, `'system'`
      when there is none or reading throws. */
  function StoredTheme(stored: Option<string>, readThrows: bool): (r: string)
    ensures readThrows || stored.None? ==> r == System
    ensures !readThrows && stored.Some? ==> r == stored.value
  {
    if readThrows then System else stored.GetOr(System)
  }

  /** `applyTheme(theme)`. */
  method ApplyTheme(window: Window, theme: string, env: Environment)
    modifies window
    ensures window.rootClasses == ThemeClasses(old(window.rootClasses), EffectiveTheme(theme, env))
    ensures window.theme == old(window.theme) && window.savedUser == old(window.savedUser)
    ensures window.appSettings == old(window.appSettings) && window.customWords == old(window.customWords)
  {
    var finalTheme := if theme == System then ResolveSystemTheme(env) else theme;
    if finalTheme == Dark {
      window.rootClasses := window.rootClasses + {Dark};
    } else {
      window.rootClasses := window.rootClasses - {Dark};
    }
  }

  /** `applyThemeFromStorage()`. */
  method ApplyThemeFromStorage(window: Window, env: Environment, readThrows: bool)
    modifies window
    ensures window.rootClasses
         == ThemeClasses(old(window.rootClasses), EffectiveTheme(StoredTheme(old(window.theme), readThrows), env))
    ensures window.theme == old(window.theme) && window.savedUser == old(window.savedUser)
    ensures window.appSettings == old(window.appSettings) && window.customWords == old(window.customWords)
  {
    if readThrows {
      ApplyTheme(window, System, env);
    } else {
      var saved := window.theme.GetOr(System);
      ApplyTheme(window, saved, env);
    }
  }

  /** `setTheme(theme)`: stores the theme unless writing throws, and applies it
      either way. */
  method SetTheme(window: Window, theme: string, env: Environment, writeThrows: bool)
    modifies window
    ensures window.theme == if writeThrows then old(window.theme) else Some(theme)
    ensures window.rootClasses == ThemeClasses(old(window.rootClasses), EffectiveTheme(theme, env))
    ensures window.savedUser == old(window.savedUser)
    ensures window.appSettings == old(window.appSettings) && window.customWords == old(window.customWords)
  {
    if !writeThrows {
      window.theme := Some(theme);
    }
    ApplyTheme(window, theme, env);
  }

  /** After a stored `setTheme`, applying the theme from storage changes nothing
      more: the reload shows the theme that was set. */
  lemma SetThemeThenReload(classes: set<string>, theme: string, env: Environment)
    ensures var afterSet := ThemeClasses(classes, EffectiveTheme(theme, env));
      ThemeClasses(afterSet, EffectiveTheme(StoredTheme(Some(theme), false), env)) == afterSet
  {
    ThemeClassesIdempotent(classes, EffectiveTheme(theme, env));
  }
}
