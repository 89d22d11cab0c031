/**
 * Theme choice and its application to the document (services/theme.service.ts).
 * The `prefers-color-scheme: dark` media query is the boolean parameter
 * `systemDark`; the root's `data-theme` attribute and the body's class list are
 * fields; local storage is the optional value under the theme key.
 */
module Themes {
  import opened Wrappers

  datatype Theme = Light | Dark | Auto

  /** The resolved theme, never `auto`. */
  datatype EffectiveTheme = EffectiveLight | EffectiveDark

  function ThemeName(t: Theme): string
  {
    match t
    case Light => "light"
    case Dark => "dark"
    case Auto => "auto"
  }

  function EffectiveName(e: EffectiveTheme): string
  {
    match e
    case EffectiveLight => "light"
    case EffectiveDark => "dark"
  }

  /** The body class that marks an effective theme. */
  function ModeClass(e: EffectiveTheme): (c: string)
    ensures c == EffectiveName(e) + "-mode"
  {
    match e
    case EffectiveLight => "light-mode"
    case EffectiveDark => "dark-mode"
  }

  function AsTheme(e: EffectiveTheme): (t: Theme)
    ensures t != Auto
    ensures ThemeName(t) == EffectiveName(e)
  {
    match e
    case EffectiveLight => Light
    case EffectiveDark => Dark
  }

  /** `getStoredTheme`: the stored value when it names a theme, `auto` otherwise. */
  function StoredTheme(storageAvailable: bool, stored: Option<string>): (t: Theme)
    ensures storageAvailable && stored.Some? && stored.value in {"light", "dark", "auto"} ==> ThemeName(t) == stored.value
    ensures !storageAvailable || stored.None? || stored.value !in {"light", "dark", "auto"} ==> t == Auto
  {
    if !storageAvailable then Auto
    else if stored == Some("light") then Light
    else if stored == Some("dark") then Dark
    else Auto
  }

  /** Reading back a stored theme name gives the theme that was stored. */
  lemma StoredThemeRoundTrip(t: Theme)
    ensures StoredTheme(true, Some(ThemeName(t))) == t
  {
  }

  /** `getSystemTheme` */
  function SystemTheme(systemDark: bool): (e: EffectiveTheme)
    ensures e == EffectiveDark <==> systemDark
    ensures EffectiveName(e) == (if systemDark then "dark" else "light")
  {
    if systemDark then EffectiveDark else EffectiveLight
  }

  /** The effective theme `applyTheme` computes: the explicit choice, or the system's for `auto`. */
  function Resolve(t: Theme, systemDark: bool): (e: EffectiveTheme)
    ensures t != Auto ==> AsTheme(e) == t
    ensures t == Auto ==> (e == EffectiveDark <==> systemDark)
  {
    if t == Auto then SystemTheme(systemDark) else if t == Dark then EffectiveDark else EffectiveLight
  }

  /** What `toggleTheme` asks for: the opposite of the effective theme. */
  function Opposite(e: EffectiveTheme): (t: Theme)
    ensures t != Auto && AsTheme(e) != t
  {
    if e == EffectiveLight then Dark else Light
  }

  /** Toggling from a resolved theme and resolving again flips it; flipping twice restores it. */
  lemma ToggleTwiceRestores(e: EffectiveTheme, systemDark: bool)
    ensures Resolve(Opposite(e), systemDark) != e
    ensures Resolve(Opposite(Resolve(Opposite(e), systemDark)), systemDark) == e
  {
  }

  class ThemeService {
    var theme: Theme
    var effectiveTheme: EffectiveTheme
    /** The root element's `data-theme` attribute. */
    var dataTheme: Option<string>
    /** The body element's class list. */
    var bodyClasses: set<string>
    const storageAvailable: bool
    /** The value stored under the theme key. */
    var stored: Option<string>

    /** The document always shows the effective theme, and only it. */
    ghost predicate Valid()
      reads this
    {
      && dataTheme == Some(EffectiveName(effectiveTheme))
      && ModeClass(effectiveTheme) in bodyClasses
      && ("light-mode" in bodyClasses <==> effectiveTheme == EffectiveLight)
      && ("dark-mode" in bodyClasses <==> effectiveTheme == EffectiveDark)
    }

    /** Read the stored theme and apply it. */
    constructor (storageAvailable: bool, stored: Option<string>, classes: set<string>, systemDark: bool)
      ensures Valid()
      ensures theme == StoredTheme(storageAvailable, stored)
      ensures effectiveTheme == Resolve(theme, systemDark)
      ensures this.storageAvailable == storageAvailable && this.stored == stored
      ensures bodyClasses - {"light-mode", "dark-mode"} == classes - {"light-mode", "dark-mode"}
    {
      this.storageAvailable := storageAvailable;
      this.stored := stored;
      theme := StoredTheme(storageAvailable, stored);
      bodyClasses := classes;
      dataTheme := None;
      effectiveTheme := EffectiveLight;
      new;
      ApplyTheme(theme, systemDark);
    }

    /** `applyTheme`: clear the old marks, resolve the theme, mark the document with it. */
    method ApplyTheme(t: Theme, systemDark: bool)
      modifies this`effectiveTheme, this`dataTheme, this`bodyClasses
      ensures Valid()
      ensures effectiveTheme == Resolve(t, systemDark)
      ensures bodyClasses == old(bodyClasses) - {"light-mode", "dark-mode"} + {ModeClass(effectiveTheme)}
    {
      bodyClasses := bodyClasses - {"dark-mode", "light-mode"};
      dataTheme := None;
      var effective: EffectiveTheme;
      if t == Auto {
        effective := SystemTheme(systemDark);
      } else {
        effective := if t == Dark then EffectiveDark else EffectiveLight;
      }
      if effective == EffectiveDark {
        bodyClasses := bodyClasses + {"dark-mode"};
        dataTheme := Some("dark");
      } else {
        bodyClasses := bodyClasses + {"light-mode"};
        dataTheme := Some("light");
      }
      effectiveTheme := effective;
    }

    /** `setTheme`, followed by the effect that applies the new theme. */
    method SetTheme(t: Theme, systemDark: bool)
      modifies this
      ensures Valid()
      ensures theme == t && effectiveTheme == Resolve(t, systemDark)
      ensures stored == if storageAvailable then Some(ThemeName(t)) else old(stored)
      ensures StoredTheme(storageAvailable, stored) == if storageAvailable then t else old(StoredTheme(storageAvailable, stored))
      ensures bodyClasses - {"light-mode", "dark-mode"} == old(bodyClasses) - {"light-mode", "dark-mode"}
    {
      theme := t;
      StoreTheme(t);
      ApplyTheme(t, systemDark);
    }

    /** `toggleTheme`: switch to the opposite of what is shown, never to `auto`. */
    method ToggleTheme(systemDark: bool)
      requires Valid()
      modifies this
      ensures Valid()
      ensures theme == Opposite(old(effectiveTheme)) && theme != Auto
      ensures effectiveTheme != old(effectiveTheme)
      ensures stored == if storageAvailable then Some(ThemeName(theme)) else old(stored)
      ensures bodyClasses - {"light-mode", "dark-mode"} == old(bodyClasses) - {"light-mode", "dark-mode"}
    {
      var current := effectiveTheme;
      SetTheme(if current == EffectiveLight then Dark else Light, systemDark);
    }

    /** `isDark` */
    function IsDark(): (dark: bool)
      reads this
      requires Valid()
      ensures dark <==> dataTheme == Some("dark")
    {
      effectiveTheme == EffectiveDark
    }

    /** The `prefers-color-scheme` listener: re-apply only when following the system. */
    method OnSystemPreferenceChange(systemDark: bool)
      requires Valid()
      modifies this
      ensures Valid()
      ensures theme == old(theme) && stored == old(stored)
      ensures old(theme) == Auto ==> effectiveTheme == Resolve(Auto, systemDark)
      ensures old(theme) != Auto ==> unchanged(this)
      ensures bodyClasses - {"light-mode", "dark-mode"} == old(bodyClasses) - {"light-mode", "dark-mode"}
    {
      if theme == Auto {
        ApplyTheme(theme, systemDark);
      }
    }

    /** `storeTheme`: write the theme name when storage exists. */
    method StoreTheme(t: Theme)
      modifies this`stored
      ensures stored == if storageAvailable then Some(ThemeName(t)) else old(stored)
    {
      if storageAvailable {
        stored := Some(ThemeName(t));
      }
    }
  }
}
