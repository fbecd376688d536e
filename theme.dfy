/**
 * The theme context: light and dark palettes, the persisted "theme" preference and
 * the provider state that selects between them.
 */
module ThemeContext {
  import opened Wrappers

  /** The storage key of the preference. */
  const ThemeKey := "theme"

  datatype Palette = Palette(
    primary: string, secondary: string, danger: string, background: string,
    surface: string, text: string, textSecondary: string, border: string,
    success: string, warning: string, info: string)

  datatype Theme = Theme(mode: string, colors: Palette)

  const LightTheme := Theme("light", Palette(
    "#2563eb", "#16a34a", "#dc2626", "#f3f4f6", "#ffffff", "#1f2937",
    "#6b7280", "#e5e7eb", "#16a34a", "#f59e0b", "#3b82f6"))

  const DarkTheme := Theme("dark", Palette(
    "#3b82f6", "#22c55e", "#ef4444", "#111827", "#1f2937", "#f9fafb",
    "#9ca3af", "#374151", "#22c55e", "#fbbf24", "#60a5fa"))

  /** The value written for a preference. */
  function EncodeTheme(isDark: bool): (r: string)
    ensures r == "dark" || r == "light"
    ensures r == "dark" <==> isDark
  {
    if isDark then "dark" else "light"
  }

  /** The flag after loading `saved` (`getItem` gives `None` for a missing key): only "dark" is dark, and a missing value keeps `current`. */
  function DecodeTheme(saved: Option<string>, current: bool): (r: bool)
    ensures saved.None? ==> r == current
    ensures saved.Some? ==> (r <==> saved.value == "dark")
  {
    match saved
    case None => current
    case Some(s) => s == "dark"
  }

  /** What is written is read back as the same preference. */
  lemma ThemeRoundTrip(isDark: bool, current: bool)
    ensures DecodeTheme(Some(EncodeTheme(isDark)), current) == isDark
  {
  }

  /** `isDark ? darkTheme : lightTheme`; its mode is the string that is persisted. */
  function SelectTheme(isDark: bool): (t: Theme)
    ensures t.mode == EncodeTheme(isDark)
    ensures t == if isDark then DarkTheme else LightTheme
  {
    if isDark then DarkTheme else LightTheme
  }

  function Saved(stored: map<string, string>): Option<string>
  {
    if ThemeKey in stored then Some(stored[ThemeKey]) else None
  }

  class Provider {
    var isDark: bool
    var loading: bool
    /** The device's key-value storage. */
    var stored: map<string, string>

    /** The provider starts light and loading, before its load effect runs. */
    constructor (storage: map<string, string>)
      ensures !isDark && loading && stored == storage
    {
      isDark := false;
      loading := true;
      stored := storage;
    }

    function CurrentTheme(): (t: Theme)
      reads this
      ensures t.mode == EncodeTheme(isDark)
    {
      SelectTheme(isDark)
    }

    /** `loadThemePreference`; `readFails` is a rejected `getItem`, which leaves the flag alone. */
    method LoadThemePreference(readFails: bool)
      modifies this
      ensures !loading && stored == old(stored)
      ensures readFails ==> isDark == old(isDark)
      ensures !readFails ==> isDark == DecodeTheme(Saved(stored), old(isDark))
    {
      if !readFails {
        isDark := DecodeTheme(Saved(stored), isDark);
      }
      loading := false;
    }

    /** `toggleTheme`; the flag flips even when the write (`writeFails`) is rejected. */
    method ToggleTheme(writeFails: bool)
      modifies this
      ensures isDark == !old(isDark) && loading == old(loading)
      ensures writeFails ==> stored == old(stored)
      ensures !writeFails ==> stored == old(stored)[ThemeKey := EncodeTheme(isDark)]
    {
      var newTheme := !isDark;
      isDark := newTheme;
      if !writeFails {
        stored := stored[ThemeKey := EncodeTheme(newTheme)];
      }
    }
  }

  /** A saved toggle is what the next launch loads, whatever else is in storage. */
  lemma ToggleSurvivesRelaunch(stored: map<string, string>, isDark: bool, start: bool)
    ensures DecodeTheme(Saved(stored[ThemeKey := EncodeTheme(isDark)]), start) == isDark
  {
    assert Saved(stored[ThemeKey := EncodeTheme(isDark)]) == Some(EncodeTheme(isDark));
  }

  /** A successful toggle followed by a reload in a fresh provider keeps the toggled theme. */
  method ToggleThenRelaunch(storage: map<string, string>) returns (before: bool, after: bool)
    ensures after == !before
  {
    var p := new Provider(storage);
    p.LoadThemePreference(false);
    before := p.isDark;
    p.ToggleTheme(false);
    var q := new Provider(p.stored);
    ToggleSurvivesRelaunch(storage, !before, false);
    q.LoadThemePreference(false);
    after := q.isDark;
  }

  /** Two successful toggles restore the flag and leave the original preference persisted. */
  method ToggleTwice(storage: map<string, string>) returns (before: bool, after: bool, persisted: string)
    ensures after == before
    ensures persisted == EncodeTheme(before)
  {
    var p := new Provider(storage);
    p.LoadThemePreference(false);
    before := p.isDark;
    p.ToggleTheme(false);
    p.ToggleTheme(false);
    after := p.isDark;
    persisted := p.stored[ThemeKey];
  }
}
