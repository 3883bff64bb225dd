/** The theme context: the chosen theme, the derived dark-mode flag, and the
    copy kept in local storage under "theme". */
module Theme {
  import opened Wrappers

  const StorageKey := "theme"

  /** The provider's state once its effects have run; `storage` stands for
      the browser's local storage. */
  datatype ThemeState = ThemeState(theme: string, darkMode: bool, storage: map<string, string>)

  /** `darkMode` is kept equal to `theme === 'dark'`. */
  predicate Consistent(st: ThemeState) { st.darkMode == (st.theme == "dark") }

  /** The first render: theme "system", dark mode off, storage as found. */
  function Initial(storage: map<string, string>): (st: ThemeState)
    ensures st.theme == "system" && !st.darkMode && st.storage == storage
    ensures Consistent(st)
  {
    ThemeState("system", false, storage)
  }

  /** `setTheme`: the theme and its stored copy both become `t`. */
  function SetTheme(st: ThemeState, t: string): (r: ThemeState)
    ensures r.theme == t && StorageKey in r.storage && r.storage[StorageKey] == t
    ensures forall k :: k in st.storage && k != StorageKey ==> k in r.storage && r.storage[k] == st.storage[k]
    ensures r.storage.Keys == st.storage.Keys + {StorageKey}
    ensures Consistent(r)
  {
    ThemeState(t, t == "dark", st.storage[StorageKey := t])
  }

  /** `toggleDarkMode`: "dark" becomes "light", every other theme "dark". */
  function ToggleDarkMode(st: ThemeState): (r: ThemeState)
    ensures st.theme == "dark" ==> r.theme == "light" && !r.darkMode
    ensures st.theme != "dark" ==> r.theme == "dark" && r.darkMode
    ensures StorageKey in r.storage && r.storage[StorageKey] == r.theme
  {
    SetTheme(st, if st.theme == "dark" then "light" else "dark")
  }

  /** The mount effect: the stored theme, or "system" when nothing (or an empty
      string) is stored. Storage itself is not written. */
  function Mount(st: ThemeState): (r: ThemeState)
    ensures StorageKey in st.storage && st.storage[StorageKey] != "" ==> r.theme == st.storage[StorageKey]
    ensures StorageKey !in st.storage || st.storage[StorageKey] == "" ==> r.theme == "system"
    ensures r.storage == st.storage && Consistent(r)
  {
    var saved := if StorageKey in st.storage && st.storage[StorageKey] != "" then st.storage[StorageKey] else "system";
    ThemeState(saved, saved == "dark", st.storage)
  }

  /** Toggling twice returns to "dark" from "dark" but lands on "light" from
      any other theme, "system" included. */
  lemma ToggleTwice(st: ThemeState)
    ensures st.theme == "dark" ==> ToggleDarkMode(ToggleDarkMode(st)).theme == "dark"
    ensures st.theme != "dark" ==> ToggleDarkMode(ToggleDarkMode(st)).theme == "light"
    ensures ToggleDarkMode(ToggleDarkMode(Initial(st.storage))).theme == "light"
  {
  }

  /** A theme set in one session is the one the next session starts with,
      unless it was the empty string, which reads back as "system". */
  lemma ThemeSurvivesReload(st: ThemeState, t: string)
    ensures Mount(Initial(SetTheme(st, t).storage)).theme == (if t == "" then "system" else t)
    ensures Mount(Initial(ToggleDarkMode(st).storage)) == ToggleDarkMode(st)
  {
  }

  /** The provider's value, as a consumer sees it. */
  datatype ThemeContextValue = ThemeContextValue(theme: string, darkMode: bool)

  /** `useThemeContext` outside the provider throws. */
  function UseThemeContext(context: Option<ThemeContextValue>): (r: Result<ThemeContextValue, string>)
    ensures context.Some? <==> r.Ok?
    ensures r.Ok? ==> r.value == context.value
    ensures r.Err? ==> r.error == "useThemeContext must be used within a ThemeProviderCustom"
  {
    match context
    case None => Err("useThemeContext must be used within a ThemeProviderCustom")
    case Some(c) => Ok(c)
  }
}
