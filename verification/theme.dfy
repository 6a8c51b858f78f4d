/**
 The colour theme: the mode chosen when the app starts, the effect that
 mirrors the mode into the root element's class list and into storage, and
 the toggle.

 Storage and the colour-scheme media query are parameters; the circular
 reveal animation of the toggle is not modelled.
 */
module Theme {
  import opened Types

  /** The storage value `localStorage.getItem('theme')`, missing or a string. */
  type Stored = Option<string>

  /**
   The starting mode: dark when storage says "dark", or when storage holds
   nothing (missing or empty) and the system prefers dark.
   */
  function InitialDark(saved: Stored, prefersDark: bool): (dark: bool)
    ensures saved == Some("dark") ==> dark
    ensures saved.Some? && saved.value != "" && saved.value != "dark" ==> !dark
    ensures (saved.None? || saved == Some("")) ==> dark == prefersDark
  {
    saved == Some("dark") || ((saved.None? || saved.value == "") && prefersDark)
  }

  /** The page's theme state: the mode, the storage entry, and whether the root carries the `dark` class. */
  datatype ThemeState = ThemeState(dark: bool, stored: Stored, rootDark: bool)

  /** The effect run after every change of mode: root class and storage follow the mode. */
  function Persist(s: ThemeState): (r: ThemeState)
    ensures r.dark == s.dark && r.rootDark == s.dark
    ensures r.stored.Some? && r.stored.value != ""
    ensures InitialDark(r.stored, false) == s.dark && InitialDark(r.stored, true) == s.dark
    ensures Synced(r)
    ensures Synced(s) ==> r == s
  {
    s.(stored := Some(if s.dark then "dark" else "light"), rootDark := s.dark)
  }

  /** The app starting up: the starting mode, then the effect. */
  function Start(saved: Stored, prefersDark: bool): (r: ThemeState)
    ensures r.dark == InitialDark(saved, prefersDark) && r.rootDark == r.dark
    ensures Synced(r)
    ensures saved == Some("dark") || saved == Some("light") ==> r.stored == saved
    ensures saved.None? || saved == Some("") ==> r.stored == Some(if prefersDark then "dark" else "light")
  {
    Persist(ThemeState(InitialDark(saved, prefersDark), saved, false))
  }

  /** In sync: the root class and storage both reflect the mode. */
  predicate Synced(s: ThemeState) {
    s.rootDark == s.dark && s.stored == Some(if s.dark then "dark" else "light")
  }

  /**
   `toggleTheme`, followed by the effect. With and without view transitions
   the mode is flipped the same way; the two branches differ only in the
   animation.
   */
  function Toggle(s: ThemeState): (r: ThemeState)
    ensures r.dark == !s.dark
    ensures Synced(r)
  {
    Persist(s.(dark := !s.dark))
  }

  /** `n` toggles in a row. */
  function ToggleTimes(s: ThemeState, n: nat): ThemeState
    decreases n
  {
    if n == 0 then s else ToggleTimes(Toggle(s), n - 1)
  }

  /**
   After any number of toggles the page is in sync and the mode is flipped
   once per toggle; a restart, whatever the system prefers, comes back in
   the mode it left.
   */
  lemma {:induction false} TogglesPersist(s: ThemeState, n: nat, prefersDark: bool)
    requires Synced(s)
    ensures Synced(ToggleTimes(s, n))
    ensures ToggleTimes(s, n).dark == (if n % 2 == 0 then s.dark else !s.dark)
    ensures Start(ToggleTimes(s, n).stored, prefersDark).dark == ToggleTimes(s, n).dark
    decreases n
  {
    if n > 0 {
      TogglesPersist(Toggle(s), n - 1, prefersDark);
    }
  }
}
