/** The colour theme shared by the root route and the sidebar (`"light" | "dark"`). */
module Themes {
  import opened Wrappers

  datatype Theme = Light | Dark

  /** The theme's name as it appears in cookies and form fields. */
  function ThemeName(t: Theme): (name: string)
    ensures |name| > 0
  {
    match t
    case Light => "light"
    case Dark => "dark"
  }

  /** The theme a submitted string names: exactly "light" or "dark". */
  function ParseTheme(s: string): (r: Option<Theme>)
    ensures r.Some? <==> s == "light" || s == "dark"
    ensures r.Some? ==> ThemeName(r.value) == s
  {
    if s == "light" then Some(Light) else if s == "dark" then Some(Dark) else None
  }

  /** Every theme's name parses back to that theme. */
  lemma ParseThemeName(t: Theme)
    ensures ParseTheme(ThemeName(t)) == Some(t)
  {
  }
}
