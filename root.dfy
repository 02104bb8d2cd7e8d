/** The root route's theme handling (`app/root.tsx`): reading the theme from
    the `Cookie` header, the cookie the theme action sets, the validation in
    that action and the theme the layout offers next. */
module Root {
  import opened Wrappers
  import opened Themes
  import opened Forms
  import SidebarService

  // ---------------------------------------------------------------------
  // getThemeFromCookie
  // ---------------------------------------------------------------------

  /** `pattern` occurs in `h` at position `p`. */
  predicate OccursAt(h: string, p: nat, pattern: string) {
    p + |pattern| <= |h| && h[p..p + |pattern|] == pattern
  }

  /** The text `theme=<name>` that selects a theme. */
  function ThemePair(t: Theme): (s: string)
    ensures |s| == 6 + |ThemeName(t)|
  {
    "theme=" + ThemeName(t)
  }

  /** The match of `/theme=(light|dark)/` that starts at position `p`, if
      any: the alternatives are tried in order, `light` first. */
  function ThemeMatchAt(h: string, p: nat): (r: Option<Theme>)
    ensures r.Some? ==> OccursAt(h, p, ThemePair(r.value))
    ensures r.None? ==> forall t: Theme :: !OccursAt(h, p, ThemePair(t))
  {
    if OccursAt(h, p, ThemePair(Light)) then Some(Light)
    else if OccursAt(h, p, ThemePair(Dark)) then Some(Dark)
    else
      assert forall t: Theme :: !OccursAt(h, p, ThemePair(t)) by {
        forall t: Theme ensures !OccursAt(h, p, ThemePair(t)) {
          if t == Light {} else {}
        }
      }
      None
  }

  /** The leftmost match at or after position `p` (the regular expression
      is not anchored), and the theme it captures. */
  function FirstThemeMatch(h: string, p: nat): (r: Option<Theme>)
    requires p <= |h|
    ensures r.None? ==> forall q :: p <= q < |h| ==> ThemeMatchAt(h, q).None?
    ensures r.Some? ==> exists q :: p <= q < |h| && ThemeMatchAt(h, q) == r
                                   && forall k :: p <= k < q ==> ThemeMatchAt(h, k).None?
    decreases |h| - p
  {
    if p == |h| then None
    else if ThemeMatchAt(h, p).Some? then ThemeMatchAt(h, p)
    else FirstThemeMatch(h, p + 1)
  }

  /** `getThemeFromCookie(cookieHeader)`: "light" without a header or with
      an empty one, else the theme of the leftmost match, else "light". */
  function GetThemeFromCookie(header: Option<string>): (t: Theme)
    ensures header.None? || header.value == [] ==> t == Light
    ensures header.Some? && (forall q :: 0 <= q < |header.value| ==> ThemeMatchAt(header.value, q).None?)
            ==> t == Light
  {
    if header.None? || header.value == [] then Light
    else FirstThemeMatch(header.value, 0).GetOr(Light)
  }

  /** The leftmost match decides: the theme it captures is the result,
      whatever follows it. */
  lemma {:induction false} LeftmostMatchDecides(h: string, q: nat)
    requires q < |h| && ThemeMatchAt(h, q).Some?
    requires forall k :: 0 <= k < q ==> ThemeMatchAt(h, k).None?
    ensures GetThemeFromCookie(Some(h)) == ThemeMatchAt(h, q).value
  {
    FirstMatchFrom(h, 0, q);
  }

  /** Scanning from `p` past positions without a match reaches the match at
      `q`. */
  lemma {:induction false} FirstMatchFrom(h: string, p: nat, q: nat)
    requires p <= q < |h| && ThemeMatchAt(h, q).Some?
    requires forall k :: p <= k < q ==> ThemeMatchAt(h, k).None?
    ensures FirstThemeMatch(h, p) == ThemeMatchAt(h, q)
    decreases q - p
  {
    if p < q {
      FirstMatchFrom(h, p + 1, q);
    }
  }

  /** A header that starts with a theme pair selects that theme, whatever
      attributes or cookies follow. */
  lemma PairAtStart(t: Theme, rest: string)
    ensures GetThemeFromCookie(Some(ThemePair(t) + rest)) == t
  {
    var h := ThemePair(t) + rest;
    assert h[..|ThemePair(t)|] == ThemePair(t);
    assert ThemeMatchAt(h, 0) == Some(t) by {
      assert OccursAt(h, 0, ThemePair(t));
      if t == Dark {
        assert h[6] == 'd';
        assert !OccursAt(h, 0, ThemePair(Light));
      }
    }
    LeftmostMatchDecides(h, 0);
  }

  /** A pair inside another cookie's name still matches: in
      `xtheme=dark; theme=light` the `theme=dark` at position 1 comes first
      and wins. */
  lemma MatchInsideOtherName(rest: string)
    ensures GetThemeFromCookie(Some("x" + ThemePair(Dark) + rest)) == Dark
  {
    var h := "x" + ThemePair(Dark) + rest;
    assert h[1..1 + |ThemePair(Dark)|] == ThemePair(Dark);
    assert ThemeMatchAt(h, 0).None? by {
      assert h[0] == 'x';
      forall t: Theme ensures !OccursAt(h, 0, ThemePair(t)) {
        assert ThemePair(t)[0] == 't';
      }
    }
    assert ThemeMatchAt(h, 1) == Some(Dark) by {
      assert OccursAt(h, 1, ThemePair(Dark));
      assert h[7] == 'd';
      assert !OccursAt(h, 1, ThemePair(Light));
    }
    LeftmostMatchDecides(h, 1);
  }

  // ---------------------------------------------------------------------
  // createThemeCookie
  // ---------------------------------------------------------------------

  /** The attributes of the cookie the theme action sets: whole site, not
      readable from scripts, same-site lax, one year. */
  const RootCookieAttributes: string := "; Path=/; HttpOnly; SameSite=Lax; Max-Age=31536000"

  /** `createThemeCookie(theme)`: the `theme` pair, then the attributes. */
  function CreateThemeCookie(t: Theme): (c: string)
    ensures |c| == |ThemePair(t)| + |RootCookieAttributes|
    ensures c[..|ThemePair(t)|] == ThemePair(t)
    ensures c[|ThemePair(t)|..] == RootCookieAttributes
  {
    ThemePair(t) + RootCookieAttributes
  }

  /** The cookie the action sets is read back as the theme it was made for. */
  lemma CookieRoundTrip(t: Theme)
    ensures GetThemeFromCookie(Some(CreateThemeCookie(t))) == t
  {
    PairAtStart(t, RootCookieAttributes);
  }

  /** So is the cookie value the sidebar builds. */
  lemma SidebarCookieRoundTrip(t: Theme)
    ensures GetThemeFromCookie(Some(SidebarService.CreateThemeCookieValue(t))) == t
  {
    var c := SidebarService.CreateThemeCookieValue(t);
    assert c == ThemePair(t) + c[|ThemePair(t)|..];
    PairAtStart(t, c[|ThemePair(t)|..]);
  }

  // ---------------------------------------------------------------------
  // action
  // ---------------------------------------------------------------------

  /** The JSON body of the action's response. */
  datatype ActionBody = Rejected(error: string) | ThemeSet(theme: Theme)

  /** The action's response: HTTP status, body and `Set-Cookie` header. */
  datatype ActionResponse = ActionResponse(status: int, body: ActionBody, setCookie: Option<string>)

  /** The `error` of the rejected response. */
  const InvalidThemeMessage: string := "Invalid theme"

  /** `action`: the `theme` form entry must be the text "light" or "dark";
      anything else (missing, a file, another text) is rejected with 400. */
  function Action(form: FormData): (r: ActionResponse)
    ensures r.status == 400 <==> forall t: Theme :: Get(form, "theme") != Text(ThemeName(t))
    ensures r.status == 400 ==> r.body == Rejected(InvalidThemeMessage) && r.setCookie.None?
    ensures r.status != 400 ==>
              && r.status == 200 && r.body.ThemeSet?
              && Get(form, "theme") == Text(ThemeName(r.body.theme))
              && r.setCookie == Some(CreateThemeCookie(r.body.theme))
  {
    var entry := Get(form, "theme");
    var parsed := if entry.Text? then ParseTheme(entry.s) else None;
    match parsed
    case None =>
      assert forall t: Theme :: entry != Text(ThemeName(t)) by {
        forall t: Theme ensures entry != Text(ThemeName(t)) {
          ParseThemeName(t);
        }
      }
      ActionResponse(400, Rejected(InvalidThemeMessage), None)
    case Some(theme) =>
      ActionResponse(200, ThemeSet(theme), Some(CreateThemeCookie(theme)))
  }

  /** Accepting a theme sets a cookie that the loader reads back as that
      theme. */
  lemma ActionCookieReadsBack(form: FormData)
    requires Action(form).status == 200
    ensures GetThemeFromCookie(Action(form).setCookie) == Action(form).body.theme
  {
    CookieRoundTrip(Action(form).body.theme);
  }

  /** Submitting either theme's name is accepted with that theme. */
  lemma ActionAcceptsThemeName(form: FormData, t: Theme)
    requires Get(form, "theme") == Text(ThemeName(t))
    ensures Action(form) == ActionResponse(200, ThemeSet(t), Some(CreateThemeCookie(t)))
  {
    ParseThemeName(t);
  }

  // ---------------------------------------------------------------------
  // Layout
  // ---------------------------------------------------------------------

  /** `loader`: the theme of the request's `Cookie` header. */
  function Loader(cookieHeader: Option<string>): (t: Theme)
    ensures cookieHeader.None? ==> t == Light
  {
    GetThemeFromCookie(cookieHeader)
  }

  /** The theme the layout renders: the action's answer when it carries a
      theme, else the loader's, else "light". */
  function LayoutTheme(fetcherData: Option<ActionBody>, loaderData: Option<Theme>): (t: Theme)
    ensures fetcherData.Some? && fetcherData.value.ThemeSet? ==> t == fetcherData.value.theme
    ensures (fetcherData.None? || fetcherData.value.Rejected?) ==> t == loaderData.GetOr(Light)
  {
    if fetcherData.Some? && fetcherData.value.ThemeSet? then fetcherData.value.theme
    else loaderData.GetOr(Light)
  }

  /** The theme the toggle submits: the other one. */
  function LayoutNextTheme(theme: Theme): (next: Theme)
    ensures next != theme
  {
    if theme == Dark then Light else Dark
  }

  /** The layout's toggle and the sidebar's agree. */
  lemma LayoutAgreesWithSidebar(theme: Theme)
    ensures LayoutNextTheme(theme) == SidebarService.GetNextTheme(theme)
  {
  }

  /** After the toggle's form is accepted, the layout shows the theme it
      submitted, and its next toggle goes back. */
  lemma ToggleRoundTrip(form: FormData, loaderData: Option<Theme>, current: Theme)
    requires Get(form, "theme") == Text(ThemeName(LayoutNextTheme(current)))
    ensures LayoutTheme(Some(Action(form).body), loaderData) == LayoutNextTheme(current)
    ensures LayoutNextTheme(LayoutTheme(Some(Action(form).body), loaderData)) == current
  {
    ActionAcceptsThemeName(form, LayoutNextTheme(current));
  }
}
