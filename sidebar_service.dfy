/** The sidebar's pure helpers: icon lookup, navigation items with icons,
    the theme toggle and its cookie (`app/shared/layout/sidebar/service.ts`). */
module SidebarService {
  import opened Wrappers
  import opened Themes

  // ---------------------------------------------------------------------
  // Icons
  // ---------------------------------------------------------------------

  /** The seven registered icon components. */
  datatype Icon = LayoutDashboard | Upload | Settings | Home | FileText | BarChart | Users

  /** The key under which an icon is registered. */
  function IconName(i: Icon): (name: string)
    ensures |name| > 0
  {
    match i
    case LayoutDashboard => "LayoutDashboard"
    case Upload => "Upload"
    case Settings => "Settings"
    case Home => "Home"
    case FileText => "FileText"
    case BarChart => "BarChart"
    case Users => "Users"
  }

  /** The registered icon whose key is `name`, if any (an own property of
      the icon map). */
  function RegisteredIcon(name: string): (r: Option<Icon>)
    ensures r.Some? ==> IconName(r.value) == name
  {
    if name == "LayoutDashboard" then Some(LayoutDashboard)
    else if name == "Upload" then Some(Upload)
    else if name == "Settings" then Some(Settings)
    else if name == "Home" then Some(Home)
    else if name == "FileText" then Some(FileText)
    else if name == "BarChart" then Some(BarChart)
    else if name == "Users" then Some(Users)
    else None
  }

  /** Every icon is found under its own key, so a name is registered exactly
      when it is some icon's key. */
  lemma RegisteredIconOfName(i: Icon)
    ensures RegisteredIcon(IconName(i)) == Some(i)
  {
  }

  /** The icon used when a name is not registered. */
  const DefaultIcon: Icon := FileText

  /** `getIconByName(iconName)` as intended: the registered icon, else the
      default. */
  function GetIconByName(name: string): (i: Icon)
    ensures (exists j: Icon :: IconName(j) == name) ==> IconName(i) == name
    ensures (forall j: Icon :: IconName(j) != name) ==> i == DefaultIcon
  {
    match RegisteredIcon(name)
    case Some(j) => RegisteredIconOfName(j); j
    case None =>
      assert forall j: Icon :: IconName(j) != name by {
        forall j: Icon ensures IconName(j) != name {
          RegisteredIconOfName(j);
        }
      }
      DefaultIcon
  }

  /** Each icon's key gives back that icon; names that are no key, the empty
      one included, give FileText. */
  lemma IconLookupExamples()
    ensures GetIconByName("LayoutDashboard") == LayoutDashboard
    ensures GetIconByName("UnknownIcon") == FileText
    ensures GetIconByName("") == FileText
  {
    assert RegisteredIcon("UnknownIcon") == None;
  }

  /** The names every plain JavaScript object inherits from
      `Object.prototype`. */
  predicate IsPrototypeProperty(name: string) {
    name in {"constructor", "hasOwnProperty", "isPrototypeOf", "propertyIsEnumerable",
             "toLocaleString", "toString", "valueOf", "__proto__",
             "__defineGetter__", "__defineSetter__", "__lookupGetter__", "__lookupSetter__"}
  }

  /** What `iconMap[iconName]` can evaluate to on a plain object literal: a
      registered icon, or a member inherited from `Object.prototype`, which
      is neither `null` nor `undefined`. */
  datatype IconValue = Component(icon: Icon) | InheritedMember(name: string)

  /** `getIconByName(iconName)` as written: the property lookup on the object
      literal, then `?? defaultIcon`, which only replaces a missing property. */
  function GetIconByNameAsWritten(name: string): (v: IconValue)
    ensures RegisteredIcon(name).Some? ==> v == Component(RegisteredIcon(name).value)
    ensures RegisteredIcon(name).None? && IsPrototypeProperty(name) ==> v == InheritedMember(name)
    ensures RegisteredIcon(name).None? && !IsPrototypeProperty(name) ==> v == Component(DefaultIcon)
  {
    match RegisteredIcon(name)
    case Some(j) => Component(j)
    case None => if IsPrototypeProperty(name) then InheritedMember(name) else Component(DefaultIcon)
  }

  /** "toString" is no icon key, yet the lookup as written returns the
      inherited `Object.prototype.toString` instead of the default icon. */
  lemma ToStringMissesDefault()
    ensures GetIconByName("toString") == FileText
    ensures GetIconByNameAsWritten("toString") == InheritedMember("toString")
  {
    assert RegisteredIcon("toString") == None;
    assert IsPrototypeProperty("toString");
  }

  /** The lookup as written agrees with the intended one on every name that
      is not an `Object.prototype` property. */
  lemma AsWrittenAgreesOffPrototype(name: string)
    requires !IsPrototypeProperty(name)
    ensures GetIconByNameAsWritten(name) == Component(GetIconByName(name))
  {
  }

  // ---------------------------------------------------------------------
  // Navigation items
  // ---------------------------------------------------------------------

  /** A navigation entry as stored. */
  datatype NavigationItem = NavigationItem(
    id: string,
    path: string,
    labelText: string,
    iconName: string,
    sortOrder: int,
    isActive: bool)

  /** A navigation entry with its icon component (`{ ...item, icon }`). */
  datatype NavigationItemWithIcon = NavigationItemWithIcon(
    id: string,
    path: string,
    labelText: string,
    iconName: string,
    sortOrder: int,
    isActive: bool,
    icon: Icon)

  /** The stored fields of an entry with an icon. */
  function ItemOf(x: NavigationItemWithIcon): NavigationItem {
    NavigationItem(x.id, x.path, x.labelText, x.iconName, x.sortOrder, x.isActive)
  }

  /** `{ ...item, icon: getIconByName(item.iconName) }`. */
  function WithIcon(item: NavigationItem): (x: NavigationItemWithIcon)
    ensures ItemOf(x) == item
    ensures x.icon == GetIconByName(item.iconName)
  {
    NavigationItemWithIcon(item.id, item.path, item.labelText, item.iconName,
                           item.sortOrder, item.isActive, GetIconByName(item.iconName))
  }

  /** `mapNavigationItemsWithIcons(items)`: same length and order, every
      stored field kept, each icon looked up from its item's icon name. */
  function MapNavigationItemsWithIcons(items: seq<NavigationItem>): (r: seq<NavigationItemWithIcon>)
    ensures |r| == |items|
    ensures forall i :: 0 <= i < |r| ==> ItemOf(r[i]) == items[i]
    ensures forall i :: 0 <= i < |r| ==> r[i].icon == GetIconByName(items[i].iconName)
  {
    if items == [] then [] else [WithIcon(items[0])] + MapNavigationItemsWithIcons(items[1..])
  }

  /** The stored entries of a sequence of entries with icons. */
  function ItemsOf(xs: seq<NavigationItemWithIcon>): (r: seq<NavigationItem>)
    ensures |r| == |xs|
  {
    if xs == [] then [] else [ItemOf(xs[0])] + ItemsOf(xs[1..])
  }

  /** Dropping the icons again gives back exactly the input entries. */
  lemma {:induction false} IconsDropToItems(items: seq<NavigationItem>)
    ensures ItemsOf(MapNavigationItemsWithIcons(items)) == items
  {
    if items != [] {
      IconsDropToItems(items[1..]);
      var r := MapNavigationItemsWithIcons(items);
      assert r[1..] == MapNavigationItemsWithIcons(items[1..]);
    }
  }

  /** An entry as `mapNavigationItemsWithIcons` builds it with the lookup as
      written: the stored fields and whatever `iconMap[iconName] ??
      defaultIcon` evaluates to. */
  datatype NavigationItemAsWritten = NavigationItemAsWritten(item: NavigationItem, icon: IconValue)

  /** `mapNavigationItemsWithIcons(items)` over the lookup as written. */
  function MapNavigationItemsAsWritten(items: seq<NavigationItem>): (r: seq<NavigationItemAsWritten>)
    ensures |r| == |items|
    ensures forall i :: 0 <= i < |r| ==> r[i].item == items[i]
    ensures forall i :: 0 <= i < |r| ==> r[i].icon == GetIconByNameAsWritten(items[i].iconName)
  {
    if items == [] then []
    else [NavigationItemAsWritten(items[0], GetIconByNameAsWritten(items[0].iconName))]
         + MapNavigationItemsAsWritten(items[1..])
  }

  /** When no entry names an `Object.prototype` member, the map as written
      and the corrected map build the same entries. */
  lemma AsWrittenMapAgreesOffPrototype(items: seq<NavigationItem>)
    requires forall i :: 0 <= i < |items| ==> !IsPrototypeProperty(items[i].iconName)
    ensures forall i :: 0 <= i < |items| ==>
              MapNavigationItemsAsWritten(items)[i]
              == NavigationItemAsWritten(ItemOf(MapNavigationItemsWithIcons(items)[i]),
                                         Component(MapNavigationItemsWithIcons(items)[i].icon))
  {
    forall i | 0 <= i < |items| {
      AsWrittenAgreesOffPrototype(items[i].iconName);
    }
  }

  /** An entry whose icon name is "constructor" gets the inherited
      `Object.prototype.constructor` as written, and FileText when corrected. */
  lemma ConstructorEntryMissesDefault(item: NavigationItem)
    requires item.iconName == "constructor"
    ensures MapNavigationItemsAsWritten([item])[0].icon == InheritedMember("constructor")
    ensures MapNavigationItemsWithIcons([item])[0].icon == FileText
  {
    assert RegisteredIcon("constructor") == None;
    assert IsPrototypeProperty("constructor");
  }

  /** The dashboard entry gets its own icon; an unknown icon name gets
      FileText; no entries give no entries. */
  lemma NavigationExamples()
    ensures var item := NavigationItem("1", "/dashboard", "ダッシュボード", "LayoutDashboard", 1, true);
            MapNavigationItemsWithIcons([item])
            == [NavigationItemWithIcon("1", "/dashboard", "ダッシュボード", "LayoutDashboard", 1, true, LayoutDashboard)]
    ensures MapNavigationItemsWithIcons([]) == []
  {
    var item := NavigationItem("1", "/dashboard", "ダッシュボード", "LayoutDashboard", 1, true);
    assert [item][1..] == [];
  }

  // ---------------------------------------------------------------------
  // Theme toggle
  // ---------------------------------------------------------------------

  /** `getNextTheme(currentTheme)`: the other theme. */
  function GetNextTheme(current: Theme): (next: Theme)
    ensures next != current
  {
    if current == Dark then Light else Dark
  }

  /** Toggling twice restores the theme. */
  lemma NextThemeIsInvolution(t: Theme)
    ensures GetNextTheme(GetNextTheme(t)) == t
  {
  }

  /** The cookie attributes the sidebar sets: whole site, same-site lax, one
      year (365 days of 86400 seconds). */
  const SidebarCookieAttributes: string := "; Path=/; SameSite=Lax; Max-Age=31536000"

  /** `createThemeCookieValue(theme)`: the `theme` pair, then the attributes. */
  function CreateThemeCookieValue(t: Theme): (c: string)
    ensures |c| == 6 + |ThemeName(t)| + |SidebarCookieAttributes|
    ensures c[..6] == "theme=" && c[6..6 + |ThemeName(t)|] == ThemeName(t)
    ensures c[6 + |ThemeName(t)|..] == SidebarCookieAttributes
  {
    "theme=" + ThemeName(t) + SidebarCookieAttributes
  }
}
