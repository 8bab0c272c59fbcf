/** The navigation sidebar of src/components/AdminSidebar.tsx: its two menus,
    the collapsed flag, and the active-link tests. */
module AdminSidebar {
  import opened Js

  /** A menu entry; `exact` is the `end` prop the router's link receives. */
  datatype NavItem = NavItem(title: string, url: string, exact: bool)

  const RootPath: string := "/"

  function MainItem(title: string, url: string): (r: NavItem)
    ensures r.exact <==> url == RootPath
  {
    NavItem(title, url, url == RootPath)
  }

  /** The "Main" menu, in order. */
  const MainItems: seq<NavItem> := [
    MainItem("Dashboard", "/"),
    MainItem("Users", "/users"),
    MainItem("Instructors", "/admin/instructors"),
    MainItem("Shop & Products", "/products"),
    MainItem("Content", "/content")
  ]

  /** The "System" menu, in order; these links get no `end` prop. */
  const SystemItems: seq<NavItem> := [
    NavItem("Analytics", "/analytics", false),
    NavItem("Settings", "/settings", false)
  ]

  /** Among all entries, only the dashboard link matches exactly. */
  lemma OnlyRootIsExact()
    ensures forall i :: 0 <= i < |MainItems| ==> (MainItems[i].exact <==> MainItems[i].url == RootPath)
    ensures forall i :: 0 <= i < |MainItems| ==> (MainItems[i].exact <==> i == 0)
    ensures forall i :: 0 <= i < |SystemItems| ==> !SystemItems[i].exact
  {
  }

  /** `const collapsed = state === "collapsed"`. */
  function Collapsed(state: string): (r: bool)
    ensures r <==> state == "collapsed"
  {
    state == "collapsed"
  }

  /** The sidebar's width class. */
  function WidthClass(collapsed: bool): (r: string)
    ensures collapsed ==> r == "w-16"
    ensures !collapsed ==> r == "w-64"
  {
    if collapsed then "w-16" else "w-64"
  }

  /** The label an entry shows: its title, or nothing once collapsed. */
  function RenderedTitle(collapsed: bool, item: NavItem): (r: Option<string>)
    ensures r.Some? <==> !collapsed
    ensures r.Some? ==> r.value == item.title
  {
    if collapsed then None else Some(item.title)
  }

  /** The component's own `isActive(path)`: exact comparison for the root,
      a raw string-prefix test for every other path. */
  function IsActive(currentPath: string, path: string): (r: bool)
    ensures path == RootPath ==> (r <==> currentPath == RootPath)
    ensures path != RootPath ==> (r <==> StartsWith(currentPath, path))
  {
    if path == RootPath then currentPath == path else StartsWith(currentPath, path)
  }

  /** Every entry is active on its own page. */
  lemma ActiveOnOwnPath(path: string)
    ensures IsActive(path, path)
  {
    assert path[..|path|] == path;
  }

  /** The prefix test is on characters, not path segments: "/users" is also
      active on "/usersX". */
  lemma PrefixIsRaw()
    ensures IsActive("/usersX", "/users")
    ensures !IsActive("/users", RootPath)
  {
    assert "/usersX"[..|"/users"|] == "/users";
  }

  /** A non-root entry stays active below its own page: on `path + rest` for
      any rest. */
  lemma ActiveBelowPath(path: string, rest: string)
    requires path != RootPath
    ensures IsActive(path + rest, path)
  {
    assert (path + rest)[..|path|] == path;
  }

  const ActiveClass: string := "bg-sidebar-accent text-sidebar-primary font-medium border-r-2 border-primary"
  const IdleClass: string := "hover:bg-sidebar-accent/60 transition-colors duration-200"

  /** `getNavCls`: the accent classes exactly for the active link. */
  function NavClass(isActive: bool): (r: string)
    ensures r == ActiveClass <==> isActive
    ensures r == IdleClass <==> !isActive
  {
    if isActive then ActiveClass else IdleClass
  }

  /** Every entry of both menus, in render order. */
  const MenuItems: seq<NavItem> := MainItems + SystemItems

  /** One flag drives both the width and the labels: the narrow width, every
      entry's label hidden, and a "collapsed" sidebar state go together; an
      expanded sidebar labels each entry with its own title. */
  lemma CollapsedRendering(state: string)
    ensures WidthClass(Collapsed(state)) == "w-16" <==> state == "collapsed"
    ensures forall i :: 0 <= i < |MenuItems| ==>
      (RenderedTitle(Collapsed(state), MenuItems[i]).None? <==> state == "collapsed")
    ensures forall i :: 0 <= i < |MenuItems| ==>
      (RenderedTitle(Collapsed(state), MenuItems[i]).None? <==> WidthClass(Collapsed(state)) == "w-16")
    ensures state != "collapsed" ==> forall i :: 0 <= i < |MenuItems| ==>
      RenderedTitle(Collapsed(state), MenuItems[i]) == Some(MenuItems[i].title)
  {
  }

  /** The class string tells an active link from an idle one: different flags
      give different classes. */
  lemma NavClassDistinguishes(a: bool, b: bool)
    ensures NavClass(a) == NavClass(b) <==> a == b
  {
  }
}
