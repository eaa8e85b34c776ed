/** `AppLayout`: the side menu, the breadcrumb and the collapsed state of the
    shell around every page except `/login`. The current menu entry is the
    first one whose path is the current pathname, Dashboard otherwise. */
module AppLayout {
  import opened Wrappers
  import opened Text
  import AuthContext

  datatype MenuItem = MenuItem(key: string, caption: string, path: Option<string>, disabled: bool, children: seq<MenuItem>)

  /** `menuItems`, icons left out. */
  const Menu: seq<MenuItem> := [
    MenuItem("dashboard", "Dashboard", Some("/dashboard"), true, []),
    MenuItem("inventory-management", "Inventory Management", None, false, [
      MenuItem("warehouse", "Warehouse", Some("/warehouse"), true, []),
      MenuItem("inventory", "Inventory", Some("/inventory"), false, [])])]

  /** `flatMap(item => item.children ? [item, ...item.children] : [item])`. */
  function Flatten(items: seq<MenuItem>): seq<MenuItem> {
    if items == [] then [] else [items[0]] + items[0].children + Flatten(items[1..])
  }

  /** Flattening works item by item: each item followed by its own children,
      in order. */
  lemma {:induction false} FlattenAppend(a: seq<MenuItem>, b: seq<MenuItem>)
    ensures Flatten(a + b) == Flatten(a) + Flatten(b)
  {
    if a == [] {
      assert a + b == b;
    } else {
      assert (a + b)[0] == a[0];
      assert (a + b)[1..] == a[1..] + b;
      FlattenAppend(a[1..], b);
    }
  }

  lemma FlattenSingle(x: MenuItem)
    ensures Flatten([x]) == [x] + x.children
  {
    assert [x][1..] == [];
  }

  function AllMenuItems(): (all: seq<MenuItem>)
    ensures |all| == 4
    ensures all[0] == Menu[0] && all[1] == Menu[1]
    ensures all[2] == Menu[1].children[0] && all[3] == Menu[1].children[1]
  {
    FlattenAppend([Menu[0]], [Menu[1]]);
    FlattenSingle(Menu[0]);
    FlattenSingle(Menu[1]);
    assert Menu == [Menu[0]] + [Menu[1]];
    Flatten(Menu)
  }

  /** `Array.prototype.findIndex`: the first position whose item satisfies
      `f`, if any. */
  function FirstIndex(items: seq<MenuItem>, f: MenuItem -> bool): (r: Option<nat>)
    ensures r.Some? ==> r.value < |items| && f(items[r.value])
    ensures r.Some? ==> forall j :: 0 <= j < r.value ==> !f(items[j])
    ensures r.None? ==> forall j :: 0 <= j < |items| ==> !f(items[j])
  {
    if items == [] then None
    else if f(items[0]) then Some(0)
    else
      match FirstIndex(items[1..], f)
      case None => None
      case Some(i) => Some(i + 1)
  }

  /** `currentItem`: the first flattened entry with this path, else the first entry. */
  function CurrentItem(pathname: string): (item: MenuItem)
    ensures item.path == Some(pathname) || item == AllMenuItems()[0]
    ensures item.path != Some(pathname) ==> forall j :: 0 <= j < 4 ==> AllMenuItems()[j].path != Some(pathname)
  {
    match FirstIndex(AllMenuItems(), (it: MenuItem) => it.path == Some(pathname))
    case Some(i) => AllMenuItems()[i]
    case None => AllMenuItems()[0]
  }

  /** The page title shown for each pathname. */
  lemma CurrentItemOfPath(pathname: string)
    ensures pathname == "/inventory" ==> CurrentItem(pathname).key == "inventory"
    ensures pathname == "/warehouse" ==> CurrentItem(pathname).key == "warehouse"
    ensures pathname !in {"/inventory", "/warehouse"} ==> CurrentItem(pathname).key == "dashboard"
  {
  }

  /** The breadcrumb titles for a page title. */
  function Breadcrumb(pageTitle: string): (titles: seq<string>)
    ensures |titles| >= 1
    ensures titles[|titles| - 1] == pageTitle
    ensures pageTitle == "Dashboard" <==> titles == ["Dashboard"]
    ensures pageTitle != "Dashboard" ==>
      |titles| == 2 && titles[0] == "Inventory Management" && titles[1] == pageTitle
  {
    if pageTitle == "Dashboard" then ["Dashboard"] else ["Inventory Management", pageTitle]
  }

  /** On the inventory page the breadcrumb is "Inventory Management / Inventory";
      on any page outside the menu it falls back to "Dashboard". */
  lemma BreadcrumbOfPath(pathname: string)
    ensures pathname == "/inventory" ==> Breadcrumb(CurrentItem(pathname).caption) == ["Inventory Management", "Inventory"]
    ensures pathname == "/warehouse" ==> Breadcrumb(CurrentItem(pathname).caption) == ["Inventory Management", "Warehouse"]
    ensures pathname !in {"/inventory", "/warehouse"} ==> Breadcrumb(CurrentItem(pathname).caption) == ["Dashboard"]
  {
  }

  /** `handleMenuClick`: the path to push, for an entry that exists, is not
      disabled and has a (non-empty) path. */
  function MenuClickTarget(key: string): (push: Option<string>)
    ensures push.Some? ==>
      exists j :: 0 <= j < 4 && AllMenuItems()[j].key == key
        && !AllMenuItems()[j].disabled && AllMenuItems()[j].path == push
  {
    match FirstIndex(AllMenuItems(), (it: MenuItem) => it.key == key)
    case None => None
    case Some(i) =>
      var item := AllMenuItems()[i];
      if !item.disabled && item.path.Some? && item.path.value != "" then item.path else None
  }

  /** With this menu, only the Inventory entry navigates. */
  lemma OnlyInventoryNavigates(key: string)
    ensures MenuClickTarget(key).Some? <==> key == "inventory"
    ensures key == "inventory" ==> MenuClickTarget(key) == Some("/inventory")
  {
  }

  /** `user?.email || ""`. */
  function Email(user: Option<AuthContext.User>): (email: string)
    ensures user.Some? && user.value.email.Some? ==> email == user.value.email.value
    ensures user.None? || user.value.email.None? ==> email == ""
  {
    OrDefault(if user.Some? then user.value.email else None, "")
  }

  /** `getAvatar`: the first character upper-cased, "" for an empty email. */
  function Avatar(email: string): (a: string)
    ensures |a| == if email == "" then 0 else 1
    ensures email != "" ==> a[0] == ToUpperChar(email[0])
    ensures email != "" && 'a' <= email[0] <= 'z' ==> 'A' <= a[0] <= 'Z'
  {
    if email == "" then "" else [ToUpperChar(email[0])]
  }

  /** The login page is rendered bare, without the shell. */
  predicate RendersShell(pathname: string) {
    pathname != "/login"
  }

  /** Once the session is restored and the guard has nothing more to do, the
      shell shows exactly when someone is signed in. The login page, which
      has no menu entry of its own, would be titled Dashboard. */
  lemma ShellOnlyWithSession(token: Option<string>, pathname: string)
    requires AuthContext.GuardNavigation(false, token, pathname) == None
    ensures RendersShell(pathname) <==> AuthContext.IsAuthenticated(token)
    ensures !RendersShell(pathname) ==> CurrentItem(pathname) == Menu[0]
  {
  }

  class LayoutState {
    var collapsed: bool

    constructor ()
      ensures !collapsed
    {
      collapsed := false;
    }

    /** The collapse button. */
    method Toggle()
      modifies this
      ensures collapsed == !old(collapsed)
    {
      collapsed := !collapsed;
    }

    /** A breadcrumb or avatar click opens the menu. */
    method Expand()
      modifies this
      ensures !collapsed
    {
      collapsed := false;
    }
  }
}
