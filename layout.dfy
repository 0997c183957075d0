/** The shared frame around protected pages (`client/src/components/Layout.tsx`):
    the navigation items, which one is highlighted, the mobile menu flag and
    logging out. */
module Layout {
  import opened Common
  import opened Store
  import opened Routes

  /** A sidebar entry; `name` is the source's `label` field (`label` is a
      reserved word in Dafny). */
  datatype NavItem = NavItem(name: string, href: string)

  /** `user?.role || "client"`: a role is never falsy, so a session's role,
      else client. */
  function EffectiveRole(user: Option<User>): (role: UserRole)
    ensures user.Some? ==> role == user.value.role
    ensures user.None? ==> role == Client
  {
    if user.Some? then user.value.role else Client
  }

  function NavItems(role: UserRole): (items: seq<NavItem>)
    ensures |items| == 6
    ensures items[0].name == "Dashboard" && items[0].href == RoleHome(role)
    ensures items[0].href == "/trainer" <==> role == Trainer
    ensures forall i, j :: 0 <= i < j < |items| ==> items[i].href != items[j].href
  {
    var items := [
      NavItem("Dashboard", RoleHome(role)),
      NavItem("Workouts", "/workouts"),
      NavItem("Nutrition", "/nutrition"),
      NavItem("Schedule", "/schedule"),
      NavItem("Chat", "/chat"),
      NavItem("Profile", "/profile")];
    assert forall i :: 1 <= i < 6 ==> items[i].href[1] != 'd' && items[i].href[1] != 't';
    items
  }

  predicate IsActive(location: string, item: NavItem)
  {
    location == item.href
  }

  /** Since the hrefs are distinct, at most one item is highlighted. */
  lemma AtMostOneActive(role: UserRole, location: string)
    ensures forall i, j :: 0 <= i < 6 && 0 <= j < 6 && IsActive(location, NavItems(role)[i]) && IsActive(location, NavItems(role)[j]) ==> i == j
  {
  }

  /** Every navigation link shown to a session renders for it, inside `Layout`. */
  lemma NavLinksRender(u: User, i: nat)
    requires i < 6
    ensures Resolve(NavItems(EffectiveRole(Some(u)))[i].href, Some(u)).Render?
    ensures Resolve(NavItems(EffectiveRole(Some(u)))[i].href, Some(u)).inLayout
  {
    var href := NavItems(u.role)[i].href;
    if i == 0 {
      RoleHomeRenders(u);
    } else {
      assert href in ["/workouts", "/nutrition", "/schedule", "/chat", "/profile"];
      assert ActiveWorkoutId(href).None?;
    }
  }

  class Sidebar {
    var isMobileOpen: bool
    const store: AppStore

    constructor (store: AppStore)
      ensures this.store == store && !isMobileOpen
    {
      this.store := store;
      isMobileOpen := false;
    }

    /** The mobile sheet's `onOpenChange`. */
    method SetMobileOpen(open: bool)
      modifies this`isMobileOpen
      ensures isMobileOpen == open
    {
      isMobileOpen := open;
    }

    /** Clicking a navigation item closes the mobile menu and follows the link. */
    method ClickNavItem(item: NavItem) returns (dest: string)
      modifies this`isMobileOpen
      ensures !isMobileOpen && dest == item.href
    {
      isMobileOpen := false;
      dest := item.href;
    }

    /** `handleLogout`: clears the session and goes to `/auth`, which then
        renders the login screen. */
    method Logout() returns (dest: string)
      requires store.Valid()
      modifies store
      ensures store.Valid() && store.user == None && !store.isTrainer
      ensures dest == "/auth" && Resolve(dest, store.user) == Render(AuthPage, false)
    {
      store.SetUser(None);
      dest := "/auth";
    }
  }
}
