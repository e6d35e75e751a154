/** Permission derivation of the src intranet (src/App.tsx): the admin flag, the
    navigation list filtered by it, and which page a tab renders. */
module Permissions {
  import opened BandTypes
  import opened Sequences
  import BandConstants

  /** isAdmin: a user is logged in and their role is one of ADMIN_ROLES. */
  function IsAdmin(user: Option<Member>): bool
  {
    user.Some? && user.value.role in BandConstants.AdminRoles
  }

  /** No user is no admin; a logged-in user is an admin exactly when not a plain musician. */
  lemma IsAdminIffOfficer(user: Option<Member>)
    ensures IsAdmin(user) <==> user.Some? && user.value.role != Musico
  {
    BandConstants.AdminRolesAreOfficers();
  }

  /** The eight tabs of the sidebar, in their listed order. */
  datatype Tab = Feed | Calendar | Scores | Members | Inventory | Tools | AppInstall | Social

  const AllTabs: seq<Tab> := [Feed, Calendar, Scores, Members, Inventory, Tools, AppInstall, Social]

  datatype NavItem = NavItem(tab: Tab, show: bool)

  /** navItems: members and inventory are shown only to admins. */
  function NavItems(isAdmin: bool): seq<NavItem>
  {
    [ NavItem(Feed, true),
      NavItem(Calendar, true),
      NavItem(Scores, true),
      NavItem(Members, isAdmin),
      NavItem(Inventory, isAdmin),
      NavItem(Tools, true),
      NavItem(AppInstall, true),
      NavItem(Social, true) ]
  }

  function TabsOf(items: seq<NavItem>): seq<Tab>
  {
    seq(|items|, i requires 0 <= i < |items| => items[i].tab)
  }

  predicate Shown(item: NavItem)
  {
    item.show
  }

  /** The tabs the sidebar lists: navItems.filter(i => i.show). */
  function VisibleTabs(isAdmin: bool): seq<Tab>
  {
    TabsOf(Filter(NavItems(isAdmin), Shown))
  }

  lemma AdminNavItemsShown()
    ensures forall i :: 0 <= i < |NavItems(true)| ==> Shown(NavItems(true)[i])
  {
  }

  lemma AdminNavFilter()
    ensures Filter(NavItems(true), Shown) == NavItems(true)
  {
    AdminNavItemsShown();
    FilterAll(NavItems(true), Shown);
  }

  lemma AdminNavTabs()
    ensures TabsOf(NavItems(true)) == AllTabs
  {
  }

  lemma AdminNavigation()
    ensures VisibleTabs(true) == AllTabs
  {
    AdminNavFilter();
    AdminNavTabs();
  }

  /** The last three non-admin entries are all shown. */
  lemma MusicianNavTail()
    ensures Filter(NavItems(false)[5..], Shown) == NavItems(false)[5..]
  {
    FilterAll(NavItems(false)[5..], Shown);
  }

  /** The members and inventory entries are dropped for a non-admin. */
  lemma MusicianNavMiddle()
    ensures Filter(NavItems(false)[3..], Shown) == NavItems(false)[5..]
  {
    MusicianNavTail();
    FilterFrom(NavItems(false), Shown, 4);
    FilterFrom(NavItems(false), Shown, 3);
  }

  lemma MusicianNavFilter()
    ensures Filter(NavItems(false), Shown) == NavItems(false)[..3] + NavItems(false)[5..]
  {
    FilterKeptPrefix(NavItems(false), Shown, 3);
    MusicianNavMiddle();
  }

  lemma MusicianNavTabs()
    ensures TabsOf(NavItems(false)[..3] + NavItems(false)[5..]) == [Feed, Calendar, Scores, Tools, AppInstall, Social]
  {
  }

  lemma MusicianNavigation()
    ensures VisibleTabs(false) == [Feed, Calendar, Scores, Tools, AppInstall, Social]
  {
    MusicianNavFilter();
    MusicianNavTabs();
  }

  /** An admin sees all eight tabs; anyone else the six without members and inventory,
      in the same order. */
  lemma VisibleTabsByRole(isAdmin: bool)
    ensures isAdmin ==> VisibleTabs(isAdmin) == AllTabs
    ensures !isAdmin ==> VisibleTabs(isAdmin) == [Feed, Calendar, Scores, Tools, AppInstall, Social]
  {
    if isAdmin {
      AdminNavigation();
    } else {
      MusicianNavigation();
    }
  }

  /** What the main area renders for a tab: the restricted placeholder, or the page with
      or without its admin-only controls (the roll-call buttons on the calendar, the
      export button on the inventory, the add button and contact details on the roster). */
  datatype View = Restricted | Page(tab: Tab, adminControls: bool)

  /** Members and inventory render the placeholder for non-admins. */
  function ViewOf(tab: Tab, isAdmin: bool): View
  {
    if (tab == Members || tab == Inventory) && !isAdmin then Restricted
    else Page(tab, isAdmin && (tab == Calendar || tab == Members || tab == Inventory))
  }

  /** AllTabs lists every tab. */
  lemma EveryTabListed(tab: Tab)
    ensures tab in AllTabs
  {
    match tab
    case Feed => assert AllTabs[0] == tab;
    case Calendar => assert AllTabs[1] == tab;
    case Scores => assert AllTabs[2] == tab;
    case Members => assert AllTabs[3] == tab;
    case Inventory => assert AllTabs[4] == tab;
    case Tools => assert AllTabs[5] == tab;
    case AppInstall => assert AllTabs[6] == tab;
    case Social => assert AllTabs[7] == tab;
  }

  /** The placeholder appears exactly on the tabs the sidebar hides. */
  lemma RestrictedExactlyOffNavigation(tab: Tab, isAdmin: bool)
    ensures ViewOf(tab, isAdmin).Restricted? <==> tab !in VisibleTabs(isAdmin)
  {
    VisibleTabsByRole(isAdmin);
    if isAdmin {
      EveryTabListed(tab);
    }
  }

  /** Admin-only controls appear exactly for admins on the calendar, members and
      inventory pages, and every page shows the tab it was asked for. */
  lemma AdminControlsOnlyForAdmins(tab: Tab, isAdmin: bool)
    ensures ViewOf(tab, isAdmin).Page? ==> ViewOf(tab, isAdmin).tab == tab
    ensures ViewOf(tab, isAdmin).Page? && ViewOf(tab, isAdmin).adminControls <==>
              isAdmin && tab in [Calendar, Members, Inventory]
  {
  }
}
