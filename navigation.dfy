/** The collapsible navigation menu: each role's sections of destinations, the
    header's role name and badge, and the menu's visibility with the router calls
    its handlers make. */
module Navigation {

  import opened Wrappers
  import Text
  import NotificationBell
  import opened Types

  /** A destination; its icon and description are not modelled. */
  datatype NavItem = NavItem(id: string, title: string, route: string, category: string)

  /** One titled group of the menu, in the order the menu lists them. */
  datatype Section = Section(category: string, items: seq<NavItem>)

  const MainFunctions := "Main Functions"
  const DashboardAccess := "Dashboard Access"
  const ManagementTools := "Management Tools"

  /** The route of a role's dashboard. */
  function DashboardRoute(role: string): string
  {
    "/(dashboard)/" + role
  }

  /** The section every role starts with: its own dashboard. */
  function BaseSection(role: string): Section
  {
    Section(MainFunctions, [NavItem("dashboard", "Dashboard", DashboardRoute(role), MainFunctions)])
  }

  /** The owner's view of the other dashboards. */
  function OwnerDashboards(): seq<NavItem>
  {
    [ NavItem("manager-dash", "Manager View", "/(dashboard)/manager", "Dashboard Access"),
      NavItem("bartender-dash", "Bartender View", "/(dashboard)/bartender", "Dashboard Access"),
      NavItem("kitchen-dash", "Kitchen View", "/(dashboard)/kitchen", "Dashboard Access"),
      NavItem("waiter-dash", "Waiter View", "/(dashboard)/waiter", "Dashboard Access"),
      NavItem("security-dash", "Security View", "/(dashboard)/security", "Dashboard Access"),
      NavItem("developer-dash", "Developer View", "/(dashboard)/developer", "Dashboard Access") ]
  }

  /** The manager's view, a subset of the owner's. */
  function ManagerDashboards(): seq<NavItem>
  {
    [ NavItem("bartender-dash", "Bartender View", "/(dashboard)/bartender", "Dashboard Access"),
      NavItem("kitchen-dash", "Kitchen View", "/(dashboard)/kitchen", "Dashboard Access"),
      NavItem("waiter-dash", "Waiter View", "/(dashboard)/waiter", "Dashboard Access"),
      NavItem("security-dash", "Security View", "/(dashboard)/security", "Dashboard Access") ]
  }

  /** The management pages, listed twice in the source with the same five entries. */
  function OwnerTools(): seq<NavItem>
  {
    [ NavItem("reports", "Reports & Analytics", "/(dashboard)/manager/reports", "Management Tools"),
      NavItem("inventory", "Inventory Management", "/(dashboard)/manager/inventory", "Management Tools"),
      NavItem("staff", "Staff Management", "/(dashboard)/manager/staff", "Management Tools"),
      NavItem("reservations", "Table Reservations", "/(dashboard)/manager/reservations", "Management Tools"),
      NavItem("vouchers", "Voucher Generator", "/(dashboard)/manager/vouchers", "Management Tools") ]
  }

  function ManagerTools(): seq<NavItem>
  {
    [ NavItem("reports", "Reports & Analytics", "/(dashboard)/manager/reports", "Management Tools"),
      NavItem("inventory", "Inventory Management", "/(dashboard)/manager/inventory", "Management Tools"),
      NavItem("staff", "Staff Management", "/(dashboard)/manager/staff", "Management Tools"),
      NavItem("reservations", "Table Reservations", "/(dashboard)/manager/reservations", "Management Tools"),
      NavItem("vouchers", "Voucher Generator", "/(dashboard)/manager/vouchers", "Management Tools") ]
  }

  /** `getNavigationItems`: the base section first, then the role's own sections; an
      unknown role gets the base section alone. */
  function NavigationItems(role: string): seq<Section>
  {
    [BaseSection(role)] + match ParseRole(role) case Some(r) => RoleSections(r) case None => []
  }

  /** The sections of the `switch`, one case per role. */
  function RoleSections(r: Role): seq<Section>
  {
    match r
    case Owner => OwnerSections()
    case Manager => ManagerSections()
    case Bartender => BartenderSections()
    case Kitchen => KitchenSections()
    case Waiter => WaiterSections()
    case Security => SecuritySections()
    case Developer => DeveloperSections()
  }

  function OwnerSections(): seq<Section>
  {
    [Section(DashboardAccess, OwnerDashboards()), Section(ManagementTools, OwnerTools())]
  }

  function ManagerSections(): seq<Section>
  {
    [Section(DashboardAccess, ManagerDashboards()), Section(ManagementTools, ManagerTools())]
  }

  function BartenderSections(): seq<Section>
  {
    [ Section("POS Functions", [
        NavItem("pos", "POS System", "/(dashboard)/bartender/pos", "POS Functions")]),
      Section("Operations", [
        NavItem("inventory", "Bar Inventory", "/(dashboard)/bartender/inventory", "Operations"),
        NavItem("shift-log", "Shift Log", "/(dashboard)/bartender/shift-log", "Operations")]) ]
  }

  function KitchenSections(): seq<Section>
  {
    [ Section("Kitchen Operations", [
        NavItem("orders", "Order Management", "/(dashboard)/kitchen/orders", "Kitchen Operations"),
        NavItem("production", "Production Log", "/(dashboard)/kitchen/production", "Kitchen Operations")]),
      Section("Inventory", [
        NavItem("inventory", "Kitchen Inventory", "/(dashboard)/kitchen/inventory", "Inventory")]) ]
  }

  function WaiterSections(): seq<Section>
  {
    [ Section("Table Service", [
        NavItem("pos", "Table Management", "/(dashboard)/waiter/pos", "Table Service"),
        NavItem("payments", "Process Payment", "/(dashboard)/waiter/payments", "Table Service")]),
      Section("Service Log", [
        NavItem("service-log", "Service Log", "/(dashboard)/waiter/service-log", "Service Log")]) ]
  }

  function SecuritySections(): seq<Section>
  {
    [ Section("Security Functions", [
        NavItem("scanner", "QR Scanner", "/(dashboard)/security/scanner", "Security Functions"),
        NavItem("incidents", "Log Incident", "/(dashboard)/security/incidents", "Security Functions")]),
      Section("Monitoring", [
        NavItem("security-log", "Security Log", "/(dashboard)/security/log", "Monitoring")]) ]
  }

  function DeveloperSections(): seq<Section>
  {
    [ Section("System Management", [
        NavItem("fix-bugs", "Fix Bugs", "/(dashboard)/developer/fix-bugs", "System Management"),
        NavItem("rollback", "System Rollback", "/(dashboard)/developer/rollback", "System Management")]),
      Section("Monitoring", [
        NavItem("logs", "Error Logs", "/(dashboard)/developer/logs", "Monitoring"),
        NavItem("backup", "Backup Management", "/(dashboard)/developer/backup", "Monitoring")]) ]
  }

  predicate KnownRole(role: string)
  {
    ParseRole(role).Some?
  }

  /** Every role's menu opens with one section holding just its own dashboard; a role
      outside the seven gets nothing else, and a known one gets two more sections. */
  lemma BaseSectionRules(role: string)
    ensures |NavigationItems(role)| >= 1
    ensures NavigationItems(role)[0].category == MainFunctions
    ensures NavigationItems(role)[0].items == [NavItem("dashboard", "Dashboard", "/(dashboard)/" + role, MainFunctions)]
    ensures !KnownRole(role) <==> NavigationItems(role) == [BaseSection(role)]
    ensures KnownRole(role) <==> |NavigationItems(role)| == 3
  {
  }

  /** Dashboard routes name their role. */
  lemma DashboardRouteInjective(a: string, b: string)
    ensures DashboardRoute(a) == DashboardRoute(b) <==> a == b
  {
    if DashboardRoute(a) == DashboardRoute(b) {
      assert a == DashboardRoute(a)[13..];
      assert b == DashboardRoute(b)[13..];
    }
  }

  function Routes(items: seq<NavItem>): seq<string>
  {
    seq(|items|, i requires 0 <= i < |items| => items[i].route)
  }

  /** The owner reaches the dashboards of all six other roles and not its own. */
  lemma OwnerDashboardAccess()
    ensures NavigationItems("owner")[1] == Section(DashboardAccess, OwnerDashboards())
    ensures Routes(OwnerDashboards()) == [DashboardRoute("manager"), DashboardRoute("bartender"),
      DashboardRoute("kitchen"), DashboardRoute("waiter"), DashboardRoute("security"), DashboardRoute("developer")]
    ensures DashboardRoute("owner") !in Routes(OwnerDashboards())
  {
    var rs := Routes(OwnerDashboards());
    assert rs == ["/(dashboard)/manager", "/(dashboard)/bartender", "/(dashboard)/kitchen",
      "/(dashboard)/waiter", "/(dashboard)/security", "/(dashboard)/developer"];
    assert DashboardRoute("manager") == "/(dashboard)/manager";
    assert DashboardRoute("bartender") == "/(dashboard)/bartender";
    assert DashboardRoute("kitchen") == "/(dashboard)/kitchen";
    assert DashboardRoute("waiter") == "/(dashboard)/waiter";
    assert DashboardRoute("security") == "/(dashboard)/security";
    assert DashboardRoute("developer") == "/(dashboard)/developer";
    forall i | 0 <= i < |rs|
      ensures rs[i] != DashboardRoute("owner")
    {
      assert rs[i][13] != 'o';
    }
  }

  /** The manager reaches bartender, kitchen, waiter and security, each of which the
      owner also reaches, but not the manager's own dashboard nor the developer's. */
  lemma ManagerDashboardAccess()
    ensures NavigationItems("manager")[1] == Section(DashboardAccess, ManagerDashboards())
    ensures forall x :: x in ManagerDashboards() ==> x in OwnerDashboards()
    ensures OwnerDashboards()[0] !in ManagerDashboards() && OwnerDashboards()[5] !in ManagerDashboards()
    ensures |ManagerDashboards()| < |OwnerDashboards()|
  {
    var m, o := ManagerDashboards(), OwnerDashboards();
    assert m == o[1..5];
    forall i | 0 <= i < |m|
      ensures m[i] != o[0] && m[i] != o[5]
    {
      assert m[i].id[0] != 'm' && m[i].id[0] != 'd';
    }
  }

  /** Owner and manager share the same management tools. */
  lemma SharedManagementTools()
    ensures NavigationItems("owner")[2] == NavigationItems("manager")[2]
    ensures NavigationItems("owner")[2].category == ManagementTools
  {
  }

  /** Every item of every section; the ids of a whole menu. */
  function AllItems(sections: seq<Section>): seq<NavItem>
  {
    if sections == [] then [] else sections[0].items + AllItems(sections[1..])
  }

  predicate Distinct(ids: seq<string>)
  {
    forall i, j :: 0 <= i < j < |ids| ==> ids[i] != ids[j]
  }

  /** Every item of the section carries the section's category. */
  predicate Homogeneous(section: Section)
  {
    forall i :: 0 <= i < |section.items| ==> section.items[i].category == section.category
  }

  predicate CategoriesMatch(sections: seq<Section>)
  {
    forall k :: 0 <= k < |sections| ==> Homogeneous(sections[k])
  }

  function Ids(items: seq<NavItem>): seq<string>
  {
    seq(|items|, i requires 0 <= i < |items| => items[i].id)
  }

  /** Every item sits under the section its category names. */
  lemma CategoriesMatchKeys(role: string)
    ensures CategoriesMatch(NavigationItems(role))
  {
    var s := NavigationItems(role);
    assert Homogeneous(s[0]);
    match ParseRole(role)
    case Some(r) =>
      RoleCategories(r);
      assert s[1..] == RoleSections(r);
    case None =>
  }

  lemma RoleCategories(r: Role)
    ensures CategoriesMatch(RoleSections(r))
  {
    match r
    case Owner => assert Homogeneous(OwnerSections()[0]) && Homogeneous(OwnerSections()[1]);
    case Manager => assert Homogeneous(ManagerSections()[0]) && Homogeneous(ManagerSections()[1]);
    case _ => StaffCategories(r);
  }

  lemma StaffCategories(r: Role)
    requires r != Owner && r != Manager
    ensures CategoriesMatch(RoleSections(r))
  {
    var s := RoleSections(r);
    assert Homogeneous(s[0]) && Homogeneous(s[1]);
  }

  /** The ids of a role's own sections. */
  function SectionIds(r: Role): seq<string>
  {
    Ids(AllItems(RoleSections(r)))
  }

  /** A menu's ids are the base dashboard's followed by those of its role's sections. */
  lemma IdsOfMenu(role: string)
    ensures Ids(AllItems(NavigationItems(role))) ==
      ["dashboard"] + match ParseRole(role) case Some(r) => SectionIds(r) case None => []
  {
    var rest := match ParseRole(role) case Some(r) => RoleSections(r) case None => [];
    IdsOfCons(BaseSection(role), rest);
    assert Ids(BaseSection(role).items) == ["dashboard"];
  }

  lemma IdsOfCons(first: Section, rest: seq<Section>)
    ensures Ids(AllItems([first] + rest)) == Ids(first.items) + Ids(AllItems(rest))
  {
    assert ([first] + rest)[1..] == rest;
    IdsAppend(first.items, AllItems(rest));
  }

  lemma IdsAppend(a: seq<NavItem>, b: seq<NavItem>)
    ensures Ids(a + b) == Ids(a) + Ids(b)
  {
  }

  lemma AllItemsOfTwo(s: seq<Section>)
    requires |s| == 2
    ensures AllItems(s) == s[0].items + s[1].items
  {
    assert AllItems(s[1..]) == s[1].items + AllItems([]);
  }

  /** Within each role's menu no id is repeated. */
  lemma IdsDistinct(role: string)
    ensures Distinct(Ids(AllItems(NavigationItems(role))))
  {
    IdsOfMenu(role);
    match ParseRole(role)
    case Some(r) => RoleIdsDistinct(r);
    case None =>
  }

  lemma RoleIdsDistinct(r: Role)
    ensures Distinct(["dashboard"] + SectionIds(r))
  {
    RoleIdList(r);
    IdListsDistinct(r);
  }

  /** The ids each role's two sections list, in order. */
  function IdList(r: Role): seq<string>
  {
    match r
    case Owner => ["manager-dash", "bartender-dash", "kitchen-dash", "waiter-dash", "security-dash",
      "developer-dash", "reports", "inventory", "staff", "reservations", "vouchers"]
    case Manager => ["bartender-dash", "kitchen-dash", "waiter-dash", "security-dash",
      "reports", "inventory", "staff", "reservations", "vouchers"]
    case Bartender => ["pos", "inventory", "shift-log"]
    case Kitchen => ["orders", "production", "inventory"]
    case Waiter => ["pos", "payments", "service-log"]
    case Security => ["scanner", "incidents", "security-log"]
    case Developer => ["fix-bugs", "rollback", "logs", "backup"]
  }

  lemma RoleIdList(r: Role)
    ensures SectionIds(r) == IdList(r)
  {
    match r
    case Owner => OwnerIdList();
    case Manager => ManagerIdList();
    case _ => StaffIdList(r);
  }

  lemma OwnerIdList()
    ensures SectionIds(Owner) == IdList(Owner)
  {
    AllItemsOfTwo(OwnerSections());
    IdsAppend(OwnerDashboards(), OwnerTools());
    assert Ids(OwnerDashboards()) == IdList(Owner)[..6];
    assert Ids(OwnerTools()) == IdList(Owner)[6..];
  }

  lemma ManagerIdList()
    ensures SectionIds(Manager) == IdList(Manager)
  {
    AllItemsOfTwo(ManagerSections());
    IdsAppend(ManagerDashboards(), ManagerTools());
    assert Ids(ManagerDashboards()) == IdList(Manager)[..4];
    assert Ids(ManagerTools()) == IdList(Manager)[4..];
  }

  lemma StaffIdList(r: Role)
    requires r != Owner && r != Manager
    ensures SectionIds(r) == IdList(r)
  {
    var s := RoleSections(r);
    AllItemsOfTwo(s);
    IdsAppend(s[0].items, s[1].items);
  }

  lemma IdListsDistinct(r: Role)
    ensures Distinct(["dashboard"] + IdList(r))
  {
  }

  /** `getRoleDisplayName`: the first letter upper-cased, the rest as given. */
  function RoleDisplayName(role: string): (r: string)
    ensures |r| == |role|
    ensures role != [] ==> r[0] == Text.ToUpper(role[0]) && r[1..] == role[1..]
  {
    Text.Capitalize(role)
  }

  /** Showing a displayed name again changes nothing. */
  lemma RoleDisplayNameIdempotent(role: string)
    ensures RoleDisplayName(RoleDisplayName(role)) == RoleDisplayName(role)
  {
    if role != [] {
      var r := RoleDisplayName(role);
      assert Text.ToUpper(r[0]) == r[0];
      assert RoleDisplayName(r) == [r[0]] + r[1..];
    }
  }

  /** An item is highlighted when the current route is its route. */
  predicate IsActive(currentRoute: string, item: NavItem)
  {
    currentRoute == item.route
  }

  /** The routes each role's two sections list, in order. */
  function RouteList(r: Role): seq<string>
  {
    match r
    case Owner => ["/(dashboard)/manager", "/(dashboard)/bartender", "/(dashboard)/kitchen",
      "/(dashboard)/waiter", "/(dashboard)/security", "/(dashboard)/developer",
      "/(dashboard)/manager/reports", "/(dashboard)/manager/inventory", "/(dashboard)/manager/staff",
      "/(dashboard)/manager/reservations", "/(dashboard)/manager/vouchers"]
    case Manager => ["/(dashboard)/bartender", "/(dashboard)/kitchen", "/(dashboard)/waiter",
      "/(dashboard)/security", "/(dashboard)/manager/reports", "/(dashboard)/manager/inventory",
      "/(dashboard)/manager/staff", "/(dashboard)/manager/reservations", "/(dashboard)/manager/vouchers"]
    case Bartender => ["/(dashboard)/bartender/pos", "/(dashboard)/bartender/inventory",
      "/(dashboard)/bartender/shift-log"]
    case Kitchen => ["/(dashboard)/kitchen/orders", "/(dashboard)/kitchen/production",
      "/(dashboard)/kitchen/inventory"]
    case Waiter => ["/(dashboard)/waiter/pos", "/(dashboard)/waiter/payments",
      "/(dashboard)/waiter/service-log"]
    case Security => ["/(dashboard)/security/scanner", "/(dashboard)/security/incidents",
      "/(dashboard)/security/log"]
    case Developer => ["/(dashboard)/developer/fix-bugs", "/(dashboard)/developer/rollback",
      "/(dashboard)/developer/logs", "/(dashboard)/developer/backup"]
  }

  lemma RoutesAppend(a: seq<NavItem>, b: seq<NavItem>)
    ensures Routes(a + b) == Routes(a) + Routes(b)
  {
  }

  lemma RoleRouteList(r: Role)
    ensures Routes(AllItems(RoleSections(r))) == RouteList(r)
  {
    var s := RoleSections(r);
    AllItemsOfTwo(s);
    RoutesAppend(s[0].items, s[1].items);
  }

  /** A menu's routes are its role's dashboard followed by those of its sections. */
  lemma RoutesOfMenu(role: string)
    ensures Routes(AllItems(NavigationItems(role))) ==
      [DashboardRoute(role)] + match ParseRole(role) case Some(r) => RouteList(r) case None => []
  {
    var rest := match ParseRole(role) case Some(r) => RoleSections(r) case None => [];
    assert ([BaseSection(role)] + rest)[1..] == rest;
    RoutesAppend(BaseSection(role).items, AllItems(rest));
    match ParseRole(role)
    case Some(r) => RoleRouteList(r);
    case None =>
  }

  /** Within each role's menu no route is repeated, the role's own dashboard included. */
  lemma RoutesDistinct(role: string)
    ensures Distinct(Routes(AllItems(NavigationItems(role))))
  {
    RoutesOfMenu(role);
    match ParseRole(role)
    case Some(r) =>
      assert DashboardRoute(role) == DashboardRoute(r.Name());
      RouteListsDistinct(r);
    case None =>
  }

  lemma RouteListsDistinct(r: Role)
    ensures Distinct([DashboardRoute(r.Name())] + RouteList(r))
  {
    match r
    case Owner => OwnerRoutesDistinct();
    case Manager => ManagerRoutesDistinct();
    case _ => StaffRoutesDistinct(r);
  }

  lemma OwnerRoutesDistinct()
    ensures Distinct([DashboardRoute("owner")] + RouteList(Owner))
  {
    assert DashboardRoute("owner") == "/(dashboard)/owner";
  }

  lemma ManagerRoutesDistinct()
    ensures Distinct([DashboardRoute("manager")] + RouteList(Manager))
  {
    assert DashboardRoute("manager") == "/(dashboard)/manager";
  }

  lemma StaffRoutesDistinct(r: Role)
    requires r != Owner && r != Manager
    ensures Distinct([DashboardRoute(r.Name())] + RouteList(r))
  {
  }

  /** Whatever the current route, at most one item of a role's menu is highlighted,
      and on the role's own dashboard route that item is the first. */
  lemma AtMostOneHighlighted(role: string, currentRoute: string)
    ensures var items := AllItems(NavigationItems(role));
      forall i, j :: 0 <= i < j < |items| && IsActive(currentRoute, items[i]) ==> !IsActive(currentRoute, items[j])
    ensures currentRoute == DashboardRoute(role) ==> IsActive(currentRoute, AllItems(NavigationItems(role))[0])
  {
    var items := AllItems(NavigationItems(role));
    RoutesDistinct(role);
    RoutesOfMenu(role);
    forall i, j | 0 <= i < j < |items| && IsActive(currentRoute, items[i])
      ensures !IsActive(currentRoute, items[j])
    {
      assert Routes(items)[i] != Routes(items)[j];
    }
    assert Routes(items)[0] == DashboardRoute(role);
  }

  /** The header badge is the bell's badge: none for a count of zero or less, the
      count up to 99, "99+" above. */
  function HeaderBadge(notificationCount: int): (r: Option<string>)
    ensures r.Some? <==> notificationCount > 0
    ensures notificationCount > 99 <==> r == Some("99+")
    ensures 0 < notificationCount <= 99 ==> Text.ParseInt(r.value) == Some(notificationCount)
  {
    NotificationBell.BadgeRules(notificationCount);
    NotificationBell.BadgeText(notificationCount)
  }

  /** What a handler asks of the router. */
  datatype RouterCall = Push(route: string) | Replace(route: string)

  const LoginRoute := "/(auth)/login"

  /** The menu's visibility. */
  class Menu {
    var isVisible: bool

    constructor()
      ensures !isVisible
    {
      isVisible := false;
    }

    /** The menu button and the close button. */
    method Open()
      modifies this
      ensures isVisible
    {
      isVisible := true;
    }

    method Close()
      modifies this
      ensures !isVisible
    {
      isVisible := false;
    }

    /** Pressing an item closes the menu and pushes its route. */
    method Navigate(route: string) returns (call: RouterCall)
      modifies this
      ensures !isVisible && call == Push(route)
    {
      isVisible := false;
      call := Push(route);
    }

    /** The logout dialog: cancelling changes nothing; confirming closes the menu and
        replaces the route with the login screen. */
    method Logout(confirmed: bool) returns (call: Option<RouterCall>)
      modifies this
      ensures confirmed ==> !isVisible && call == Some(Replace(LoginRoute))
      ensures !confirmed ==> isVisible == old(isVisible) && call == None
    {
      if confirmed {
        isVisible := false;
        call := Some(Replace(LoginRoute));
      } else {
        call := None;
      }
    }
  }
}
