/** The web shell: the simulated login, the side navigation's per-role lists, the
    page redirect that follows the signed-in role, the notification bell, the page
    switch and the header title. */
module App {

  import opened Wrappers
  import opened Text
  import Seqs
  import Types

  // ---- Login ----

  /** The keywords looked for in the email, in the order they are tried. */
  const RoleKeywords: seq<string> := ["owner", "manager", "bartender", "kitchen", "waiter", "security", "developer"]

  /** The first keyword the email contains, or "guest" when it contains none. */
  function FirstContained(keys: seq<string>, email: string): string
  {
    if keys == [] then "guest"
    else if Contains(email, keys[0]) then keys[0]
    else FirstContained(keys[1..], email)
  }

  function InferRole(email: string): string
  {
    FirstContained(RoleKeywords, email)
  }

  /** The result is "guest" exactly when no keyword is contained. */
  lemma {:induction false} FirstContainedNone(keys: seq<string>, email: string)
    requires "guest" !in keys
    ensures FirstContained(keys, email) == "guest" <==> forall i :: 0 <= i < |keys| ==> !Contains(email, keys[i])
    decreases |keys|
  {
    if keys != [] {
      if Contains(email, keys[0]) {
        assert keys[0] in keys;
      } else {
        FirstContainedNone(keys[1..], email);
        forall i | 0 < i < |keys|
          ensures keys[i] == keys[1..][i - 1]
        {
        }
      }
    }
  }

  /** Otherwise the result is the first contained keyword, every earlier one being
      absent. */
  lemma {:induction false} FirstContainedHit(keys: seq<string>, email: string)
    requires FirstContained(keys, email) != "guest"
    ensures exists j :: (0 <= j < |keys| && FirstContained(keys, email) == keys[j] && Contains(email, keys[j])
      && forall i :: 0 <= i < j ==> !Contains(email, keys[i]))
    decreases |keys|
  {
    if !Contains(email, keys[0]) {
      FirstContainedHit(keys[1..], email);
      var j :| 0 <= j < |keys| - 1 && FirstContained(keys[1..], email) == keys[1..][j] && Contains(email, keys[1..][j])
        && forall i :: 0 <= i < j ==> !Contains(email, keys[1..][i]);
      forall i | 0 < i <= j
        ensures keys[i] == keys[1..][i - 1]
      {
      }
      assert FirstContained(keys, email) == keys[j + 1] && Contains(email, keys[j + 1]);
    } else {
      assert FirstContained(keys, email) == keys[0];
    }
  }

  /** An email naming no role gives a guest; otherwise the role is the first of
      owner, manager, bartender, kitchen, waiter, security and developer that the email
      contains, so one naming both "manager" and "owner" is announced as the owner. */
  lemma InferRoleRules(email: string)
    ensures InferRole(email) == "guest" <==> forall i :: 0 <= i < |RoleKeywords| ==> !Contains(email, RoleKeywords[i])
    ensures InferRole(email) != "guest" ==>
      exists j :: 0 <= j < |RoleKeywords| && InferRole(email) == RoleKeywords[j] && Contains(email, RoleKeywords[j])
        && forall i :: 0 <= i < j ==> !Contains(email, RoleKeywords[i])
    ensures Contains(email, "owner") ==> InferRole(email) == "owner"
  {
    FirstContainedNone(RoleKeywords, email);
    if InferRole(email) != "guest" {
      FirstContainedHit(RoleKeywords, email);
    }
  }

  /** What `handleLogin` shows. The simulated role is only announced in the success
      modal: the handler never sets the session's role, which comes from the user
      record alone. */
  datatype LoginOutcome = MissingCredentials | Announced(role: string)

  /** `handleLogin`'s decision: both fields are needed, and then the announced role
      follows the email. */
  function LoginOutcomeOf(email: string, password: string): LoginOutcome
  {
    if email == "" || password == "" then MissingCredentials else Announced(InferRole(email))
  }

  /** The modal the login shows: a title and a message. */
  function LoginModal(o: LoginOutcome): (string, string)
  {
    match o
    case MissingCredentials => ("Login Error", "Please enter both email and password.")
    case Announced(role) => ("Login Success (Simulated)", "Welcome! You are logged in as a " + role + ".")
  }

  /** The login handler, with its assignment chain. A missing field yields the error
      and no role; otherwise the success modal announces the role inferred from the
      email. */
  method HandleLogin(email: string, password: string) returns (outcome: LoginOutcome)
    ensures outcome == LoginOutcomeOf(email, password)
    ensures outcome.MissingCredentials? <==> email == "" || password == ""
    ensures outcome.Announced? ==> outcome.role == "guest" || outcome.role in RoleKeywords
    ensures LoginModal(outcome).0 == "Login Success (Simulated)" <==> outcome.Announced?
  {
    if email == "" || password == "" {
      return MissingCredentials;
    }
    var simulatedRole := "guest";
    if Contains(email, "owner") {
      simulatedRole := "owner";
    } else if Contains(email, "manager") {
      simulatedRole := "manager";
    } else if Contains(email, "bartender") {
      simulatedRole := "bartender";
    } else if Contains(email, "kitchen") {
      simulatedRole := "kitchen";
    } else if Contains(email, "waiter") {
      simulatedRole := "waiter";
    } else if Contains(email, "security") {
      simulatedRole := "security";
    } else if Contains(email, "developer") {
      simulatedRole := "developer";
    }
    InferRoleExpanded(email);
    return Announced(simulatedRole);
  }

  /** The keyword search written out as the source's chain. */
  lemma InferRoleExpanded(email: string)
    ensures InferRole(email) ==
      if Contains(email, "owner") then "owner"
      else if Contains(email, "manager") then "manager"
      else if Contains(email, "bartender") then "bartender"
      else if Contains(email, "kitchen") then "kitchen"
      else if Contains(email, "waiter") then "waiter"
      else if Contains(email, "security") then "security"
      else if Contains(email, "developer") then "developer"
      else "guest"
  {
    var k := RoleKeywords;
    assert k[1..] == ["manager", "bartender", "kitchen", "waiter", "security", "developer"];
    assert k[2..] == ["bartender", "kitchen", "waiter", "security", "developer"];
    assert k[3..] == ["kitchen", "waiter", "security", "developer"];
    assert k[4..] == ["waiter", "security", "developer"];
    assert k[5..] == ["security", "developer"];
    assert k[6..] == ["developer"];
    assert k[6..][1..] == [];
    assert FirstContained(k[6..], email) == if Contains(email, "developer") then "developer" else "guest";
    assert FirstContained(k[5..], email) ==
      if Contains(email, "security") then "security" else FirstContained(k[6..], email);
    assert FirstContained(k[4..], email) ==
      if Contains(email, "waiter") then "waiter" else FirstContained(k[5..], email);
    assert FirstContained(k[3..], email) ==
      if Contains(email, "kitchen") then "kitchen" else FirstContained(k[4..], email);
    assert FirstContained(k[2..], email) ==
      if Contains(email, "bartender") then "bartender" else FirstContained(k[3..], email);
    assert FirstContained(k[1..], email) ==
      if Contains(email, "manager") then "manager" else FirstContained(k[2..], email);
  }

  // ---- Side navigation ----

  datatype ItemKind = DashboardKind | PageKind

  /** An entry of the side navigation; its icon is not modelled. */
  datatype SideItem = SideItem(id: string, name: string, kind: ItemKind)

  function Page(id: string, name: string): SideItem
  {
    SideItem(id, name, PageKind)
  }

  function Dashboard(id: string, name: string): SideItem
  {
    SideItem(id, name, DashboardKind)
  }

  /** The page id of a role's dashboard, as the redirect forms it. */
  function DashboardId(role: string): string
  {
    role + "-dashboard"
  }

  const GuestItems: seq<SideItem> := [Dashboard("guest-dashboard", "Guest Dashboard")]

  /** `navItems[userRole] || navItems['guest']`: the seven roles have lists of their
      own and every other value falls back to the guest's. */
  function SideNavItems(role: string): seq<SideItem>
  {
    match Types.ParseRole(role)
    case Some(r) => RoleItems(r)
    case None => GuestItems
  }

  function RoleItems(r: Types.Role): seq<SideItem>
  {
    match r
    case Owner => OwnerItems
    case Manager => ManagerItems
    case Bartender => BartenderItems
    case Kitchen => KitchenItems
    case Waiter => WaiterItems
    case Security => SecurityItems
    case Developer => DeveloperItems
  }

  const OwnerItems: seq<SideItem> := [
    Dashboard("owner-dashboard", "Owner Dashboard"), Page("reports", "Financial Reports"),
    Page("user-management", "User Management"), Page("promotions", "Promotions"),
    Page("reservations", "Reservations"), Page("supplier-management", "Suppliers"),
    Page("inventory", "Inventory (All)"), Page("settings", "System Settings"),
    Page("evaluation", "Staff Evaluation"), Page("developer-dashboard", "Developer Dashboard") ]

  const ManagerItems: seq<SideItem> := [
    Dashboard("manager-dashboard", "Manager Dashboard"), Page("reports", "Reports & Analytics"),
    Page("user-management", "User Management"), Page("promotions", "Promotions"),
    Page("reservations", "Reservations"), Page("supplier-management", "Suppliers"),
    Page("inventory", "Inventory (All)"), Page("settings", "System Settings"),
    Page("evaluation", "Staff Evaluation") ]

  const BartenderItems: seq<SideItem> := [
    Dashboard("bartender-dashboard", "Bartender Dashboard"), Page("pos", "POS System"),
    Page("inventory", "My Inventory"), Page("shift-log", "Shift Log"),
    Page("recipe-view", "Recipes"), Page("qr-scanner", "QR Scanner") ]

  const KitchenItems: seq<SideItem> := [
    Dashboard("kitchen-dashboard", "Kitchen Dashboard"), Page("kds", "Kitchen Display"),
    Page("inventory", "Ingredients"), Page("production-log", "Production Log") ]

  const WaiterItems: seq<SideItem> := [
    Dashboard("waiter-dashboard", "Waiter Dashboard"), Page("pos", "Table Service POS"),
    Page("reservations", "Reservations"), Page("order-pickup", "Order Pickup") ]

  const SecurityItems: seq<SideItem> := [
    Dashboard("security-dashboard", "Security Dashboard"), Page("qr-scanner", "QR Scanner"),
    Page("incident-log", "Incident Log") ]

  const DeveloperItems: seq<SideItem> := [
    Dashboard("developer-dashboard", "Developer Dashboard"), Page("error-logs", "Error Logs"),
    Page("backup-management", "Backup Management"), Page("system-status", "System Status") ]

  /** The keywords the login looks for are exactly the roles with a list of their own. */
  lemma KeywordsAreRoles(role: string)
    ensures Types.ParseRole(role).Some? <==> role in RoleKeywords
  {
  }

  function DashboardCount(items: seq<SideItem>): nat
  {
    |Seqs.Filter(items, (it: SideItem) => it.kind == DashboardKind)|
  }

  /** A list opening with a dashboard and holding only pages after it. */
  predicate OneDashboardFirst(items: seq<SideItem>)
  {
    items != [] && items[0].kind == DashboardKind
    && forall i :: 1 <= i < |items| ==> items[i].kind == PageKind
  }

  lemma DashboardsOfList(items: seq<SideItem>)
    requires OneDashboardFirst(items)
    ensures DashboardCount(items) == 1
  {
    Seqs.FilterNone(items[1..], (it: SideItem) => it.kind == DashboardKind);
  }

  /** Each role's list opens with that role's own dashboard, followed by pages only. */
  lemma RoleItemsShape(r: Types.Role)
    ensures OneDashboardFirst(RoleItems(r))
  {
  }

  lemma RoleItemsOpen(r: Types.Role)
    ensures RoleItems(r) != [] && RoleItems(r)[0].id == DashboardId(r.Name())
  {
    match r
    case Owner => assert DashboardId("owner") == "owner-dashboard";
    case Manager => assert DashboardId("manager") == "manager-dashboard";
    case Bartender => assert DashboardId("bartender") == "bartender-dashboard";
    case Kitchen => assert DashboardId("kitchen") == "kitchen-dashboard";
    case Waiter => assert DashboardId("waiter") == "waiter-dashboard";
    case Security => assert DashboardId("security") == "security-dashboard";
    case Developer => assert DashboardId("developer") == "developer-dashboard";
  }

  /** Each list opens with the role's own dashboard; the owner reaches the
      developer's dashboard through an item of the page kind. */
  lemma SideNavOpensWithDashboard(role: string)
    ensures SideNavItems(role) != [] && SideNavItems(role)[0].kind == DashboardKind
    ensures role in RoleKeywords ==> SideNavItems(role)[0].id == DashboardId(role)
    ensures SideNavItems("owner")[9] == Page("developer-dashboard", "Developer Dashboard")
  {
    KeywordsAreRoles(role);
    match Types.ParseRole(role)
    case Some(r) => RoleItemsShape(r); RoleItemsOpen(r);
    case None =>
  }

  /** Every role outside the table gets the guest list, which opens with the guest's
      dashboard. */
  lemma SideNavFallback(role: string)
    ensures !(role in RoleKeywords) ==> SideNavItems(role) == GuestItems
    ensures SideNavItems("guest")[0].id == DashboardId("guest")
  {
    KeywordsAreRoles(role);
    assert DashboardId("guest") == "guest-dashboard";
  }

  /** The opening dashboard is the only item of the dashboard kind in every list. */
  lemma OneDashboardPerList(role: string)
    ensures DashboardCount(SideNavItems(role)) == 1
  {
    match Types.ParseRole(role) {
      case Some(r) => RoleItemsShape(r);
      case None =>
    }
    DashboardsOfList(SideNavItems(role));
  }

  // ---- Redirect ----

  /** The redirect effect: a signed-in role leaves the login page for its dashboard,
      a signed-out session is sent to the login page, and nothing else moves. */
  function Redirect(userRole: Option<string>, page: string): (r: string)
  {
    if Types.Truthy(userRole) && page == "login" then DashboardId(userRole.value)
    else if !Types.Truthy(userRole) && page != "login" then "login"
    else page
  }

  /** Signed out the page ends at "login"; signed in it is never "login" again, and it
      is kept unless it was "login". Running the effect again changes nothing. */
  lemma RedirectRules(userRole: Option<string>, page: string)
    ensures !Types.Truthy(userRole) ==> Redirect(userRole, page) == "login"
    ensures Types.Truthy(userRole) ==> Redirect(userRole, page) != "login"
    ensures Types.Truthy(userRole) && page != "login" ==> Redirect(userRole, page) == page
    ensures Redirect(userRole, Redirect(userRole, page)) == Redirect(userRole, page)
  {
    if Types.Truthy(userRole) && page == "login" {
      assert |Redirect(userRole, page)| > |"login"|;
    }
  }

  // ---- Notifications ----

  datatype AppNotification = AppNotification(id: string, message: string, read: bool)

  const InitialNotifications: seq<AppNotification> := [
    AppNotification("n1", "New order received: Table 5", false),
    AppNotification("n2", "Low stock alert: Vodka", false) ]

  function UnreadCount(ns: seq<AppNotification>): nat
  {
    |Seqs.Filter(ns, (n: AppNotification) => !n.read)|
  }

  /** Every notification marked read, nothing else changed. */
  function MarkAllRead(ns: seq<AppNotification>): (r: seq<AppNotification>)
    ensures |r| == |ns|
    ensures forall i :: 0 <= i < |ns| ==> r[i] == ns[i].(read := true)
  {
    seq(|ns|, i requires 0 <= i < |ns| => ns[i].(read := true))
  }

  /** After the bell is clicked nothing is unread, and marking twice is marking once;
      the placeholders start with two unread. */
  lemma MarkAllReadRules(ns: seq<AppNotification>)
    ensures UnreadCount(MarkAllRead(ns)) == 0
    ensures MarkAllRead(MarkAllRead(ns)) == MarkAllRead(ns)
    ensures UnreadCount(InitialNotifications) == 2
  {
    Seqs.FilterNone(MarkAllRead(ns), (n: AppNotification) => !n.read);
    var i := InitialNotifications;
    assert i[1..][1..] == [];
  }

  /** The header badge: the unread count when positive. */
  function UnreadBadge(count: nat): (r: Option<string>)
    ensures r.Some? <==> count > 0
    ensures r.Some? ==> ParseInt(r.value) == Some(count)
  {
    ParseIntRoundTrip(count);
    if count > 0 then Some(IntToString(count)) else None
  }

  // ---- Pages ----

  /** The pages the switch knows. */
  const KnownPages: set<string> := {
    "owner-dashboard", "manager-dashboard", "bartender-dashboard", "kitchen-dashboard",
    "waiter-dashboard", "security-dashboard", "developer-dashboard", "pos", "inventory",
    "reports", "user-management", "promotions", "reservations", "supplier-management",
    "settings", "evaluation", "kds", "incident-log", "qr-scanner" }

  datatype Screen = LoginScreen | PageScreen(page: string) | NotFound

  /** `renderPage`. */
  function RenderPage(userRole: Option<string>, page: string): Screen
  {
    if !Types.Truthy(userRole) then LoginScreen
    else if page in KnownPages then PageScreen(page)
    else NotFound
  }

  /** Signed out, every page is the login screen; signed in, the guest's own
      dashboard and the placeholder entries of the lists have no page. */
  lemma RenderPageRules(userRole: Option<string>, page: string)
    ensures !Types.Truthy(userRole) <==> RenderPage(userRole, page) == LoginScreen
    ensures Types.Truthy(userRole) ==> RenderPage(userRole, "guest-dashboard") == NotFound
    ensures Types.Truthy(userRole) && RenderPage(userRole, page).PageScreen? ==> RenderPage(userRole, page).page == page
  {
    assert "guest-dashboard" !in KnownPages;
  }

  /** Each role's own dashboard has a page. */
  lemma DashboardsRender(r: Types.Role)
    ensures DashboardId(r.Name()) in KnownPages
  {
    match r
    case Owner => assert DashboardId("owner") == "owner-dashboard";
    case Manager => assert DashboardId("manager") == "manager-dashboard";
    case Bartender => assert DashboardId("bartender") == "bartender-dashboard";
    case Kitchen => assert DashboardId("kitchen") == "kitchen-dashboard";
    case Waiter => assert DashboardId("waiter") == "waiter-dashboard";
    case Security => assert DashboardId("security") == "security-dashboard";
    case Developer => assert DashboardId("developer") == "developer-dashboard";
  }

  /** After signing in from the login page, each of the seven roles lands on a page
      of its own, while a guest lands on the not-found message. */
  lemma SignInLanding(role: string)
    ensures role in RoleKeywords ==> RenderPage(Some(role), Redirect(Some(role), "login")) == PageScreen(DashboardId(role))
    ensures RenderPage(Some("guest"), Redirect(Some("guest"), "login")) == NotFound
  {
    KeywordsAreRoles(role);
    match Types.ParseRole(role) {
      case Some(r) => DashboardsRender(r);
      case None =>
    }
    assert DashboardId("guest") == "guest-dashboard";
    assert "guest-dashboard" !in KnownPages;
  }

  /** The list entries that lead to no page. */
  const Placeholders: set<string> := {"shift-log", "recipe-view", "production-log", "order-pickup",
    "error-logs", "backup-management", "system-status"}

  /** Everything the owner's and the manager's lists offer has a page; of the other
      lists, exactly the placeholders shift-log, recipe-view, production-log,
      order-pickup, error-logs, backup-management and system-status have none. */
  lemma ListedPagesRender(role: string, i: nat)
    requires role in RoleKeywords && i < |SideNavItems(role)|
    ensures SideNavItems(role)[i].id !in KnownPages <==> SideNavItems(role)[i].id in Placeholders
    ensures role == "owner" || role == "manager" ==> SideNavItems(role)[i].id in KnownPages
  {
    KeywordsAreRoles(role);
    RolePagesRender(Types.ParseRole(role).value, i);
  }

  lemma RolePagesRender(r: Types.Role, i: nat)
    requires i < |RoleItems(r)|
    ensures RoleItems(r)[i].id !in KnownPages <==> RoleItems(r)[i].id in Placeholders
    ensures r == Types.Owner || r == Types.Manager ==> RoleItems(r)[i].id in KnownPages
  {
    match r
    case Owner => OwnerPagesRender(i);
    case Manager => ManagerPagesRender(i);
    case _ => StaffPagesRender(r, i);
  }

  lemma OwnerPagesRender(i: nat)
    requires i < |OwnerItems|
    ensures OwnerItems[i].id in KnownPages && OwnerItems[i].id !in Placeholders
  {
  }

  lemma ManagerPagesRender(i: nat)
    requires i < |ManagerItems|
    ensures ManagerItems[i].id in KnownPages && ManagerItems[i].id !in Placeholders
  {
  }

  lemma StaffPagesRender(r: Types.Role, i: nat)
    requires r != Types.Owner && r != Types.Manager && i < |RoleItems(r)|
    ensures RoleItems(r)[i].id !in KnownPages <==> RoleItems(r)[i].id in Placeholders
  {
  }

  // ---- Header title ----

  function CapitalizeAll(words: seq<string>): (r: seq<string>)
    ensures |r| == |words|
    ensures forall i :: 0 <= i < |words| ==> r[i] == Capitalize(words[i])
  {
    seq(|words|, i requires 0 <= i < |words| => Capitalize(words[i]))
  }

  /** The title over the page: the first '-' becomes a space, and each space-separated
      word is capitalised. */
  function HeaderTitle(page: string): string
  {
    Join(CapitalizeAll(Split(ReplaceFirst(page, '-', ' '), ' ')), ' ')
  }

  lemma {:induction false} ReplaceFirstAt(a: string, b: string)
    requires '-' !in a
    ensures ReplaceFirst(a + "-" + b, '-', ' ') == a + " " + b
    decreases |a|
  {
    if a == [] {
      assert ([] + "-" + b)[1..] == b;
    } else {
      ReplaceFirstAt(a[1..], b);
      assert (a + "-" + b)[1..] == a[1..] + "-" + b;
      assert a == [a[0]] + a[1..];
    }
  }

  lemma {:induction false} ReplaceFirstAbsent(a: string)
    requires '-' !in a
    ensures ReplaceFirst(a, '-', ' ') == a
    decreases |a|
  {
    if a != [] {
      ReplaceFirstAbsent(a[1..]);
      assert a == [a[0]] + a[1..];
    }
  }

  /** A page named `first-rest`, with no space and `first` free of '-', is titled with
      both parts capitalised around one space; any later '-' of `rest` stays. A page
      without '-' or space is simply capitalised. */
  lemma HeaderTitleRules(first: string, rest: string)
    requires '-' !in first && ' ' !in first && ' ' !in rest
    ensures HeaderTitle(first + "-" + rest) == Capitalize(first) + " " + Capitalize(rest)
    ensures '-' !in rest ==> HeaderTitle(rest) == Capitalize(rest)
  {
    ReplaceFirstAt(first, rest);
    SplitAtSeparator(first, rest, ' ');
    SplitNoSeparator(rest, ' ');
    assert first + " " + rest == first + [' '] + rest;
    assert Split(first + " " + rest, ' ') == [first, rest];
    var w := CapitalizeAll([first, rest]);
    assert w == [Capitalize(first), Capitalize(rest)];
    assert Join(w[1..], ' ') == Capitalize(rest);
    assert Join(w, ' ') == w[0] + [' '] + Join(w[1..], ' ');
    if '-' !in rest {
      ReplaceFirstAbsent(rest);
      assert CapitalizeAll([rest]) == [Capitalize(rest)];
    }
  }

  /** The shell's state. */
  class AppContent {
    var currentPage: string
    var isNavOpen: bool
    var showNotificationModal: bool
    var notifications: seq<AppNotification>

    constructor()
      ensures currentPage == "login" && !isNavOpen && !showNotificationModal
      ensures notifications == InitialNotifications
    {
      currentPage := "login";
      isNavOpen := false;
      showNotificationModal := false;
      notifications := InitialNotifications;
    }

    /** The effect run when the role or the page changes. */
    method RedirectEffect(userRole: Option<string>)
      modifies this
      ensures currentPage == Redirect(userRole, old(currentPage))
      ensures isNavOpen == old(isNavOpen) && showNotificationModal == old(showNotificationModal)
      ensures notifications == old(notifications)
    {
      if Types.Truthy(userRole) && currentPage == "login" {
        currentPage := DashboardId(userRole.value);
      } else if !Types.Truthy(userRole) && currentPage != "login" {
        currentPage := "login";
      }
    }

    method ToggleNav()
      modifies this
      ensures isNavOpen == !old(isNavOpen)
      ensures currentPage == old(currentPage) && showNotificationModal == old(showNotificationModal)
      ensures notifications == old(notifications)
    {
      isNavOpen := !isNavOpen;
    }

    /** A side navigation entry: its id becomes the page, and on a narrow window the
        navigation is toggled. */
    method SelectItem(id: string, narrowWindow: bool)
      modifies this
      ensures currentPage == id
      ensures isNavOpen == (if narrowWindow then !old(isNavOpen) else old(isNavOpen))
      ensures showNotificationModal == old(showNotificationModal) && notifications == old(notifications)
    {
      currentPage := id;
      if narrowWindow {
        isNavOpen := !isNavOpen;
      }
    }

    /** The bell: every notification is marked read and the modal opens. */
    method NotificationClick()
      modifies this
      ensures notifications == MarkAllRead(old(notifications))
      ensures UnreadCount(notifications) == 0
      ensures showNotificationModal
      ensures currentPage == old(currentPage) && isNavOpen == old(isNavOpen)
    {
      MarkAllReadRules(notifications);
      notifications := MarkAllRead(notifications);
      showNotificationModal := true;
    }

    method CloseNotificationModal()
      modifies this
      ensures !showNotificationModal
      ensures currentPage == old(currentPage) && isNavOpen == old(isNavOpen)
      ensures notifications == old(notifications)
    {
      showNotificationModal := false;
    }
  }
}
