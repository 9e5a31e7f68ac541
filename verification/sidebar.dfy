/** `src/components/AppSidebar.tsx`: the navigation each role is offered, and
    the two rules that decide how a group of links is drawn. Titles are the
    translation keys the table names; icons are left out. */
module Sidebar {
  import opened JsValues
  import opened Types

  /** The pages the sidebar links to. */
  datatype Route =
    | Home
    | Users
    | Roles
    | UserStatus
    | Complaints
    | Assessments
    | Responses
    | Approvals
    | Approved
    | ComplaintsReport
    | AssessmentReport
    | ResponseReport
    | FeedbackReport
    | PerformanceReport
    | Categories
    | Statuses
    | Reopened
    | Assign
    | Unassigned
    | ClosedQueue

  /** The URL of each page. */
  function Path(r: Route): string
  {
    match r
    case Home => "/dashboard"
    case Users => "/dashboard/users"
    case Roles => "/dashboard/roles"
    case UserStatus => "/dashboard/user-status"
    case Complaints => "/dashboard/complaints"
    case Assessments => "/dashboard/assessments"
    case Responses => "/dashboard/responses"
    case Approvals => "/dashboard/approvals"
    case Approved => "/dashboard/approved"
    case ComplaintsReport => "/dashboard/reports/complaints"
    case AssessmentReport => "/dashboard/reports/assessments"
    case ResponseReport => "/dashboard/reports/responses"
    case FeedbackReport => "/dashboard/reports/feedback"
    case PerformanceReport => "/dashboard/reports/performance"
    case Categories => "/dashboard/categories"
    case Statuses => "/dashboard/statuses"
    case Reopened => "/dashboard/reopened"
    case Assign => "/dashboard/assign"
    case Unassigned => "/dashboard/unassigned"
    case ClosedQueue => "/dashboard/closed"
  }

  /** A link inside a group. */
  datatype Child = Child(titleKey: string, route: Route)

  /** A menu entry: a plain link, or a group (url `#`) with its links. */
  datatype NavItem = Link(titleKey: string, route: Route) | Group(titleKey: string, children: seq<Child>)

  const DASHBOARD: NavItem := Link("nav.dashboard", Home)

  const ADMIN_MENU: seq<NavItem> := [
    DASHBOARD,
    Link("nav.users", Users),
    Link("nav.roles", Roles),
    Link("nav.userStatus", UserStatus)
  ]

  const DIRECTOR_MENU: seq<NavItem> := [
    DASHBOARD,
    Group("nav.cases", [
      Child("nav.allComplaints", Complaints),
      Child("nav.allAssessments", Assessments),
      Child("nav.allResponses", Responses)]),
    Group("nav.reports", [
      Child("nav.complaintsReports", ComplaintsReport),
      Child("nav.assessmentReports", AssessmentReport),
      Child("nav.responseReports", ResponseReport),
      Child("nav.feedbackReports", FeedbackReport)]),
    Group("nav.settings", [
      Child("nav.categorySubcategory", Categories),
      Child("nav.complaintStatus", Statuses)]),
    Group("nav.manage", [
      Child("nav.reopenedComplaints", Reopened)])
  ]

  const TEAM_LEADER_MENU: seq<NavItem> := [
    DASHBOARD,
    Group("nav.cases", [
      Child("nav.allComplaints", Complaints),
      Child("nav.allAssessments", Assessments),
      Child("nav.allResponses", Responses),
      Child("nav.allApprovals", Approvals)]),
    Group("nav.reports", [
      Child("nav.complaintsReports", ComplaintsReport),
      Child("nav.assessmentReports", AssessmentReport),
      Child("nav.responseReports", ResponseReport),
      Child("nav.feedbackReports", FeedbackReport),
      Child("nav.performanceReports", PerformanceReport)]),
    Group("nav.manage", [
      Child("nav.assignComplaints", Assign),
      Child("nav.unassignedComplaints", Unassigned),
      Child("nav.closedComplaints", ClosedQueue)])
  ]

  const OFFICER_MENU: seq<NavItem> := [
    DASHBOARD,
    Group("nav.cases", [
      Child("nav.myComplaints", Complaints),
      Child("nav.myAssessments", Assessments),
      Child("nav.myResponses", Responses),
      Child("nav.approvedResponses", Approved)]),
    Group("nav.reports", [
      Child("nav.performanceReports", PerformanceReport),
      Child("nav.feedbackReports", FeedbackReport)]),
    Group("nav.manage", [
      Child("nav.assignComplaints", Assign),
      Child("nav.unassignedComplaints", Unassigned),
      Child("nav.closedComplaints", ClosedQueue)])
  ]

  const DIRECTORATE_MENU: seq<NavItem> := [
    DASHBOARD,
    Link("nav.incomingComplaints", Complaints),
    Link("nav.assessments", Assessments),
    Link("nav.responses", Responses)
  ]

  /** `roleNavItems[role]`: every role has an entry. */
  function RoleMenu(r: UserRole): seq<NavItem>
  {
    match r
    case Admin => ADMIN_MENU
    case Director => DIRECTOR_MENU
    case TeamLeader => TEAM_LEADER_MENU
    case Officer => OFFICER_MENU
    case Directorate => DIRECTORATE_MENU
  }

  /** `roleNavItems[user.role] || []`: the role is looked up by its stored
      name, and a name that is not a role yields an empty menu. */
  function MenuFor(roleName: string): (items: seq<NavItem>)
    ensures ParseRole(roleName).None? ==> items == []
    ensures ParseRole(roleName).Some? ==> items == RoleMenu(ParseRole(roleName).value)
  {
    match ParseRole(roleName)
    case Some(r) => RoleMenu(r)
    case None => []
  }

  /** The menu of every role is found under that role's name. */
  lemma MenuForRoleName(r: UserRole)
    ensures MenuFor(RoleName(r)) == RoleMenu(r)
  {
    RolesComplete();
  }

  /** The pages an item leads to: its own, or each of its children's. */
  function Routes(item: NavItem): (r: seq<Route>)
    ensures item.Link? ==> r == [item.route]
    ensures item.Group? ==> |r| == |item.children| && forall i :: 0 <= i < |r| ==> r[i] == item.children[i].route
  {
    match item
    case Link(_, route) => [route]
    case Group(_, children) => seq(|children|, i requires 0 <= i < |children| => children[i].route)
  }

  /** Some entry of `menu` leads to `route`. */
  ghost predicate Offers(menu: seq<NavItem>, route: Route)
  {
    exists i :: 0 <= i < |menu| && route in Routes(menu[i])
  }

  /** No entry of `menu` is a group. */
  predicate Flat(menu: seq<NavItem>)
  {
    forall i :: 0 <= i < |menu| ==> menu[i].Link?
  }

  /** Every role's menu opens with the dashboard link. */
  lemma DashboardFirst(r: UserRole)
    ensures |RoleMenu(r)| > 0 && RoleMenu(r)[0] == Link("nav.dashboard", Home)
  {
  }

  /** The pages each role can reach from the sidebar, written out as sets. */
  function Pages(r: UserRole): set<Route>
  {
    match r
    case Admin => {Home, Users, Roles, UserStatus}
    case Director => {Home, Complaints, Assessments, Responses, ComplaintsReport, AssessmentReport,
                      ResponseReport, FeedbackReport, Categories, Statuses, Reopened}
    case TeamLeader => {Home, Complaints, Assessments, Responses, Approvals, ComplaintsReport,
                        AssessmentReport, ResponseReport, FeedbackReport, PerformanceReport,
                        Assign, Unassigned, ClosedQueue}
    case Officer => {Home, Complaints, Assessments, Responses, Approved, PerformanceReport,
                     FeedbackReport, Assign, Unassigned, ClosedQueue}
    case Directorate => {Home, Complaints, Assessments, Responses}
  }

  /** The table offers each role exactly the pages listed for it. */
  lemma MenuOffersPages(r: UserRole, route: Route)
    ensures Offers(RoleMenu(r), route) <==> route in Pages(r)
  {
    match r
    case Admin => AdminPages(route);
    case Director => DirectorPages(route);
    case TeamLeader => TeamLeaderPages(route);
    case Officer => OfficerPages(route);
    case Directorate => DirectoratePages(route);
  }

  /** Each page of an entry is offered by the menu holding it. */
  lemma OffersEntry(menu: seq<NavItem>, k: nat)
    requires k < |menu|
    ensures forall x :: x in Routes(menu[k]) ==> Offers(menu, x)
  {
  }

  /** A menu whose entries all lead into `pages` offers nothing outside it. */
  lemma OffersOnly(menu: seq<NavItem>, pages: set<Route>)
    requires forall i, x :: 0 <= i < |menu| && x in Routes(menu[i]) ==> x in pages
    ensures forall x :: Offers(menu, x) ==> x in pages
  {
  }

  /** The pages the menu of an administrator leads to. */
  lemma AdminPages(route: Route)
    ensures Offers(ADMIN_MENU, route) <==> route in Pages(Admin)
  {
    assert Routes(ADMIN_MENU[0]) == [Home];
    assert Routes(ADMIN_MENU[1]) == [Users];
    assert Routes(ADMIN_MENU[2]) == [Roles];
    assert Routes(ADMIN_MENU[3]) == [UserStatus];
    OffersEntry(ADMIN_MENU, 0);
    OffersEntry(ADMIN_MENU, 1);
    OffersEntry(ADMIN_MENU, 2);
    OffersEntry(ADMIN_MENU, 3);
    OffersOnly(ADMIN_MENU, Pages(Admin));
  }

  /** The pages the menu of a director leads to. */
  lemma DirectorPages(route: Route)
    ensures Offers(DIRECTOR_MENU, route) <==> route in Pages(Director)
  {
    assert Routes(DIRECTOR_MENU[0]) == [Home];
    assert Routes(DIRECTOR_MENU[1]) == [Complaints, Assessments, Responses];
    assert Routes(DIRECTOR_MENU[2]) == [ComplaintsReport, AssessmentReport, ResponseReport, FeedbackReport];
    assert Routes(DIRECTOR_MENU[3]) == [Categories, Statuses];
    assert Routes(DIRECTOR_MENU[4]) == [Reopened];
    OffersEntry(DIRECTOR_MENU, 0);
    OffersEntry(DIRECTOR_MENU, 1);
    OffersEntry(DIRECTOR_MENU, 2);
    OffersEntry(DIRECTOR_MENU, 3);
    OffersEntry(DIRECTOR_MENU, 4);
    OffersOnly(DIRECTOR_MENU, Pages(Director));
  }

  /** The pages the menu of a team leader leads to. */
  lemma TeamLeaderPages(route: Route)
    ensures Offers(TEAM_LEADER_MENU, route) <==> route in Pages(TeamLeader)
  {
    assert Routes(TEAM_LEADER_MENU[0]) == [Home];
    assert Routes(TEAM_LEADER_MENU[1]) == [Complaints, Assessments, Responses, Approvals];
    assert Routes(TEAM_LEADER_MENU[2]) == [ComplaintsReport, AssessmentReport, ResponseReport, FeedbackReport, PerformanceReport];
    assert Routes(TEAM_LEADER_MENU[3]) == [Assign, Unassigned, ClosedQueue];
    OffersEntry(TEAM_LEADER_MENU, 0);
    OffersEntry(TEAM_LEADER_MENU, 1);
    OffersEntry(TEAM_LEADER_MENU, 2);
    OffersEntry(TEAM_LEADER_MENU, 3);
    OffersOnly(TEAM_LEADER_MENU, Pages(TeamLeader));
  }

  /** The pages the menu of an officer leads to. */
  lemma OfficerPages(route: Route)
    ensures Offers(OFFICER_MENU, route) <==> route in Pages(Officer)
  {
    assert Routes(OFFICER_MENU[0]) == [Home];
    assert Routes(OFFICER_MENU[1]) == [Complaints, Assessments, Responses, Approved];
    assert Routes(OFFICER_MENU[2]) == [PerformanceReport, FeedbackReport];
    assert Routes(OFFICER_MENU[3]) == [Assign, Unassigned, ClosedQueue];
    OffersEntry(OFFICER_MENU, 0);
    OffersEntry(OFFICER_MENU, 1);
    OffersEntry(OFFICER_MENU, 2);
    OffersEntry(OFFICER_MENU, 3);
    OffersOnly(OFFICER_MENU, Pages(Officer));
  }

  /** The pages the menu of a directorate leads to. */
  lemma DirectoratePages(route: Route)
    ensures Offers(DIRECTORATE_MENU, route) <==> route in Pages(Directorate)
  {
    assert Routes(DIRECTORATE_MENU[0]) == [Home];
    assert Routes(DIRECTORATE_MENU[1]) == [Complaints];
    assert Routes(DIRECTORATE_MENU[2]) == [Assessments];
    assert Routes(DIRECTORATE_MENU[3]) == [Responses];
    OffersEntry(DIRECTORATE_MENU, 0);
    OffersEntry(DIRECTORATE_MENU, 1);
    OffersEntry(DIRECTORATE_MENU, 2);
    OffersEntry(DIRECTORATE_MENU, 3);
    OffersOnly(DIRECTORATE_MENU, Pages(Directorate));
  }

  /** The admin menu is four plain links: dashboard, users, roles and user
      status; no case, report or queue page. */
  lemma AdminMenuOnlyAdministers(route: Route)
    ensures Flat(ADMIN_MENU)
    ensures Offers(ADMIN_MENU, route) <==> route in {Home, Users, Roles, UserStatus}
  {
    MenuOffersPages(Admin, route);
  }

  /** The approvals queue is offered to team leaders only. */
  lemma ApprovalsOnlyForTeamLeader(r: UserRole)
    ensures Offers(RoleMenu(r), Approvals) <==> r == TeamLeader
  {
    MenuOffersPages(r, Approvals);
  }

  /** Assigning, the unassigned queue and the closed queue are offered to
      team leaders and officers only. */
  lemma WorkQueuesOnlyForTeamLeaderAndOfficer(r: UserRole, route: Route)
    requires route == Assign || route == Unassigned || route == ClosedQueue
    ensures Offers(RoleMenu(r), route) <==> r == TeamLeader || r == Officer
  {
    MenuOffersPages(r, route);
  }

  /** Reopened complaints are offered to directors only, and the directorate
      menu has no groups. */
  lemma ReopenedOnlyForDirector(r: UserRole)
    ensures Offers(RoleMenu(r), Reopened) <==> r == Director
    ensures Flat(DIRECTORATE_MENU)
  {
    MenuOffersPages(r, Reopened);
  }

  /** Every group in the table has at least one link. */
  lemma GroupsNonEmpty(r: UserRole)
    ensures forall i :: 0 <= i < |RoleMenu(r)| && RoleMenu(r)[i].Group? ==> |RoleMenu(r)[i].children| > 0
  {
  }

  /** `defaultOpen`: a group starts expanded when the current path is the URL of one of its links. */
  function DefaultOpen(children: seq<Child>, pathname: string): (b: bool)
    ensures b <==> exists i :: 0 <= i < |children| && Path(children[i].route) == pathname
  {
    if |children| == 0 then false
    else if Path(children[0].route) == pathname then true
    else
      assert forall i :: 1 <= i < |children| ==> children[i] == children[1..][i - 1];
      DefaultOpen(children[1..], pathname)
  }

  /** Where an entry links to in the collapsed sidebar: a plain link to its
      own page, a group to its first child's. `None` stands for the page
      failing on a group with no children, which the table never has. */
  function CollapsedTarget(item: NavItem): (r: Option<Route>)
    ensures item.Link? ==> r == Some(item.route)
    ensures item.Group? && |item.children| > 0 ==> r == Some(item.children[0].route)
    ensures r.None? <==> item.Group? && |item.children| == 0
  {
    match item
    case Link(_, route) => Some(route)
    case Group(_, children) => if |children| > 0 then Some(children[0].route) else None
  }

  /** In the collapsed sidebar every entry of every role's menu has a target,
      and that target is one of the entry's own pages. */
  lemma CollapsedTargetsExist(r: UserRole, i: nat)
    requires i < |RoleMenu(r)|
    ensures CollapsedTarget(RoleMenu(r)[i]).Some?
    ensures CollapsedTarget(RoleMenu(r)[i]).value in Routes(RoleMenu(r)[i])
  {
    GroupsNonEmpty(r);
  }
}
