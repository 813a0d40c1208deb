/**
 * `AppRoot`: the string-keyed screen switch, the selected club that the
 * club-announcement screens receive, and the logout call. Each screen offers
 * its own callbacks; an event the current screen does not offer changes nothing.
 */
module Navigation {
  import opened Records
  import AuthVm

  datatype Screen =
    | Login | Register | Student | Admin
    | AdminReports | AdminPostAnnouncement | AdminEvents | AdminClubs | AdminClubAnnouncements
    | StudentAnnouncements | StudentEvents | StudentClubs | StudentAiChat | StudentClubAnnouncements

  /** The value of the `screen` variable for each screen. */
  function Route(s: Screen): string {
    match s
    case Login => "login"
    case Register => "register"
    case Student => "student"
    case Admin => "admin"
    case AdminReports => "admin_reports"
    case AdminPostAnnouncement => "admin_post_announcement"
    case AdminEvents => "admin_events"
    case AdminClubs => "admin_clubs"
    case AdminClubAnnouncements => "admin_club_announcements"
    case StudentAnnouncements => "student_announcements"
    case StudentEvents => "student_events"
    case StudentClubs => "student_clubs"
    case StudentAiChat => "student_ai_chat"
    case StudentClubAnnouncements => "student_club_announcements"
  }

  /** The `when (screen)` dispatch: which screen a route string shows, if any. */
  function ScreenOf(route: string): (r: Wrappers.Option<Screen>) {
    if route == "login" then Wrappers.Some(Login)
    else if route == "register" then Wrappers.Some(Register)
    else if route == "student" then Wrappers.Some(Student)
    else if route == "admin" then Wrappers.Some(Admin)
    else if route == "admin_reports" then Wrappers.Some(AdminReports)
    else if route == "admin_post_announcement" then Wrappers.Some(AdminPostAnnouncement)
    else if route == "admin_events" then Wrappers.Some(AdminEvents)
    else if route == "admin_clubs" then Wrappers.Some(AdminClubs)
    else if route == "admin_club_announcements" then Wrappers.Some(AdminClubAnnouncements)
    else if route == "student_announcements" then Wrappers.Some(StudentAnnouncements)
    else if route == "student_events" then Wrappers.Some(StudentEvents)
    else if route == "student_clubs" then Wrappers.Some(StudentClubs)
    else if route == "student_ai_chat" then Wrappers.Some(StudentAiChat)
    else if route == "student_club_announcements" then Wrappers.Some(StudentClubAnnouncements)
    else Wrappers.None
  }

  /** Every screen's route is dispatched back to that screen, so no two screens share a route. */
  lemma RouteRoundTrip(s: Screen)
    ensures ScreenOf(Route(s)) == Wrappers.Some(s)
  {
    match s
    case Login =>
    case Register =>
    case Student =>
    case Admin =>
    case AdminReports =>
    case AdminPostAnnouncement =>
    case AdminEvents =>
    case AdminClubs =>
    case AdminClubAnnouncements =>
    case StudentAnnouncements =>
    case StudentEvents =>
    case StudentClubs =>
    case StudentAiChat =>
    case StudentClubAnnouncements =>
  }

  /** The three parts of the app a screen belongs to. */
  datatype Area = Public | StudentArea | AdminArea

  function AreaOf(s: Screen): Area {
    match s
    case Login | Register => Public
    case Student | StudentAnnouncements | StudentEvents | StudentClubs | StudentAiChat | StudentClubAnnouncements =>
      StudentArea
    case _ => AdminArea
  }

  /** The callbacks the screens pass up to `AppRoot`. */
  datatype NavEvent =
    | GoRegister
    | GoLogin
    | Authenticated(role: string)      // onLoginSuccess / onRegisterSuccess
    | OpenAnnouncements                // the student dashboard's announcements, the admin's post screen
    | OpenEvents
    | OpenClubs
    | OpenAiChat
    | OpenReports
    | Logout
    | Back
    | OpenClubAnnouncements(clubId: string, clubName: string)

  /** The dashboard a successful login or registration leads to. */
  function HomeFor(role: string): (home: Screen)
    ensures home == Admin <==> role == AuthVm.ADMIN
    ensures home == Student <==> role != AuthVm.ADMIN
  {
    if role == AuthVm.ADMIN then Admin else Student
  }

  /** The screen an event leads to from `s`, or nothing when `s` does not offer it. */
  function Target(s: Screen, e: NavEvent): Wrappers.Option<Screen> {
    match (s, e)
    case (Login, GoRegister) => Wrappers.Some(Register)
    case (Login, Authenticated(role)) => Wrappers.Some(HomeFor(role))
    case (Register, GoLogin) => Wrappers.Some(Login)
    case (Register, Authenticated(role)) => Wrappers.Some(HomeFor(role))
    case (Student, OpenAnnouncements) => Wrappers.Some(StudentAnnouncements)
    case (Student, OpenEvents) => Wrappers.Some(StudentEvents)
    case (Student, OpenClubs) => Wrappers.Some(StudentClubs)
    case (Student, OpenAiChat) => Wrappers.Some(StudentAiChat)
    case (Student, Logout) => Wrappers.Some(Login)
    case (Admin, OpenAnnouncements) => Wrappers.Some(AdminPostAnnouncement)
    case (Admin, OpenEvents) => Wrappers.Some(AdminEvents)
    case (Admin, OpenClubs) => Wrappers.Some(AdminClubs)
    case (Admin, OpenReports) => Wrappers.Some(AdminReports)
    case (Admin, Logout) => Wrappers.Some(Login)
    case (AdminReports, Back) => Wrappers.Some(Admin)
    case (AdminPostAnnouncement, Back) => Wrappers.Some(Admin)
    case (AdminEvents, Back) => Wrappers.Some(Admin)
    case (AdminClubs, Back) => Wrappers.Some(Admin)
    case (AdminClubs, OpenClubAnnouncements(_, _)) => Wrappers.Some(AdminClubAnnouncements)
    case (AdminClubAnnouncements, Back) => Wrappers.Some(AdminClubs)
    case (StudentAnnouncements, Back) => Wrappers.Some(Student)
    case (StudentEvents, Back) => Wrappers.Some(Student)
    case (StudentClubs, Back) => Wrappers.Some(Student)
    case (StudentClubs, OpenClubAnnouncements(_, _)) => Wrappers.Some(StudentClubAnnouncements)
    case (StudentAiChat, Back) => Wrappers.Some(Student)
    case (StudentClubAnnouncements, Back) => Wrappers.Some(StudentClubs)
    case _ => Wrappers.None
  }

  datatype Nav = Nav(screen: Screen, selectedClubId: string, selectedClubName: string)

  /** `screen` starts at "login" with no club selected. */
  function Initial(): (n: Nav)
    ensures Route(n.screen) == "login"
    ensures n.selectedClubId == "" && n.selectedClubName == ""
  {
    Nav(Login, "", "")
  }

  datatype Outcome = Outcome(nav: Nav, effects: seq<Effect>)

  /** One callback: the screen switch, the selection it records and the logout call it makes. */
  function Step(n: Nav, e: NavEvent): (o: Outcome)
    ensures Target(n.screen, e).None? ==> o == Outcome(n, [])
    ensures Target(n.screen, e).Some? ==> o.nav.screen == Target(n.screen, e).value
    ensures o.effects != [] <==> Target(n.screen, e).Some? && e.Logout?
    ensures e.Logout? && o.effects != [] ==> o.effects == AuthVm.Logout().effects
    ensures (o.nav.selectedClubId, o.nav.selectedClubName) != (n.selectedClubId, n.selectedClubName) ==>
      e.OpenClubAnnouncements? && o.nav.selectedClubId == e.clubId && o.nav.selectedClubName == e.clubName
  {
    match Target(n.screen, e)
    case None => Outcome(n, [])
    case Some(next) =>
      if e.OpenClubAnnouncements? then Outcome(Nav(next, e.clubId, e.clubName), [])
      else if e.Logout? then Outcome(n.(screen := next), AuthVm.Logout().effects)
      else Outcome(n.(screen := next), [])
  }

  /** Login or registration success leads to the admin dashboard iff the role is "admin". */
  lemma AuthenticatedGoesHome(n: Nav, role: string)
    requires n.screen == Login || n.screen == Register
    ensures Step(n, Authenticated(role)).nav.screen == Admin <==> role == AuthVm.ADMIN
    ensures Step(n, Authenticated(role)).nav.screen == Student <==> role != AuthVm.ADMIN
  {
  }

  /** Logout from either dashboard signs out and shows the login screen. */
  lemma LogoutSignsOut(n: Nav)
    requires n.screen == Student || n.screen == Admin
    ensures Step(n, Logout).nav.screen == Login
    ensures Step(n, Logout).effects == [SignOut]
  {
  }

  /**
   * Back returns every sub-screen to its own dashboard, and the club
   * announcements to the club list they were opened from.
   */
  lemma BackReturns(n: Nav)
    requires n.screen !in {Login, Register, Student, Admin}
    ensures Step(n, Back).nav.screen ==
      (if n.screen == AdminClubAnnouncements then AdminClubs
       else if n.screen == StudentClubAnnouncements then StudentClubs
       else if AreaOf(n.screen) == AdminArea then Admin
       else Student)
  {
  }

  /** Opening a club's announcements records the club before switching screens. */
  lemma OpenClubRecordsSelection(n: Nav, clubId: string, clubName: string)
    requires n.screen == AdminClubs || n.screen == StudentClubs
    ensures Step(n, OpenClubAnnouncements(clubId, clubName)).nav ==
      Nav(if n.screen == AdminClubs then AdminClubAnnouncements else StudentClubAnnouncements, clubId, clubName)
  {
  }

  /** The arguments `AppRoot` gives `ClubAnnouncementsScreen`. */
  datatype Access = Access(clubId: string, clubName: string, canPost: bool, isMember: bool)

  /**
   * The admin copy may post and counts as a member; the student copy may not
   * post and is a member iff the selected club is one of the student's clubs.
   */
  function ClubAnnouncementsAccess(n: Nav, myClubIds: set<string>): (r: Wrappers.Option<Access>)
    ensures r.Some? <==> n.screen in {AdminClubAnnouncements, StudentClubAnnouncements}
    ensures r.Some? ==> r.value.clubId == n.selectedClubId && r.value.clubName == n.selectedClubName
    ensures r.Some? ==> (r.value.canPost <==> n.screen == AdminClubAnnouncements)
    ensures r.Some? ==> (r.value.isMember <==> n.screen == AdminClubAnnouncements || n.selectedClubId in myClubIds)
  {
    match n.screen
    case AdminClubAnnouncements => Wrappers.Some(Access(n.selectedClubId, n.selectedClubName, true, true))
    case StudentClubAnnouncements =>
      Wrappers.Some(Access(n.selectedClubId, n.selectedClubName, false, n.selectedClubId in myClubIds))
    case _ => Wrappers.None
  }

  /** A sequence of callbacks, applied in order. */
  function Run(n: Nav, trace: seq<NavEvent>): Nav
    decreases |trace|
  {
    if trace == [] then n else Run(Step(n, trace[0]).nav, trace[1..])
  }

  /**
   * Every callback in the trace belongs to the screen shown when it fires, as
   * only the shown screen's callbacks exist.
   */
  predicate Offered(n: Nav, trace: seq<NavEvent>)
    decreases |trace|
  {
    trace == [] || (Target(n.screen, trace[0]).Some? && Offered(Step(n, trace[0]).nav, trace[1..]))
  }

  /** A successful login or registration whose role leads into area `a`. */
  predicate Enters(e: NavEvent, a: Area) {
    e.Authenticated? && AreaOf(HomeFor(e.role)) == a
  }

  predicate LoggedOutIn(trace: seq<NavEvent>) {
    exists i :: 0 <= i < |trace| && trace[i] == Logout
  }

  /**
   * Event `i` of the trace entered area `a` and no logout followed it.
   */
  ghost predicate EnteredAt(trace: seq<NavEvent>, i: int, a: Area) {
    0 <= i < |trace| && Enters(trace[i], a) && !LoggedOutIn(trace[i + 1..])
  }

  /**
   * A single step never moves between the student and the admin areas, and
   * it leaves the public screens only through a successful login or
   * registration, into the area the role decides.
   */
  lemma StepArea(n: Nav, e: NavEvent)
    ensures var a := AreaOf(Step(n, e).nav.screen);
      if a == Public then true
      else if AreaOf(n.screen) == Public then Target(n.screen, e).Some? && Enters(e, a)
      else a == AreaOf(n.screen)
    ensures AreaOf(n.screen) != Public && e != Logout ==> AreaOf(Step(n, e).nav.screen) == AreaOf(n.screen)
  {
  }

  /**
   * Whatever the trace, being inside the student or the admin area means
   * either the trace started there and never logged out, or some successful
   * login or registration into that very area happened with no logout since.
   */
  lemma {:induction false} AreaNeedsAuthentication(n: Nav, trace: seq<NavEvent>)
    requires Offered(n, trace)
    requires AreaOf(Run(n, trace).screen) != Public
    ensures var a := AreaOf(Run(n, trace).screen);
      (AreaOf(n.screen) == a && !LoggedOutIn(trace)) || exists i :: EnteredAt(trace, i, a)
    decreases |trace|
  {
    var a := AreaOf(Run(n, trace).screen);
    if trace != [] {
      var e, rest := trace[0], trace[1..];
      var m := Step(n, e).nav;
      assert Run(n, trace) == Run(m, rest);
      AreaNeedsAuthentication(m, rest);
      StepArea(n, e);
      if exists j :: EnteredAt(rest, j, a) {
        var j :| EnteredAt(rest, j, a);
        assert trace[j + 1 + 1..] == rest[j + 1..];
        assert EnteredAt(trace, j + 1, a);
      } else {
        assert AreaOf(m.screen) == a && !LoggedOutIn(rest);
        if AreaOf(n.screen) == Public {
          assert trace[1..] == rest;
          assert EnteredAt(trace, 0, a);
        } else {
          assert e != Logout;
          forall i | 0 <= i < |trace| ensures trace[i] != Logout {
            if i > 0 { assert trace[i] == rest[i - 1]; }
          }
        }
      }
    }
  }

  /**
   * From the start of the app, every admin screen is reached through a
   * login or registration whose role was "admin", with no logout since.
   */
  lemma AdminNeedsAdminRole(trace: seq<NavEvent>)
    requires Offered(Initial(), trace)
    requires AreaOf(Run(Initial(), trace).screen) == AdminArea
    ensures exists i :: 0 <= i < |trace| && trace[i] == Authenticated(AuthVm.ADMIN) && !LoggedOutIn(trace[i + 1..])
  {
    AreaNeedsAuthentication(Initial(), trace);
    var i :| EnteredAt(trace, i, AdminArea);
    assert HomeFor(trace[i].role) == Admin;
  }
}
