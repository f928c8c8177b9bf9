/** The admin portal of app/admin.tsx: seeded users, flights and concierge
    requests, a session (the signed-in user, the current view and the sign-in
    form), and the handlers that replace them. The clock, the random draw behind
    request ids and the answer to the confirmation dialog are parameters. */
module AdminPortal {
  import opened Wrappers
  import opened Ascii
  import opened Listing
  import opened Records

  datatype View =
    | Dashboard | Flights | Fleet | Concierge | Profile
    | AdminDashboard | AdminFlights | AdminUsers | AdminConcierge

  datatype AuthView = SignIn | SignUp

  /** The renderer each view is drawn by. */
  datatype Page =
    | DashboardPage | FlightsPage | FleetPage | ConciergePage | ProfilePage
    | AdminDashboardPage | AdminFlightsPage | AdminUsersPage | AdminConciergePage

  const AdminEmail: string := "mauricio@stokeleads.com"
  const AdminPassword: string := "StokeLeadsD2"
  const InvalidCredentials: string := "Invalid credentials. Try mauricio@stokeleads.com / StokeLeadsD2"
  const RequestSubmitted: string := "Concierge request submitted successfully."
  const RequestIdRange: nat := 10000

  /** The seeded users; join dates are midnight UTC of the seeded day. */
  function SeedUsers(): seq<User> {
    [ User("u1", "Mauricio Admin", "mauricio@stokeleads.com", Admin, Platinum, 0, Some(1609459200000)),
      User("u2", "Alex Croft", "alex@example.com", Customer, Platinum, 12500, Some(1649980800000)),
      User("u3", "Sarah Jenkins", "sarah@example.com", Customer, Gold, 4500, Some(1687219200000)) ]
  }

  /** The seeded flights, dated relative to the moment the portal loads. */
  function SeedFlights(loadedAt: int): seq<Flight> {
    [ Flight("FL-1042", "u2", "RDM", "SFO", Some(loadedAt + 14 * Day), "Pilatus PC-12", Confirmed, 4, 6500),
      Flight("FL-1099", "u2", "SEA", "RDM", Some(loadedAt + 32 * Day), "Citation CJ3", Pending, 2, 8200),
      Flight("FL-0901", "u2", "RDM", "VNY", Some(loadedAt - 45 * Day), "Citation XLS", Complete, 6, 12000),
      Flight("FL-1105", "u3", "RDM", "LAS", Some(loadedAt + 5 * Day), "Citation CJ3", Confirmed, 3, 9500) ]
  }

  function SeedRequests(loadedAt: int): seq<Request> {
    [ Request("CR-1", "FL-1042", "u2", "Catering",
              "Gluten free options for 2 passengers, champagne on arrival.", Open, loadedAt - 2 * Day) ]
  }

  /** What the admin dashboard shows for the seeded data: revenue 36,200 over
      three active flights, one open request, two customers. */
  lemma SeedFigures(loadedAt: int)
    ensures TotalRevenue(SeedFlights(loadedAt)) == 36200
    ensures ActiveCount(SeedFlights(loadedAt)) == 3
    ensures PendingCount(SeedRequests(loadedAt)) == 1
    ensures CustomerCount(SeedUsers()) == 2
  {
    FourFlightDashboard(SeedFlights(loadedAt));
    FilterLength(IsOpen, SeedRequests(loadedAt));
    FilterLength(IsCustomer, SeedUsers());
    assert SeedUsers()[1..][1..] == [SeedUsers()[2]];
  }

  function HasEmail(email: string): User -> bool {
    (u: User) => u.email == email
  }

  /** The regular sign-in's test: the emails agree once lower-cased. */
  predicate SameEmail(u: User, email: string) {
    ToLower(u.email) == ToLower(email)
  }

  function EmailMatches(email: string): User -> bool {
    (u: User) => SameEmail(u, email)
  }

  /** users[k] is the first user whose email matches the one typed. */
  predicate FirstMatch(users: seq<User>, email: string, k: int) {
    0 <= k < |users| && SameEmail(users[k], email) &&
    forall j :: 0 <= j < k ==> !SameEmail(users[j], email)
  }

  predicate AdminListed(users: seq<User>) {
    exists i :: 0 <= i < |users| && users[i].email == AdminEmail
  }

  datatype LoginOutcome = SignedIn(user: User, view: View) | Refused

  /** handleLogin's decision. The exact admin credentials sign in the first user
      with the admin email, on the admin dashboard; otherwise the first user whose
      email matches case-insensitively signs in on the dashboard, provided that
      user is a customer and some password was typed. */
  function Login(users: seq<User>, email: string, password: string): (o: LoginOutcome)
    ensures o.SignedIn? ==> o.user in users
    ensures o.SignedIn? ==> o.view == AdminDashboard || o.view == Dashboard
    ensures o.SignedIn? && o.view == AdminDashboard ==>
              email == AdminEmail && password == AdminPassword && o.user.email == AdminEmail
    ensures o.SignedIn? && o.view == Dashboard ==>
              o.user.role == Customer && password != "" && SameEmail(o.user, email)
    ensures email == AdminEmail && password == AdminPassword && AdminListed(users) ==>
              o.SignedIn? && o.view == AdminDashboard
    // otherwise the first user whose email matches decides: a customer with some
    // password typed signs in on the dashboard
    ensures forall k :: FirstMatch(users, email, k) && users[k].role == Customer && password != "" &&
                        !(email == AdminEmail && password == AdminPassword && AdminListed(users)) ==>
                o == SignedIn(users[k], Dashboard)
    // and a dashboard sign-in is always that first match
    ensures o.SignedIn? && o.view == Dashboard ==>
              exists k :: FirstMatch(users, email, k) && users[k] == o.user
  {
    var admin := Find(HasEmail(AdminEmail), users);
    if email == AdminEmail && password == AdminPassword && admin.Some? then
      SignedIn(admin.value, AdminDashboard)
    else
      var found := Find(EmailMatches(email), users);
      FoundIsFirstMatch(users, email);
      if found.Some? && found.value.role == Customer && |password| > 0 then
        SignedIn(found.value, Dashboard)
      else
        Refused
  }

  /** The regular sign-in's `find` returns exactly the first matching user. */
  lemma FoundIsFirstMatch(users: seq<User>, email: string)
    ensures forall k :: FirstMatch(users, email, k) ==> Find(EmailMatches(email), users) == Some(users[k])
    ensures Find(EmailMatches(email), users).Some? ==>
              exists k :: FirstMatch(users, email, k) && users[k] == Find(EmailMatches(email), users).value
  {
    forall k | FirstMatch(users, email, k) ensures Find(EmailMatches(email), users) == Some(users[k]) {
      FindFirst(EmailMatches(email), users, k);
    }
  }

  /** Against the seeded users the admin gets in only with the admin password. */
  lemma SeedAdminLogin(password: string)
    ensures Login(SeedUsers(), AdminEmail, AdminPassword) == SignedIn(SeedUsers()[0], AdminDashboard)
    ensures password != AdminPassword ==> Login(SeedUsers(), AdminEmail, password) == Refused
  {
    var users := SeedUsers();
    assert HasEmail(AdminEmail)(users[0]);
    assert EmailMatches(AdminEmail)(users[0]);
  }

  /** Without a password nobody gets in. */
  lemma EmptyPasswordRefused(users: seq<User>, email: string)
    ensures Login(users, email, "") == Refused
  {
  }

  /** A customer gets in with any non-empty password, whatever the case of the
      email typed. */
  lemma SeedCustomerLogin(password: string)
    requires password != ""
    ensures Login(SeedUsers(), "Alex@Example.com", password) == SignedIn(SeedUsers()[1], Dashboard)
  {
    var users := SeedUsers();
    var alex := "Alex@Example.com";
    AlexLower();
    assert ToLower(users[0].email)[0] == 'm';
    assert !EmailMatches(alex)(users[0]);
    assert EmailMatches(alex)(users[1]);
    assert FindIndex(EmailMatches(alex), users) == 1;
  }

  lemma AlexLower()
    ensures ToLower("Alex@Example.com") == ToLower("alex@example.com")
    ensures ToLower("Alex@Example.com")[0] == 'a'
  {
    var s, t := ToLower("Alex@Example.com"), ToLower("alex@example.com");
    assert forall i | 0 <= i < 16 :: s[i] == t[i];
  }

  /** renderCurrentView: each view has its own renderer. The switch's default
      branch, which would draw the dashboard, cannot be reached: only the
      dashboard view is drawn by the dashboard renderer. */
  function Render(v: View): (p: Page)
    ensures p == DashboardPage <==> v == Dashboard
    ensures v.AdminDashboard? || v.AdminFlights? || v.AdminUsers? || v.AdminConcierge? <==>
              p.AdminDashboardPage? || p.AdminFlightsPage? || p.AdminUsersPage? || p.AdminConciergePage?
  {
    match v
    case Dashboard => DashboardPage
    case Flights => FlightsPage
    case Fleet => FleetPage
    case Concierge => ConciergePage
    case Profile => ProfilePage
    case AdminDashboard => AdminDashboardPage
    case AdminFlights => AdminFlightsPage
    case AdminUsers => AdminUsersPage
    case AdminConcierge => AdminConciergePage
  }

  lemma RenderInjective(v: View, w: View)
    requires Render(v) == Render(w)
    ensures v == w
  {
  }

  /** Everything the portal's handlers can change, as one value. */
  datatype Snapshot = Snapshot(
    flights: seq<Flight>, requests: seq<Request>,
    currentUser: Option<User>, authView: AuthView, currentView: View,
    loginEmail: string, loginPass: string, loginError: string,
    alerts: seq<string>)

  class Portal {
    const users: seq<User>
    var flights: seq<Flight>
    var requests: seq<Request>
    var currentUser: Option<User>
    var authView: AuthView
    var currentView: View
    var loginEmail: string
    var loginPass: string
    var loginError: string
    /** The alert() messages shown so far. */
    var alerts: seq<string>

    function State(): Snapshot
      reads this
    {
      Snapshot(flights, requests, currentUser, authView, currentView, loginEmail, loginPass, loginError, alerts)
    }

    constructor (loadedAt: int)
      ensures users == SeedUsers()
      ensures State() == Snapshot(SeedFlights(loadedAt), SeedRequests(loadedAt), None, SignIn, Dashboard, "", "", "", [])
    {
      users := SeedUsers();
      flights, requests := SeedFlights(loadedAt), SeedRequests(loadedAt);
      currentUser, authView, currentView := None, SignIn, Dashboard;
      loginEmail, loginPass, loginError := "", "", "";
      alerts := [];
    }

    /** The sign-in form's two inputs. */
    method EnterCredentials(email: string, password: string)
      modifies this
      ensures State() == old(State()).(loginEmail := email, loginPass := password)
    {
      loginEmail, loginPass := email, password;
    }

    /** handleLogin: the error is cleared first; a successful sign-in sets the user
        and the view, a refused one sets the error and leaves the session alone. */
    method HandleLogin()
      modifies this
      ensures Login(users, loginEmail, loginPass).SignedIn? ==>
                State() == old(State()).(currentUser := Some(Login(users, loginEmail, loginPass).user),
                                         currentView := Login(users, loginEmail, loginPass).view,
                                         loginError := "")
      ensures Login(users, loginEmail, loginPass).Refused? ==>
                State() == old(State()).(loginError := InvalidCredentials)
    {
      loginError := "";
      var outcome := Login(users, loginEmail, loginPass);
      match outcome
      case SignedIn(user, view) =>
        currentUser := Some(user);
        currentView := view;
      case Refused =>
        loginError := InvalidCredentials;
    }

    /** handleLogout: no user, the sign-in form, cleared inputs and error. The view
        and the data are kept. */
    method HandleLogout()
      modifies this
      ensures State() == old(State()).(currentUser := None, authView := SignIn,
                                       loginEmail := "", loginPass := "", loginError := "")
    {
      currentUser, authView := None, SignIn;
      loginEmail, loginPass, loginError := "", "", "";
    }

    /** submitConciergeRequest: with nobody signed in nothing happens; otherwise a
        new open request of the user's, numbered by the random draw and stamped
        with the current time, goes in front of the existing ones. */
    method SubmitConciergeRequest(flightId: string, kind: string, details: string, draw: nat, now: int)
      requires draw < RequestIdRange
      modifies this
      ensures old(currentUser).None? ==> State() == old(State())
      ensures old(currentUser).Some? ==>
                State() == old(State()).(
                  requests := [Request("CR-" + NatToString(draw), flightId, old(currentUser).value.id,
                                       kind, details, Open, now)] + old(requests),
                  alerts := old(alerts) + [RequestSubmitted])
      ensures old(currentUser).Some? ==> PendingCount(requests) == old(PendingCount(requests)) + 1
    {
      if currentUser.None? {
        return;
      }
      var request := Request("CR-" + NatToString(draw), flightId, currentUser.value.id, kind, details, Open, now);
      PrependRequestPending(requests, request);
      requests := [request] + requests;
      alerts := alerts + [RequestSubmitted];
    }

    /** adminUpdateFlightStatus. */
    method AdminUpdateFlightStatus(id: string, status: FlightStatus)
      modifies this
      ensures State() == old(State()).(flights := SetStatus(old(flights), id, status))
    {
      flights := SetStatus(flights, id, status);
    }

    /** adminDeleteFlight: only when the confirmation dialog is accepted. */
    method AdminDeleteFlight(id: string, confirmed: bool)
      modifies this
      ensures State() == old(State()).(flights := if confirmed then RemoveId(old(flights), id) else old(flights))
      ensures ActiveCount(flights) <= old(ActiveCount(flights))
    {
      if confirmed {
        RemoveIdActive(flights, id);
        flights := RemoveId(flights, id);
      }
    }

    /** adminFulfillRequest. */
    method AdminFulfillRequest(id: string)
      modifies this
      ensures State() == old(State()).(requests := Fulfil(old(requests), id))
      ensures PendingCount(requests) + Count(OpenWithId(id), old(requests)) == old(PendingCount(requests))
    {
      FulfilPending(requests, id);
      requests := Fulfil(requests, id);
    }
  }
}
