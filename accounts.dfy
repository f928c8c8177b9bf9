/** The account portal of app/useraccounts.tsx: the same records as the admin
    portal, a demo sign-in that differs from the admin portal's, a signup that
    registers the contact with the CRM, flight booking, the `view` URL parameter,
    and the airport suggestion boxes of the booking form, which use the airport
    lookup hook. The clock, the random draw behind flight ids, the parsed booking
    date and passenger count, the confirmation dialog and the outcome of each
    remote call are parameters. */
module AccountsPortal {
  import opened Wrappers
  import opened Ascii
  import opened Listing
  import opened Records
  import AirportDB
  import AdminPortal
  import Contacts
  import HighLevel

  datatype View =
    | Dashboard | Flights | Fleet | Concierge | Profile | Booking
    | AdminDashboard | AdminFlights | AdminUsers | AdminConcierge

  predicate IsAdminView(v: View) {
    v.AdminDashboard? || v.AdminFlights? || v.AdminUsers? || v.AdminConcierge?
  }

  datatype AuthView = SignIn | SignUp

  /** The booking form's fields, all text as the inputs hold them. */
  datatype BookingForm = BookingForm(
    origin: string, destination: string, date: string, time: string,
    passengers: string, aircraft: string)

  /** signinData. */
  datatype SigninForm = SigninForm(email: string, password: string)

  /** signupData. */
  datatype SignupForm = SignupForm(name: string, email: string, password: string)

  const EmptySignin: SigninForm := SigninForm("", "")
  const EmptySignup: SignupForm := SignupForm("", "", "")

  /** The argument handleSignup hands to useHighLevel's createContact. */
  datatype SignupContact = SignupContact(name: string, email: string, tags: seq<string>)

  const AdminEmail: string := "mauricio@stokeleads.com"
  const AdminPassword: string := "StokeLeadsD2"
  const InvalidCredentials: string := "Invalid credentials"
  const FlightBooked: string := "Flight booked successfully! Your booking is pending confirmation."
  const BasePrice: int := 6500
  const FlightIdBase: nat := 1000
  const FlightIdRange: nat := 9000

  const EmptyBookingForm: BookingForm := BookingForm("", "", "", "", "1", "Orange Diamond DA62")

  /** The record an admin sign-in produces (it carries no join date). */
  const AdminRecord: User := User("admin1", "Mauricio Admin", AdminEmail, Admin, Platinum, 0, None)

  /** The demo customer any other sign-in produces, carrying the email typed. */
  function DemoCustomer(email: string): User {
    User("user1", "Alex Croft", email, Customer, Platinum, 12500, None)
  }

  function NewMember(name: string, email: string): User {
    User("newuser", name, email, Customer, Member, 0, None)
  }

  /** The seeded users; join dates are midnight UTC of the seeded day. */
  function SeedUsers(): seq<User> {
    [ User("admin1", "Mauricio Admin", "mauricio@stokeleads.com", Admin, Platinum, 0, Some(1609459200000)),
      User("user1", "Alex Croft", "alex.croft@example.com", Customer, Platinum, 12500, Some(1649980800000)),
      User("user2", "Sarah Jenkins", "sarah@example.com", Customer, Gold, 4500, Some(1687219200000)) ]
  }

  function SeedFlights(loadedAt: int): seq<Flight> {
    [ Flight("FL-1042", "user1", "RDM", "SFO", Some(loadedAt + 14 * Day), "Orange Diamond DA62", Confirmed, 4, 6500),
      Flight("FL-1099", "user1", "SEA", "RDM", Some(loadedAt + 32 * Day), "Blue Diamond DA62", Pending, 2, 8200),
      Flight("FL-0901", "user1", "RDM", "VNY", Some(loadedAt - 45 * Day), "Cirrus Vision Jet", Complete, 6, 12000),
      Flight("FL-1105", "user2", "RDM", "LAS", Some(loadedAt + 5 * Day), "Blue Diamond DA62", Confirmed, 3, 9500) ]
  }

  function SeedRequests(loadedAt: int): seq<Request> {
    [ Request("CR-1", "FL-1042", "user1", "Catering",
              "Gluten free options for 2 passengers, champagne on arrival.", Open, loadedAt - 2 * Day) ]
  }

  /** The admin overview's figures for the seeded data: revenue 36,200 over three
      active flights and one open request. */
  lemma SeedFigures(loadedAt: int)
    ensures TotalRevenue(SeedFlights(loadedAt)) == 36200
    ensures ActiveCount(SeedFlights(loadedAt)) == 3
    ensures PendingCount(SeedRequests(loadedAt)) == 1
  {
    FourFlightDashboard(SeedFlights(loadedAt));
    FilterLength(IsOpen, SeedRequests(loadedAt));
  }

  datatype LoginOutcome = SignedIn(user: User, view: View) | Refused

  /** handleLogin's decision: the exact admin credentials give the admin record on
      the admin dashboard; any other email and password, both non-empty, give the
      demo customer with the email typed, on the dashboard. */
  function Login(email: string, password: string): (o: LoginOutcome)
    ensures o.Refused? <==> email == "" || password == ""
    ensures (o.SignedIn? && o.view == AdminDashboard) <==> email == AdminEmail && password == AdminPassword
    ensures o.SignedIn? && o.view == AdminDashboard ==> o.user == AdminRecord
    ensures o.SignedIn? && o.view != AdminDashboard ==> o == SignedIn(DemoCustomer(email), Dashboard)
  {
    if email == AdminEmail && password == AdminPassword then SignedIn(AdminRecord, AdminDashboard)
    else if email != "" && password != "" then SignedIn(DemoCustomer(email), Dashboard)
    else Refused
  }

  /** The two portals' sign-ins differ: an email no seeded user has is refused by
      the admin portal and accepted here; the admin email with a wrong password is
      refused there and signs in here as the demo customer. */
  lemma LoginVariantsDiffer()
    ensures AdminPortal.Login(AdminPortal.SeedUsers(), "pilot@example.com", "x") == AdminPortal.Refused
    ensures Login("pilot@example.com", "x") == SignedIn(DemoCustomer("pilot@example.com"), Dashboard)
    ensures AdminPortal.Login(AdminPortal.SeedUsers(), AdminEmail, "x") == AdminPortal.Refused
    ensures Login(AdminEmail, "x") == SignedIn(DemoCustomer(AdminEmail), Dashboard)
  {
    PilotUnknown();
    AdminPortal.SeedAdminLogin("x");
  }

  lemma PilotUnknown()
    ensures forall k :: 0 <= k < |AdminPortal.SeedUsers()| ==>
              !AdminPortal.EmailMatches("pilot@example.com")(AdminPortal.SeedUsers()[k])
  {
    var users := AdminPortal.SeedUsers();
    assert ToLower("pilot@example.com")[0] == 'p';
    assert ToLower(users[0].email)[0] == 'm' && ToLower(users[1].email)[0] == 'a' && ToLower(users[2].email)[0] == 's';
  }

  // ---------------------------------------------------------------------------
  // The `view` URL parameter

  /** The URL key of each view a customer may open from a link. */
  function ViewKey(v: View): string
    requires !IsAdminView(v)
  {
    match v
    case Dashboard => "dashboard"
    case Flights => "flights"
    case Fleet => "fleet"
    case Concierge => "concierge"
    case Profile => "profile"
    case Booking => "booking"
  }

  /** viewMap's own keys. */
  const UserViewKeys: set<string> := {"concierge", "fleet", "flights", "dashboard", "profile", "booking"}

  /** The viewMap lookup restricted to the map's own keys. */
  function ViewFromParam(param: string): (v: Option<View>)
    ensures v.Some? <==> param in UserViewKeys
    ensures v.Some? ==> !IsAdminView(v.value) && ViewKey(v.value) == param
  {
    if param == "concierge" then Some(Concierge)
    else if param == "fleet" then Some(Fleet)
    else if param == "flights" then Some(Flights)
    else if param == "dashboard" then Some(Dashboard)
    else if param == "profile" then Some(Profile)
    else if param == "booking" then Some(Booking)
    else None
  }

  /** Every customer view is found by its own key. */
  lemma ViewKeyRoundTrip(v: View)
    requires !IsAdminView(v)
    ensures ViewFromParam(ViewKey(v)) == Some(v)
  {
  }

  /** The names `in` also finds on a plain object literal: the properties of
      Object.prototype. */
  const ObjectPrototypeKeys: set<string> := {
    "constructor", "hasOwnProperty", "isPrototypeOf", "propertyIsEnumerable",
    "toLocaleString", "toString", "valueOf", "__proto__",
    "__defineGetter__", "__defineSetter__", "__lookupGetter__", "__lookupSetter__" }

  /** What `viewMap[view]` yields once `view in viewMap` holds: a view, or an
      inherited member of Object.prototype. */
  datatype MapValue = ViewValue(view: View) | PrototypeMember(name: string)

  /** The guard as written: `view in viewMap` accepts the own keys and every
      inherited Object.prototype property as well. */
  function ViewMapLookupAsWritten(param: string): (r: Option<MapValue>)
    ensures r.Some? <==> param in UserViewKeys || param in ObjectPrototypeKeys
    ensures r.Some? && r.value.ViewValue? ==> ViewFromParam(param) == Some(r.value.view)
  {
    var own := ViewFromParam(param);
    if own.Some? then Some(ViewValue(own.value))
    else if param in ObjectPrototypeKeys then Some(PrototypeMember(param))
    else None
  }

  /** What currentView holds after the state setter: a view's key, some other
      primitive value (a string or a boolean that is no view's key), or an
      object. No view's `currentView === key` test matches the last two. */
  datatype ViewState = HoldsView(view: View) | HoldsPrimitive | HoldsObject

  /** `setCurrentView(viewMap[view])` as written, applied to the previous value
      `prev`: the value stored, or None when the updater throws and the update
      fails. React's setter stores a non-function as it is and calls a function
      as an updater on the previous state, with `this` undefined:
      - `toString` returns "[object Undefined]";
      - `constructor` (Object) returns the previous value as an object (a String
        object for a string);
      - `isPrototypeOf` answers false when its argument is not an object, before
        it reads `this`, and otherwise converts the undefined `this` to an object,
        which throws a TypeError;
      - `__proto__` is Object.prototype itself, an object, stored as it is;
      - every other inherited member is a method that converts the undefined
        `this` to an object first, which throws. */
  function SetViewAsWritten(x: MapValue, prev: ViewState): (r: Option<ViewState>)
    ensures x.ViewValue? ==> r == Some(HoldsView(x.view))
    ensures x.PrototypeMember? && x.name == "toString" ==> r == Some(HoldsPrimitive)
    ensures x.PrototypeMember? && x.name in {"constructor", "__proto__"} ==> r == Some(HoldsObject)
    ensures x.PrototypeMember? && x.name == "isPrototypeOf" ==> (r.None? <==> prev.HoldsObject?)
    ensures x.PrototypeMember? && x.name !in InertPrototypeKeys ==> r.None?
    ensures r.Some? && x.PrototypeMember? ==> !r.value.HoldsView?
  {
    if x.ViewValue? then Some(HoldsView(x.view))
    else if x.name == "toString" then Some(HoldsPrimitive)
    else if x.name == "constructor" || x.name == "__proto__" then Some(HoldsObject)
    else if x.name == "isPrototypeOf" then (if prev.HoldsObject? then None else Some(HoldsPrimitive))
    else None
  }

  /** The inherited names whose update can store a value without throwing. */
  const InertPrototypeKeys: set<string> := {"toString", "constructor", "isPrototypeOf", "__proto__"}

  /** The views the main area draws for a value of currentView: the one it names,
      or none for a value that is not a view's key. */
  function ViewsDrawn(v: ViewState): (s: set<View>)
    ensures v.HoldsView? ==> s == {v.view}
    ensures !v.HoldsView? ==> s == {}
  {
    if v.HoldsView? then {v.view} else {}
  }

  /** `?view=toString` passes the guard as written, is stored whatever the view
      was, and leaves the main area blank; the own-key lookup refuses it. */
  lemma PrototypeKeyBlanksView(prev: ViewState)
    ensures ViewMapLookupAsWritten("toString") == Some(PrototypeMember("toString"))
    ensures SetViewAsWritten(PrototypeMember("toString"), prev) == Some(HoldsPrimitive)
    ensures ViewsDrawn(HoldsPrimitive) == {}
    ensures ViewFromParam("toString") == None
  {
    assert "toString" !in UserViewKeys;
  }

  /** `?view=valueOf` passes the guard as written and its update throws whatever
      the view was; the own-key lookup refuses it. */
  lemma PrototypeKeyBreaksUpdate(prev: ViewState)
    ensures ViewMapLookupAsWritten("valueOf") == Some(PrototypeMember("valueOf"))
    ensures SetViewAsWritten(PrototypeMember("valueOf"), prev) == None
    ensures ViewFromParam("valueOf") == None
  {
    assert "valueOf" !in UserViewKeys;
    assert "valueOf" !in InertPrototypeKeys;
  }

  /** The outcome of `isPrototypeOf` depends on the view before it: from a view's
      key it stores false, but after `?view=__proto__` has stored an object the
      same update throws. */
  lemma ChainedPrototypeKeys(v: View)
    ensures SetViewAsWritten(PrototypeMember("__proto__"), HoldsView(v)) == Some(HoldsObject)
    ensures SetViewAsWritten(PrototypeMember("isPrototypeOf"), HoldsView(v)) == Some(HoldsPrimitive)
    ensures SetViewAsWritten(PrototypeMember("isPrototypeOf"), HoldsObject) == None
  {
  }

  /** No inherited name draws a view, whatever the view before it: each passes
      the guard as written, and its update either fails or stores a value that
      draws nothing. */
  lemma PrototypeKeysDrawNoView(name: string, prev: ViewState)
    requires name in ObjectPrototypeKeys
    ensures ViewMapLookupAsWritten(name).Some?
    ensures var a := SetViewAsWritten(ViewMapLookupAsWritten(name).value, prev);
            a.None? || ViewsDrawn(a.value) == {}
    ensures ViewFromParam(name) == None
  {
    assert name !in UserViewKeys;
  }

  /** The body createContact posts for a signup argument: its parameter keeps
      only the name, the email and (absent here) the phone. */
  function SentBody(c: SignupContact): Contacts.Json {
    HighLevel.RequestBody(c.name, c.email, None)
  }

  /** The body a createContact that forwarded its argument's tags would post. */
  function TaggedBody(c: SignupContact): Contacts.Json {
    HighLevel.TaggedRequestBody(c.name, c.email, None, c.tags)
  }

  /** As written, the signup's tags reach no one: the body the hook posts has no
      `tags` field, so even a relay that forwarded tags would forward none, and
      the relay as written makes the same call whether or not the body is
      tagged. */
  lemma SignupTagNeverSent(c: SignupContact, config: Contacts.Config, upstream: Contacts.Upstream)
    ensures SentBody(c).JObj? && "tags" !in SentBody(c).fields
    ensures var t := Contacts.HandlePostWithTags(Some(SentBody(c)), config, upstream).tags;
            t.None? || t == Some(Contacts.JArr([]))
    ensures Contacts.HandlePost(Some(TaggedBody(c)), config, upstream) ==
            Contacts.HandlePost(Some(SentBody(c)), config, upstream)
  {
    Contacts.RelayIgnoresTags(TaggedBody(c), config, upstream);
  }

  /** Corrected: a hook and a relay that forward the tags deliver the signup's
      tags to the CRM whenever the contact is created, so the signup contact
      carries "app". */
  lemma SignupTagSent(c: SignupContact, config: Contacts.Config, upstream: Contacts.Upstream)
    requires c.name != "" && c.email != "" && Contacts.Configured(config)
    ensures Contacts.HandlePostWithTags(Some(TaggedBody(c)), config, upstream).tags ==
            Some(HighLevel.JsonStrings(c.tags))
    ensures c.tags == ["app"] ==>
            HighLevel.JsonStrings(c.tags) == Contacts.JArr([Contacts.JStr("app")])
  {
    HighLevel.TaggedBodyReachesCrm(c.name, c.email, None, c.tags, config, upstream);
    Contacts.TagsForwarded(TaggedBody(c), config, upstream);
  }

  /** handleBookFlight's new flight. */
  function BookedFlight(draw: nat, userId: string, form: BookingForm, date: Option<int>, passengers: int): Flight {
    Flight("FL-" + NatToString(FlightIdBase + draw), userId, form.origin, form.destination,
           date, form.aircraft, Pending, passengers, BasePrice)
  }

  /** Booked flight ids are "FL-" and four digits, and different draws give
      different ids. */
  lemma BookedIds(draw: nat, other: nat)
    requires draw < FlightIdRange && other < FlightIdRange
    ensures |NatToString(FlightIdBase + draw)| == 4
    ensures draw != other ==> NatToString(FlightIdBase + draw) != NatToString(FlightIdBase + other)
  {
    var n := FlightIdBase + draw;
    FourDigits(n);
    if NatToString(n) == NatToString(FlightIdBase + other) {
      NatToStringInjective(n, FlightIdBase + other);
    }
  }

  lemma FourDigits(n: nat)
    requires 1000 <= n < 10000
    ensures |NatToString(n)| == 4
  {
    var a := n / 10;
    var b := a / 10;
    var c := b / 10;
    assert 100 <= a < 1000 && 10 <= b < 100 && 1 <= c < 10;
    assert |NatToString(c)| == 1;
    assert |NatToString(b)| == 2;
    assert |NatToString(a)| == 3;
  }

  /** The code a picked suggestion writes into the booking form: `iata || icao`. */
  function SuggestionCode(a: AirportDB.AirportDBResult): (code: string)
    ensures a.iata != "" ==> code == a.iata
    ensures a.iata == "" ==> code == a.icao
  {
    if a.iata != "" then a.iata else a.icao
  }

  /** Everything the portal's handlers can change, except the airport hook's own
      state, as one value. */
  datatype Snapshot = Snapshot(
    flights: seq<Flight>, requests: seq<Request>,
    currentUser: Option<User>, authView: AuthView, currentView: View,
    signin: SigninForm, signup: SignupForm, loginError: string, booking: BookingForm,
    originSuggestions: seq<AirportDB.AirportDBResult>, destSuggestions: seq<AirportDB.AirportDBResult>,
    alerts: seq<string>, contactCalls: seq<SignupContact>)

  class Portal {
    const users: seq<User>
    /** The airport lookup hook the suggestion boxes use. */
    const airportDB: AirportDB.Hook
    var flights: seq<Flight>
    var requests: seq<Request>
    var currentUser: Option<User>
    var authView: AuthView
    var currentView: View
    var signin: SigninForm
    var signup: SignupForm
    var loginError: string
    var booking: BookingForm
    var originSuggestions: seq<AirportDB.AirportDBResult>
    var destSuggestions: seq<AirportDB.AirportDBResult>
    /** The alert() messages shown so far. */
    var alerts: seq<string>
    /** The contacts the signup form has sent to the CRM. */
    var contactCalls: seq<SignupContact>

    function State(): Snapshot
      reads this
    {
      Snapshot(flights, requests, currentUser, authView, currentView,
               signin, signup, loginError, booking, originSuggestions, destSuggestions, alerts, contactCalls)
    }

    constructor (loadedAt: int)
      ensures users == SeedUsers() && fresh(airportDB)
      ensures !airportDB.loading && airportDB.error == None && airportDB.requested == []
      ensures airportDB.fallback == AirportDB.FallbackList
      ensures State() == Snapshot(SeedFlights(loadedAt), SeedRequests(loadedAt), None, SignIn, Dashboard,
                                  EmptySignin, EmptySignup, "", EmptyBookingForm, [], [], [], [])
    {
      users := SeedUsers();
      airportDB := new AirportDB.Hook();
      flights, requests := SeedFlights(loadedAt), SeedRequests(loadedAt);
      currentUser, authView, currentView := None, SignIn, Dashboard;
      signin, signup := EmptySignin, EmptySignup;
      loginError, booking := "", EmptyBookingForm;
      originSuggestions, destSuggestions := [], [];
      alerts, contactCalls := [], [];
    }

    /** The sign-in form's inputs. */
    method EnterSignin(email: string, password: string)
      modifies this
      ensures State() == old(State()).(signin := SigninForm(email, password))
    {
      signin := SigninForm(email, password);
    }

    /** The signup form's inputs. */
    method EnterSignup(name: string, email: string, password: string)
      modifies this
      ensures State() == old(State()).(signup := SignupForm(name, email, password))
    {
      signup := SignupForm(name, email, password);
    }

    /** The booking form's inputs. */
    method EditBooking(form: BookingForm)
      modifies this
      ensures State() == old(State()).(booking := form)
    {
      booking := form;
    }

    /** Picking a suggestion under the departure box writes its code into the form. */
    method PickOriginSuggestion(a: AirportDB.AirportDBResult)
      modifies this
      ensures State() == old(State()).(booking := old(booking).(origin := SuggestionCode(a)))
    {
      booking := booking.(origin := SuggestionCode(a));
    }

    method PickDestSuggestion(a: AirportDB.AirportDBResult)
      modifies this
      ensures State() == old(State()).(booking := old(booking).(destination := SuggestionCode(a)))
    {
      booking := booking.(destination := SuggestionCode(a));
    }

    /** handleLogin: the error is cleared first; a successful sign-in sets the user
        and the view, a refused one sets the error and leaves the session alone. */
    method HandleLogin()
      modifies this
      ensures Login(signin.email, signin.password).SignedIn? ==>
                State() == old(State()).(currentUser := Some(Login(signin.email, signin.password).user),
                                         currentView := Login(signin.email, signin.password).view,
                                         loginError := "")
      ensures Login(signin.email, signin.password).Refused? ==>
                State() == old(State()).(loginError := InvalidCredentials)
    {
      loginError := "";
      var outcome := Login(signin.email, signin.password);
      match outcome
      case SignedIn(user, view) =>
        currentUser := Some(user);
        currentView := view;
      case Refused =>
        loginError := InvalidCredentials;
    }

    /** handleSignup up to the awaited CRM call: createContact is handed the
        signup's name and email with the 'app' tag (which the hook then drops,
        see SignupTagNeverSent). The Create Account button that submits the form
        is disabled while the call is in flight; the model does not track that. */
    method BeginSignup() returns (call: SignupContact)
      modifies this
      ensures call == SignupContact(signup.name, signup.email, ["app"])
      ensures State() == old(State()).(contactCalls := old(contactCalls) + [call])
    {
      call := SignupContact(signup.name, signup.email, ["app"]);
      contactCalls := contactCalls + [call];
    }

    /** The rest of handleSignup, after the delay: whether or not the CRM call
        succeeded, the new member is signed in on the dashboard. */
    method CompleteSignup(call: SignupContact, contactSucceeded: bool)
      modifies this
      ensures State() == old(State()).(currentUser := Some(NewMember(call.name, call.email)), currentView := Dashboard)
    {
      currentUser := Some(NewMember(call.name, call.email));
      currentView := Dashboard;
    }

    /** handleLogout: no user, the sign-in form, both forms and the error cleared.
        The view, the booking form and the data are kept. */
    method HandleLogout()
      modifies this
      ensures State() == old(State()).(currentUser := None, authView := SignIn,
                                       signin := EmptySignin, signup := EmptySignup, loginError := "")
    {
      currentUser, authView := None, SignIn;
      signin, signup := EmptySignin, EmptySignup;
      loginError := "";
    }

    /** handleBookFlight: with nobody signed in nothing happens; otherwise one
        pending flight of the user's at the base price is added at the end, the
        form is reset and the flights view opens. `date` is what the form's date
        and time parse to and `passengers` what its passenger field parses to. */
    method HandleBookFlight(draw: nat, date: Option<int>, passengers: int)
      requires draw < FlightIdRange
      modifies this
      ensures old(currentUser).None? ==> State() == old(State())
      ensures old(currentUser).Some? ==>
                State() == old(State()).(
                  flights := old(flights) + [BookedFlight(draw, old(currentUser).value.id, old(booking), date, passengers)],
                  booking := EmptyBookingForm, currentView := Flights,
                  alerts := old(alerts) + [FlightBooked])
      ensures old(currentUser).Some? ==>
                TotalRevenue(flights) == old(TotalRevenue(flights)) + BasePrice &&
                ActiveCount(flights) == old(ActiveCount(flights)) + 1
    {
      if currentUser.None? {
        return;
      }
      var flight := BookedFlight(draw, currentUser.value.id, booking, date, passengers);
      AppendFlightFigures(flights, flight);
      RecordBooking(flight);
    }

    /** The state updates of handleBookFlight once its flight is built. */
    method RecordBooking(flight: Flight)
      modifies this
      ensures State() == old(State()).(flights := old(flights) + [flight], booking := EmptyBookingForm,
                                       currentView := Flights, alerts := old(alerts) + [FlightBooked])
    {
      flights := flights + [flight];
      booking := EmptyBookingForm;
      currentView := Flights;
      alerts := alerts + [FlightBooked];
    }

    /** The effect that reads the `view` URL parameter: a non-empty value, while
        someone is signed in, opens the customer view it names; anything else,
        and in particular any admin view, leaves the view alone. The effect runs
        again whenever the signed-in state changes, so a sign-in followed by this
        method is a reachable sequence: with `?view=flights` in the URL the
        admin's 'admin-dashboard' is replaced by the customer Flights view. */
    method ApplyUrlView(param: Option<string>)
      modifies this
      ensures Present(param) && old(currentUser).Some? && ViewFromParam(param.value).Some? ==>
                State() == old(State()).(currentView := ViewFromParam(param.value).value)
      ensures !(Present(param) && old(currentUser).Some? && ViewFromParam(param.value).Some?) ==>
                State() == old(State())
      ensures currentView != old(currentView) ==> !IsAdminView(currentView)
    {
      if Present(param) && currentUser.Some? {
        var v := ViewFromParam(param.value);
        if v.Some? {
          currentView := v.value;
        }
      }
    }

    /** searchOriginAirports: a query under two characters clears the suggestions
        without a search; otherwise the hook's answer becomes the suggestions. */
    method SearchOriginAirports(query: string, apiToken: Option<string>, outcome: AirportDB.LookupOutcome)
      modifies this, airportDB
      ensures |query| < 2 ==> State() == old(State()).(originSuggestions := []) && unchanged(airportDB)
      ensures State() == old(State()).(originSuggestions := originSuggestions)
      ensures |query| >= 2 && |Trim(query)| < 2 ==> originSuggestions == []
      ensures |query| >= 2 && |Trim(query)| >= 2 && !Present(apiToken) ==>
                originSuggestions == AirportDB.FilterList(airportDB.fallback, query)
      ensures |query| >= 2 && |Trim(query)| >= 2 && Present(apiToken) &&
              AirportDB.IsIcaoShaped(ToUpper(Trim(query))) && outcome.Found? ==>
                originSuggestions == [AirportDB.MapRecord(outcome.record)]
    {
      if |query| < 2 {
        originSuggestions := [];
        return;
      }
      var results := airportDB.Search(query, apiToken, outcome);
      originSuggestions := results;
    }

    /** searchDestAirports: the same for the destination box. */
    method SearchDestAirports(query: string, apiToken: Option<string>, outcome: AirportDB.LookupOutcome)
      modifies this, airportDB
      ensures |query| < 2 ==> State() == old(State()).(destSuggestions := []) && unchanged(airportDB)
      ensures State() == old(State()).(destSuggestions := destSuggestions)
      ensures |query| >= 2 && |Trim(query)| < 2 ==> destSuggestions == []
      ensures |query| >= 2 && |Trim(query)| >= 2 && !Present(apiToken) ==>
                destSuggestions == AirportDB.FilterList(airportDB.fallback, query)
      ensures |query| >= 2 && |Trim(query)| >= 2 && Present(apiToken) &&
              AirportDB.IsIcaoShaped(ToUpper(Trim(query))) && outcome.Found? ==>
                destSuggestions == [AirportDB.MapRecord(outcome.record)]
    {
      if |query| < 2 {
        destSuggestions := [];
        return;
      }
      var results := airportDB.Search(query, apiToken, outcome);
      destSuggestions := results;
    }

    /** adminUpdateFlightStatus. */
    method AdminUpdateFlightStatus(id: string, status: FlightStatus)
      modifies this
      ensures State() == old(State()).(flights := SetStatus(old(flights), id, status))
    {
      flights := SetStatus(flights, id, status);
    }

    /** adminDeleteFlight: only when the confirmation dialog is accepted. */
    method AdminDeleteFlight(id: string, confirmed: bool)
      modifies this
      ensures State() == old(State()).(flights := if confirmed then RemoveId(old(flights), id) else old(flights))
      ensures ActiveCount(flights) <= old(ActiveCount(flights))
    {
      if confirmed {
        RemoveIdActive(flights, id);
        flights := RemoveId(flights, id);
      }
    }

    /** adminFulfillRequest. */
    method AdminFulfillRequest(id: string)
      modifies this
      ensures State() == old(State()).(requests := Fulfil(old(requests), id))
      ensures PendingCount(requests) + Count(OpenWithId(id), old(requests)) == old(PendingCount(requests))
    {
      FulfilPending(requests, id);
      requests := Fulfil(requests, id);
    }
  }
}
