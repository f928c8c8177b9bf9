/** The records both account portals keep in memory (app/admin.tsx and
    app/useraccounts.tsx declare the same flight, user and concierge-request
    shapes), the list updates their admin actions make, the customer's upcoming
    and past flights, and the admin dashboard's figures. Dates are milliseconds
    since the epoch; None stands for an Invalid Date, which compares neither
    after nor before any instant. */
module Records {
  import opened Wrappers
  import opened Listing

  datatype FlightStatus = Confirmed | Pending | Complete | Cancelled

  /** 'user' | 'admin'. */
  datatype Role = Customer | Admin

  datatype Tier = Platinum | Gold | Member

  datatype RequestStatus = Open | Fulfilled

  datatype Flight = Flight(
    id: string, userId: string, origin: string, destination: string,
    date: Option<int>, aircraft: string, status: FlightStatus,
    passengers: int, price: int)

  datatype User = User(
    id: string, name: string, email: string, role: Role, tier: Tier,
    balance: int, joinedDate: Option<int>)

  datatype Request = Request(
    id: string, flightId: string, userId: string, kind: string, details: string,
    status: RequestStatus, submittedAt: int)

  /** One day in milliseconds, the unit the seeded dates are offset by. */
  const Day: int := 24 * 60 * 60 * 1000

  // ---------------------------------------------------------------------------
  // Admin list updates

  /** `flights.map(f => f.id === id ? { ...f, status } : f)`. */
  function SetStatus(flights: seq<Flight>, id: string, status: FlightStatus): (r: seq<Flight>)
    ensures |r| == |flights|
    ensures forall k :: 0 <= k < |r| ==> r[k] == flights[k].(status := r[k].status)
    ensures forall k :: 0 <= k < |r| ==> flights[k].id == id ==> r[k].status == status
    ensures forall k :: 0 <= k < |r| ==> flights[k].id != id ==> r[k] == flights[k]
  {
    if |flights| == 0 then []
    else
      [if flights[0].id == id then flights[0].(status := status) else flights[0]] +
      SetStatus(flights[1..], id, status)
  }

  /** An id no flight carries changes nothing. */
  lemma SetStatusUnknownId(flights: seq<Flight>, id: string, status: FlightStatus)
    requires forall k :: 0 <= k < |flights| ==> flights[k].id != id
    ensures SetStatus(flights, id, status) == flights
  {
  }

  /** The later of two status updates of the same flight is the one that counts;
      in particular an update repeated changes nothing more. */
  lemma SetStatusLastWins(flights: seq<Flight>, id: string, s: FlightStatus, t: FlightStatus)
    ensures SetStatus(SetStatus(flights, id, s), id, t) == SetStatus(flights, id, t)
  {
  }

  function OtherThan(id: string): Flight -> bool {
    (f: Flight) => f.id != id
  }

  /** `flights.filter(f => f.id !== id)`. */
  function RemoveId(flights: seq<Flight>, id: string): (r: seq<Flight>)
    ensures |r| <= |flights|
    ensures forall k :: 0 <= k < |r| ==> r[k] in flights && r[k].id != id
  {
    Filter(OtherThan(id), flights)
  }

  /** Deletion removes exactly the flights with that id, keeps the others in their
      order, and deleting twice is deleting once. */
  lemma RemoveIdExact(flights: seq<Flight>, id: string, f: Flight)
    ensures f in RemoveId(flights, id) <==> f in flights && f.id != id
    ensures IsSubsequence(RemoveId(flights, id), flights)
    ensures RemoveId(RemoveId(flights, id), id) == RemoveId(flights, id)
  {
    if f in flights && f.id != id {
      FilterKeeps(OtherThan(id), flights, f);
    }
    FilterIsSubsequence(OtherThan(id), flights);
    FilterIdempotent(OtherThan(id), flights);
  }

  /** An id no flight carries deletes nothing. */
  lemma RemoveUnknownId(flights: seq<Flight>, id: string)
    requires forall k :: 0 <= k < |flights| ==> flights[k].id != id
    ensures RemoveId(flights, id) == flights
  {
    FilterAll(OtherThan(id), flights);
  }

  /** `requests.map(r => r.id === id ? { ...r, status: 'Fulfilled' } : r)`. */
  function Fulfil(requests: seq<Request>, id: string): (r: seq<Request>)
    ensures |r| == |requests|
    ensures forall k :: 0 <= k < |r| ==> r[k] == requests[k].(status := r[k].status)
    ensures forall k :: 0 <= k < |r| ==> requests[k].id == id ==> r[k].status == Fulfilled
    ensures forall k :: 0 <= k < |r| ==> requests[k].id != id ==> r[k] == requests[k]
  {
    if |requests| == 0 then []
    else
      [if requests[0].id == id then requests[0].(status := Fulfilled) else requests[0]] +
      Fulfil(requests[1..], id)
  }

  lemma FulfilIdempotent(requests: seq<Request>, id: string)
    ensures Fulfil(Fulfil(requests, id), id) == Fulfil(requests, id)
  {
  }

  lemma FulfilUnknownId(requests: seq<Request>, id: string)
    requires forall k :: 0 <= k < |requests| ==> requests[k].id != id
    ensures Fulfil(requests, id) == requests
  {
  }

  // ---------------------------------------------------------------------------
  // The customer's flights

  /** `isAfter(date, now)` and `isBefore(date, now)`. */
  predicate After(date: Option<int>, now: int) {
    date.Some? && date.value > now
  }

  predicate Before(date: Option<int>, now: int) {
    date.Some? && date.value < now
  }

  function DateKey(f: Flight): int {
    if f.date.Some? then f.date.value else 0
  }

  function LatestFirst(f: Flight): int {
    -DateKey(f)
  }

  predicate IsUpcoming(user: Option<User>, now: int, f: Flight) {
    user.Some? && f.userId == user.value.id && After(f.date, now) && f.status != Cancelled
  }

  predicate IsPast(user: Option<User>, now: int, f: Flight) {
    user.Some? && f.userId == user.value.id && Before(f.date, now)
  }

  function UpcomingFor(user: Option<User>, now: int): Flight -> bool {
    (f: Flight) => IsUpcoming(user, now, f)
  }

  function PastFor(user: Option<User>, now: int): Flight -> bool {
    (f: Flight) => IsPast(user, now, f)
  }

  /** userUpcomingFlights: the signed-in user's flights dated after now that are not
      cancelled, earliest first. */
  function UpcomingFlights(flights: seq<Flight>, user: Option<User>, now: int): (r: seq<Flight>)
    ensures forall k :: 0 <= k < |r| ==> r[k] in flights && IsUpcoming(user, now, r[k])
    ensures forall f :: f in flights && IsUpcoming(user, now, f) ==> f in r
    ensures |r| == Count(UpcomingFor(user, now), flights)
    ensures forall i, j :: 0 <= i < j < |r| ==> r[i].date.value <= r[j].date.value
    ensures multiset(r) == multiset(Filter(UpcomingFor(user, now), flights))
  {
    var r := SortBy(DateKey, Filter(UpcomingFor(user, now), flights));
    SortedSelection(DateKey, UpcomingFor(user, now), flights);
    SortedSelectionAt(DateKey, UpcomingFor(user, now), flights);
    DatesAscending(r);
    r
  }

  /** userPastFlights: the signed-in user's flights dated before now, whatever their
      status, latest first. */
  function PastFlights(flights: seq<Flight>, user: Option<User>, now: int): (r: seq<Flight>)
    ensures forall k :: 0 <= k < |r| ==> r[k] in flights && IsPast(user, now, r[k])
    ensures forall f :: f in flights && IsPast(user, now, f) ==> f in r
    ensures |r| == Count(PastFor(user, now), flights)
    ensures forall i, j :: 0 <= i < j < |r| ==> r[i].date.value >= r[j].date.value
    ensures multiset(r) == multiset(Filter(PastFor(user, now), flights))
  {
    var r := SortBy(LatestFirst, Filter(PastFor(user, now), flights));
    SortedSelection(LatestFirst, PastFor(user, now), flights);
    SortedSelectionAt(LatestFirst, PastFor(user, now), flights);
    DatesDescending(r);
    r
  }

  lemma DatesAscending(r: seq<Flight>)
    requires SortedBy(DateKey, r)
    requires forall k :: 0 <= k < |r| ==> r[k].date.Some?
    ensures forall i, j :: 0 <= i < j < |r| ==> r[i].date.value <= r[j].date.value
  {
    forall i, j | 0 <= i < j < |r| ensures r[i].date.value <= r[j].date.value {
      assert DateKey(r[i]) <= DateKey(r[j]);
    }
  }

  lemma DatesDescending(r: seq<Flight>)
    requires SortedBy(LatestFirst, r)
    requires forall k :: 0 <= k < |r| ==> r[k].date.Some?
    ensures forall i, j :: 0 <= i < j < |r| ==> r[i].date.value >= r[j].date.value
  {
    forall i, j | 0 <= i < j < |r| ensures r[i].date.value >= r[j].date.value {
      assert LatestFirst(r[i]) <= LatestFirst(r[j]);
    }
  }

  /** No flight is both upcoming and past; one dated exactly now, or with an
      invalid date, is neither; with nobody signed in both lists are empty. */
  lemma UpcomingPastSplit(flights: seq<Flight>, user: Option<User>, now: int, f: Flight)
    ensures !(f in UpcomingFlights(flights, user, now) && f in PastFlights(flights, user, now))
    ensures f.date == Some(now) || f.date.None? ==>
              f !in UpcomingFlights(flights, user, now) && f !in PastFlights(flights, user, now)
    ensures user.None? ==> UpcomingFlights(flights, user, now) == [] && PastFlights(flights, user, now) == []
  {

  }

  // ---------------------------------------------------------------------------
  // Admin dashboard figures

  function NotCancelled(f: Flight): bool {
    f.status != Cancelled
  }

  function Price(f: Flight): int {
    f.price
  }

  function IsActive(f: Flight): bool {
    f.status == Confirmed || f.status == Pending
  }

  function IsOpen(r: Request): bool {
    r.status == Open
  }

  function IsCustomer(u: User): bool {
    u.role == Customer
  }

  /** Revenue: the prices of the flights that are not cancelled, summed. */
  function TotalRevenue(flights: seq<Flight>): int {
    SumBy(Price, Filter(NotCancelled, flights))
  }

  function ActiveCount(flights: seq<Flight>): (n: nat)
    ensures n <= |flights|
  {
    |Filter(IsActive, flights)|
  }

  function PendingCount(requests: seq<Request>): (n: nat)
    ensures n <= |requests|
  {
    |Filter(IsOpen, requests)|
  }

  function CustomerCount(users: seq<User>): (n: nat)
    ensures n <= |users|
  {
    |Filter(IsCustomer, users)|
  }

  /** A flight added at the end contributes its price to the revenue unless it is
      cancelled, and one to the active count when it is confirmed or pending. */
  lemma AppendFlightFigures(flights: seq<Flight>, f: Flight)
    ensures TotalRevenue(flights + [f]) == TotalRevenue(flights) + (if NotCancelled(f) then f.price else 0)
    ensures ActiveCount(flights + [f]) == ActiveCount(flights) + (if IsActive(f) then 1 else 0)
  {
    FilterAppend(NotCancelled, flights, [f]);
    FilterAppend(IsActive, flights, [f]);
    SumByAppend(Price, Filter(NotCancelled, flights), Filter(NotCancelled, [f]));
    assert [f][1..] == [];
  }

  /** Deleting flights cannot raise the active count. */
  lemma RemoveIdActive(flights: seq<Flight>, id: string)
    ensures ActiveCount(RemoveId(flights, id)) <= ActiveCount(flights)
  {
    FilterLength(IsActive, RemoveId(flights, id));
    FilterLength(IsActive, flights);
    CountFilter(IsActive, OtherThan(id), flights);
  }

  /** A request put in front adds one to the pending count when it is open. */
  lemma PrependRequestPending(requests: seq<Request>, q: Request)
    ensures PendingCount([q] + requests) == PendingCount(requests) + (if IsOpen(q) then 1 else 0)
  {
    FilterAppend(IsOpen, [q], requests);
    assert [q][1..] == [];
  }

  function OpenWithId(id: string): Request -> bool {
    (q: Request) => q.id == id && q.status == Open
  }

  /** Fulfilling a request takes from the pending count exactly the open requests
      with that id. */
  lemma {:induction false} FulfilPending(requests: seq<Request>, id: string)
    ensures PendingCount(Fulfil(requests, id)) + Count(OpenWithId(id), requests) == PendingCount(requests)
  {
    FilterLength(IsOpen, requests);
    FilterLength(IsOpen, Fulfil(requests, id));
    FulfilCount(requests, id);
  }

  lemma {:induction false} FulfilCount(requests: seq<Request>, id: string)
    ensures Count(IsOpen, Fulfil(requests, id)) + Count(OpenWithId(id), requests) == Count(IsOpen, requests)
  {
    if |requests| > 0 {
      FulfilCount(requests[1..], id);
      var r := Fulfil(requests, id);
      assert r[1..] == Fulfil(requests[1..], id);
    }
  }

  /** The dashboard figures of four flights none of which is cancelled. */
  lemma FourFlightDashboard(fs: seq<Flight>)
    requires |fs| == 4 && forall k :: 0 <= k < 4 ==> NotCancelled(fs[k])
    ensures TotalRevenue(fs) == fs[0].price + fs[1].price + fs[2].price + fs[3].price
    ensures ActiveCount(fs) ==
              (if IsActive(fs[0]) then 1 else 0) + (if IsActive(fs[1]) then 1 else 0) +
              (if IsActive(fs[2]) then 1 else 0) + (if IsActive(fs[3]) then 1 else 0)
  {
    FilterAll(NotCancelled, fs);
    FourFlightFigures(fs);
    FilterLength(IsActive, fs);
  }

  /** The figures of a four-flight list, written out flight by flight. */
  lemma FourFlightFigures(fs: seq<Flight>)
    requires |fs| == 4
    ensures SumBy(Price, fs) == fs[0].price + fs[1].price + fs[2].price + fs[3].price
    ensures Count(IsActive, fs) ==
              (if IsActive(fs[0]) then 1 else 0) + (if IsActive(fs[1]) then 1 else 0) +
              (if IsActive(fs[2]) then 1 else 0) + (if IsActive(fs[3]) then 1 else 0)
  {
    var t1 := fs[1..];
    var t2 := t1[1..];
    var t3 := t2[1..];
    assert t1[0] == fs[1] && t2[0] == fs[2] && t3 == [fs[3]] && t3[1..] == [];
    assert SumBy(Price, t3) == fs[3].price;
    assert SumBy(Price, t2) == fs[2].price + fs[3].price;
    assert SumBy(Price, t1) == fs[1].price + fs[2].price + fs[3].price;
    assert Count(IsActive, t3) == (if IsActive(fs[3]) then 1 else 0);
    assert Count(IsActive, t2) == (if IsActive(fs[2]) then 1 else 0) + (if IsActive(fs[3]) then 1 else 0);
  }
}
