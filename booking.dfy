/** The booking wizard of app/booking.tsx: four screens, a draft that screens
    update with partial merges, and the details submit that calls the contact
    relay. The screen, the draft and the details screen's loading and error flags
    are fields of one Wizard object; each handler is a method on it. */
module Booking {
  import opened Wrappers
  import AirportSearch

  datatype Screen = Home | Results | Details | Confirmation

  datatype TripType = OneWay | RoundTrip

  datatype Aircraft = Aircraft(
    id: string, name: string, category: string, seats: nat,
    speed: string, range: string, estimate: nat, image: string)

  datatype Contact = Contact(name: string, email: string, phone: string)

  datatype BookingData = BookingData(
    tripType: TripType, origin: string, destination: string,
    departDate: string, returnDate: string, passengers: int,
    selectedAircraft: Option<Aircraft>, contact: Contact)

  /** A `Partial<BookingData>`: None leaves the field out of the patch. */
  datatype BookingPatch = BookingPatch(
    tripType: Option<TripType>, origin: Option<string>, destination: Option<string>,
    departDate: Option<string>, returnDate: Option<string>, passengers: Option<int>,
    selectedAircraft: Option<Aircraft>, contact: Option<Contact>)

  /** What the details screen's `createContact` call comes to: it resolves, or it
      rejects with an Error carrying a message (Some) or with another value (None). */
  datatype ContactOutcome = Created | Rejected(message: Option<string>)

  const MinPassengers: int := 1
  const MaxPassengers: int := 19
  const HomeAlert: string := "Please fill in destination and departure date."
  const DetailsAlert: string := "Please fill in required contact details."
  const SubmitFailed: string := "Failed to submit booking"

  const EmptyContact: Contact := Contact("", "", "")

  const InitialBooking: BookingData :=
    BookingData(RoundTrip, "KBDN", "", "", "", 2, None, EmptyContact)

  const EmptyPatch: BookingPatch := BookingPatch(None, None, None, None, None, None, None, None)

  const Fleet: seq<Aircraft> := [
    Aircraft("da62-orange", "Diamond DA62 (Orange)", "Twin Engine", 6, "192 mph", "1,285 nm", 2800,
             "https://images.unsplash.com/photo-1583070344499-bf3c53b95d78?q=80&w=2836&auto=format&fit=crop"),
    Aircraft("da62-blue", "Diamond DA62 (Blue)", "Twin Engine", 6, "192 mph", "1,285 nm", 2800,
             "https://images.unsplash.com/photo-1605450183428-eb9127d6d40a?q=80&w=2940&auto=format&fit=crop"),
    Aircraft("cirrus-vision", "Cirrus Vision Jet", "Personal Jet", 5, "345 mph", "1,275 nm", 4500,
             "https://images.unsplash.com/photo-1569629743817-70d8db6c323b?q=80&w=2940&auto=format&fit=crop")
  ]

  function Pick<T>(o: Option<T>, current: T): T {
    if o.Some? then o.value else current
  }

  /** `{ ...prev, ...patch }`: each field the patch supplies replaces the draft's,
      every other field is kept. */
  function Merge(d: BookingData, p: BookingPatch): (r: BookingData)
    ensures p.tripType.None? ==> r.tripType == d.tripType
    ensures p.origin.None? ==> r.origin == d.origin
    ensures p.destination.None? ==> r.destination == d.destination
    ensures p.departDate.None? ==> r.departDate == d.departDate
    ensures p.returnDate.None? ==> r.returnDate == d.returnDate
    ensures p.passengers.None? ==> r.passengers == d.passengers
    ensures p.selectedAircraft.None? ==> r.selectedAircraft == d.selectedAircraft
    ensures p.contact.None? ==> r.contact == d.contact
    ensures p.tripType.Some? ==> r.tripType == p.tripType.value
    ensures p.origin.Some? ==> r.origin == p.origin.value
    ensures p.destination.Some? ==> r.destination == p.destination.value
    ensures p.departDate.Some? ==> r.departDate == p.departDate.value
    ensures p.returnDate.Some? ==> r.returnDate == p.returnDate.value
    ensures p.passengers.Some? ==> r.passengers == p.passengers.value
    ensures p.selectedAircraft.Some? ==> r.selectedAircraft == p.selectedAircraft
    ensures p.contact.Some? ==> r.contact == p.contact.value
  {
    BookingData(
      Pick(p.tripType, d.tripType), Pick(p.origin, d.origin), Pick(p.destination, d.destination),
      Pick(p.departDate, d.departDate), Pick(p.returnDate, d.returnDate), Pick(p.passengers, d.passengers),
      if p.selectedAircraft.Some? then p.selectedAircraft else d.selectedAircraft,
      Pick(p.contact, d.contact))
  }

  function PickLater<T>(first: Option<T>, second: Option<T>): Option<T> {
    if second.Some? then second else first
  }

  /** The patch that applying p and then q amounts to: q's fields win. */
  function Then(p: BookingPatch, q: BookingPatch): BookingPatch {
    BookingPatch(
      PickLater(p.tripType, q.tripType), PickLater(p.origin, q.origin),
      PickLater(p.destination, q.destination), PickLater(p.departDate, q.departDate),
      PickLater(p.returnDate, q.returnDate), PickLater(p.passengers, q.passengers),
      PickLater(p.selectedAircraft, q.selectedAircraft), PickLater(p.contact, q.contact))
  }

  /** An empty patch changes nothing. */
  lemma MergeEmpty(d: BookingData)
    ensures Merge(d, EmptyPatch) == d
  {
  }

  /** Two successive updates are one update with the later fields winning; in
      particular, repeating an update changes nothing more. */
  lemma MergeThen(d: BookingData, p: BookingPatch, q: BookingPatch)
    ensures Merge(Merge(d, p), q) == Merge(d, Then(p, q))
    ensures Merge(Merge(d, p), p) == Merge(d, p)
  {
  }

  /** The passenger counter's buttons: `Math.max(1, p - 1)` ... */
  function FewerPassengers(p: int): (r: int)
    ensures r >= MinPassengers
    ensures MinPassengers <= p <= MaxPassengers ==> MinPassengers <= r <= MaxPassengers
    ensures p > MinPassengers ==> r == p - 1
    ensures p <= MinPassengers ==> r == MinPassengers
  {
    if p - 1 > MinPassengers then p - 1 else MinPassengers
  }

  /** ... and `Math.min(19, p + 1)`. */
  function MorePassengers(p: int): (r: int)
    ensures r <= MaxPassengers
    ensures MinPassengers <= p <= MaxPassengers ==> MinPassengers <= r <= MaxPassengers
    ensures p < MaxPassengers ==> r == p + 1
    ensures p >= MaxPassengers ==> r == MaxPassengers
  {
    if p + 1 < MaxPassengers then p + 1 else MaxPassengers
  }

  /** Inside the range the two buttons undo each other. */
  lemma PassengerButtonsInverse(p: int)
    requires MinPassengers <= p <= MaxPassengers
    ensures p < MaxPassengers ==> FewerPassengers(MorePassengers(p)) == p
    ensures p > MinPassengers ==> MorePassengers(FewerPassengers(p)) == p
  {
  }

  /** The count after a sequence of presses, `true` standing for + and `false` for -. */
  function PressAll(p: int, presses: seq<bool>): int
    decreases |presses|
  {
    if |presses| == 0 then p
    else PressAll(if presses[0] then MorePassengers(p) else FewerPassengers(p), presses[1..])
  }

  /** Any sequence of presses from a count in [1, 19] stays within [1, 19]. */
  lemma {:induction false} PressesStayInRange(p: int, presses: seq<bool>)
    requires MinPassengers <= p <= MaxPassengers
    ensures MinPassengers <= PressAll(p, presses) <= MaxPassengers
    decreases |presses|
  {
    if |presses| > 0 {
      PressesStayInRange(if presses[0] then MorePassengers(p) else FewerPassengers(p), presses[1..]);
    }
  }

  /** The confirmation screen's reset of the draft. */
  function ResetDraft(d: BookingData): (r: BookingData)
    ensures r.selectedAircraft == None && r.destination == "" && r.departDate == "" && r.returnDate == ""
    ensures r.tripType == d.tripType && r.origin == d.origin && r.passengers == d.passengers && r.contact == d.contact
  {
    d.(selectedAircraft := None, destination := "", departDate := "", returnDate := "")
  }

  /** A reset draft cannot leave the home screen until a destination and a date
      are entered again, and resetting twice is resetting once. */
  lemma ResetBlocksSearch(d: BookingData)
    ensures !HomeCanSubmit(ResetDraft(d))
    ensures ResetDraft(ResetDraft(d)) == ResetDraft(d)
  {
  }

  /** HomeScreen.handleSubmit's guard. */
  predicate HomeCanSubmit(d: BookingData) {
    d.destination != "" && d.departDate != ""
  }

  /** DetailsScreen.handleFinalSubmit's guard. */
  predicate DetailsCanSubmit(d: BookingData) {
    d.contact.name != "" && d.contact.email != ""
  }

  /** Everything the wizard's handlers can change, as one value. */
  datatype Snapshot = Snapshot(
    screen: Screen, data: BookingData, alerts: seq<string>,
    originSearch: string, destSearch: string,
    loading: bool, error: Option<string>, detailsMount: nat)

  class Wizard {
    var screen: Screen
    var data: BookingData
    /** The alert() messages shown so far. */
    var alerts: seq<string>
    /** HomeScreen's own state: the text of its two airport boxes, which starts
        from the draft each time the wizard enters HOME. */
    var originSearch: string
    var destSearch: string
    /** DetailsScreen's own state, and which mounting of that screen it belongs to:
        the screen's state starts afresh each time the wizard enters it. */
    var loading: bool
    var error: Option<string>
    var detailsMount: nat

    function State(): Snapshot
      reads this
    {
      Snapshot(screen, data, alerts, originSearch, destSearch, loading, error, detailsMount)
    }

    constructor ()
      ensures State() == Snapshot(Home, InitialBooking, [], "KBDN", "", false, None, 0)
    {
      screen, data, alerts := Home, InitialBooking, [];
      originSearch, destSearch := "KBDN", "";
      loading, error, detailsMount := false, None, 0;
    }

    /** updateBooking(patch), which every input field of every screen calls. */
    method UpdateBooking(p: BookingPatch)
      modifies this
      ensures State() == old(State()).(data := Merge(old(data), p))
    {
      data := Merge(data, p);
    }

    /** Typing in HOME's origin box changes the box and its suggestions, not the draft. */
    method TypeOrigin(text: string)
      requires screen == Home
      modifies this
      ensures State() == old(State()).(originSearch := text)
    {
      originSearch := text;
    }

    method TypeDestination(text: string)
      requires screen == Home
      modifies this
      ensures State() == old(State()).(destSearch := text)
    {
      destSearch := text;
    }

    /** The suggestions under HOME's origin box: the airport search over the
        curated list. */
    function OriginResults(): (r: seq<AirportSearch.Airport>)
      reads this
      ensures |r| <= AirportSearch.MaxResults
      ensures |originSearch| < 2 ==> r == []
    {
      AirportSearch.HookSearch(originSearch)
    }

    function DestResults(): (r: seq<AirportSearch.Airport>)
      reads this
      ensures |r| <= AirportSearch.MaxResults
      ensures |destSearch| < 2 ==> r == []
    {
      AirportSearch.HookSearch(destSearch)
    }

    /** selectOrigin: picking a suggestion writes its code to the box and the draft. */
    method SelectOrigin(iata: string)
      requires screen == Home
      modifies this
      ensures State() == old(State()).(originSearch := iata, data := old(data).(origin := iata))
    {
      originSearch := iata;
      UpdateBooking(EmptyPatch.(origin := Some(iata)));
    }

    method SelectDestination(iata: string)
      requires screen == Home
      modifies this
      ensures State() == old(State()).(destSearch := iata, data := old(data).(destination := iata))
    {
      destSearch := iata;
      UpdateBooking(EmptyPatch.(destination := Some(iata)));
    }

    method FewerPassengersPressed()
      requires screen == Home
      modifies this
      ensures State() == old(State()).(data := old(data).(passengers := FewerPassengers(old(data).passengers)))
    {
      UpdateBooking(EmptyPatch.(passengers := Some(FewerPassengers(data.passengers))));
    }

    method MorePassengersPressed()
      requires screen == Home
      modifies this
      ensures State() == old(State()).(data := old(data).(passengers := MorePassengers(old(data).passengers)))
    {
      UpdateBooking(EmptyPatch.(passengers := Some(MorePassengers(data.passengers))));
    }

    /** HomeScreen.handleSubmit: on to RESULTS only with a destination and a date
        in the draft; otherwise the user is alerted. */
    method HomeSubmit()
      requires screen == Home
      modifies this
      ensures HomeCanSubmit(old(data)) ==> State() == old(State()).(screen := Results)
      ensures !HomeCanSubmit(old(data)) ==> State() == old(State()).(alerts := old(alerts) + [HomeAlert])
    {
      if !HomeCanSubmit(data) {
        alerts := alerts + [HomeAlert];
        return;
      }
      screen := Results;
    }

    /** Selecting one of the fleet's aircraft on RESULTS records it and opens DETAILS
        with a fresh details screen. */
    method SelectAircraft(a: Aircraft)
      requires screen == Results && a in Fleet
      modifies this
      ensures State() == old(State()).(data := old(data).(selectedAircraft := Some(a)), screen := Details,
                                       loading := false, error := None, detailsMount := old(detailsMount) + 1)
    {
      UpdateBooking(EmptyPatch.(selectedAircraft := Some(a)));
      screen := Details;
      loading, error, detailsMount := false, None, detailsMount + 1;
    }

    /** Entering HOME from another screen mounts a fresh home screen. */
    method EnterHome()
      requires screen != Home
      modifies this
      ensures State() == old(State()).(screen := Home, originSearch := old(data).origin, destSearch := old(data).destination)
    {
      screen := Home;
      originSearch, destSearch := data.origin, data.destination;
    }

    method ResultsBack()
      requires screen == Results
      modifies this
      ensures State() == old(State()).(screen := Home, originSearch := old(data).origin, destSearch := old(data).destination)
    {
      EnterHome();
    }

    method DetailsBack()
      requires screen == Details
      modifies this
      ensures State() == old(State()).(screen := Results)
    {
      screen := Results;
    }

    /** The header logo returns to HOME from any screen and keeps the draft; on
        HOME itself it changes nothing. */
    method LogoClick()
      modifies this
      ensures old(screen) == Home ==> State() == old(State())
      ensures old(screen) != Home ==>
                State() == old(State()).(screen := Home, originSearch := old(data).origin, destSearch := old(data).destination)
    {
      if screen != Home {
        EnterHome();
      }
    }

    /** ConfirmationScreen's reset: back to HOME with the trip cleared. */
    method Reset()
      requires screen == Confirmation
      modifies this
      ensures State() == old(State()).(screen := Home, data := ResetDraft(old(data)),
                                       originSearch := old(data).origin, destSearch := "")
    {
      data := ResetDraft(data);
      EnterHome();
    }

    /** The synchronous part of DetailsScreen.handleFinalSubmit, up to the awaited
        contact call: without a name or an email the user is alerted and nothing
        else happens; otherwise loading is set, the error cleared, and the call is
        issued with the draft's contact. The mounting it belongs to is returned so
        that its completion can be matched to it. */
    method BeginDetailsSubmit() returns (issued: Option<Contact>, mount: nat)
      requires screen == Details
      requires !loading  // the submit button is disabled while a submit is in flight
      modifies this
      ensures mount == detailsMount
      ensures !DetailsCanSubmit(old(data)) ==>
                issued == None && State() == old(State()).(alerts := old(alerts) + [DetailsAlert])
      ensures DetailsCanSubmit(old(data)) ==>
                issued == Some(old(data).contact) && State() == old(State()).(loading := true, error := None)
    {
      mount := detailsMount;
      if !DetailsCanSubmit(data) {
        alerts := alerts + [DetailsAlert];
        return None, mount;
      }
      loading := true;
      error := None;
      issued := Some(data.contact);
    }

    /** The continuation after the awaited call. Success moves the wizard to
        CONFIRMATION, from whatever screen it is on by then; a failure records
        its message (or the default one); loading ends false in both cases. The
        flag updates reach the details screen only while the mounting that issued
        the call is still on screen. */
    method CompleteDetailsSubmit(mount: nat, outcome: ContactOutcome)
      modifies this
      ensures var live := old(screen) == Details && mount == old(detailsMount);
              State() == old(State()).(
                screen := if outcome.Created? then Confirmation else old(screen),
                loading := if live then false else old(loading),
                error := if live && outcome.Rejected? then Some(Pick(outcome.message, SubmitFailed)) else old(error))
    {
      var live := screen == Details && mount == detailsMount;
      match outcome {
        case Created =>
          screen := Confirmation;
        case Rejected(message) =>
          if live {
            error := Some(Pick(message, SubmitFailed));
          }
      }
      if live {
        loading := false;
      }
    }
  }

  /** A full pass through the wizard: with a destination chosen, a date, a name
      and an email entered, choosing an aircraft and a successful contact call
      reach CONFIRMATION with loading cleared, and the reset returns HOME keeping
      the origin, the passenger count and the contact. */
  method HappyPath(destination: string, date: string, contact: Contact, a: Aircraft)
    requires destination != "" && date != "" && contact.name != "" && contact.email != ""
    requires a in Fleet
  {
    var w := new Wizard();
    w.SelectDestination(destination);
    w.UpdateBooking(EmptyPatch.(departDate := Some(date), contact := Some(contact)));
    w.HomeSubmit();
    assert w.screen == Results;
    w.SelectAircraft(a);
    var issued, mount := w.BeginDetailsSubmit();
    assert issued == Some(contact);
    w.CompleteDetailsSubmit(mount, Created);
    assert w.screen == Confirmation && !w.loading && w.error == None;
    w.Reset();
    assert w.screen == Home && w.data.origin == "KBDN" && w.data.passengers == 2;
    assert w.data.selectedAircraft == None && w.data.contact == contact && w.destSearch == "";
  }

  /** Typing a destination without picking a suggestion leaves the draft without
      one, so HOME refuses to move on. */
  method TypingIsNotChoosing(text: string, date: string)
  {
    var w := new Wizard();
    w.TypeDestination(text);
    w.UpdateBooking(EmptyPatch.(departDate := Some(date)));
    w.HomeSubmit();
    assert w.screen == Home && w.alerts == [HomeAlert];
  }
}
