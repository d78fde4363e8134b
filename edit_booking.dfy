/**
 * The edit screen: looking a booking up by id in its mock list, merging the
 * submitted form over the stored record and appending one `updated` entry,
 * and the screen state (`booking`, `loading`, `viewingAuditTrail`).
 * The toast, the navigation and the 500 ms timeout are not modelled; the
 * lookup result is applied at once.
 */
module EditBooking {
  import opened Wrappers
  import opened JsBuiltins
  import opened BookingForm
  import opened BookingRecord
  import NewBooking

  /** The mock list the edit screen searches. */
  const MockBookings: seq<Booking> := [
    Booking("BK-2023-0001", "2025-04-20", "14:30", "123 Main St, New York, NY", "JFK International Airport",
            "sedan", 2, 2, "Extra stop at Starbucks", Confirmed,
            [AuditEntry("2025-04-10T09:00:00Z", ActionCreated, "Booking created")]),
    Booking("BK-2023-0002", "2025-04-25", "09:00", "Hilton Hotel, Manhattan", "555 Business Center, Brooklyn",
            "suv", 4, 4, "", Pending,
            [AuditEntry("2025-04-12T15:30:00Z", ActionCreated, "Booking created")])
  ]

  function BookingKey(b: Booking): string { b.id }

  /** `bookings.find(b => b.id === bookingId)`. */
  function FindBooking(bookings: seq<Booking>, bookingId: string): (r: Option<Booking>)
    ensures r.None? <==> forall j :: 0 <= j < |bookings| ==> bookings[j].id != bookingId
    ensures r.Some? ==> exists i :: 0 <= i < |bookings| && bookings[i] == r.value && r.value.id == bookingId
                                   && forall j :: 0 <= j < i ==> bookings[j].id != bookingId
  {
    var r := Find(bookings, BookingKey, bookingId);
    if r.Some? then
      var i := FindIndex(bookings, BookingKey, bookingId).value;
      assert bookings[i] == r.value && BookingKey(bookings[i]) == bookingId;
      r
    else r
  }

  /** The lookup on the mock list: both stored ids are found, any other id is not. */
  lemma MockLookup(bookingId: string)
    ensures FindBooking(MockBookings, "BK-2023-0001") == Some(MockBookings[0])
    ensures FindBooking(MockBookings, "BK-2023-0002") == Some(MockBookings[1])
    ensures bookingId != "BK-2023-0001" && bookingId != "BK-2023-0002" ==> FindBooking(MockBookings, bookingId).None?
  {
    assert MockBookings[0].id == "BK-2023-0001";
    assert MockBookings[1].id == "BK-2023-0002";
  }

  function UpdatedEntry(timestamp: string): AuditEntry
  {
    AuditEntry(timestamp, ActionUpdated, "Booking details updated")
  }

  /**
   * `{...booking, ...formData, date: normalised, auditTrail: [...booking.auditTrail, entry]}`.
   * The form's `id` overrides the stored one only when the form has one.
   * No status is checked.
   */
  function UpdatedBooking(booking: Booking, formData: FormData, timestamp: string): (r: Booking)
    ensures |r.auditTrail| == |booking.auditTrail| + 1
    ensures r.auditTrail[..|booking.auditTrail|] == booking.auditTrail
    ensures r.auditTrail[|booking.auditTrail|] == AuditEntry(timestamp, ActionUpdated, "Booking details updated")
    ensures r.id == if formData.id.Some? then formData.id.value else booking.id
    ensures r.date == NormalizeDate(formData.date)
    ensures FormOf(r) == formData.(id := Some(r.id), date := DateText(r.date))
  {
    Booking(
      if formData.id.Some? then formData.id.value else booking.id,
      NormalizeDate(formData.date),
      formData.time,
      formData.pickupLocation,
      formData.dropoffLocation,
      formData.vehicle,
      formData.passengers,
      formData.luggage,
      formData.specialRequests,
      formData.status,
      booking.auditTrail + [UpdatedEntry(timestamp)])
  }

  /**
   * Editing through the form never changes a booking's id or status: the form
   * starts from the stored booking and no handler writes those fields.
   * `converted` is the Date the form's date picker starts from.
   */
  lemma EditKeepsIdAndStatus(stored: Booking, converted: Date, events: seq<FormEvent>, timestamp: string)
    ensures var s := Replay(FormSnapshot(FormOf(stored), Some(converted)), events);
      var payload := SubmitPayload(s.formData, s.date);
      payload.Some? ==>
        && UpdatedBooking(stored, payload.value, timestamp).id == stored.id
        && UpdatedBooking(stored, payload.value, timestamp).status == stored.status
        && 'T' !in UpdatedBooking(stored, payload.value, timestamp).date
  {
    ReplayInvariants(FormSnapshot(FormOf(stored), Some(converted)), events);
  }

  /** The stored status plays no part: the same edit of the same booking in any status gives the same trail. */
  lemma EditIgnoresStatus(booking: Booking, status: Status, formData: FormData, timestamp: string)
    ensures UpdatedBooking(booking.(status := status), formData, timestamp) == UpdatedBooking(booking, formData, timestamp)
  {
  }

  /** Successive edits, each a submitted form with the time it was saved. */
  function EditAll(booking: Booking, edits: seq<(FormData, string)>): Booking
    decreases |edits|
  {
    if |edits| == 0 then booking
    else EditAll(UpdatedBooking(booking, edits[0].0, edits[0].1), edits[1..])
  }

  /** Edits only append: the old trail stays as a prefix and each edit adds one `updated` entry. */
  lemma {:induction false} EditAllAppends(booking: Booking, edits: seq<(FormData, string)>)
    ensures |EditAll(booking, edits).auditTrail| == |booking.auditTrail| + |edits|
    ensures EditAll(booking, edits).auditTrail[..|booking.auditTrail|] == booking.auditTrail
    ensures forall k :: |booking.auditTrail| <= k < |EditAll(booking, edits).auditTrail| ==>
              EditAll(booking, edits).auditTrail[k] == UpdatedEntry(edits[k - |booking.auditTrail|].1)
    decreases |edits|
  {
    if |edits| > 0 {
      var b1 := UpdatedBooking(booking, edits[0].0, edits[0].1);
      EditAllAppends(b1, edits[1..]);
      var n := |booking.auditTrail|;
      var t := EditAll(booking, edits).auditTrail;
      assert t[..n + 1] == b1.auditTrail;
      assert t[..n] == b1.auditTrail[..n];
      forall k | n <= k < |t|
        ensures t[k] == UpdatedEntry(edits[k - n].1)
      {
        if k > n {
          assert edits[1..][k - (n + 1)] == edits[k - n];
        }
      }
    }
  }

  /** A created booking edited any number of times: one `created` entry, then one `updated` entry per edit, in order. */
  lemma CreateThenEdits(f: FormData, year: nat, random: real, nowIso: string, edits: seq<(FormData, string)>)
    requires 0.0 <= random < 1.0
    ensures var t := EditAll(NewBooking.CreateBooking(f, year, random, nowIso), edits).auditTrail;
      && |t| == 1 + |edits|
      && t[0] == NewBooking.CreatedEntry(nowIso)
      && forall k :: 1 <= k < |t| ==> t[k].action == ActionUpdated && t[k].timestamp == edits[k - 1].1
  {
    var b := NewBooking.CreateBooking(f, year, random, nowIso);
    EditAllAppends(b, edits);
    var t := EditAll(b, edits).auditTrail;
    assert t[0] == t[..1][0] == b.auditTrail[0];
  }

  /** The edit screen's mock bookings name catalog vehicles and stay within their limits. */
  lemma MockBookingsFitCatalog()
    ensures forall b :: b in MockBookings ==>
              && SelectedVehicle(b.vehicle).id == b.vehicle
              && 1 <= b.passengers <= SelectedVehicle(b.vehicle).capacity
              && 0 <= b.luggage <= SelectedVehicle(b.vehicle).luggage
  {
    CatalogFacts();
    assert SelectedVehicle("sedan") == VehicleTypes[0];
    assert SelectedVehicle("suv") == VehicleTypes[1];
  }

  // ---------------------------------------------------------------------------
  // The screen state
  // ---------------------------------------------------------------------------

  /** What the edit screen shows. */
  datatype EditScreen =
    | LoadingScreen
    | NotFoundScreen
    | TrailScreen(bookingId: string, entries: seq<AuditEntry>, noChangesMessage: bool)
    | FormScreen(initialData: FormData)

  class EditBookingPage {
    var booking: Option<Booking>
    var loading: bool
    var viewingAuditTrail: bool

    /** `useState(null)`, `useState(true)`, `useState(false)`. Nothing passed in navigation state is read. */
    constructor ()
      ensures booking.None? && loading && !viewingAuditTrail
    {
      booking := None;
      loading := true;
      viewingAuditTrail := false;
    }

    /** The effect: look the id up, store the booking if one is found, and stop loading. */
    method FetchBooking(bookingId: string)
      modifies this
      ensures booking == if FindBooking(MockBookings, bookingId).Some? then FindBooking(MockBookings, bookingId) else old(booking)
      ensures !loading
      ensures viewingAuditTrail == old(viewingAuditTrail)
    {
      loading := true;
      var foundBooking := FindBooking(MockBookings, bookingId);
      if foundBooking.Some? {
        booking := foundBooking;
      }
      loading := false;
    }

    method SetViewingAuditTrail(v: bool)
      modifies this
      ensures viewingAuditTrail == v
      ensures booking == old(booking) && loading == old(loading)
    {
      viewingAuditTrail := v;
    }

    /** The submit handler. It is only reachable from the form, which is shown only once a booking is stored. */
    method HandleSubmit(formData: FormData, timestamp: string) returns (updated: Booking)
      requires booking.Some?
      ensures updated == UpdatedBooking(booking.value, formData, timestamp)
      ensures |updated.auditTrail| == |booking.value.auditTrail| + 1
      ensures updated.auditTrail[..|booking.value.auditTrail|] == booking.value.auditTrail
      ensures updated.auditTrail[|booking.value.auditTrail|].action == ActionUpdated
    {
      updated := UpdatedBooking(booking.value, formData, timestamp);
    }

    /** The render: loading first, then not found, then the audit trail or the form. */
    function Screen(): (r: EditScreen)
      reads this
      ensures loading <==> r.LoadingScreen?
      ensures r.NotFoundScreen? <==> !loading && booking.None?
      ensures r.TrailScreen? ==> booking.Some? && r.entries == booking.value.auditTrail
      ensures r.TrailScreen? ==> (r.noChangesMessage <==> |booking.value.auditTrail| == 0)
      ensures r.FormScreen? <==> !loading && booking.Some? && !viewingAuditTrail
      ensures r.FormScreen? ==> r.initialData == FormOf(booking.value)
    {
      if loading then LoadingScreen
      else if booking.None? then NotFoundScreen
      else if viewingAuditTrail then
        TrailScreen(booking.value.id, booking.value.auditTrail, |booking.value.auditTrail| == 0)
      else FormScreen(FormOf(booking.value))
    }
  }

  /** Opening the edit screen for an id: the stored booking is exactly the lookup's result. */
  method OpenEditPage(bookingId: string) returns (page: EditBookingPage)
    ensures fresh(page)
    ensures page.booking == FindBooking(MockBookings, bookingId)
    ensures page.Screen() == if page.booking.None? then NotFoundScreen else FormScreen(FormOf(page.booking.value))
  {
    page := new EditBookingPage();
    page.FetchBooking(bookingId);
  }
}
