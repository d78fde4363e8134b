/**
 * The bookings list: the mock upcoming and past lists, the status badge, the
 * change-history button and the Edit/Cancel actions of each card. The list
 * shows the vehicle's display name where the form stores a catalog id.
 */
module Bookings {
  import opened Wrappers
  import opened JsBuiltins
  import opened BookingForm
  import opened BookingRecord

  const UpcomingBookings: seq<Booking> := [
    Booking("BK-2023-0001", "2025-04-20", "14:30", "123 Main St, New York, NY", "JFK International Airport",
            "Executive Sedan", 2, 2, "Extra stop at Starbucks", Confirmed,
            [AuditEntry("2025-04-10T09:00:00Z", ActionCreated, "Booking created")]),
    Booking("BK-2023-0002", "2025-04-25", "09:00", "Hilton Hotel, Manhattan", "555 Business Center, Brooklyn",
            "Luxury SUV", 4, 4, "", Pending,
            [AuditEntry("2025-04-12T15:30:00Z", ActionCreated, "Booking created")])
  ]

  const PastBookings: seq<Booking> := [
    Booking("BK-2023-0003", "2025-03-15", "18:30", "LaGuardia Airport", "Grand Hyatt, Manhattan",
            "Executive Sedan", 1, 2, "", Completed,
            [AuditEntry("2025-03-10T12:00:00Z", ActionCreated, "Booking created"),
             AuditEntry("2025-03-15T18:30:00Z", ActionCompleted, "Ride completed")])
  ]

  // ---------------------------------------------------------------------------
  // Status badge
  // ---------------------------------------------------------------------------

  datatype BadgeVariant = Default | Secondary | Outline | Destructive

  /** The `switch` in StatusBadge, starting from "outline". */
  function StatusBadgeVariant(status: string): (v: BadgeVariant)
    ensures v == Default <==> status == "confirmed"
    ensures v == Secondary <==> status == "pending"
    ensures v == Destructive <==> status == "cancelled"
    ensures v == Outline <==> status != "confirmed" && status != "pending" && status != "cancelled"
  {
    match status
    case "confirmed" => Default
    case "pending" => Secondary
    case "completed" => Outline
    case "cancelled" => Destructive
    case _ => Outline
  }

  /** The badge label: the status with its first character upper-cased. */
  function StatusBadgeLabel(status: string): (r: string)
    ensures |r| == |status|
    ensures |status| > 0 ==> r[1..] == status[1..]
    ensures |status| > 0 && 'a' <= status[0] <= 'z' ==> 'A' <= r[0] <= 'Z' && r[0] as int == status[0] as int - 32
    ensures |status| > 0 && !('a' <= status[0] <= 'z') ==> r[0] == status[0]
  {
    Capitalize(status)
  }

  /** The four statuses get four different variants except completed, which shares the default outline. */
  lemma BadgeOfEachStatus()
    ensures StatusBadgeVariant(StatusText(Confirmed)) == Default
    ensures StatusBadgeVariant(StatusText(Pending)) == Secondary
    ensures StatusBadgeVariant(StatusText(Completed)) == Outline
    ensures StatusBadgeVariant(StatusText(Cancelled)) == Destructive
    ensures StatusBadgeLabel(StatusText(Pending)) == "Pending"
    ensures StatusBadgeLabel(StatusText(Confirmed)) == "Confirmed"
    ensures StatusBadgeLabel(StatusText(Cancelled)) == "Cancelled"
    ensures StatusBadgeLabel(StatusText(Completed)) == "Completed"
  {
    assert StatusBadgeLabel("pending") == ['P'] + "pending"[1..];
    assert StatusBadgeLabel("confirmed") == ['C'] + "confirmed"[1..];
    assert StatusBadgeLabel("cancelled") == ['C'] + "cancelled"[1..];
    assert StatusBadgeLabel("completed") == ['C'] + "completed"[1..];
  }

  // ---------------------------------------------------------------------------
  // Card rules
  // ---------------------------------------------------------------------------

  /** The statuses after which a booking can no longer be changed from the list. */
  predicate Terminal(s: Status)
  {
    s == Completed || s == Cancelled
  }

  /**
   * `showActions && status !== 'completed' && status !== 'cancelled'`: actions
   * are shown unless the status is the text of a terminal status. Any other
   * text, including an unknown one, gets them.
   */
  predicate ActionsAvailable(showActions: bool, status: string): (r: bool)
    ensures r <==> showActions && forall s: Status :: Terminal(s) ==> status != StatusText(s)
  {
    assert StatusText(Completed) == "completed" && StatusText(Cancelled) == "cancelled";
    showActions && status != "completed" && status != "cancelled"
  }

  /** Edit and Cancel are offered exactly for the two non-terminal statuses, and only when actions are shown. */
  lemma ActionsByStatus(showActions: bool, s: Status)
    ensures ActionsAvailable(showActions, StatusText(s)) <==> showActions && (s == Pending || s == Confirmed)
  {
    assert "pending" != "completed" && "pending" != "cancelled";
    assert "confirmed" != "completed" && "confirmed" != "cancelled";
  }

  /** The noun after the entry count. */
  function EntryNoun(n: nat): (r: string)
    ensures r == "entry" <==> n == 1
    ensures r == "entries" <==> n != 1
  {
    if n == 1 then "entry" else "entries"
  }

  /** The change-history button's text, or None when there is no history to show. */
  function HistoryButton(trail: seq<AuditEntry>): (r: Option<string>)
    ensures r.Some? <==> |trail| > 0
    ensures r.Some? ==> r.value == "View Change History (" + DecimalString(|trail|) + " " + EntryNoun(|trail|) + ")"
  {
    if |trail| > 0 then
      Some("View Change History (" + DecimalString(|trail|) + " " + EntryNoun(|trail|) + ")")
    else None
  }

  /** `handleCancelBooking`: the lists stay as they are; only the notification text is produced. */
  function HandleCancelBooking(upcoming: seq<Booking>, past: seq<Booking>, id: string): (r: (seq<Booking>, seq<Booking>, string))
    ensures r.0 == upcoming && r.1 == past
    ensures |r.2| == |id| + 28 && r.2[8..8 + |id|] == id
  {
    var text := "Booking " + id + " has been cancelled.";
    assert text[8..8 + |id|] == id;
    (upcoming, past, text)
  }

  /** What one booking card shows. */
  datatype CardView = CardView(
    id: string,
    variant: BadgeVariant,
    badgeLabel: string,
    history: Option<string>,
    actions: bool)

  /**
   * `BookingCard`: the id, the badge of the status, the history button, and
   * Edit/Cancel exactly when actions are shown and the status is not terminal.
   */
  function Card(b: Booking, showActions: bool): (c: CardView)
    ensures c.id == b.id
    ensures c.variant == Default <==> b.status == Confirmed
    ensures c.variant == Secondary <==> b.status == Pending
    ensures c.variant == Destructive <==> b.status == Cancelled
    ensures c.variant == Outline <==> b.status == Completed
    ensures c.history.Some? <==> |b.auditTrail| > 0
    ensures c.actions <==> showActions && !Terminal(b.status)
  {
    BadgeOfEachStatus();
    var status := StatusText(b.status);
    CardView(b.id, StatusBadgeVariant(status), StatusBadgeLabel(status), HistoryButton(b.auditTrail),
             ActionsAvailable(showActions, status))
  }

  function Cards(bs: seq<Booking>, showActions: bool): (r: seq<CardView>)
    ensures |r| == |bs|
    ensures forall i :: 0 <= i < |bs| ==> r[i] == Card(bs[i], showActions)
  {
    seq(|bs|, i requires 0 <= i < |bs| => Card(bs[i], showActions))
  }

  /** The upcoming tab renders its cards with actions; every one of them offers Edit and Cancel. */
  lemma UpcomingCardsOfferActions()
    ensures forall c :: c in Cards(UpcomingBookings, true) ==> c.actions
  {
    var cs := Cards(UpcomingBookings, true);
    forall c | c in cs ensures c.actions {
      var i :| 0 <= i < |cs| && cs[i] == c;
      ActionsByStatus(true, UpcomingBookings[i].status);
    }
  }

  /** The past tab renders its cards without actions, whatever their status. */
  lemma PastCardsOfferNoActions(past: seq<Booking>)
    ensures forall c :: c in Cards(past, false) ==> !c.actions
  {
  }

  // ---------------------------------------------------------------------------
  // The mock data
  // ---------------------------------------------------------------------------

  /** A trail whose timestamps never go backwards (ISO strings compare chronologically). */
  ghost predicate Chronological(trail: seq<AuditEntry>)
  {
    forall i, j :: 0 <= i < j < |trail| ==> LexLessEq(trail[i].timestamp, trail[j].timestamp)
  }

  /** The two-entry trail of the past booking is in time order. */
  lemma PastTrailChronological()
    ensures Chronological(PastBookings[0].auditTrail)
  {
    CreatedBeforeCompleted();
    TwoEntriesInOrder(PastBookings[0].auditTrail, "2025-03-10T12:00:00Z", "2025-03-15T18:30:00Z");
  }

  /** The creation time of the past booking comes before its completion time. */
  lemma CreatedBeforeCompleted()
    ensures LexLessEq("2025-03-10T12:00:00Z", "2025-03-15T18:30:00Z")
  {
    var a, b := "2025-03-10T12:00:00Z", "2025-03-15T18:30:00Z";
    assert a[..9] == b[..9];
    LexLessEqAt(a, b, 9);
  }

  lemma TwoEntriesInOrder(t: seq<AuditEntry>, a: string, b: string)
    requires |t| == 2 && t[0].timestamp == a && t[1].timestamp == b && LexLessEq(a, b)
    ensures Chronological(t)
  {
  }

  /** Upcoming bookings are pending or confirmed, the past one is completed, and every trail starts with `created` in time order. */
  lemma MockListFacts()
    ensures forall b :: b in UpcomingBookings ==> b.status == Pending || b.status == Confirmed
    ensures forall b :: b in PastBookings ==> b.status == Status.Completed
    ensures forall b :: b in UpcomingBookings + PastBookings ==>
              |b.auditTrail| > 0 && b.auditTrail[0].action == ActionCreated && Chronological(b.auditTrail)
  {
    PastTrailChronological();
    assert UpcomingBookings + PastBookings == [UpcomingBookings[0], UpcomingBookings[1], PastBookings[0]];
  }
}
