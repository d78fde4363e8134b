/**
 * The stored booking: the form's fields with the date as a `YYYY-MM-DD`
 * string, plus the audit trail that the create and edit screens write.
 */
module BookingRecord {
  import opened Wrappers
  import opened JsBuiltins
  import opened BookingForm

  /** The action tags that occur in audit entries. */
  datatype AuditAction = ActionCreated | ActionUpdated | ActionCompleted

  datatype AuditEntry = AuditEntry(timestamp: string, action: AuditAction, details: string)

  datatype Booking = Booking(
    id: string,
    date: string,
    time: string,
    pickupLocation: string,
    dropoffLocation: string,
    vehicle: string,
    passengers: int,
    luggage: int,
    specialRequests: string,
    status: Status,
    auditTrail: seq<AuditEntry>)

  /**
   * `d instanceof Date ? d.toISOString().split('T')[0] : d`: a Date becomes the
   * part of its ISO text before the first `T`, a string is kept as it is.
   */
  function NormalizeDate(d: DateValue): (r: string)
    ensures d.DateObj? ==> r <= d.d.iso && 'T' !in r && (|r| < |d.d.iso| ==> d.d.iso[|r|] == 'T')
    ensures d.DateText? ==> r == d.s
  {
    match d
    case DateObj(x) => BeforeFirst(x.iso, 'T')
    case DateText(s) => s
  }

  /**
   * The edit path: the stored `YYYY-MM-DD` text is turned into a Date whose ISO
   * text is that day followed by `T` and a time; normalising that Date gives
   * the stored text back.
   */
  lemma StoredDateRoundTrip(stored: string, timeOfDay: string)
    requires 'T' !in stored
    ensures NormalizeDate(DateObj(Date(stored + "T" + timeOfDay))) == stored
  {
    var iso := stored + "T" + timeOfDay;
    var r := BeforeFirst(iso, 'T');
    assert iso[|stored|] == 'T';
    assert forall i :: 0 <= i < |stored| ==> iso[i] == stored[i] != 'T';
    assert |r| == |stored|;
    assert r == iso[..|stored|] == stored;
  }

  /** The record a form starts from when it is given a stored booking as `initialData`. */
  function FormOf(b: Booking): FormData
  {
    FormData(Some(b.id), DateText(b.date), b.time, b.pickupLocation, b.dropoffLocation,
             b.vehicle, b.passengers, b.luggage, b.specialRequests, b.status)
  }
}
