/**
 * Creating a booking from a submitted form. The clock and the random number
 * generator are parameters: `year` is `new Date().getFullYear()`, `random` is
 * `Math.random()` and `nowIso` is `new Date().toISOString()`.
 */
module NewBooking {
  import opened Wrappers
  import opened JsBuiltins
  import opened BookingForm
  import opened BookingRecord

  /** `Math.floor(1000 + random * 9000)`; for `random` in [0, 1) it has four digits. */
  function SequenceNumber(random: real): (n: nat)
    requires 0.0 <= random < 1.0
    ensures 1000 <= n <= 9999
  {
    (1000.0 + random * 9000.0).Floor
  }

  /** `BK-${year}-${n}`: the prefix, the year's digits, a dash, then the digits of n. */
  function BookingId(year: nat, n: nat): (id: string)
    ensures |id| == |DecimalString(year)| + |DecimalString(n)| + 4
    ensures id[..3] == "BK-" && id[3 + |DecimalString(year)|] == '-'
    ensures AllDigits(id[3..3 + |DecimalString(year)|]) && AllDigits(id[4 + |DecimalString(year)|..])
    ensures DecimalValue(id[3..3 + |DecimalString(year)|]) == year && DecimalValue(id[4 + |DecimalString(year)|..]) == n
  {
    var id := "BK-" + DecimalString(year) + "-" + DecimalString(n);
    assert id[3..3 + |DecimalString(year)|] == DecimalString(year);
    assert id[4 + |DecimalString(year)|..] == DecimalString(n);
    DecimalRoundTrip(year);
    DecimalRoundTrip(n);
    id
  }

  /** The shape of a generated id: the `BK-` prefix, the year's digits, a dash, then the four digits of n. */
  lemma BookingIdFormat(year: nat, n: nat)
    requires 1000 <= n <= 9999
    ensures var id := BookingId(year, n);
      && |id| == |DecimalString(year)| + 8
      && id[..3] == "BK-"
      && id[3..|id| - 5] == DecimalString(year)
      && id[|id| - 5] == '-'
      && AllDigits(id[|id| - 4..])
      && DecimalValue(id[|id| - 4..]) == n
  {
    FourDigitNumeral(n);
    var y, d := DecimalString(year), DecimalString(n);
    var id := BookingId(year, n);
    assert id == "BK-" + y + "-" + d;
    assert id[|id| - 4..] == d;
    assert id[3..|id| - 5] == y;
    DecimalRoundTrip(n);
  }

  /** Distinct (year, sequence number) pairs give distinct ids. */
  lemma BookingIdInjective(y1: nat, n1: nat, y2: nat, n2: nat)
    requires 1000 <= n1 <= 9999 && 1000 <= n2 <= 9999
    requires BookingId(y1, n1) == BookingId(y2, n2)
    ensures y1 == y2 && n1 == n2
  {
    BookingIdFormat(y1, n1);
    BookingIdFormat(y2, n2);
    var id := BookingId(y1, n1);
    assert DecimalString(y1) == id[3..|id| - 5] == DecimalString(y2);
    DecimalStringInjective(y1, y2);
  }

  /** The single entry a new booking's trail starts with. */
  function CreatedEntry(nowIso: string): AuditEntry
  {
    AuditEntry(nowIso, ActionCreated, "Booking created")
  }

  /**
   * `handleSubmit`: the form's fields, then a generated id, the normalised
   * date, status pending and a one-entry trail, in that order of precedence.
   */
  function CreateBooking(formData: FormData, year: nat, random: real, nowIso: string): (b: Booking)
    requires 0.0 <= random < 1.0
    ensures b.id == BookingId(year, SequenceNumber(random))
    ensures b.status == Pending
    ensures |b.auditTrail| == 1
    ensures b.auditTrail[0].action == ActionCreated && b.auditTrail[0].details == "Booking created"
    ensures b.auditTrail[0].timestamp == nowIso
    ensures b.date == NormalizeDate(formData.date)
    ensures formData.date.DateObj? ==> b.date <= formData.date.d.iso && 'T' !in b.date
    ensures formData.date.DateText? ==> b.date == formData.date.s
    ensures FormOf(b) == formData.(id := Some(b.id), date := DateText(b.date), status := Pending)
  {
    Booking(
      BookingId(year, SequenceNumber(random)),
      NormalizeDate(formData.date),
      formData.time,
      formData.pickupLocation,
      formData.dropoffLocation,
      formData.vehicle,
      formData.passengers,
      formData.luggage,
      formData.specialRequests,
      Pending,
      [CreatedEntry(nowIso)])
  }

  /** The id, status and trail of a new booking do not depend on the form's own id or status. */
  lemma CreateIgnoresFormIdAndStatus(f: FormData, g: FormData, year: nat, random: real, nowIso: string)
    requires 0.0 <= random < 1.0
    requires f.(id := g.id, status := g.status) == g
    ensures CreateBooking(f, year, random, nowIso) == CreateBooking(g, year, random, nowIso)
  {
  }

  /** Every created id reads as `BK-<year>-<four digits>`. */
  lemma CreatedIdHasFourDigitSuffix(formData: FormData, year: nat, random: real, nowIso: string)
    requires 0.0 <= random < 1.0
    ensures var id := CreateBooking(formData, year, random, nowIso).id;
      && id[..3] == "BK-"
      && id[|id| - 5] == '-'
      && AllDigits(id[|id| - 4..])
      && 1000 <= DecimalValue(id[|id| - 4..]) <= 9999
  {
    BookingIdFormat(year, SequenceNumber(random));
  }
}
