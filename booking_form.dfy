/**
 * The booking form: the vehicle catalog, the form's record type, the default
 * record, the vehicle lookup, and the form state (`formData` and the date
 * picker's `date`) that the input handlers update one field at a time.
 *
 * A JavaScript Date is known here only by the string its toISOString()
 * returns; every Date the form sees comes in as a parameter.
 */
module BookingForm {
  import opened Wrappers
  import opened JsBuiltins

  // ---------------------------------------------------------------------------
  // Data model
  // ---------------------------------------------------------------------------

  datatype Status = Pending | Confirmed | Cancelled | Completed

  /** The string literal each status is written as. */
  function StatusText(s: Status): string
  {
    match s
    case Pending => "pending"
    case Confirmed => "confirmed"
    case Cancelled => "cancelled"
    case Completed => "completed"
  }

  /** A JavaScript Date, represented by its toISOString() text. */
  datatype Date = Date(iso: string)

  /** The `date: Date | string` field of the form record. */
  datatype DateValue = DateObj(d: Date) | DateText(s: string)

  /** JavaScript truthiness of the date field: a Date is truthy, a string when non-empty. */
  predicate Truthy(d: DateValue)
  {
    d.DateObj? || d.s != ""
  }

  datatype VehicleType = VehicleType(id: string, name: string, capacity: nat, luggage: nat)

  /** The fixed catalog of vehicle classes, in display order. */
  const VehicleTypes: seq<VehicleType> := [
    VehicleType("sedan", "Executive Sedan", 3, 2),
    VehicleType("suv", "Luxury SUV", 6, 4),
    VehicleType("van", "Passenger Van", 14, 14),
    VehicleType("stretch", "Stretch Limousine", 8, 6),
    VehicleType("sprinter", "Luxury Sprinter", 12, 12)
  ]

  /** The record the form edits and hands to its caller. `id` is absent on a new booking. */
  datatype FormData = FormData(
    id: Option<string>,
    date: DateValue,
    time: string,
    pickupLocation: string,
    dropoffLocation: string,
    vehicle: string,
    passengers: int,
    luggage: int,
    specialRequests: string,
    status: Status)

  // ---------------------------------------------------------------------------
  // Catalog and defaults
  // ---------------------------------------------------------------------------

  /** The catalog holds five vehicle classes with these limits, and no id occurs twice. */
  lemma CatalogFacts()
    ensures |VehicleTypes| == 5
    ensures VehicleTypes[0].id == "sedan" && VehicleTypes[0].capacity == 3 && VehicleTypes[0].luggage == 2
    ensures VehicleTypes[1].id == "suv" && VehicleTypes[1].capacity == 6 && VehicleTypes[1].luggage == 4
    ensures VehicleTypes[2].id == "van" && VehicleTypes[2].capacity == 14 && VehicleTypes[2].luggage == 14
    ensures VehicleTypes[3].id == "stretch" && VehicleTypes[3].capacity == 8 && VehicleTypes[3].luggage == 6
    ensures VehicleTypes[4].id == "sprinter" && VehicleTypes[4].capacity == 12 && VehicleTypes[4].luggage == 12
    ensures forall i, j :: 0 <= i < j < |VehicleTypes| ==> VehicleTypes[i].id != VehicleTypes[j].id
  {
  }

  function VehicleId(v: VehicleType): string { v.id }

  /**
   * `vehicleTypes.find(v => v.id === formData.vehicle) || vehicleTypes[0]`:
   * the catalog entry with that id, falling back to the first entry.
   */
  function SelectedVehicle(vehicleId: string): (v: VehicleType)
    ensures v in VehicleTypes
    ensures (exists i :: 0 <= i < |VehicleTypes| && VehicleTypes[i].id == vehicleId) ==> v.id == vehicleId
    ensures (forall i :: 0 <= i < |VehicleTypes| ==> VehicleTypes[i].id != vehicleId) ==> v == VehicleTypes[0]
  {
    match Find(VehicleTypes, VehicleId, vehicleId)
    case Some(x) => x
    case None => VehicleTypes[0]
  }

  /**
   * `defaultBooking`, whose date is the Date taken when the module was loaded:
   * a new pending booking with no id, the first catalog vehicle with counts
   * within its limits, and empty locations, so it cannot be submitted as is.
   */
  function DefaultBooking(loadTime: Date): (r: FormData)
    ensures r.id.None? && r.status == Pending && r.date == DateObj(loadTime)
    ensures r.vehicle == "sedan" && r.passengers == 1 && r.luggage == 1 && r.time == "12:00"
    ensures r.pickupLocation == "" && r.dropoffLocation == "" && r.specialRequests == ""
    ensures SelectedVehicle(r.vehicle) == VehicleTypes[0]
    ensures 1 <= r.passengers <= SelectedVehicle(r.vehicle).capacity
    ensures 0 <= r.luggage <= SelectedVehicle(r.vehicle).luggage
    ensures SubmitPayload(r, Some(loadTime)).None?
  {
    assert VehicleTypes[0].id == "sedan";
    FormData(None, DateObj(loadTime), "12:00", "", "", "sedan", 1, 1, "", Pending)
  }

  // ---------------------------------------------------------------------------
  // Per-field updates (the bodies of the setFormData callbacks)
  // ---------------------------------------------------------------------------

  /** The inputs wired to `handleChange`, each named after the field it writes. */
  datatype TextField = Time | PickupLocation | DropoffLocation | SpecialRequests

  function TextOf(f: FormData, field: TextField): string
  {
    match field
    case Time => f.time
    case PickupLocation => f.pickupLocation
    case DropoffLocation => f.dropoffLocation
    case SpecialRequests => f.specialRequests
  }

  /** The fields no text input writes are the same in `f` and `g`. */
  predicate SameNonText(f: FormData, g: FormData)
  {
    && f.id == g.id && f.date == g.date && f.vehicle == g.vehicle
    && f.passengers == g.passengers && f.luggage == g.luggage && f.status == g.status
  }

  /** `prev => ({...prev, [name]: value})` for a text input. */
  function WithText(f: FormData, field: TextField, value: string): (r: FormData)
    ensures TextOf(r, field) == value
    ensures forall g: TextField :: g != field ==> TextOf(r, g) == TextOf(f, g)
    ensures SameNonText(r, f)
  {
    match field
    case Time => f.(time := value)
    case PickupLocation => f.(pickupLocation := value)
    case DropoffLocation => f.(dropoffLocation := value)
    case SpecialRequests => f.(specialRequests := value)
  }

  /** `prev => ({...prev, vehicle: value})`. */
  function WithVehicle(f: FormData, value: string): (r: FormData)
    ensures r.vehicle == value
    ensures r.(vehicle := f.vehicle) == f
  {
    f.(vehicle := value)
  }

  /** `prev => ({...prev, date: newDate})`. */
  function WithDate(f: FormData, d: Date): (r: FormData)
    ensures r.date == DateObj(d)
    ensures r.(date := f.date) == f
  {
    f.(date := DateObj(d))
  }

  /** The inputs wired to `handleNumberChange`. */
  datatype NumberField = Passengers | Luggage

  function NumberOf(f: FormData, field: NumberField): int
  {
    match field
    case Passengers => f.passengers
    case Luggage => f.luggage
  }

  /** What `handleNumberChange(name, value)` does to the record, given `parseInt(value)` (None for NaN). */
  function NumberChange(f: FormData, field: NumberField, parsed: Option<int>): (r: FormData)
    ensures parsed.Some? && parsed.value > 0 ==> NumberOf(r, field) == parsed.value
    ensures !(parsed.Some? && parsed.value > 0) ==> r == f
    ensures forall g: NumberField :: g != field ==> NumberOf(r, g) == NumberOf(f, g)
    ensures r.(passengers := f.passengers, luggage := f.luggage) == f
  {
    if parsed.Some? && parsed.value > 0 then
      match field
      case Passengers => f.(passengers := parsed.value)
      case Luggage => f.(luggage := parsed.value)
    else f
  }

  /** Whatever is typed, the luggage input can never bring the luggage count to zero. */
  lemma LuggageNeverSetToZero(f: FormData, parsed: Option<int>)
    ensures NumberChange(f, Luggage, parsed).luggage == 0 ==> f.luggage == 0
    ensures NumberChange(f, Luggage, Some(0)) == f
  {
  }

  // ---------------------------------------------------------------------------
  // Submit
  // ---------------------------------------------------------------------------

  /**
   * What `handleSubmit` passes to `onSubmit`, or None when it shows the
   * "Missing information" toast instead. Capacity is not compared.
   */
  function SubmitPayload(f: FormData, date: Option<Date>): (r: Option<FormData>)
    ensures r.Some? <==> f.pickupLocation != "" && f.dropoffLocation != "" && date.Some? && f.time != ""
    ensures r.Some? ==> r.value.date == DateObj(date.value)
    ensures r.Some? ==> r.value.(date := f.date) == f
  {
    if f.pickupLocation == "" || f.dropoffLocation == "" || date.None? || f.time == "" then None
    else Some(f.(date := DateObj(date.value)))
  }

  /**
   * `handleSubmit` does not compare the counts with the vehicle's limits: a
   * sedan booked for fourteen passengers and fourteen bags is accepted.
   */
  lemma SubmitIgnoresCapacity(d: Date)
    ensures var f := FormData(None, DateObj(d), "10:00", "A", "B", "sedan", 14, 14, "", Pending);
            && f.passengers > SelectedVehicle(f.vehicle).capacity
            && f.luggage > SelectedVehicle(f.vehicle).luggage
            && SubmitPayload(f, Some(d)).Some?
  {
    assert VehicleTypes[0].id == "sedan";
  }

  // ---------------------------------------------------------------------------
  // Sequences of input events
  // ---------------------------------------------------------------------------

  /** The form's state: the record and the date picker's selection. */
  datatype FormSnapshot = FormSnapshot(formData: FormData, date: Option<Date>)

  /** One user action on the form, with parseInt already applied for number inputs. */
  datatype FormEvent =
    | TextInput(field: TextField, value: string)
    | VehicleSelect(vehicle: string)
    | NumberInput(numberField: NumberField, parsed: Option<int>)
    | DatePick(newDate: Option<Date>)

  /** The effect of one event; the handler methods of FormState do the same. */
  function Step(s: FormSnapshot, e: FormEvent): FormSnapshot
  {
    match e
    case TextInput(field, value) => s.(formData := WithText(s.formData, field, value))
    case VehicleSelect(v) => s.(formData := WithVehicle(s.formData, v))
    case NumberInput(field, parsed) => s.(formData := NumberChange(s.formData, field, parsed))
    case DatePick(nd) =>
      if nd.Some? then FormSnapshot(WithDate(s.formData, nd.value), nd) else s
  }

  function Replay(s: FormSnapshot, events: seq<FormEvent>): FormSnapshot
    decreases |events|
  {
    if |events| == 0 then s else Replay(Step(s, events[0]), events[1..])
  }

  /**
   * No handler writes `id` or `status`, a defined date stays defined, and
   * positive counts stay positive, whatever the sequence of events.
   */
  lemma {:induction false} ReplayInvariants(s: FormSnapshot, events: seq<FormEvent>)
    ensures Replay(s, events).formData.id == s.formData.id
    ensures Replay(s, events).formData.status == s.formData.status
    ensures s.date.Some? ==> Replay(s, events).date.Some?
    ensures s.formData.passengers > 0 ==> Replay(s, events).formData.passengers > 0
    ensures s.formData.luggage > 0 ==> Replay(s, events).formData.luggage > 0
    decreases |events|
  {
    if |events| > 0 {
      ReplayInvariants(Step(s, events[0]), events[1..]);
    }
  }

  // ---------------------------------------------------------------------------
  // The form component's state
  // ---------------------------------------------------------------------------

  /** The Date the date picker starts from: the record's own Date, or `converted` for a string. */
  function InitialDate(d: DateValue, converted: Date): Date
  {
    match d
    case DateObj(x) => x
    case DateText(_) => converted
  }

  class FormState {
    var formData: FormData
    var date: Option<Date>

    /** The date picker's selection is never undefined. */
    ghost predicate Valid()
      reads this
    {
      date.Some?
    }

    function Snapshot(): FormSnapshot
      reads this
    {
      FormSnapshot(formData, date)
    }

    /**
     * The two useState initialisers. `converted` stands for `new Date(s)` when
     * the record's date is a non-empty string `s`, and for `new Date()` when it
     * is empty.
     */
    constructor (initialData: FormData, converted: Date)
      ensures Valid()
      ensures formData == initialData
      ensures date == Some(InitialDate(initialData.date, converted))
    {
      formData := initialData;
      date := Some(InitialDate(initialData.date, converted));
    }

    /** The effect that reloads the state when `initialData` changes; an empty date string keeps the old date. */
    method SyncInitialData(initialData: FormData, converted: Date)
      requires Valid()
      modifies this
      ensures Valid()
      ensures formData == initialData
      ensures date == if Truthy(initialData.date) then Some(InitialDate(initialData.date, converted)) else old(date)
    {
      formData := initialData;
      if Truthy(initialData.date) {
        date := Some(InitialDate(initialData.date, converted));
      }
    }

    method HandleChange(field: TextField, value: string)
      modifies this
      ensures formData == WithText(old(formData), field, value)
      ensures date == old(date)
      ensures Snapshot() == Step(old(Snapshot()), TextInput(field, value))
    {
      formData := WithText(formData, field, value);
    }

    method HandleVehicleChange(value: string)
      modifies this
      ensures formData == WithVehicle(old(formData), value)
      ensures date == old(date)
      ensures Snapshot() == Step(old(Snapshot()), VehicleSelect(value))
    {
      formData := WithVehicle(formData, value);
    }

    /** `parseInt` is a parameter: None stands for NaN. */
    method HandleNumberChange(field: NumberField, value: string, parseInt: string -> Option<int>)
      modifies this
      ensures formData == NumberChange(old(formData), field, parseInt(value))
      ensures date == old(date)
      ensures Snapshot() == Step(old(Snapshot()), NumberInput(field, parseInt(value)))
    {
      var numValue := parseInt(value);
      if numValue.Some? && numValue.value > 0 {
        formData := NumberChange(formData, field, numValue);
      }
    }

    method HandleDateChange(newDate: Option<Date>)
      modifies this
      ensures newDate.Some? ==> date == newDate && formData == WithDate(old(formData), newDate.value)
      ensures newDate.None? ==> date == old(date) && formData == old(formData)
      ensures old(Valid()) ==> Valid()
      ensures Snapshot() == Step(old(Snapshot()), DatePick(newDate))
    {
      if newDate.Some? {
        date := newDate;
        formData := WithDate(formData, newDate.value);
      }
    }

    /**
     * Returns what is handed to `onSubmit`, or None when the missing-information
     * toast is shown. While the picker holds a date, only the three text fields
     * can reject a submit.
     */
    method HandleSubmit() returns (payload: Option<FormData>)
      ensures payload.Some? <==> formData.pickupLocation != "" && formData.dropoffLocation != "" && date.Some? && formData.time != ""
      ensures payload.Some? ==> payload.value == formData.(date := DateObj(date.value))
      ensures Valid() ==> (payload.None? <==> formData.pickupLocation == "" || formData.dropoffLocation == "" || formData.time == "")
      ensures payload == SubmitPayload(formData, date)
    {
      payload := SubmitPayload(formData, date);
    }
  }
}
