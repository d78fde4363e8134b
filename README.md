# Booking record model

A Dafny model of the booking logic of a limousine booking web application:
the booking form with its vehicle catalog, the screen that creates a booking,
the screen that edits one, and the rules of the bookings list. The model
follows the code, which is simpler than a full booking lifecycle:

- the form's submit handler checks only that pickup, dropoff, date and time are
  non-empty; it never compares the passenger and luggage counts with the
  vehicle's limits (the limits only appear as `max` attributes of the inputs,
  which the browser, not the handler, enforces);
- editing does not look at the booking's status; a completed booking is edited
  like any other;
- cancelling only shows a notification; no status ever changes, and there is
  no confirm or complete operation;
- audit timestamps are written as given; their order is not checked;
- create and edit store nothing: each builds the new record, logs it and
  navigates back to the list (src/pages/NewBooking.tsx:32,
  src/pages/EditBooking.tsx:103). Every edit starts again from the edit
  screen's fixed mock list, so a created booking is never edited and edits do
  not accumulate. The lemmas about chains of edits are properties of the
  functions composed, not of anything the screens do.

Files and modules:

- `wrappers.dfy` (`Wrappers`): `Option`, for `undefined` and for lookups that find nothing.
- `js_builtins.dfy` (`JsBuiltins`): the JavaScript built-ins the screens use:
  `find` by id, `split('T')[0]`, `charAt(0).toUpperCase() + slice(1)`, the
  decimal text of a number in a template literal. It also defines the
  code-unit order on strings; no screen compares strings, and the order is
  used only to state that the mock timestamps are in time order.
- `booking_form.dfy` (`BookingForm`): the catalog, the form record, the default
  record, the vehicle lookup, the per-field update functions, the submit check,
  and the class `FormState` whose fields are the component's `formData` and `date`
  state and whose methods are its handlers.
- `booking_record.dfy` (`BookingRecord`): the stored booking with its audit
  trail, and the date normalisation shared by create and edit.
- `new_booking.dfy` (`NewBooking`): the id and the record built on create.
- `edit_booking.dfy` (`EditBooking`): the lookup, the merge with one appended
  `updated` entry, and the class `EditBookingPage` holding the `booking`,
  `loading` and `viewingAuditTrail` state.
- `bookings.dfy` (`Bookings`): the badge variant and label, the action
  condition, the history button text, cancel, and the mock lists.

Parameters stand for everything the code takes from the environment. A
JavaScript Date is represented by the string its `toISOString()` returns.
`Math.random()` is a real in [0, 1), `getFullYear()` a natural number,
`new Date().toISOString()` a string, and `parseInt` a function from string to
an optional integer (None for NaN). The 500 ms timeout in the edit screen is
collapsed: the lookup result is stored at once.

The list page sends a request to open the audit trail when it navigates to
the edit screen (src/pages/Bookings.tsx:103). The edit screen never reads it and
always starts on the form. `EditBookingPage.constructor` models that.

## Model

| member | source | states |
|---|---|---|
| `BookingForm.CatalogFacts` | src/components/BookingForm.tsx:24-30 | five vehicle classes: sedan 3/2, suv 6/4, van 14/14, stretch 8/6, sprinter 12/12; no id occurs twice |
| `BookingForm.SelectedVehicle` | src/components/BookingForm.tsx:133 | the result is always a catalog entry; it has the requested id whenever some entry does; with no match it is the first entry (sedan) |
| `BookingForm.DefaultBooking` | src/components/BookingForm.tsx:51-61 | the default record has no id, is pending, carries the load-time Date, has time 12:00, vehicle `sedan` (the first catalog entry), 1 passenger and 1 bag (within the sedan's limits), empty locations and requests, and is rejected on submit because its locations are empty |
| `BookingForm.WithText` | src/components/BookingForm.tsx:85-88 | a text input sets exactly its own field; the other text fields and every non-text field keep their values |
| `BookingForm.WithVehicle` | src/components/BookingForm.tsx:90-92 | the vehicle select sets `vehicle` and nothing else |
| `BookingForm.NumberChange` | src/components/BookingForm.tsx:94-99 | the named count becomes the parsed value only when it is an integer > 0; otherwise the record is unchanged; the other count and all other fields never change |
| `BookingForm.LuggageNeverSetToZero` | src/components/BookingForm.tsx:94-99 | the luggage count can reach 0 only if it already was 0; typing 0 changes nothing, although the input allows 0 |
| `BookingForm.WithDate` | src/components/BookingForm.tsx:104 | picking a date sets the record's date to that Date and nothing else |
| `BookingForm.SubmitPayload` | src/components/BookingForm.tsx:108-126 | a payload is produced if and only if pickup, dropoff, date and time are all present; it is the form record with `date` replaced by the picker's date and no other change |
| `BookingForm.SubmitIgnoresCapacity` | src/components/BookingForm.tsx:111-125 | `handleSubmit` does not compare the counts with the vehicle's limits: a sedan with 14 passengers and 14 bags, over both limits, yields a payload |
| `BookingForm.ReplayInvariants` | src/components/BookingForm.tsx:85-106 | over any sequence of input events, `id` and `status` never change, a defined picker date stays defined, and positive counts stay positive |
| `BookingForm.FormState.constructor` | src/components/BookingForm.tsx:64-69 | the record is the initial data; the picker date is the record's Date, or the Date converted from its string |
| `BookingForm.FormState.SyncInitialData` | src/components/BookingForm.tsx:74-83 | the record is replaced by the new initial data; the picker date is replaced only when the new date is truthy |
| `BookingForm.FormState.HandleChange` | src/components/BookingForm.tsx:85-88 | the record becomes `WithText` of the old one; the picker date is unchanged |
| `BookingForm.FormState.HandleVehicleChange` | src/components/BookingForm.tsx:90-92 | the record becomes `WithVehicle` of the old one; the picker date is unchanged |
| `BookingForm.FormState.HandleNumberChange` | src/components/BookingForm.tsx:94-99 | the record becomes `NumberChange` of the old one with `parseInt(value)`; the picker date is unchanged |
| `BookingForm.FormState.HandleDateChange` | src/components/BookingForm.tsx:101-106 | with a date, both the picker date and the record's date become it; with undefined, nothing changes; a defined picker date stays defined |
| `BookingForm.FormState.HandleSubmit` | src/components/BookingForm.tsx:108-126 | returns a payload exactly when the four required fields are present, and that payload is the record with the picker's date; while the picker holds a date, only an empty pickup, dropoff or time rejects the submit |
| `JsBuiltins.Find` | src/pages/EditBooking.tsx:66 | returns nothing exactly when no element has the key; otherwise the element at the first index with the key |
| `JsBuiltins.BeforeFirst` | src/pages/NewBooking.tsx:20 | `split('T')[0]` is a prefix of the string, contains no `T`, and is followed by a `T` when it is shorter than the string |
| `JsBuiltins.BeforeFirstIdempotent` | src/pages/NewBooking.tsx:20 | splitting the first part again gives the same string |
| `JsBuiltins.Capitalize` | src/pages/Bookings.tsx:109 | same length; the first character is upper-cased (ASCII letters), the rest unchanged |
| `JsBuiltins.CapitalizeIdempotent` | src/pages/Bookings.tsx:109 | capitalising a capitalised string changes nothing |
| `JsBuiltins.DecimalString` | src/pages/NewBooking.tsx:14 | the text of a number is non-empty, all digits, and has no leading zero |
| `JsBuiltins.DecimalRoundTrip` | src/pages/NewBooking.tsx:14 | reading the digits back gives the number |
| `JsBuiltins.FourDigitNumeral` | src/pages/NewBooking.tsx:14 | every number from 1000 to 9999 has exactly four digits |
| `BookingRecord.NormalizeDate` | src/pages/NewBooking.tsx:20 | a Date becomes the part of its ISO text before the first `T`, with no `T` in it; a string is kept verbatim |
| `BookingRecord.StoredDateRoundTrip` | src/pages/EditBooking.tsx:91 | a stored day turned back into a Date (its ISO text is the day, `T`, then a time) normalises to the stored day |
| `NewBooking.BookingId` | src/pages/NewBooking.tsx:14 | the id is `BK-`, a run of digits worth the year, `-`, then a run of digits worth the sequence number |
| `NewBooking.SequenceNumber` | src/pages/NewBooking.tsx:14 | `Math.floor(1000 + random * 9000)` lies in 1000..9999 for any random in [0, 1) |
| `NewBooking.BookingIdFormat` | src/pages/NewBooking.tsx:14 | the id is `BK-`, the year's digits, `-`, then four digits whose value is the sequence number |
| `NewBooking.BookingIdInjective` | src/pages/NewBooking.tsx:14 | different (year, sequence number) pairs give different ids |
| `NewBooking.CreateBooking` | src/pages/NewBooking.tsx:12-29 | the id is the generated one, status is pending, the trail is exactly one `created` entry with the current time and "Booking created", the date is the form's date normalised (the part of a Date's ISO text before the first `T`, or the string as given), and every other field is the form's |
| `NewBooking.CreateIgnoresFormIdAndStatus` | src/pages/NewBooking.tsx:17-21 | two forms that differ only in id and status create the same booking |
| `NewBooking.CreatedIdHasFourDigitSuffix` | src/pages/NewBooking.tsx:14 | every created id starts with `BK-` and ends with `-` and four digits worth 1000..9999 |
| `EditBooking.FindBooking` | src/pages/EditBooking.tsx:66 | nothing is found exactly when no booking has the id; otherwise the first booking with that id |
| `EditBooking.MockLookup` | src/pages/EditBooking.tsx:10-49 | the two mock ids are found, every other id is not |
| `EditBooking.UpdatedBooking` | src/pages/EditBooking.tsx:86-100 | the trail grows by exactly one `updated` entry at the end and keeps the old entries in order; the id comes from the form when it has one; every other field comes from the form, the date normalised |
| `EditBooking.EditKeepsIdAndStatus` | src/pages/EditBooking.tsx:202-206 | when the form starts from the stored booking, any sequence of input events followed by a successful submit yields a booking with the stored id and status and a `T`-free date |
| `EditBooking.EditIgnoresStatus` | src/pages/EditBooking.tsx:86-100 | the stored status plays no part in an edit; a completed booking gets an `updated` entry too |
| `EditBooking.EditAllAppends` | src/pages/EditBooking.tsx:92-99 | a property of the merge function chained, which the screens never do: after any number of edits, the old trail is a prefix and each edit contributed one `updated` entry with its timestamp, in order |
| `EditBooking.CreateThenEdits` | src/pages/EditBooking.tsx:92-99 | a property of the create and merge functions composed, which the screens never do (nothing is stored): a created booking edited n times has n + 1 entries: the `created` entry, then one `updated` entry per edit |
| `EditBooking.MockBookingsFitCatalog` | src/pages/EditBooking.tsx:10-49 | the edit screen's mock bookings name catalog vehicles and are within their limits |
| `EditBooking.EditBookingPage.constructor` | src/pages/EditBooking.tsx:54-56 | no booking, loading, not viewing the trail |
| `EditBooking.EditBookingPage.FetchBooking` | src/pages/EditBooking.tsx:60-84 | a found booking is stored as it is; when none is found the stored booking is unchanged; loading ends |
| `EditBooking.EditBookingPage.SetViewingAuditTrail` | src/pages/EditBooking.tsx:194 | only the trail/form toggle changes |
| `EditBooking.EditBookingPage.HandleSubmit` | src/pages/EditBooking.tsx:86-100 | returns the merge of the form over the stored booking, whose trail is the stored trail followed by one `updated` entry |
| `EditBooking.EditBookingPage.Screen` | src/pages/EditBooking.tsx:121-208 | loading first, then not found, then trail or form; the "no changes" message appears if and only if the trail is empty; the form starts from the stored booking |
| `EditBooking.OpenEditPage` | src/pages/EditBooking.tsx:60-84 | on a fresh screen the stored booking is exactly the lookup result, so an unknown id shows "not found" |
| `Bookings.StatusBadgeVariant` | src/pages/Bookings.tsx:107-124 | confirmed is the only status shown as default, pending the only secondary, cancelled the only destructive; everything else, completed included, is outline |
| `Bookings.StatusBadgeLabel` | src/pages/Bookings.tsx:109 | the label has the status's length, its first letter upper-cased and the rest unchanged |
| `Bookings.BadgeOfEachStatus` | src/pages/Bookings.tsx:107-124 | variant and label of each of the four statuses |
| `Bookings.ActionsAvailable` | src/pages/Bookings.tsx:209 | actions exactly when they are shown and the status text is not that of a terminal status (completed, cancelled); an unknown status text gets them |
| `Bookings.ActionsByStatus` | src/pages/Bookings.tsx:209 | Edit and Cancel are offered if and only if actions are shown and the status is pending or confirmed |
| `Bookings.EntryNoun` | src/pages/Bookings.tsx:205 | "entry" exactly for one entry, "entries" otherwise |
| `Bookings.HistoryButton` | src/pages/Bookings.tsx:197-207 | the button exists if and only if the trail is non-empty, and states the count and noun |
| `Bookings.HandleCancelBooking` | src/pages/Bookings.tsx:96-100 | both lists are returned unchanged; only the notification naming the id is produced |
| `Bookings.Card` | src/pages/Bookings.tsx:132-234 | a card shows the booking's id, the badge variant of its status (default, secondary, destructive, outline for confirmed, pending, cancelled, completed), a history button exactly when the trail is non-empty, and Edit/Cancel exactly when actions are shown and the status is not terminal |
| `Bookings.Cards` | src/pages/Bookings.tsx:264-266 | one card per booking, in order |
| `Bookings.UpcomingCardsOfferActions` | src/pages/Bookings.tsx:264-266 | every upcoming card offers Edit and Cancel |
| `Bookings.PastCardsOfferNoActions` | src/pages/Bookings.tsx:280 | no past card offers an action, whatever the status |
| `Bookings.PastTrailChronological` | src/pages/Bookings.tsx:68-79 | the past booking's two timestamps are in order |
| `Bookings.MockListFacts` | src/pages/Bookings.tsx:15-81 | upcoming bookings are pending or confirmed, the past one is completed, and every trail starts with `created` and is in time order |

## Left out

- Rendering: JSX, styling, icons, the calendar, popover and select components, and the date text shown by `format` and `toLocaleString`.
- Toasts, navigation and `console.log`: side effects with no bearing on the records.
- The 500 ms `setTimeout` in the edit screen: the lookup result is applied at once, so the intermediate state where loading is true again is not observed.
- `Math.random`, the clock, `toISOString`, `getFullYear` and `new Date(string)`: these become parameters. A year is a natural number, so negative years are not modelled.
- The browser's constraint validation: the form's inputs carry `required`, `min` and `max` (src/components/BookingForm.tsx:183, 262-263, 280-281) inside a native form, and a browser refuses to fire the submit event while one of them is violated. The model starts at `handleSubmit`, so what a user can actually submit past those attributes is not modelled.
- Persistence: create and edit only log the record, and the lists and the edit screen's lookup always use their fixed mock data, so no record is stored or read back.
- `parseInt` itself: it is a parameter function; only the `> 0` guard around it is modelled.
- `toUpperCase` beyond ASCII: other characters are left unchanged, so a character whose upper case is longer (such as `ß`) is not modelled.
- `EditBooking.EditBookingPage.HandleSubmit`: requires a stored booking; in the code it is reachable only from the form, which is shown only then.
- Other keys carried by a form record: when the edit form starts from a stored booking, that record also carries the audit trail, which the merge overrides; the model's form record has only the form's own fields.
- The login check, the navbar's logged-in flag and the marketing pages: not booking logic.
