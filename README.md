# Copacabana Beauty booking: checkout and payment webhook

A salon books appointments by taking a deposit through a payment provider
and then writing the appointment into the staff member's calendar. Two
handlers hold the logic:

- **api/create-checkout.js** validates a booking request and derives the
  display strings. It then asks the payment provider for one checkout session
  with a fixed deposit. The booking rides along in the session's metadata.
- **api/stripe-webhook.js** receives the provider's signed events. For a
  paid, completed checkout session it reads the booking back from the
  metadata and resolves the staff calendar. It lists the calendar events in
  the booking's time window and inserts an appointment, unless a listed
  event's description already carries the session's marker
  `Stripe session: <id>`.

The model has five modules:

- `Strings` (strings.dfy) holds the JavaScript string behaviour both handlers
  rely on: truthiness of optional values, `||`, `trim`, `toLowerCase`,
  `filter(Boolean).join` and `includes`.
- `Checkout` (checkout.dfy) models create-checkout.js as functions. These are
  the validation gates, the display strings, the base URL and the session
  parameters, with the provider's answer as an input.
- `Calendar` (calendar.dfy) is the calendar as a class. It holds one sequence
  of events, which `List` filters by calendar and window and `Insert`
  appends to.
- `Webhook` (webhook.dfy) holds the webhook's chain of checks as the function
  `Triage`. It also has one delivery against the store as the function `Step`,
  and the handler itself as the method `HandleWebhook`, which is proved to do
  what `Step` says. Lemmas cover sequential redelivery.
- `Handoff` (handoff.dfy) relates what checkout writes to what the webhook
  reads.

Inputs the code takes from outside become parameters:

- the environment (`SITE_URL`, the two calendar ids);
- the request headers;
- the outcome of signature verification (`Delivery`);
- the payment provider's answer (`ProviderResult`);
- whether a calendar call throws (`Fault`);
- the calendar's test of whether an event lies in a listed window
  (`WindowTest`).

The dedup key is only the session id written into the description. The code
derives no calendar event id and handles no "already exists" conflict.

## Model

| member | source | states |
|---|---|---|
| `Checkout.SafeStr` | api/create-checkout.js:4 | An absent value becomes "" and a string stays itself. The result is non-empty exactly when the value is truthy. |
| `Checkout.StaffDisplay` | api/create-checkout.js:6-15 | The result is never empty. A key that lowercases to "duo" gives "DUO Service" even when a name is supplied. Otherwise a non-blank trimmed name wins, then "ana" gives "Ana Paula" and "glenda" gives "Glenda Garcia", then the lowercased key, then "Staff". |
| `Checkout.StaffDisplayIgnoresCase` | api/create-checkout.js:7 | Two staff keys with the same lowercase form give the same display name. |
| `Checkout.WhenDisplay` | api/create-checkout.js:17-23 | The trimmed date and label are joined with " · " when both are non-blank. If only one is non-blank, the result is that one. The result is "" exactly when both are blank. |
| `Checkout.BaseUrl` | api/create-checkout.js:48-52 | The base URL is `SITE_URL` when set, else the Origin header, else "https://" plus the Host header. A missing Host header gives "https://undefined". |
| `Checkout.Decide` | api/create-checkout.js:29-90 | A body that does not parse gives a 500 with the parser's message. A session is requested exactly when the booking has staffKey, startISO and endISO and the trimmed email is not blank. Missing booking data gives 400 "Missing booking data." and is checked before the email, which gives 400 "Email is required.". A requested session has mode "payment", the trimmed email, one line item of 2000 "gbp" with quantity 1, named after the staff display and described by the appointment time when there is one, the two redirect URLs on the base URL, and the metadata record. |
| `Checkout.Handle` | api/create-checkout.js:54-99 | A rejected request gets its answer whatever the provider would say, because no session is requested. Otherwise the answer is the provider's URL (200) or its error message (500). A 400 only ever comes from validation. |
| `Checkout.MetadataRecordsBooking` | api/create-checkout.js:75-85 | For an accepted request the metadata holds staffKey, startISO and endISO exactly as sent and non-empty. staffName holds the display name. customerName and customerEmail hold the trimmed values, the email non-empty. |
| `Strings.Trim` | api/create-checkout.js:34-35 | The result has no JavaScript white space at either end. |
| `Strings.TrimIsSlice` | api/create-checkout.js:34-35 | The trimmed string is one slice of the input, and only white space is cut off around it. |
| `Strings.TrimEmptyIffAllSpace` | api/create-checkout.js:41 | A string trims to "" exactly when every character is white space, which is what the blank-email gate tests. |
| `Strings.ToLower` | api/create-checkout.js:7 | The result has the same length as the input and lowercases each ASCII letter in place. |
| `Strings.JoinNonEmptyPair` | api/create-checkout.js:21 | `[a, b].filter(Boolean).join(sep)` is `a + sep + b` when both are non-empty, otherwise the non-empty one or "". |
| `Strings.NonEmpty` | api/stripe-webhook.js:109 | `filter(Boolean)` keeps exactly the non-empty strings of the input. It keeps them all when none is empty. |
| `Strings.IncludesIffOccurs` | api/stripe-webhook.js:96 | The `includes` scan succeeds exactly when the text occurs at some position. |
| `Strings.IncludesSuffix` | api/stripe-webhook.js:104-109 | A string that ends in the marker includes it. |
| `Calendar.Window` | api/stripe-webhook.js:87-93 | The listing holds exactly the events of the given calendar that the provider counts as inside the window. |
| `Calendar.CalendarStore.List` | api/stripe-webhook.js:87-93 | The list call returns that window of the store's events and changes nothing. |
| `Calendar.CalendarStore.Insert` | api/stripe-webhook.js:111-119 | The store gains exactly the inserted event at its end. |
| `Webhook.CalendarIdForStaff` | api/stripe-webhook.js:28-32 | A calendar is returned only for the exact, case-sensitive keys "ana" and "glenda", and it is whatever the environment holds for them. Every other key, "duo" included, gives none. |
| `Webhook.Description` | api/stripe-webhook.js:104-109 | The description is the Staff, Client, Email and Stripe session lines joined by newlines, with none dropped. It includes the session marker. |
| `Webhook.Triage` | api/stripe-webhook.js:53-109 | Another event type gives a bare acknowledgement. Unpaid gives "not_paid", before any metadata check. A missing or empty staffKey, startISO or endISO gives "missing_metadata". An unresolved staff calendar gives "invalid_staff". Otherwise the booking goes on the resolved calendar. It uses startISO and endISO, and the summary falls back from customer name to email to "Client". The staff line falls back from staffName to staffKey and the email from metadata to customer details. |
| `Webhook.Step` | api/stripe-webhook.js:39-128 | A bad signature gives 400 and nothing else changes. The store changes only on "created", by exactly the planned event. "duplicate" is answered exactly when the listing of the booking's window holds a description with the marker. A bookable delivery with a healthy calendar and no marker in the window answers "created" and appends the planned event. 500 is answered exactly when a bookable delivery meets a failing client or list call, or a failing insert with no marker found. |
| `Webhook.HandleWebhook` | api/stripe-webhook.js:53-124 | The handler's answer and the new calendar store are those `Step` gives for the old store. |
| `Webhook.RedeliveryFindsBooking` | api/stripe-webhook.js:95-101 | Once the planned event is in the store, a redelivery answers "duplicate" and inserts nothing, or 500 if the list call fails. This assumes only that an event is listed for its own window. |
| `Webhook.ReplayAfterBooking` | api/stripe-webhook.js:95-101 | After the booking exists, any number of further deliveries leave the store unchanged. |
| `Webhook.RedeliveryEventuallyBooks` | api/stripe-webhook.js:87-121 | Take a store with no marked event in the booking's window. If the same bookable event is delivered in sequence and at least one attempt meets a healthy calendar, the store ends with exactly the planned event added. |
| `Webhook.RedeliveryInsertsAtMostOnce` | api/stripe-webhook.js:87-121 | However many times one event is delivered in sequence, and whichever attempts fail, the store gains at most one event, the planned one. |
| `Handoff.PaidSessionWithRequiredKeys` | api/stripe-webhook.js:62-81 | This covers metadata shaped as checkout writes it: non-empty staffKey, startISO, endISO, staffName and customerEmail, and a customerName key. Such a paid session is booked exactly when the key resolves, and is otherwise acknowledged as "invalid_staff". A booking uses the metadata times, the name-or-email summary and the metadata values in the description. |
| `Handoff.AcceptedCheckoutIsBookable` | api/stripe-webhook.js:72-121 | Once paid, a session from an accepted checkout never gives "missing_metadata". It is booked exactly when its raw staff key resolves. The booking uses the requested times, the trimmed name or else email in the summary, and the display name on the staff line. |
| `Handoff.DuoKeyHasNoCalendar` | api/stripe-webhook.js:28-32 | No key that lowercases to "duo" resolves to a calendar. |
| `Handoff.DuoPaymentIsNeverBooked` | api/create-checkout.js:8 | A paid DUO booking, accepted and labelled "DUO Service" at checkout, is acknowledged as "invalid_staff" and never booked. |
| `Handoff.MixedCaseAnaIsDisplayedButUnknown` | api/create-checkout.js:7-12 | Take a key that lowercases to "ana" but is not "ana" itself, such as "Ana". When the trimmed staff name is blank, it displays as "Ana Paula", but the webhook's exact comparison finds no calendar for it. |
| `Handoff.CapitalisedAnaIsNeverBooked` | api/create-checkout.js:76 | The metadata keeps the raw key "Ana", so its paid session is acknowledged as "invalid_staff" and never booked. With a blank staff name, checkout still labels the deposit "Ana Paula". |

## Left out

- Reading the raw body and verifying the signature (api/stripe-webhook.js:7-14, 40-47) are I/O and a foreign library. The model takes their outcome as the input `Delivery`.
- Building the calendar client from the service-account JSON (api/stripe-webhook.js:16-26) is left out. A failure there is the `ClientFails` fault, which gives 500.
- The calendar's own window test on ISO timestamps is a parameter (`WindowTest`). The redelivery lemmas assume only that an event is listed for its own start and end.
- The listing is taken as complete. Paging of `events.list` and its `orderBy`/`singleEvents` options are not modelled, and order does not matter to the `some` test.
- `Webhook.RedeliveryInsertsAtMostOnce`: covers sequential redelivery only. Two concurrent deliveries can both list before either inserts, and the model does not claim otherwise.
- An insert that throws is assumed to store nothing.
- `Strings.ToLower`: lowercases ASCII letters only, not the full Unicode case mapping of `toLowerCase`. The keys compared ("duo", "ana", "glenda") are ASCII. Only the fallback display of a non-ASCII key would differ.
- Request and metadata fields are optional strings. Non-string JSON values and the quirks of `String(v)` on them are not modelled. For example, a numeric `durationMin` is taken as already in its string form.
- A body that parses to something other than an object (such as `null`) is not modelled. Only a body that fails to parse is (`Malformed`, which gives 500).
- A provider error's details are its message. The `type` field of the 500 body and the error text on the webhook's 400 and 500 are not modelled.
- Logging, the 405 method checks, and the HTTP framework are not modelled.
- api/availability.js, api/get-session.js and api/debug-session.js are not part of this model. They are passthroughs to the providers.
- Empty metadata values: the provider may drop them. The webhook reads a missing key and an empty value alike (`Webhook.Field`), so this does not matter.
