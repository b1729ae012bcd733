/** The hand-off between the two endpoints: the checkout endpoint writes the
    booking into the payment session's metadata, and the webhook reads it
    back when the payment completes. */
module Handoff {
  import opened Strings
  import opened Checkout
  import opened Webhook

  /** The completed, paid session the provider reports for a session the
      checkout endpoint asked for. */
  function PaidSession(id: string, params: SessionParams, detailsEmail: string): Session {
    Session(id, "paid", Some(params.metadata), detailsEmail)
  }

  /** The webhook's reading of a paid session whose metadata holds the three
      required keys, in terms of the metadata alone. */
  lemma PaidSessionWithRequiredKeys(md: map<string, string>, id: string, detailsEmail: string, cfg: Config)
    requires "staffKey" in md && md["staffKey"] != ""
    requires "startISO" in md && md["startISO"] != ""
    requires "endISO" in md && md["endISO"] != ""
    requires "customerEmail" in md && md["customerEmail"] != ""
    requires "staffName" in md && md["staffName"] != ""
    requires "customerName" in md
    ensures var p := Triage(Event(CompletedType, Session(id, "paid", Some(md), detailsEmail)), cfg);
      (p.Book? <==> Truthy(CalendarIdForStaff(md["staffKey"], cfg))) &&
      (p.Answer? ==> p.reply == Ignored("invalid_staff")) &&
      (p.Book? ==>
        p.draft.start == md["startISO"] && p.draft.end == md["endISO"] &&
        p.draft.summary == "Booking — " + Or(md["customerName"], md["customerEmail"]) &&
        p.draft.description == Description(md["staffName"], md["customerName"], md["customerEmail"], id))
  {
  }

  /** A request the checkout endpoint accepts never reaches the webhook's
      "missing_metadata" branch once paid: it is booked exactly when its raw
      staff key resolves to a configured calendar, and acknowledged as
      "invalid_staff" otherwise. A booking is made at the requested start and
      end, under the trimmed customer name (or else email) and with the
      display name on the staff line. */
  lemma AcceptedCheckoutIsBookable(body: Body, siteUrl: Option<string>, h: Headers,
                                   id: string, detailsEmail: string, cfg: Config)
    requires Accepted(body)
    ensures var b := BookingOf(body.request);
      var name := Trim(SafeStr(body.request.customerName));
      var email := Trim(SafeStr(body.request.customerEmail));
      var p := Triage(Event(CompletedType, PaidSession(id, Decide(body, siteUrl, h).params, detailsEmail)), cfg);
      (p.Book? <==> Truthy(CalendarIdForStaff(b.staffKey.value, cfg))) &&
      (p.Answer? ==> p.reply == Ignored("invalid_staff")) &&
      (p.Book? ==>
        p.draft.start == b.startISO.value && p.draft.end == b.endISO.value &&
        p.draft.summary == "Booking — " + Or(name, email) &&
        p.draft.description == Description(StaffDisplay(b), name, email, id))
  {
    MetadataRecordsBooking(body, siteUrl, h);
    PaidSessionWithRequiredKeys(Decide(body, siteUrl, h).params.metadata, id, detailsEmail, cfg);
  }

  /** A key that lowercases to "duo" is neither "ana" nor "glenda". */
  lemma DuoKeyHasNoCalendar(key: string, cfg: Config)
    requires ToLower(key) == "duo"
    ensures CalendarIdForStaff(key, cfg) == None
  {
  }

  /** The checkout endpoint accepts a booking for the shared "duo" key (in
      any letter case) and shows it as "DUO Service", but the webhook has no
      calendar for it: such a payment is acknowledged as "invalid_staff" and
      never booked. */
  lemma DuoPaymentIsNeverBooked(body: Body, siteUrl: Option<string>, h: Headers,
                                id: string, detailsEmail: string, cfg: Config)
    requires Accepted(body)
    requires ToLower(BookingOf(body.request).staffKey.value) == "duo"
    ensures Triage(Event(CompletedType, PaidSession(id, Decide(body, siteUrl, h).params, detailsEmail)), cfg)
      == Plan.Answer(Ignored("invalid_staff"))
  {
    DuoKeyHasNoCalendar(BookingOf(body.request).staffKey.value, cfg);
    AcceptedCheckoutIsBookable(body, siteUrl, h, id, detailsEmail, cfg);
  }

  /** The display lookup lowercases the staff key but the webhook compares it
      exactly: a key such as "Ana" (with no staff name) shows as "Ana Paula"
      at checkout, yet the webhook finds no calendar for it. */
  lemma MixedCaseAnaIsDisplayedButUnknown(b: Booking, cfg: Config)
    requires b.staffKey.Some? && ToLower(b.staffKey.value) == "ana" && b.staffKey.value != "ana"
    requires Trim(SafeStr(b.staffName)) == ""
    ensures StaffDisplay(b) == "Ana Paula"
    ensures CalendarIdForStaff(b.staffKey.value, cfg) == None
  {
  }

  /** So a paid checkout for the key "Ana" is acknowledged as
      "invalid_staff" and never booked, although checkout, given no staff
      name, labels its deposit "Ana Paula". */
  lemma CapitalisedAnaIsNeverBooked(body: Body, siteUrl: Option<string>, h: Headers,
                                    id: string, detailsEmail: string, cfg: Config)
    requires Accepted(body)
    requires BookingOf(body.request).staffKey == Some("Ana")
    ensures Trim(SafeStr(BookingOf(body.request).staffName)) == "" ==> StaffDisplay(BookingOf(body.request)) == "Ana Paula"
    ensures Triage(Event(CompletedType, PaidSession(id, Decide(body, siteUrl, h).params, detailsEmail)), cfg)
      == Plan.Answer(Ignored("invalid_staff"))
  {
    var b := BookingOf(body.request);
    if Trim(SafeStr(b.staffName)) == "" {
      LowerOfCapitalisedAna();
      MixedCaseAnaIsDisplayedButUnknown(b, cfg);
    }
    assert CalendarIdForStaff("Ana", cfg) == None;
    AcceptedCheckoutIsBookable(body, siteUrl, h, id, detailsEmail, cfg);
  }

  /** "Ana" is such a key. */
  lemma LowerOfCapitalisedAna()
    ensures ToLower("Ana") == "ana"
  {
    var lower := ToLower("Ana");
    assert lower[0] == 'a' && lower[1] == 'n' && lower[2] == 'a';
  }
}
