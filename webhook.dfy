/** The payment webhook (api/stripe-webhook.js) after signature
    verification: a fixed chain of checks on the completed checkout session,
    then a duplicate search in the booking's time window and at most one
    calendar insert. The session id written into the event description is the
    only idempotency key: there is no derived event id. */
module Webhook {
  import opened Strings
  import opened Calendar

  const CompletedType := "checkout.session.completed"
  const MarkerPrefix := "Stripe session: "

  /** The two calendar ids from the environment; either may be unset. */
  datatype Config = Config(calendarIdAna: Option<string>, calendarIdGlenda: Option<string>)

  /** The checkout session carried by the event. `customerDetailsEmail` is
      "" when the provider sent no customer details or no email. */
  datatype Session = Session(
    id: string,
    paymentStatus: string,
    metadata: Option<map<string, string>>,
    customerDetailsEmail: string)

  datatype Event = Event(eventType: string, session: Session)

  /** The result of signature verification, an opaque step here. */
  datatype Delivery = Verified(event: Event) | SignatureInvalid(message: string)

  /** The handler's HTTP answers: 400 for a bad signature, 500 for any
      failure after verification, 200 with one outcome flag otherwise. */
  datatype Reply =
    | BadSignature(message: string)
    | Received
    | Ignored(reason: string)
    | Skipped(reason: string)
    | Created
    | Failed

  /** Where a calendar call throws, if anywhere: building the client, the
      list, or the insert (which then stores nothing). */
  datatype Fault = Healthy | ClientFails | ListFails | InsertFails

  /** The outcome of the checks that come before any calendar call: answer
      at once, or book `draft` on `calendarId` unless `marker` is found. */
  datatype Plan = Answer(reply: Reply) | Book(calendarId: string, marker: string, draft: CalendarEvent)

  function Status(r: Reply): (code: int)
    ensures code == 400 <==> r.BadSignature?
    ensures code == 500 <==> r.Failed?
    ensures code == 200 <==> !r.BadSignature? && !r.Failed?
  {
    match r
    case BadSignature(_) => 400
    case Failed => 500
    case _ => 200
  }

  /** `calendarIdForStaff`: only the exact keys "ana" and "glenda" map to a
      calendar, and then to whatever the environment holds. */
  function CalendarIdForStaff(staffKey: string, cfg: Config): (r: Option<string>)
    ensures r.Some? ==> staffKey == "ana" || staffKey == "glenda"
    ensures staffKey == "ana" ==> r == cfg.calendarIdAna
    ensures staffKey == "glenda" ==> r == cfg.calendarIdGlenda
  {
    if staffKey == "ana" then cfg.calendarIdAna
    else if staffKey == "glenda" then cfg.calendarIdGlenda
    else None
  }

  /** `session.metadata || {}`. */
  function MetadataOf(s: Session): map<string, string> {
    match s.metadata
    case Some(md) => md
    case None => map[]
  }

  /** `md.key` as the handler uses it: only through `||` and `!`, which do
      not tell a missing key from an empty value, so both read as "". */
  function Field(md: map<string, string>, key: string): string {
    if key in md then md[key] else ""
  }

  /** The metadata check: staffKey, startISO and endISO all non-empty. */
  predicate HasRequired(md: map<string, string>) {
    Field(md, "staffKey") != "" && Field(md, "startISO") != "" && Field(md, "endISO") != ""
  }

  function StaffName(md: map<string, string>): string {
    Or(Field(md, "staffName"), Field(md, "staffKey"))
  }

  function CustomerEmail(s: Session, md: map<string, string>): string {
    Or(Field(md, "customerEmail"), Or(s.customerDetailsEmail, ""))
  }

  /** The text whose presence in a description marks a session as booked. */
  function Marker(sessionId: string): string {
    MarkerPrefix + sessionId
  }

  function Summary(customerName: string, customerEmail: string): string {
    "Booking — " + Or(customerName, Or(customerEmail, "Client"))
  }

  /** The four description lines joined by newlines. No line is dropped by
      the filter, since each has a non-empty prefix, so the description ends
      with the session marker and so contains it. */
  function Description(staffName: string, customerName: string, customerEmail: string, sessionId: string): (r: string)
    ensures r == "Staff: " + staffName + "\n" + "Client: " + customerName + "\n" +
                 "Email: " + customerEmail + "\n" + Marker(sessionId)
    ensures Includes(r, Marker(sessionId))
  {
    var lines := ["Staff: " + staffName, "Client: " + customerName, "Email: " + customerEmail, Marker(sessionId)];
    assert forall i :: 0 <= i < |lines| ==> lines[i] != "" by {
      assert |lines[0]| > 0 && |lines[1]| > 0 && |lines[2]| > 0 && |lines[3]| > 0;
    }
    JoinFour(lines[0], lines[1], lines[2], lines[3], "\n");
    IncludesSuffix(lines[0] + "\n" + lines[1] + "\n" + lines[2] + "\n", lines[3]);
    Join(NonEmpty(lines), "\n")
  }

  /** The chain of checks up to staff resolution, in the source's order:
      event type, payment status, required metadata, staff calendar. */
  function Triage(event: Event, cfg: Config): (p: Plan)
    ensures event.eventType != CompletedType ==> p == Answer(Received)
    ensures event.eventType == CompletedType && event.session.paymentStatus != "paid" ==>
      p == Answer(Ignored("not_paid"))
    ensures (event.eventType == CompletedType && event.session.paymentStatus == "paid" &&
             !HasRequired(MetadataOf(event.session))) ==>
      p == Answer(Ignored("missing_metadata"))
    ensures (event.eventType == CompletedType && event.session.paymentStatus == "paid" &&
             HasRequired(MetadataOf(event.session)) &&
             !Truthy(CalendarIdForStaff(Field(MetadataOf(event.session), "staffKey"), cfg))) ==>
      p == Answer(Ignored("invalid_staff"))
    ensures p.Book? <==>
      event.eventType == CompletedType && event.session.paymentStatus == "paid" &&
      HasRequired(MetadataOf(event.session)) &&
      Truthy(CalendarIdForStaff(Field(MetadataOf(event.session), "staffKey"), cfg))
    ensures p.Book? ==>
      var s := event.session;
      var md := MetadataOf(s);
      p.calendarId == CalendarIdForStaff(Field(md, "staffKey"), cfg).value && p.calendarId != "" &&
      p.marker == Marker(s.id) &&
      p.draft.calendarId == p.calendarId &&
      p.draft.start == Field(md, "startISO") && p.draft.end == Field(md, "endISO") &&
      p.draft.summary == "Booking — " + Or(Field(md, "customerName"), Or(CustomerEmail(s, md), "Client")) &&
      p.draft.description ==
        Description(Or(Field(md, "staffName"), Field(md, "staffKey")), Field(md, "customerName"), CustomerEmail(s, md), s.id) &&
      Includes(p.draft.description, p.marker)
  {
    if event.eventType != CompletedType then Answer(Received)
    else
      var s := event.session;
      if s.paymentStatus != "paid" then Answer(Ignored("not_paid"))
      else
        var md := MetadataOf(s);
        if !HasRequired(md) then Answer(Ignored("missing_metadata"))
        else
          var calendarId := CalendarIdForStaff(Field(md, "staffKey"), cfg);
          if !Truthy(calendarId) then Answer(Ignored("invalid_staff"))
          else
            var customerName := Field(md, "customerName");
            var customerEmail := CustomerEmail(s, md);
            var draft := CalendarEvent(
              calendarId.value,
              Summary(customerName, customerEmail),
              Description(StaffName(md), customerName, customerEmail, s.id),
              Field(md, "startISO"),
              Field(md, "endISO"));
            Book(calendarId.value, Marker(s.id), draft)
  }

  /** The duplicate test: some listed event's description includes the
      marker. */
  predicate AlreadyBooked(items: seq<CalendarEvent>, marker: string) {
    exists e :: e in items && Includes(e.description, marker)
  }

  predicate ListFaults(fault: Fault) {
    fault == ClientFails || fault == ListFails
  }

  /** One delivery against the calendar store: the answer and the store
      afterwards. The store changes only on `Created`, by one appended event,
      the planned one; every other answer leaves it as it was. */
  function Step(events: seq<CalendarEvent>, d: Delivery, cfg: Config, inWindow: WindowTest, fault: Fault)
    : (r: (Reply, seq<CalendarEvent>))
    ensures r.0 != Created ==> r.1 == events
    ensures r.0 == Created ==>
      d.Verified? && Triage(d.event, cfg).Book? && r.1 == events + [Triage(d.event, cfg).draft]
    ensures Status(r.0) == 400 <==> d.SignatureInvalid?
    ensures d.SignatureInvalid? ==> r.0 == BadSignature(d.message)
    ensures d.Verified? && Triage(d.event, cfg).Answer? ==> r.0 == Triage(d.event, cfg).reply
    ensures r.0 == Skipped("duplicate") <==>
      d.Verified? && Triage(d.event, cfg).Book? && !ListFaults(fault) &&
      var p := Triage(d.event, cfg);
      AlreadyBooked(Window(events, p.calendarId, p.draft.start, p.draft.end, inWindow), p.marker)
    ensures r.0 == Failed <==>
      d.Verified? && Triage(d.event, cfg).Book? &&
      var p := Triage(d.event, cfg);
      (ListFaults(fault) ||
       (fault == InsertFails && !AlreadyBooked(Window(events, p.calendarId, p.draft.start, p.draft.end, inWindow), p.marker)))
    ensures (d.Verified? && Triage(d.event, cfg).Book? && fault == Healthy &&
             var p := Triage(d.event, cfg);
             !AlreadyBooked(Window(events, p.calendarId, p.draft.start, p.draft.end, inWindow), p.marker)) ==>
      r == (Created, events + [Triage(d.event, cfg).draft])
  {
    match d
    case SignatureInvalid(message) => (BadSignature(message), events)
    case Verified(event) =>
      match Triage(event, cfg)
      case Answer(reply) => (reply, events)
      case Book(calendarId, marker, draft) =>
        if ListFaults(fault) then (Failed, events)
        else if AlreadyBooked(Window(events, calendarId, draft.start, draft.end, inWindow), marker) then
          (Skipped("duplicate"), events)
        else if fault == InsertFails then (Failed, events)
        else (Created, events + [draft])
  }

  /** The handler after signature verification, acting on the calendar
      store: the checks, then one list call and at most one insert. */
  method HandleWebhook(store: CalendarStore, d: Delivery, cfg: Config, inWindow: WindowTest, fault: Fault)
    returns (reply: Reply)
    modifies store
    ensures (reply, store.events) == Step(old(store.events), d, cfg, inWindow, fault)
  {
    if d.SignatureInvalid? {
      return BadSignature(d.message);
    }
    var plan := Triage(d.event, cfg);
    if plan.Answer? {
      return plan.reply;
    }
    if ListFaults(fault) {
      return Failed;
    }
    var existing := store.List(plan.calendarId, plan.draft.start, plan.draft.end, inWindow);
    if AlreadyBooked(existing, plan.marker) {
      return Skipped("duplicate");
    }
    if fault == InsertFails {
      return Failed;
    }
    store.Insert(plan.draft);
    return Created;
  }

  /** Once the planned event is in the store, a redelivery of the same event
      finds it (provided the listing includes an event's own window) and
      answers "duplicate" without inserting; only a failing list call
      answers 500 instead, also without inserting. */
  lemma RedeliveryFindsBooking(events: seq<CalendarEvent>, d: Delivery, cfg: Config, inWindow: WindowTest, fault: Fault)
    requires d.Verified? && Triage(d.event, cfg).Book?
    requires Triage(d.event, cfg).draft in events
    requires ListsOwnWindow(inWindow, Triage(d.event, cfg).draft)
    ensures Step(events, d, cfg, inWindow, fault) ==
      (if ListFaults(fault) then Failed else Skipped("duplicate"), events)
  {
  }

  /** The store after a sequence of deliveries of the same event, one per
      fault in `faults`. */
  function Replay(events: seq<CalendarEvent>, d: Delivery, cfg: Config, inWindow: WindowTest, faults: seq<Fault>)
    : seq<CalendarEvent>
    decreases |faults|
  {
    if faults == [] then events
    else Replay(Step(events, d, cfg, inWindow, faults[0]).1, d, cfg, inWindow, faults[1..])
  }

  lemma {:induction false} ReplayAfterBooking(events: seq<CalendarEvent>, d: Delivery, cfg: Config,
                                              inWindow: WindowTest, faults: seq<Fault>)
    requires d.Verified? && Triage(d.event, cfg).Book?
    requires Triage(d.event, cfg).draft in events
    requires ListsOwnWindow(inWindow, Triage(d.event, cfg).draft)
    ensures Replay(events, d, cfg, inWindow, faults) == events
    decreases |faults|
  {
    if faults != [] {
      RedeliveryFindsBooking(events, d, cfg, inWindow, faults[0]);
      ReplayAfterBooking(events, d, cfg, inWindow, faults[1..]);
    }
  }

  /** Sequential redelivery: however many times the same event is delivered,
      and whichever attempts fail, the store gains at most one event, the
      planned one. (Concurrent deliveries are not covered: two of them can
      both list before either inserts.) */
  lemma {:induction false} RedeliveryInsertsAtMostOnce(events: seq<CalendarEvent>, d: Delivery, cfg: Config,
                                                       inWindow: WindowTest, faults: seq<Fault>)
    requires d.Verified? && Triage(d.event, cfg).Book? ==> ListsOwnWindow(inWindow, Triage(d.event, cfg).draft)
    ensures var r := Replay(events, d, cfg, inWindow, faults);
      r == events ||
      (d.Verified? && Triage(d.event, cfg).Book? && r == events + [Triage(d.event, cfg).draft])
    decreases |faults|
  {
    if faults != [] {
      var step := Step(events, d, cfg, inWindow, faults[0]);
      if step.0 == Created {
        ReplayAfterBooking(step.1, d, cfg, inWindow, faults[1..]);
      } else {
        RedeliveryInsertsAtMostOnce(events, d, cfg, inWindow, faults[1..]);
      }
    }
  }

  /** The other half: a store that holds no event with the marker in the
      booking's window, redelivered the same event until one attempt meets a
      healthy calendar, ends with exactly the planned event added. Attempts
      before that one fail with 500 and change nothing. */
  lemma {:induction false} RedeliveryEventuallyBooks(events: seq<CalendarEvent>, d: Delivery, cfg: Config,
                                                     inWindow: WindowTest, faults: seq<Fault>)
    requires d.Verified? && Triage(d.event, cfg).Book?
    requires var p := Triage(d.event, cfg);
      !AlreadyBooked(Window(events, p.calendarId, p.draft.start, p.draft.end, inWindow), p.marker)
    requires ListsOwnWindow(inWindow, Triage(d.event, cfg).draft)
    requires Healthy in faults
    ensures Replay(events, d, cfg, inWindow, faults) == events + [Triage(d.event, cfg).draft]
    decreases |faults|
  {
    var step := Step(events, d, cfg, inWindow, faults[0]);
    if faults[0] == Healthy {
      assert step == (Created, events + [Triage(d.event, cfg).draft]);
      ReplayAfterBooking(step.1, d, cfg, inWindow, faults[1..]);
    } else {
      assert step.0 == Failed && step.1 == events;
      assert Healthy in faults[1..];
      RedeliveryEventuallyBooks(events, d, cfg, inWindow, faults[1..]);
    }
  }
}
