/** The checkout endpoint (api/create-checkout.js): it validates a booking
    request, derives the display strings, and builds the one payment session
    it asks the payment provider to create. The booking travels to the
    webhook only inside that session's metadata. */
module Checkout {
  import opened Strings

  /** The `booking` object of the request body. Every field is an optional
      string; `durationMin` is stored as its string form. */
  datatype Booking = Booking(
    staffKey: Option<string>,
    staffName: Option<string>,
    date: Option<string>,
    startISO: Option<string>,
    endISO: Option<string>,
    timeLabel: Option<string>,  // the request field `label` ("HH:MM")
    durationMin: Option<string>)

  datatype Request = Request(
    booking: Option<Booking>,
    customerName: Option<string>,
    customerEmail: Option<string>)

  /** The request body: a JSON text that did not parse (with the parser's
      message), or the parsed request. */
  datatype Body = Malformed(parseError: string) | Parsed(request: Request)

  /** The two request headers the handler reads. */
  datatype Headers = Headers(origin: Option<string>, host: Option<string>)

  datatype LineItem = LineItem(
    currency: string,
    productName: string,
    productDescription: Option<string>,
    unitAmount: int,
    quantity: int)

  /** What the handler hands to the payment provider's session creation. */
  datatype SessionParams = SessionParams(
    mode: string,
    automaticPaymentMethods: bool,
    customerEmail: string,
    lineItems: seq<LineItem>,
    metadata: map<string, string>,
    successUrl: string,
    cancelUrl: string)

  /** The HTTP answer: 200 with the hosted payment page's URL as JSON, 400 with a
      validation message, or 500 with the underlying error's message. */
  datatype Reply = SessionUrl(url: string) | BadRequest(error: string) | ServerError(details: string)

  /** What the payment provider answers to a session creation. */
  datatype ProviderResult = SessionCreated(url: string) | ProviderError(message: string)

  /** The handler's decision before any provider call: answer at once, or
      create exactly one session with these parameters. */
  datatype Decision = Answer(reply: Reply) | CreateSession(params: SessionParams)

  const DepositCents := 2000
  const DepositCurrency := "gbp"
  const MissingBookingData := "Missing booking data."
  const EmailRequired := "Email is required."

  function Status(r: Reply): (code: int)
    ensures code == 200 <==> r.SessionUrl?
    ensures code == 400 <==> r.BadRequest?
  {
    match r
    case SessionUrl(_) => 200
    case BadRequest(_) => 400
    case ServerError(_) => 500
  }

  /** `safeStr`: nothing becomes "", a string stays itself. The result is
      non-empty exactly when the value is truthy. */
  function SafeStr(v: Option<string>): (r: string)
    ensures v.None? ==> r == ""
    ensures v.Some? ==> r == v.value
    ensures r != "" <==> Truthy(v)
  {
    match v
    case None => ""
    case Some(s) => s
  }

  /** `body.booking || {}`: a missing booking reads as one with no fields. */
  function BookingOf(req: Request): Booking {
    match req.booking
    case Some(b) => b
    case None => Booking(None, None, None, None, None, None, None)
  }

  function StaffKeyLower(b: Booking): string {
    ToLower(SafeStr(b.staffKey))
  }

  /** `getStaffDisplay`: the name shown on the deposit line. The lowercased
      key "duo" wins over everything; then a non-blank supplied name; then
      the two known staff; then the lowercased key itself; then "Staff". */
  function StaffDisplay(b: Booking): (r: string)
    ensures r != ""
    ensures StaffKeyLower(b) == "duo" ==> r == "DUO Service"
    ensures StaffKeyLower(b) != "duo" && Trim(SafeStr(b.staffName)) != "" ==> r == Trim(SafeStr(b.staffName))
    ensures StaffKeyLower(b) != "duo" && Trim(SafeStr(b.staffName)) == "" ==>
      r == (if StaffKeyLower(b) == "ana" then "Ana Paula"
            else if StaffKeyLower(b) == "glenda" then "Glenda Garcia"
            else Or(StaffKeyLower(b), "Staff"))
  {
    var key := StaffKeyLower(b);
    if key == "duo" then "DUO Service"
    else
      var name := Trim(SafeStr(b.staffName));
      if name != "" then name
      else if key == "ana" then "Ana Paula"
      else if key == "glenda" then "Glenda Garcia"
      else Or(key, "Staff")
  }

  /** The display name depends on the staff key only through its lowercase
      form, so keys that differ only in letter case display alike. */
  lemma StaffDisplayIgnoresCase(b: Booking, key: string)
    requires b.staffKey.Some? && ToLower(key) == ToLower(b.staffKey.value)
    ensures StaffDisplay(b.(staffKey := Some(key))) == StaffDisplay(b)
  {
  }

  /** `getWhenDisplay`: the trimmed date and label, the blank ones dropped,
      joined with " · ". */
  function WhenDisplay(b: Booking): (r: string)
    ensures var date, time := Trim(SafeStr(b.date)), Trim(SafeStr(b.timeLabel));
      (r == "" <==> date == "" && time == "") &&
      (date != "" && time != "" ==> r == date + " · " + time) &&
      (date == "" ==> r == time) &&
      (time == "" ==> r == date)
  {
    Or(JoinNonEmptyPair(Trim(SafeStr(b.date)), Trim(SafeStr(b.timeLabel)), " · "), "")
  }

  /** The base of the redirect URLs: the configured site URL if set, else
      the Origin header, else "https://" and the Host header (a missing Host
      header prints as "undefined" in the template). */
  function BaseUrl(siteUrl: Option<string>, h: Headers): (r: string)
    ensures Truthy(siteUrl) ==> r == siteUrl.value
    ensures !Truthy(siteUrl) && Truthy(h.origin) ==> r == h.origin.value
    ensures !Truthy(siteUrl) && !Truthy(h.origin) && h.host.Some? ==> r == "https://" + h.host.value
    ensures !Truthy(siteUrl) && !Truthy(h.origin) && h.host.None? ==> r == "https://undefined"
  {
    if Truthy(siteUrl) then siteUrl.value
    else if Truthy(h.origin) then h.origin.value
    else "https://" + (match h.host case Some(host) => host case None => "undefined")
  }

  /** The metadata record written on the session. */
  function Metadata(b: Booking, customerName: string, customerEmail: string): map<string, string> {
    map[
      "staffKey" := SafeStr(b.staffKey),
      "staffName" := StaffDisplay(b),
      "date" := SafeStr(b.date),
      "startISO" := SafeStr(b.startISO),
      "endISO" := SafeStr(b.endISO),
      "label" := SafeStr(b.timeLabel),
      "durationMin" := SafeStr(if Truthy(b.durationMin) then b.durationMin else Some("")),
      "customerName" := customerName,
      "customerEmail" := customerEmail
    ]
  }

  /** The deposit line: one item of 2000 pence in pounds sterling, named
      after the staff display, described by the appointment time if any. */
  function DepositItem(b: Booking): LineItem {
    var when := WhenDisplay(b);
    LineItem(
      DepositCurrency,
      "Copacabana Beauty — Deposit (" + StaffDisplay(b) + ")",
      if when != "" then Some("Appointment: " + when) else None,
      DepositCents,
      1)
  }

  /** Both validation gates passed: the three booking fields are truthy. */
  predicate HasBookingData(b: Booking) {
    Truthy(b.staffKey) && Truthy(b.startISO) && Truthy(b.endISO)
  }

  /** The request passes both gates: it parsed, its booking has the three
      fields, and the trimmed email is not blank. */
  predicate Accepted(body: Body) {
    body.Parsed? && HasBookingData(BookingOf(body.request)) && Trim(SafeStr(body.request.customerEmail)) != ""
  }

  /** The handler up to the provider call. A session is created exactly when
      the body parsed, the booking has its three fields and the trimmed email
      is not blank; the booking check comes first. */
  function Decide(body: Body, siteUrl: Option<string>, h: Headers): (d: Decision)
    ensures body.Malformed? ==> d == Answer(ServerError(body.parseError))
    ensures d.CreateSession? <==> Accepted(body)
    ensures body.Parsed? && !HasBookingData(BookingOf(body.request)) ==> d == Answer(BadRequest(MissingBookingData))
    ensures body.Parsed? && HasBookingData(BookingOf(body.request)) && Trim(SafeStr(body.request.customerEmail)) == "" ==>
      d == Answer(BadRequest(EmailRequired))
    ensures d.CreateSession? ==>
      var p := d.params;
      var base := BaseUrl(siteUrl, h);
      p.mode == "payment" && p.automaticPaymentMethods &&
      p.customerEmail == Trim(SafeStr(body.request.customerEmail)) && p.customerEmail != "" &&
      |p.lineItems| == 1 && p.lineItems[0].unitAmount == 2000 && p.lineItems[0].currency == "gbp" &&
      p.lineItems[0].quantity == 1 &&
      p.lineItems[0].productName == "Copacabana Beauty — Deposit (" + StaffDisplay(BookingOf(body.request)) + ")" &&
      (WhenDisplay(BookingOf(body.request)) != "" ==>
        p.lineItems[0].productDescription == Some("Appointment: " + WhenDisplay(BookingOf(body.request)))) &&
      (WhenDisplay(BookingOf(body.request)) == "" ==> p.lineItems[0].productDescription == None) &&
      p.successUrl == base + "/checkout.html?success=1&session_id={CHECKOUT_SESSION_ID}" &&
      p.cancelUrl == base + "/checkout.html?canceled=1" &&
      p.metadata == Metadata(BookingOf(body.request), Trim(SafeStr(body.request.customerName)), p.customerEmail)
  {
    match body
    case Malformed(err) => Answer(ServerError(err))
    case Parsed(req) =>
      var b := BookingOf(req);
      var customerName := Trim(SafeStr(req.customerName));
      var customerEmail := Trim(SafeStr(req.customerEmail));
      if !HasBookingData(b) then Answer(BadRequest(MissingBookingData))
      else if customerEmail == "" then Answer(BadRequest(EmailRequired))
      else
        var base := BaseUrl(siteUrl, h);
        CreateSession(SessionParams(
          "payment",
          true,
          customerEmail,
          [DepositItem(b)],
          Metadata(b, customerName, customerEmail),
          base + "/checkout.html?success=1&session_id={CHECKOUT_SESSION_ID}",
          base + "/checkout.html?canceled=1"))
  }

  /** The whole handler, given what the provider answers if it is asked. A
      rejected request gets its answer whatever the provider would say, since
      no session is requested; otherwise the provider's URL or error is
      passed back. */
  function Handle(body: Body, siteUrl: Option<string>, h: Headers, provider: ProviderResult): (r: Reply)
    ensures Decide(body, siteUrl, h).Answer? ==> r == Decide(body, siteUrl, h).reply
    ensures Decide(body, siteUrl, h).CreateSession? ==>
      (provider.SessionCreated? ==> r == SessionUrl(provider.url)) &&
      (provider.ProviderError? ==> r == ServerError(provider.message))
    ensures Status(r) == 400 ==> Decide(body, siteUrl, h).Answer?
  {
    match Decide(body, siteUrl, h)
    case Answer(reply) => reply
    case CreateSession(_) =>
      match provider
      case SessionCreated(url) => SessionUrl(url)
      case ProviderError(message) => ServerError(message)
  }

  /** The session's metadata carries the booking: the raw staff key and the
      two times as sent, the display name, and the trimmed customer name and
      email. For a request that passes validation, the three keys the
      webhook requires are present and non-empty. */
  lemma MetadataRecordsBooking(body: Body, siteUrl: Option<string>, h: Headers)
    requires Accepted(body)
    ensures var md := Decide(body, siteUrl, h).params.metadata;
      var b := BookingOf(body.request);
      "staffKey" in md && md["staffKey"] == b.staffKey.value && md["staffKey"] != "" &&
      "startISO" in md && md["startISO"] == b.startISO.value && md["startISO"] != "" &&
      "endISO" in md && md["endISO"] == b.endISO.value && md["endISO"] != "" &&
      "staffName" in md && md["staffName"] == StaffDisplay(b) && md["staffName"] != "" &&
      "customerName" in md && md["customerName"] == Trim(SafeStr(body.request.customerName)) &&
      "customerEmail" in md && md["customerEmail"] == Trim(SafeStr(body.request.customerEmail)) &&
      md["customerEmail"] != ""
  {
    var b := BookingOf(body.request);
    var name := Trim(SafeStr(body.request.customerName));
    var email := Trim(SafeStr(body.request.customerEmail));
    MetadataLookups(b, name, email);
  }

  lemma MetadataLookups(b: Booking, customerName: string, customerEmail: string)
    ensures var md := Metadata(b, customerName, customerEmail);
      "staffKey" in md && md["staffKey"] == SafeStr(b.staffKey) &&
      "startISO" in md && md["startISO"] == SafeStr(b.startISO) &&
      "endISO" in md && md["endISO"] == SafeStr(b.endISO) &&
      "staffName" in md && md["staffName"] == StaffDisplay(b) &&
      "customerName" in md && md["customerName"] == customerName &&
      "customerEmail" in md && md["customerEmail"] == customerEmail
  {
  }
}
