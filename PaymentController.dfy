/** Checkout and reconciliation: opening a payment session for a new pending
    booking (with the booking removed again when the provider cannot be used)
    and marking the booking paid once the provider reports the session paid.
    The provider is an input: what its configuration and its answers were. */
module PaymentController {
  import opened JsValues
  import opened Documents
  import opened Ledger
  import BookingController

  const MissingBodyMessage := "Missing request body"
  const InvalidAmountMessage := "Invalid amount"
  const EmailRequiredMessage := "Email required"
  const DatesRequiredMessage := "pickupDate and returnDate required"
  const InvalidDatesMessage := "Invalid dates"
  const ReturnBeforePickupMessage := "returnDate must be same or after pickupDate"
  const NotConfiguredMessage := "Payments not configured"
  const SessionFailedMessage := "Failed to create Stripe session"
  const ServerErrorMessage := "Server Error"
  const SessionIdRequiredMessage := "session_id required"
  const SessionNotFoundMessage := "Session not found"
  const PaymentIncompletePrefix := "Payment not completed. status="
  const NoBookingForSessionMessage := "Booking not found for this session"

  const Currency := "INR"
  const DefaultProductName := "Car Rental"
  const PaidStatus := "paid"
  const ActiveStatus := "active"

  /** A checkout body. `amount` is `Number(amount)` of the raw value (NaN
      when absent); absent texts are "". */
  datatype CheckoutRequest = CheckoutRequest(
    userId: Option<string>,
    customer: string,
    email: string,
    phone: string,
    car: CarRef,
    pickupDate: DateInput,
    returnDate: DateInput,
    amount: JsNumber,
    details: Extra,
    address: Extra,
    carImage: string)

  /** The amount is a number above zero. */
  predicate AmountAccepted(amount: JsNumber) {
    amount.Num? && amount.v > 0.0
  }

  /** The guards of `createCheckoutSession`, in their order. */
  function ValidateCheckout(body: Option<CheckoutRequest>): (r: Reply<BookingController.Range>)
    ensures r.Fail? ==> r.code == 400
    ensures body.None? ==> r == Fail(400, MissingBodyMessage)
    ensures body.Some? && !AmountAccepted(body.value.amount) ==> r == Fail(400, InvalidAmountMessage)
    ensures body.Some? && AmountAccepted(body.value.amount) && body.value.email == "" ==>
      r == Fail(400, EmailRequiredMessage)
    ensures (body.Some? && AmountAccepted(body.value.amount) && body.value.email != "" &&
      (body.value.pickupDate.DateAbsent? || body.value.returnDate.DateAbsent?)) ==>
      r == Fail(400, DatesRequiredMessage)
    ensures (body.Some? && AmountAccepted(body.value.amount) && body.value.email != "" &&
      body.value.pickupDate.DateGiven? && body.value.returnDate.DateGiven? &&
      (body.value.pickupDate.time.None? || body.value.returnDate.time.None?)) ==>
      r == Fail(400, InvalidDatesMessage)
    ensures (body.Some? && AmountAccepted(body.value.amount) && body.value.email != "" &&
      body.value.pickupDate.DateGiven? && body.value.returnDate.DateGiven? &&
      body.value.pickupDate.time.Some? && body.value.returnDate.time.Some? &&
      body.value.returnDate.time.value < body.value.pickupDate.time.value) ==>
      r == Fail(400, ReturnBeforePickupMessage)
    ensures r.Ok? <==>
      body.Some? && AmountAccepted(body.value.amount) && body.value.email != "" &&
      BookingController.DatesAccepted(body.value.pickupDate, body.value.returnDate)
    ensures r.Ok? ==> r.value == BookingController.Range(body.value.pickupDate.time.value, body.value.returnDate.time.value)
  {
    if body.None? then Fail(400, MissingBodyMessage)
    else
      var req := body.value;
      if !AmountAccepted(req.amount) then Fail(400, InvalidAmountMessage)
      else if req.email == "" then Fail(400, EmailRequiredMessage)
      else if req.pickupDate.DateAbsent? || req.returnDate.DateAbsent? then Fail(400, DatesRequiredMessage)
      else if req.pickupDate.time.None? || req.returnDate.time.None? then Fail(400, InvalidDatesMessage)
      else if req.returnDate.time.value < req.pickupDate.time.value then Fail(400, ReturnBeforePickupMessage)
      else Ok(BookingController.Range(req.pickupDate.time.value, req.returnDate.time.value))
  }

  /** The car a checkout booking keeps: a text is parsed as JSON, and one
      that does not parse becomes `{ name: text }`; nothing becomes `{}`. */
  function CheckoutCar(c: CarRef): (r: CarField)
    ensures r.Document? || (c.CarText? && c.json.JsonScalar?)
    ensures c.CarObject? ==> r == Document(c.doc)
    ensures c.CarText? && c.json.NotJson? ==> r == Document(EmptyDoc.(name := c.text))
    ensures c.CarText? && c.json.JsonDoc? ==> r == Document(c.json.doc)
    ensures c.CarMissing? || (c.CarText? && c.json.JsonNull?) ==> r == Document(EmptyDoc)
    ensures c.CarText? && c.json.JsonScalar? ==> r == Scalar
  {
    match c
    case CarMissing => Document(EmptyDoc)
    case CarObject(doc) => Document(doc)
    case CarText(text, json) =>
      match json
      case NotJson => Document(EmptyDoc.(name := text))
      case JsonDoc(doc) => Document(doc)
      case JsonNull => Document(EmptyDoc)
      case JsonScalar(_) => Scalar
  }

  /** A free-form payload of a checkout: a text must parse as JSON (None:
      `JSON.parse` throws), anything falsy becomes `{}`. */
  function CheckoutExtra(e: Extra): (r: Option<Json>)
    ensures r.None? <==> e.ExtraText? && e.json.None?
    ensures e.ExtraText? ==> r == e.json
    ensures e.ExtraAbsent? ==> r == Some(JObj([]))
    ensures e.ExtraValue? && JsonTruthy(e.v) ==> r == Some(e.v)
    ensures e.ExtraValue? && !JsonTruthy(e.v) ==> r == Some(JObj([]))
  {
    match e
    case ExtraAbsent => Some(JObj([]))
    case ExtraText(_, json) => json
    case ExtraValue(v) => if JsonTruthy(v) then Some(v) else Some(JObj([]))
  }

  /** The pending booking a checkout creates for a validated request. */
  function CheckoutBooking(req: CheckoutRequest, range: BookingController.Range, details: Json, address: Json): (b: Booking)
    ensures b.status == "pending" && b.paymentStatus == "pending" && b.currency == Some(Currency)
    ensures b.amount == req.amount && b.pickupDate == range.pickup && b.returnDate == range.ret
    ensures b.car == CheckoutCar(req.car) && b.email == req.email && b.userId == req.userId
    ensures b.sessionId.None? && b.stripeSession.None? && b.paymentIntentId.None? && b.paymentDetails.None?
  {
    Booking(
      userId := req.userId,
      customer := req.customer,
      email := req.email,
      phone := req.phone,
      car := CheckoutCar(req.car),
      carImage := req.carImage,
      pickupDate := range.pickup,
      returnDate := range.ret,
      bookingDate := None,
      amount := req.amount,
      details := Some(details),
      address := Some(address),
      status := "pending",
      paymentStatus := "pending",
      currency := Some(Currency),
      sessionId := None,
      stripeSession := None,
      paymentIntentId := None,
      paymentDetails := None)
  }

  /** Everything `createCheckoutSession` decides before the provider is
      involved: a rejection, or the booking to create. `parseError` is the
      message `JSON.parse` throws on a malformed payload. */
  function CheckoutPlan(body: Option<CheckoutRequest>, parseError: string): (r: Reply<Booking>)
    ensures ValidateCheckout(body).Fail? ==> r == Fail(400, ValidateCheckout(body).message)
    ensures r.Fail? ==> r.code == 400 || r.code == 500
    ensures (ValidateCheckout(body).Ok? &&
      (CheckoutExtra(body.value.details).None? || CheckoutExtra(body.value.address).None?)) ==>
      r == Fail(500, OrText(parseError, ServerErrorMessage))
    ensures r.Ok? <==> (ValidateCheckout(body).Ok? &&
      CheckoutExtra(body.value.details).Some? && CheckoutExtra(body.value.address).Some?)
    ensures r.Ok? ==> r.value == CheckoutBooking(body.value, ValidateCheckout(body).value,
      CheckoutExtra(body.value.details).value, CheckoutExtra(body.value.address).value)
  {
    match ValidateCheckout(body)
    case Fail(code, message) => Fail(code, message)
    case Ok(range) =>
      var details := CheckoutExtra(body.value.details);
      var address := CheckoutExtra(body.value.address);
      if details.None? || address.None? then Fail(500, OrText(parseError, ServerErrorMessage))
      else Ok(CheckoutBooking(body.value, range, details.value, address.value))
  }

  /** The metadata a checkout session is opened with. */
  datatype SessionMetadata = SessionMetadata(bookingId: string, userId: string, carId: string)

  /** What a checkout asks the provider for. */
  datatype SessionRequest = SessionRequest(customerEmail: string, productName: string, metadata: SessionMetadata)

  /** `(carField && (carField.name || carField.title)) || "Car Rental"` */
  function ProductName(car: CarField): (r: string)
    ensures r != ""
    ensures car.Document? && car.doc.name != "" ==> r == car.doc.name
    ensures car.Document? && car.doc.name == "" && car.doc.title != "" ==> r == car.doc.title
    ensures car.Document? && car.doc.name == "" && car.doc.title == "" ==> r == DefaultProductName
    ensures !car.Document? ==> r == DefaultProductName
  {
    match car
    case Document(d) => OrText(OrText(d.name, d.title), DefaultProductName)
    case _ => DefaultProductName
  }

  /** `String((carField && (carField.id || carField._id)) || "")` */
  function CarTag(car: CarField): (r: string)
    ensures car.Document? ==> r == OrText(car.doc.id, car.doc.oid)
    ensures !car.Document? ==> r == ""
  {
    match car
    case Document(d) => OrText(d.id, d.oid)
    case _ => ""
  }

  /** The session request for booking `b` stored under `bookingId`. */
  function SessionRequestFor(bookingId: string, b: Booking): (s: SessionRequest)
    ensures s.metadata.bookingId == bookingId && s.customerEmail == b.email
    ensures s.metadata.userId == (if b.userId.Some? then b.userId.value else "")
  {
    SessionRequest(b.email, ProductName(b.car),
      SessionMetadata(bookingId, if b.userId.Some? then b.userId.value else "", CarTag(b.car)))
  }

  /** What the provider did with a checkout: the secret key was missing,
      opening the session failed, or a session was opened. */
  datatype ProviderOutcome = Unconfigured | CreateFailed | Opened(sessionId: string, url: string)

  /** The booking once the session is attached to it. */
  function Attached(b: Booking, sessionId: string, url: string): (r: Booking)
    ensures r == b.(sessionId := r.sessionId, stripeSession := r.stripeSession)
    ensures r.sessionId == Some(sessionId)
    ensures r.stripeSession == Some(SessionRef(sessionId, TextOrNull(url)))
  {
    b.(sessionId := Some(sessionId), stripeSession := Some(SessionRef(sessionId, TextOrNull(url))))
  }

  /** What a successful checkout answers. */
  datatype CheckoutReply = CheckoutReply(sessionId: string, url: string, bookingId: string)

  /** `createCheckoutSession`: check the body, create the pending booking,
      then either remove it again (no key, or the provider failed) or attach
      the opened session to it. `sent` is what was asked of the provider. */
  method CreateCheckoutSession(store: Store, body: Option<CheckoutRequest>, provider: ProviderOutcome, freshId: string, parseError: string)
    returns (r: Reply<CheckoutReply>, sent: Option<SessionRequest>)
    requires store.Valid()
    requires freshId != "" && freshId !in store.bookings
    requires provider.Opened? ==> SessionUnused(store.bookings, provider.sessionId)
    modifies store
    ensures store.Valid() && store.cars == old(store.cars)
    ensures var p := CheckoutPlan(body, parseError);
      (p.Fail? ==> r == Fail(p.code, p.message) && sent.None? && store.bookings == old(store.bookings)) &&
      (p.Ok? && provider.Unconfigured? ==>
         r == Fail(500, NotConfiguredMessage) && sent.None? && store.bookings == old(store.bookings)) &&
      (p.Ok? && provider.CreateFailed? ==>
         r == Fail(500, SessionFailedMessage) && sent == Some(SessionRequestFor(freshId, p.value)) &&
         store.bookings == old(store.bookings)) &&
      (p.Ok? && provider.Opened? ==>
         r == Ok(CheckoutReply(provider.sessionId, provider.url, freshId)) &&
         sent == Some(SessionRequestFor(freshId, p.value)) &&
         store.bookings == old(store.bookings)[freshId := Attached(p.value, provider.sessionId, provider.url)])
  {
    var plan := CheckoutPlan(body, parseError);
    if plan.Fail? {
      return Fail(plan.code, plan.message), None;
    }
    var booking := plan.value;
    store.Insert(freshId, booking);
    if provider.Unconfigured? {
      store.Remove(freshId);
      assert store.bookings == old(store.bookings);
      return Fail(500, NotConfiguredMessage), None;
    }
    sent := Some(SessionRequestFor(freshId, booking));
    if provider.CreateFailed? {
      store.Remove(freshId);
      assert store.bookings == old(store.bookings);
      return Fail(500, SessionFailedMessage), sent;
    }
    var sessionId, url := provider.sessionId, provider.url;
    assert SessionUnused(store.bookings, sessionId);
    store.SaveWithSession(freshId, Attached(booking, sessionId, url), sessionId);
    r := Ok(CheckoutReply(sessionId, url, freshId));
  }

  /* ---------- confirmation ---------- */

  /** A checkout session as the provider returns it. Absent texts are "". */
  datatype CheckoutSession = CheckoutSession(
    paymentStatus: string,
    metadataBookingId: string,
    paymentIntent: string,
    amountTotal: Option<int>,
    currency: string)

  /** What asking the provider for a session gave: no key, a failure with its
      message, or the session (None when there is none). */
  datatype Retrieval = KeyMissing | RetrieveFailed(message: string) | Retrieved(session: Option<CheckoutSession>)

  /** `x || null` on a number. */
  function NonZeroOrNull(x: Option<int>): (r: Option<int>)
    ensures r.Some? <==> x.Some? && x.value != 0
    ensures r.Some? ==> r == x
  {
    if x.Some? && x.value != 0 then x else None
  }

  /** The fields a confirmation writes: values of the session only. */
  function PaidUpdate(b: Booking, s: CheckoutSession): (r: Booking)
    ensures r.paymentStatus == PaidStatus && r.status == ActiveStatus
    ensures r.paymentIntentId == Some(s.paymentIntent)
    ensures r.paymentDetails == Some(PaymentDetails(NonZeroOrNull(s.amountTotal), TextOrNull(s.currency)))
    ensures r == b.(paymentStatus := r.paymentStatus, status := r.status,
                    paymentIntentId := r.paymentIntentId, paymentDetails := r.paymentDetails)
  {
    b.(paymentStatus := PaidStatus, status := ActiveStatus, paymentIntentId := Some(s.paymentIntent),
       paymentDetails := Some(PaymentDetails(NonZeroOrNull(s.amountTotal), TextOrNull(s.currency))))
  }

  /** The booking that records session `sessionId`, if any; there is at most
      one. */
  function SessionOwner(bookings: map<string, Booking>, sessionId: string): (r: Option<string>)
    requires SessionsUnique(bookings)
    ensures r.Some? <==> exists k :: k in bookings && bookings[k].sessionId == Some(sessionId)
    ensures r.Some? ==> r.value in bookings && bookings[r.value].sessionId == Some(sessionId)
    ensures forall k :: k in bookings && bookings[k].sessionId == Some(sessionId) ==> r == Some(k)
  {
    if exists k :: k in bookings && bookings[k].sessionId == Some(sessionId) then
      var k :| k in bookings && bookings[k].sessionId == Some(sessionId);
      Some(k)
    else
      None
  }

  /** The booking a paid session resolves to: the metadata `bookingId` when
      it names a stored booking, otherwise the booking that records the
      session. */
  function ConfirmTarget(bookings: map<string, Booking>, sessionId: string, s: CheckoutSession): (r: Option<string>)
    requires SessionsUnique(bookings)
    ensures r.Some? ==> r.value in bookings
    ensures s.metadataBookingId != "" && s.metadataBookingId in bookings ==> r == Some(s.metadataBookingId)
    ensures !(s.metadataBookingId != "" && s.metadataBookingId in bookings) ==> r == SessionOwner(bookings, sessionId)
  {
    if s.metadataBookingId != "" && s.metadataBookingId in bookings then Some(s.metadataBookingId)
    else SessionOwner(bookings, sessionId)
  }

  /** The answer `confirmPayment` gives, and which booking it rewrites to
      what. */
  function ConfirmPlan(bookings: map<string, Booking>, sessionId: string, retrieval: Retrieval): (r: Reply<(string, Booking)>)
    requires SessionsUnique(bookings)
    ensures sessionId == "" ==> r == Fail(400, SessionIdRequiredMessage)
    ensures sessionId != "" && retrieval.KeyMissing? ==> r == Fail(500, NotConfiguredMessage)
    ensures sessionId != "" && retrieval.RetrieveFailed? ==>
      r == Fail(500, OrText(retrieval.message, ServerErrorMessage))
    ensures sessionId != "" && retrieval.Retrieved? && retrieval.session.None? ==>
      r == Fail(404, SessionNotFoundMessage)
    ensures r.Ok? ==> (sessionId != "" && retrieval.Retrieved? && retrieval.session.Some? &&
      retrieval.session.value.paymentStatus == PaidStatus &&
      ConfirmTarget(bookings, sessionId, retrieval.session.value) == Some(r.value.0) &&
      r.value.1 == PaidUpdate(bookings[r.value.0], retrieval.session.value))
    ensures (sessionId != "" && retrieval.Retrieved? && retrieval.session.Some? &&
      retrieval.session.value.paymentStatus != PaidStatus) ==>
      r == Fail(400, PaymentIncompletePrefix + retrieval.session.value.paymentStatus)
    ensures (sessionId != "" && retrieval.Retrieved? && retrieval.session.Some? &&
      retrieval.session.value.paymentStatus == PaidStatus &&
      ConfirmTarget(bookings, sessionId, retrieval.session.value).None?) ==>
      r == Fail(404, NoBookingForSessionMessage)
  {
    if sessionId == "" then Fail(400, SessionIdRequiredMessage)
    else match retrieval
      case KeyMissing => Fail(500, NotConfiguredMessage)
      case RetrieveFailed(message) => Fail(500, OrText(message, ServerErrorMessage))
      case Retrieved(found) =>
        if found.None? then Fail(404, SessionNotFoundMessage)
        else if found.value.paymentStatus != PaidStatus then Fail(400, PaymentIncompletePrefix + found.value.paymentStatus)
        else
          var target := ConfirmTarget(bookings, sessionId, found.value);
          if target.None? then Fail(404, NoBookingForSessionMessage)
          else Ok((target.value, PaidUpdate(bookings[target.value], found.value)))
  }

  /** The ledger after a confirmation. */
  function Confirmed(bookings: map<string, Booking>, sessionId: string, retrieval: Retrieval): (r: map<string, Booking>)
    requires SessionsUnique(bookings)
    ensures r.Keys == bookings.Keys
    ensures ConfirmPlan(bookings, sessionId, retrieval).Fail? ==> r == bookings
    ensures ConfirmPlan(bookings, sessionId, retrieval).Ok? ==>
      var (k, b) := ConfirmPlan(bookings, sessionId, retrieval).value; r == bookings[k := b]
  {
    match ConfirmPlan(bookings, sessionId, retrieval)
    case Fail(_, _) => bookings
    case Ok((k, b)) => bookings[k := b]
  }

  /** `confirmPayment`: require a session id, ask the provider, insist on a
      paid session, then update the booking named in the metadata, or else
      the booking recording the session. */
  method ConfirmPayment(store: Store, sessionId: string, retrieval: Retrieval) returns (r: Reply<Booking>)
    requires store.Valid()
    modifies store
    ensures store.Valid() && store.cars == old(store.cars)
    ensures store.bookings == Confirmed(old(store.bookings), sessionId, retrieval)
    ensures var p := ConfirmPlan(old(store.bookings), sessionId, retrieval);
      (p.Fail? ==> r == Fail(p.code, p.message)) && (p.Ok? ==> r == Ok(p.value.1))
  {
    if sessionId == "" {
      return Fail(400, SessionIdRequiredMessage);
    }
    if retrieval.KeyMissing? {
      return Fail(500, NotConfiguredMessage);
    }
    if retrieval.RetrieveFailed? {
      return Fail(500, OrText(retrieval.message, ServerErrorMessage));
    }
    var found := retrieval.session;
    if found.None? {
      return Fail(404, SessionNotFoundMessage);
    }
    var session := found.value;
    if session.paymentStatus != PaidStatus {
      return Fail(400, PaymentIncompletePrefix + session.paymentStatus);
    }
    var order: Option<string> := None;
    var bookingId := session.metadataBookingId;
    if bookingId != "" && bookingId in store.bookings {
      order := Some(bookingId);
    }
    if order.None? && exists k :: k in store.bookings && store.bookings[k].sessionId == Some(sessionId) {
      var k :| k in store.bookings && store.bookings[k].sessionId == Some(sessionId);
      order := Some(k);
    }
    if order.None? {
      return Fail(404, NoBookingForSessionMessage);
    }
    var updated := PaidUpdate(store.bookings[order.value], session);
    store.Save(order.value, updated);
    r := Ok(updated);
  }
}
