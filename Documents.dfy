/** The documents the reservation core reads and writes: the car payloads a
    client sends, the car summary a booking keeps, the booking record of the
    ledger and the per-car mirror of reservation summaries. */
module Documents {
  import opened JsValues

  /** A car as a plain object: a stored car document or a payload a client
      sent. Text attributes are "" when absent. A numeric attribute is None
      when its raw value is falsy, and Some(n) when it is truthy and
      `Number(..)` makes n of it. `oid` is `_id.toString()`. */
  datatype CarDoc = CarDoc(
    oid: string,
    id: string,
    name: string,
    title: string,
    make: string,
    model: string,
    year: Option<JsNumber>,
    dailyRate: Option<JsNumber>,
    seats: Option<JsNumber>,
    transmission: string,
    fuelType: string,
    mileage: Option<JsNumber>,
    image: string,
    carImage: string)

  /** An object with none of the attributes; property reads on a string or a
      number give the same. */
  const EmptyDoc := CarDoc("", "", "", "", "", "", None, None, None, "", "", None, "", "")

  /** What `JSON.parse` makes of a car text. */
  datatype CarJson = NotJson | JsonDoc(doc: CarDoc) | JsonNull | JsonScalar(truthy: bool)

  /** The `car` field of a request: absent (undefined or null), a text (an
      ObjectId, or serialised JSON), or an object. */
  datatype CarRef = CarMissing | CarText(text: string, json: CarJson) | CarObject(doc: CarDoc)

  /** The normalised snapshot of a car a booking keeps. */
  datatype CarSummary = CarSummary(
    id: Option<string>,
    make: string,
    model: string,
    year: Option<JsNumber>,
    dailyRate: JsNumber,
    seats: JsNumber,
    transmission: string,
    fuelType: string,
    mileage: JsNumber,
    image: string)

  /** What a booking's `car` holds: a summary (booking path), the payload as
      sent (checkout path), or a non-object JSON value (checkout path). */
  datatype CarField = Summary(summary: CarSummary) | Document(doc: CarDoc) | Scalar

  /** The value at path `car.id`, which the overlap query matches on. */
  function CarIdOf(c: CarField): (r: Option<string>)
    ensures r.Some? ==> r.value != ""
  {
    match c
    case Summary(s) => if s.id.Some? && s.id.value != "" then s.id else None
    case Document(d) => TextOrNull(d.id)
    case Scalar => None
  }

  datatype SessionRef = SessionRef(id: string, url: Option<string>)

  datatype PaymentDetails = PaymentDetails(amountTotal: Option<int>, currency: Option<string>)

  /** A booking of the ledger. Dates are millisecond timestamps. */
  datatype Booking = Booking(
    userId: Option<string>,
    customer: string,
    email: string,
    phone: string,
    car: CarField,
    carImage: string,
    pickupDate: int,
    returnDate: int,
    bookingDate: Option<int>,
    amount: JsNumber,
    details: Option<Json>,
    address: Option<Json>,
    status: string,
    paymentStatus: string,
    currency: Option<string>,
    sessionId: Option<string>,
    stripeSession: Option<SessionRef>,
    paymentIntentId: Option<string>,
    paymentDetails: Option<PaymentDetails>)

  /** One entry of a car's `bookings` mirror. */
  datatype MirrorEntry = MirrorEntry(bookingId: string, pickupDate: int, returnDate: int, status: string)

  /** A stored car: its document and its reservation mirror. */
  datatype CarRecord = CarRecord(doc: CarDoc, bookings: seq<MirrorEntry>)

  /** The mirror entry that summarises booking `b` stored under `id`. */
  function EntryFor(id: string, b: Booking): (e: MirrorEntry)
    ensures e.bookingId == id && e.status == b.status
    ensures e.pickupDate == b.pickupDate && e.returnDate == b.returnDate
  {
    MirrorEntry(id, b.pickupDate, b.returnDate, b.status)
  }
}
