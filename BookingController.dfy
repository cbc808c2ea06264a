/** The booking coordinator: validating a reservation request, resolving the
    car it names, the closed-interval overlap rule over blocking bookings, the
    all-or-nothing create that writes the ledger and the car's mirror, the
    field-by-field update, the status update and the delete. */
module BookingController {
  import opened JsValues
  import opened Documents
  import opened Ledger

  /** Booking statuses that hold the car against other reservations. */
  const BlockingStatuses: seq<string> := ["pending", "active", "upcoming"]

  const MissingFieldsMessage := "Missing required fields (customer, email, car, pickupDate, returnDate)"
  const InvalidDatesMessage := "Invalid pickup/return dates"
  const CarNotFoundMessage := "Car not found"
  const InvalidCarMessage := "Invalid car payload"
  const AlreadyBookedMessage := "Car already booked for the selected dates"
  const BookingNotFoundMessage := "Booking not found"
  const StatusRequiredMessage := "Status is required"
  const DeletedMessage := "Booking deleted successfully"

  /** Where uploaded images are served from; a booking image under it is a
      local file the booking owns. */
  const UploadsPrefix := "/uploads/"

  predicate IsHexDigit(c: char) {
    ('0' <= c <= '9') || ('a' <= c <= 'f') || ('A' <= c <= 'F')
  }

  /** `/^[0-9a-fA-F]{24}$/.test(s)` */
  predicate IsObjectIdHex(s: string) {
    |s| == 24 && forall i :: 0 <= i < |s| ==> IsHexDigit(s[i])
  }

  /** `n ? Number(n) : d` for a numeric attribute. */
  function NumberOr(n: Option<JsNumber>, d: real): (r: JsNumber)
    ensures n.None? ==> r == Num(d)
    ensures n.Some? ==> r == n.value
  {
    if n.Some? then n.value else Num(d)
  }

  /** `buildCarSummary`: the snapshot a booking keeps, with defaults for the
      attributes the source object lacks. */
  function BuildCarSummary(src: CarDoc): (s: CarSummary)
    ensures s.id.Some? <==> src.oid != "" || src.id != ""
    ensures s.id.Some? ==> s.id.value != "" && (s.id.value == src.oid || s.id.value == src.id)
    ensures src.oid != "" ==> s.id == Some(src.oid)
    ensures s.make == src.make && s.transmission == src.transmission && s.fuelType == src.fuelType
    ensures s.model == src.model
    ensures s.year == src.year
    ensures src.dailyRate.None? ==> s.dailyRate == Num(0.0)
    ensures src.seats.None? ==> s.seats == Num(4.0)
    ensures src.mileage.None? ==> s.mileage == Num(0.0)
    ensures src.dailyRate.Some? ==> s.dailyRate == src.dailyRate.value
    ensures src.seats.Some? ==> s.seats == src.seats.value
    ensures src.mileage.Some? ==> s.mileage == src.mileage.value
    ensures s.image == "" <==> src.image == "" && src.carImage == ""
    ensures src.image != "" ==> s.image == src.image
    ensures src.image == "" ==> s.image == src.carImage
  {
    CarSummary(
      id := if src.oid != "" then Some(src.oid) else if src.id != "" then Some(src.id) else None,
      make := src.make,
      model := OrText(src.model, ""),
      year := src.year,
      dailyRate := NumberOr(src.dailyRate, 0.0),
      seats := NumberOr(src.seats, 4.0),
      transmission := src.transmission,
      fuelType := src.fuelType,
      mileage := NumberOr(src.mileage, 0.0),
      image := OrText(OrText(src.image, src.carImage), ""))
  }

  /** `tryParseJSON(car) || car`, then the `{}` default of
      `buildCarSummary`: the object a non-ObjectId car reference stands for.
      Property reads on a text or a scalar give nothing. */
  function PayloadOf(car: CarRef): (d: CarDoc)
    ensures car.CarObject? ==> d == car.doc
    ensures car.CarText? && car.json.JsonDoc? ==> d == car.json.doc
    ensures car.CarMissing? || (car.CarText? && !car.json.JsonDoc?) ==> d == EmptyDoc
  {
    match car
    case CarMissing => EmptyDoc
    case CarText(_, json) => if json.JsonDoc? then json.doc else EmptyDoc
    case CarObject(doc) => doc
  }

  /** `tryParseJSON` applied to a free-form payload; None is `undefined`. */
  function TryParseExtra(e: Extra): (r: Option<Json>)
    ensures e.ExtraAbsent? <==> r.None?
    ensures e.ExtraValue? ==> r == Some(e.v)
    ensures e.ExtraText? ==> r == Some(if e.json.Some? then e.json.value else JStr(e.text))
  {
    match e
    case ExtraAbsent => None
    case ExtraText(text, json) => if json.Some? then Some(json.value) else Some(JStr(text))
    case ExtraValue(v) => Some(v)
  }

  /** A reservation request as `createBooking` reads it from the body. */
  datatype BookingRequest = BookingRequest(
    customer: string,
    email: string,
    phone: string,
    car: CarRef,
    pickupDate: DateInput,
    returnDate: DateInput,
    amount: Option<JsNumber>,
    details: Extra,
    address: Extra,
    carImage: string)

  /** A validated date range `[pickup, ret]`. */
  datatype Range = Range(pickup: int, ret: int)

  /** `!car` is false. */
  predicate CarGiven(c: CarRef) {
    match c
    case CarMissing => false
    case CarText(text, _) => text != ""
    case CarObject(_) => true
  }

  /** One of customer, email, car, pickupDate, returnDate is falsy. */
  predicate MissingRequired(req: BookingRequest) {
    req.customer == "" || req.email == "" || !CarGiven(req.car) ||
    req.pickupDate.DateAbsent? || req.returnDate.DateAbsent?
  }

  /** Both dates parse and the pickup is not after the return. */
  predicate DatesAccepted(pickup: DateInput, ret: DateInput) {
    pickup.DateGiven? && ret.DateGiven? && pickup.time.Some? && ret.time.Some? &&
    pickup.time.value <= ret.time.value
  }

  /** The field checks `createBooking` runs before touching the store. */
  function ValidateBooking(req: BookingRequest): (r: Reply<Range>)
    ensures r.Fail? ==> r.code == 400
    ensures MissingRequired(req) ==> r == Fail(400, MissingFieldsMessage)
    ensures !MissingRequired(req) && !DatesAccepted(req.pickupDate, req.returnDate) ==> r == Fail(400, InvalidDatesMessage)
    ensures r.Ok? <==> !MissingRequired(req) && DatesAccepted(req.pickupDate, req.returnDate)
    ensures r.Ok? ==> r.value == Range(req.pickupDate.time.value, req.returnDate.time.value)
  {
    if MissingRequired(req) then Fail(400, MissingFieldsMessage)
    else if req.pickupDate.time.None? || req.returnDate.time.None? then Fail(400, InvalidDatesMessage)
    else if req.pickupDate.time.value > req.returnDate.time.value then Fail(400, InvalidDatesMessage)
    else Ok(Range(req.pickupDate.time.value, req.returnDate.time.value))
  }

  /** Resolve the car reference to the summary the booking will keep: an
      ObjectId text is looked up and summarised from the stored car; anything
      else is summarised from the payload and its id must exist. */
  function ResolveCar(cars: map<string, CarRecord>, car: CarRef): (r: Reply<CarSummary>)
    requires CarsKeyed(cars)
    ensures r.Ok? ==> r.value.id.Some? && r.value.id.value in cars
    ensures r.Fail? ==> r.code == 400 || r.code == 404
    ensures car.CarText? && IsObjectIdHex(car.text) ==>
      (r.Ok? <==> car.text in cars) &&
      (r.Ok? ==> r.value == BuildCarSummary(cars[car.text].doc) && r.value.id == Some(car.text)) &&
      (r.Fail? ==> r == Fail(404, CarNotFoundMessage))
    ensures !(car.CarText? && IsObjectIdHex(car.text)) ==>
      var s := BuildCarSummary(PayloadOf(car));
      (s.id.None? ==> r == Fail(400, InvalidCarMessage)) &&
      (s.id.Some? && s.id.value !in cars ==> r == Fail(404, CarNotFoundMessage)) &&
      (s.id.Some? && s.id.value in cars ==> r == Ok(s))
  {
    if car.CarText? && IsObjectIdHex(car.text) then
      if car.text in cars then Ok(BuildCarSummary(cars[car.text].doc)) else Fail(404, CarNotFoundMessage)
    else
      var s := BuildCarSummary(PayloadOf(car));
      if s.id.None? then Fail(400, InvalidCarMessage)
      else if s.id.value !in cars then Fail(404, CarNotFoundMessage)
      else Ok(s)
  }

  /** Closed-interval overlap: `[a1, a2]` and `[b1, b2]` conflict when
      `a1 <= b2` and `a2 >= b1`, so touching endpoints conflict. */
  predicate Overlaps(a1: int, a2: int, b1: int, b2: int) {
    a1 <= b2 && a2 >= b1
  }

  /** The overlap query's filter for one stored booking: same car, blocking
      status, and `pickupDate <= ret && returnDate >= pickup`. */
  predicate Conflicts(existing: Booking, carId: string, range: Range) {
    CarIdOf(existing.car) == Some(carId) &&
    existing.status in BlockingStatuses &&
    Overlaps(existing.pickupDate, existing.returnDate, range.pickup, range.ret)
  }

  /** The bookings the overlap query matches. */
  function Conflicting(bookings: map<string, Booking>, carId: string, range: Range): (s: set<string>)
    ensures forall k :: k in s <==> k in bookings && Conflicts(bookings[k], carId, range)
  {
    set k | k in bookings && Conflicts(bookings[k], carId, range)
  }

  /** `Booking.countDocuments(..)` of the overlap query. */
  function OverlappingCount(bookings: map<string, Booking>, carId: string, range: Range): nat {
    |Conflicting(bookings, carId, range)|
  }

  /** `Number(amount || 0)` */
  function AmountOf(amount: Option<JsNumber>): (n: JsNumber)
    ensures amount.None? ==> n == Num(0.0)
    ensures amount.Some? ==> n == amount.value
  {
    if amount.Some? then amount.value else Num(0.0)
  }

  /** The booking `createBooking` inserts once the checks pass. */
  function NewBooking(req: BookingRequest, caller: Option<string>, summary: CarSummary, range: Range): (b: Booking)
    ensures b.status == "pending" && b.paymentStatus == "pending"
    ensures b.amount == AmountOf(req.amount)
    ensures b.car == Summary(summary)
    ensures b.pickupDate == range.pickup && b.returnDate == range.ret
    ensures b.sessionId.None? && b.paymentIntentId.None? && b.paymentDetails.None?
  {
    Booking(
      userId := caller,
      customer := req.customer,
      email := req.email,
      phone := req.phone,
      car := Summary(summary),
      carImage := OrText(OrText(req.carImage, summary.image), ""),
      pickupDate := range.pickup,
      returnDate := range.ret,
      bookingDate := None,
      amount := AmountOf(req.amount),
      details := TryParseExtra(req.details),
      address := TryParseExtra(req.address),
      status := "pending",
      paymentStatus := "pending",
      currency := None,
      sessionId := None,
      stripeSession := None,
      paymentIntentId := None,
      paymentDetails := None)
  }

  /** What a successful create writes: the booking, and the car whose mirror
      receives its entry. */
  datatype Placement = Placement(carId: string, booking: Booking)

  /** The decision `createBooking` takes on a store holding `bookings` and
      `cars`: reject, or place one pending booking on a resolved car. */
  function Plan(bookings: map<string, Booking>, cars: map<string, CarRecord>, req: BookingRequest, caller: Option<string>): (r: Reply<Placement>)
    requires CarsKeyed(cars)
    ensures ValidateBooking(req).Fail? ==> r == Fail(ValidateBooking(req).code, ValidateBooking(req).message)
    ensures ValidateBooking(req).Ok? && ResolveCar(cars, req.car).Fail? ==>
      r == Fail(ResolveCar(cars, req.car).code, ResolveCar(cars, req.car).message)
    ensures r.Fail? ==> r.code in {400, 404, 409}
    ensures r.Ok? ==>
      ValidateBooking(req).Ok? && ResolveCar(cars, req.car).Ok? &&
      r.value.carId in cars &&
      r.value.booking == NewBooking(req, caller, ResolveCar(cars, req.car).value, ValidateBooking(req).value) &&
      CarIdOf(r.value.booking.car) == Some(r.value.carId) &&
      Conflicting(bookings, r.value.carId, ValidateBooking(req).value) == {}
  {
    match ValidateBooking(req)
    case Fail(code, message) => Fail(code, message)
    case Ok(range) =>
      match ResolveCar(cars, req.car)
      case Fail(code, message) => Fail(code, message)
      case Ok(summary) =>
        var carId := summary.id.value;
        if OverlappingCount(bookings, carId, range) > 0 then Fail(409, AlreadyBookedMessage)
        else Ok(Placement(carId, NewBooking(req, caller, summary, range)))
  }

  /** `createBooking`: validate, resolve the car, count the blocking
      bookings that overlap, and either abort with nothing written or insert
      the pending booking, push its summary onto the car's mirror, and reply
      with the stored booking under its id. */
  method CreateBooking(store: Store, req: BookingRequest, caller: Option<string>, freshId: string) returns (r: Reply<(string, Booking)>)
    requires store.Valid()
    requires freshId != "" && freshId !in store.bookings
    modifies store
    ensures store.Valid()
    ensures var p := Plan(old(store.bookings), old(store.cars), req, caller);
      (p.Fail? ==> r == Fail(p.code, p.message) && store.bookings == old(store.bookings) && store.cars == old(store.cars)) &&
      (p.Ok? ==>
         r == Ok((freshId, p.value.booking)) &&
         store.bookings == old(store.bookings)[freshId := p.value.booking] &&
         store.cars == WithMirrorEntry(old(store.cars), p.value.carId, EntryFor(freshId, p.value.booking)))
  {
    var validated := ValidateBooking(req);
    if validated.Fail? {
      return Fail(validated.code, validated.message);
    }
    var range := validated.value;
    var resolved := ResolveCar(store.cars, req.car);
    if resolved.Fail? {
      return Fail(resolved.code, resolved.message);
    }
    var summary := resolved.value;
    var carId := summary.id.value;
    var overlapping := OverlappingCount(store.bookings, carId, range);
    if overlapping > 0 {
      return Fail(409, AlreadyBookedMessage);
    }
    var booking := NewBooking(req, caller, summary, range);
    store.Insert(freshId, booking);
    store.PushMirror(carId, EntryFor(freshId, booking));
    r := Ok((freshId, store.bookings[freshId]));
  }

  /* ---------- update ---------- */

  /** The fields `updateBooking` copies from the body, in its order. */
  datatype Field = Customer | Email | Phone | Car | PickupDate | ReturnDate | BookingDate | Status | Amount | Details | Address

  const Updatable: seq<Field> := [Customer, Email, Phone, Car, PickupDate, ReturnDate, BookingDate, Status, Amount, Details, Address]

  /** An update body: None (or ExtraAbsent, CarMissing) is a field left
      `undefined`. Dates are already `new Date(..)`, amount `Number(..)`. */
  datatype UpdateRequest = UpdateRequest(
    customer: Option<string>,
    email: Option<string>,
    phone: Option<string>,
    car: CarRef,
    pickupDate: Option<int>,
    returnDate: Option<int>,
    bookingDate: Option<int>,
    status: Option<string>,
    amount: Option<JsNumber>,
    details: Extra,
    address: Extra,
    carImage: Option<string>)

  /** `tryParseJSON(req.body.car)` when truthy: the object a car update is
      summarised from (a truthy text or scalar reads as an empty object). */
  function UpdateCarSource(c: CarRef): (r: Option<CarDoc>)
    ensures c.CarMissing? ==> r.None?
    ensures c.CarObject? ==> r == Some(c.doc)
    ensures c.CarText? && c.json.JsonDoc? ==> r == Some(c.json.doc)
    ensures r.Some? && !c.CarObject? && !(c.CarText? && c.json.JsonDoc?) ==> r == Some(EmptyDoc)
    ensures c.CarText? && c.json.NotJson? ==> (r.Some? <==> c.text != "")
    ensures c.CarText? && c.json.JsonNull? ==> r.None?
    ensures c.CarText? && c.json.JsonScalar? ==> (r.Some? <==> c.json.truthy)
  {
    match c
    case CarMissing => None
    case CarObject(doc) => Some(doc)
    case CarText(text, json) =>
      match json
      case NotJson => if text != "" then Some(EmptyDoc) else None
      case JsonDoc(doc) => Some(doc)
      case JsonNull => None
      case JsonScalar(truthy) => if truthy then Some(EmptyDoc) else None
  }

  /** A new summary without an id takes the booking's current car id. */
  function KeepCarId(s: CarSummary, current: CarField): (r: CarSummary)
    ensures r.(id := s.id) == s
    ensures s.id.Some? ==> r.id == s.id
    ensures s.id.None? ==> r.id == CarIdOf(current)
  {
    if s.id.None? && CarIdOf(current).Some? then s.(id := CarIdOf(current)) else s
  }

  predicate IsLocalImage(p: string) {
    StartsWith(p, UploadsPrefix)
  }

  /** The image handling of `updateBooking`: an uploaded file wins, then a
      truthy `carImage` in the body. */
  function ApplyImage(b: Booking, req: UpdateRequest, upload: Option<string>): (r: Booking)
    ensures r == b.(carImage := r.carImage)
    ensures upload.Some? ==> r.carImage == UploadsPrefix + upload.value
    ensures upload.None? && req.carImage.Some? && req.carImage.value != "" ==> r.carImage == req.carImage.value
    ensures upload.None? && (req.carImage.None? || req.carImage.value == "") ==> r == b
  {
    if upload.Some? then b.(carImage := UploadsPrefix + upload.value)
    else if req.carImage.Some? then b.(carImage := OrText(req.carImage.value, b.carImage))
    else b
  }

  /** The stored image file `updateBooking` deletes, if any. */
  function ReleasedImage(b: Booking, req: UpdateRequest, upload: Option<string>): (r: Option<string>)
    ensures r.Some? ==> r.value == b.carImage && IsLocalImage(b.carImage)
    ensures r.Some? ==> ApplyImage(b, req, upload).carImage != b.carImage || upload.Some?
    ensures r.Some? <==> (IsLocalImage(b.carImage) &&
      (upload.Some? || (req.carImage.Some? && req.carImage.value != "" && !IsLocalImage(req.carImage.value))))
  {
    if upload.Some? then
      if IsLocalImage(b.carImage) then Some(b.carImage) else None
    else if req.carImage.Some? && req.carImage.value != "" && !IsLocalImage(req.carImage.value) && IsLocalImage(b.carImage) then
      Some(b.carImage)
    else None
  }

  /** One iteration of the `updatable` loop. */
  function ApplyField(b: Booking, req: UpdateRequest, f: Field): Booking {
    match f
    case Customer => if req.customer.Some? then b.(customer := req.customer.value) else b
    case Email => if req.email.Some? then b.(email := req.email.value) else b
    case Phone => if req.phone.Some? then b.(phone := req.phone.value) else b
    case Car =>
      var source := UpdateCarSource(req.car);
      if source.Some? then b.(car := Summary(KeepCarId(BuildCarSummary(source.value), b.car))) else b
    case PickupDate => if req.pickupDate.Some? then b.(pickupDate := req.pickupDate.value) else b
    case ReturnDate => if req.returnDate.Some? then b.(returnDate := req.returnDate.value) else b
    case BookingDate => if req.bookingDate.Some? then b.(bookingDate := req.bookingDate) else b
    case Status => if req.status.Some? then b.(status := req.status.value) else b
    case Amount => if req.amount.Some? then b.(amount := req.amount.value) else b
    case Details => var j := TryParseExtra(req.details); if j.Some? then b.(details := j) else b
    case Address => var j := TryParseExtra(req.address); if j.Some? then b.(address := j) else b
  }

  /** The fields `fs` applied in order. */
  function ApplyFields(b: Booking, req: UpdateRequest, fs: seq<Field>): Booking
    decreases |fs|
  {
    if fs == [] then b else ApplyField(ApplyFields(b, req, fs[..|fs| - 1]), req, fs[|fs| - 1])
  }

  /** `p` when the body gives it, else the current value. */
  function Given<T>(p: Option<T>, current: T): (r: T)
    ensures p.None? ==> r == current
    ensures p.Some? ==> r == p.value
  {
    if p.Some? then p.value else current
  }

  /** The booking's car after a car update. */
  function RevisedCar(current: CarField, c: CarRef): CarField {
    var source := UpdateCarSource(c);
    if source.Some? then Summary(KeepCarId(BuildCarSummary(source.value), current)) else current
  }

  /** The whole update at once, field by field independently: the reference
      the loop of `updateBooking` is proved against. */
  function Revised(b: Booking, req: UpdateRequest, upload: Option<string>): Booking {
    var img := ApplyImage(b, req, upload);
    img.(
      customer := Given(req.customer, b.customer),
      email := Given(req.email, b.email),
      phone := Given(req.phone, b.phone),
      car := RevisedCar(b.car, req.car),
      pickupDate := Given(req.pickupDate, b.pickupDate),
      returnDate := Given(req.returnDate, b.returnDate),
      bookingDate := if req.bookingDate.Some? then req.bookingDate else b.bookingDate,
      status := Given(req.status, b.status),
      amount := Given(req.amount, b.amount),
      details := if req.details.ExtraAbsent? then b.details else TryParseExtra(req.details),
      address := if req.address.ExtraAbsent? then b.address else TryParseExtra(req.address))
  }

  lemma ApplyFieldsStep(b: Booking, req: UpdateRequest, fs: seq<Field>, k: nat)
    requires k < |fs|
    ensures ApplyFields(b, req, fs[..k + 1]) == ApplyField(ApplyFields(b, req, fs[..k]), req, fs[k])
  {
    assert fs[..k + 1][..k] == fs[..k];
  }

  /** The first three fields of the loop. */
  lemma OpeningFields(b0: Booking, req: UpdateRequest)
    ensures ApplyFields(b0, req, Updatable[..3]) ==
      b0.(customer := Given(req.customer, b0.customer), email := Given(req.email, b0.email),
          phone := Given(req.phone, b0.phone))
  {
    var u := Updatable;
    assert u[..0] == [];
    var b1 := ApplyFields(b0, req, u[..1]);
    assert b1 == b0.(customer := Given(req.customer, b0.customer)) by { ApplyFieldsStep(b0, req, u, 0); }
    var b2 := ApplyFields(b0, req, u[..2]);
    assert b2 == b1.(email := Given(req.email, b0.email)) by { ApplyFieldsStep(b0, req, u, 1); }
    assert ApplyFields(b0, req, u[..3]) == b2.(phone := Given(req.phone, b0.phone)) by { ApplyFieldsStep(b0, req, u, 2); }
  }

  /** The first five fields of the loop. */
  lemma FirstFields(b0: Booking, req: UpdateRequest)
    ensures ApplyFields(b0, req, Updatable[..5]) ==
      b0.(customer := Given(req.customer, b0.customer), email := Given(req.email, b0.email),
          phone := Given(req.phone, b0.phone), car := RevisedCar(b0.car, req.car),
          pickupDate := Given(req.pickupDate, b0.pickupDate))
  {
    var u := Updatable;
    OpeningFields(b0, req);
    var b3 := ApplyFields(b0, req, u[..3]);
    var b4 := ApplyFields(b0, req, u[..4]);
    assert b4 == b3.(car := RevisedCar(b0.car, req.car)) by { ApplyFieldsStep(b0, req, u, 3); }
    assert ApplyFields(b0, req, u[..5]) == b4.(pickupDate := Given(req.pickupDate, b0.pickupDate)) by { ApplyFieldsStep(b0, req, u, 4); }
  }

  /** Fields six to eight of the loop. */
  lemma MiddleFields(b0: Booking, req: UpdateRequest)
    ensures ApplyFields(b0, req, Updatable[..8]) ==
      var b5 := ApplyFields(b0, req, Updatable[..5]);
      b5.(returnDate := Given(req.returnDate, b5.returnDate),
          bookingDate := if req.bookingDate.Some? then req.bookingDate else b5.bookingDate,
          status := Given(req.status, b5.status))
  {
    var u := Updatable;
    var b5 := ApplyFields(b0, req, u[..5]);
    var b6 := ApplyFields(b0, req, u[..6]);
    assert b6 == b5.(returnDate := Given(req.returnDate, b5.returnDate)) by { ApplyFieldsStep(b0, req, u, 5); }
    var b7 := ApplyFields(b0, req, u[..7]);
    assert b7 == b6.(bookingDate := if req.bookingDate.Some? then req.bookingDate else b5.bookingDate) by { ApplyFieldsStep(b0, req, u, 6); }
    assert ApplyFields(b0, req, u[..8]) == b7.(status := Given(req.status, b5.status)) by { ApplyFieldsStep(b0, req, u, 7); }
  }

  /** The last three fields of the loop. */
  lemma LastFields(b0: Booking, req: UpdateRequest)
    ensures ApplyFields(b0, req, Updatable) ==
      var b8 := ApplyFields(b0, req, Updatable[..8]);
      b8.(amount := Given(req.amount, b8.amount),
          details := if req.details.ExtraAbsent? then b8.details else TryParseExtra(req.details),
          address := if req.address.ExtraAbsent? then b8.address else TryParseExtra(req.address))
  {
    var u := Updatable;
    var b8 := ApplyFields(b0, req, u[..8]);
    var b9 := ApplyFields(b0, req, u[..9]);
    assert b9 == b8.(amount := Given(req.amount, b8.amount)) by { ApplyFieldsStep(b0, req, u, 8); }
    var b10 := ApplyFields(b0, req, u[..10]);
    assert b10 == b9.(details := if req.details.ExtraAbsent? then b8.details else TryParseExtra(req.details)) by { ApplyFieldsStep(b0, req, u, 9); }
    assert ApplyFields(b0, req, u) == b10.(address := if req.address.ExtraAbsent? then b8.address else TryParseExtra(req.address)) by {
      ApplyFieldsStep(b0, req, u, 10);
      assert u[..11] == u;
    }
  }

  /** The loop over `updatable` computes the field-independent update. */
  lemma FieldByFieldIsRevised(b: Booking, req: UpdateRequest, upload: Option<string>)
    ensures ApplyFields(ApplyImage(b, req, upload), req, Updatable) == Revised(b, req, upload)
  {
    var b0 := ApplyImage(b, req, upload);
    FirstFields(b0, req);
    MiddleFields(b0, req);
    LastFields(b0, req);
  }

  /** `updateBooking`: 404 for an unknown id; otherwise replace the image if
      asked, copy every listed field the body gives, and save. Dates and car
      changes are not checked against other bookings. */
  method UpdateBooking(store: Store, id: string, req: UpdateRequest, upload: Option<string>)
    returns (r: Reply<Booking>, released: Option<string>)
    requires store.Valid()
    modifies store
    ensures store.Valid() && store.cars == old(store.cars)
    ensures id !in old(store.bookings) ==>
      r == Fail(404, BookingNotFoundMessage) && released.None? && store.bookings == old(store.bookings)
    ensures id in old(store.bookings) ==>
      var updated := Revised(old(store.bookings)[id], req, upload);
      r == Ok(updated) && released == ReleasedImage(old(store.bookings)[id], req, upload) &&
      store.bookings == old(store.bookings)[id := updated]
  {
    if id !in store.bookings {
      return Fail(404, BookingNotFoundMessage), None;
    }
    var original := store.bookings[id];
    released := ReleasedImage(original, req, upload);
    var booking := ApplyImage(original, req, upload);
    ghost var start := booking;
    for i := 0 to |Updatable|
      invariant booking == ApplyFields(start, req, Updatable[..i])
      invariant store.bookings == old(store.bookings) && store.cars == old(store.cars)
    {
      ApplyFieldsStep(start, req, Updatable, i);
      booking := ApplyField(booking, req, Updatable[i]);
    }
    assert Updatable[..|Updatable|] == Updatable;
    FieldByFieldIsRevised(original, req, upload);
    store.Save(id, booking);
    r := Ok(booking);
  }

  /** `updateBookingStatus`: a falsy status is refused before the lookup. */
  method UpdateBookingStatus(store: Store, id: string, status: string) returns (r: Reply<Booking>)
    requires store.Valid()
    modifies store
    ensures store.Valid() && store.cars == old(store.cars)
    ensures status == "" ==> r == Fail(400, StatusRequiredMessage) && store.bookings == old(store.bookings)
    ensures status != "" && id !in old(store.bookings) ==>
      r == Fail(404, BookingNotFoundMessage) && store.bookings == old(store.bookings)
    ensures status != "" && id in old(store.bookings) ==>
      r == Ok(old(store.bookings)[id].(status := status)) &&
      store.bookings == old(store.bookings)[id := old(store.bookings)[id].(status := status)]
  {
    if status == "" {
      return Fail(400, StatusRequiredMessage);
    }
    if id !in store.bookings {
      return Fail(404, BookingNotFoundMessage);
    }
    var booking := store.bookings[id].(status := status);
    store.Save(id, booking);
    r := Ok(booking);
  }

  /** `deleteBooking`: remove the booking and name its local image file for
      deletion. */
  method DeleteBooking(store: Store, id: string) returns (r: Reply<string>, released: Option<string>)
    requires store.Valid()
    modifies store
    ensures store.Valid() && store.cars == old(store.cars)
    ensures id !in old(store.bookings) ==>
      r == Fail(404, BookingNotFoundMessage) && released.None? && store.bookings == old(store.bookings)
    ensures id in old(store.bookings) ==>
      r == Ok(DeletedMessage) && store.bookings == old(store.bookings) - {id} &&
      released == (if IsLocalImage(old(store.bookings)[id].carImage) then Some(old(store.bookings)[id].carImage) else None)
  {
    if id !in store.bookings {
      return Fail(404, BookingNotFoundMessage), None;
    }
    var image := store.bookings[id].carImage;
    released := if IsLocalImage(image) then Some(image) else None;
    store.Remove(id);
    r := Ok(DeletedMessage);
  }
}
