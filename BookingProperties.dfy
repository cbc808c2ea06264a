/** What the booking coordinator guarantees across calls: the overlap rule
    read as "the two stays share an instant", the create decision in both
    directions, the no-double-booking invariant that a create keeps and an
    update can break, and the algebra of the field-by-field update. */
module BookingProperties {
  import opened JsValues
  import opened Documents
  import opened Ledger
  import opened BookingController

  /* ---------- the overlap rule ---------- */

  /** Instant `t` lies in the closed range `[lo, hi]`. */
  predicate Within(t: int, lo: int, hi: int) {
    lo <= t <= hi
  }

  /** Two well-formed closed ranges overlap exactly when some instant lies in
      both; in particular stays that touch at one endpoint overlap. */
  lemma {:induction false} OverlapsIffCommonInstant(a1: int, a2: int, b1: int, b2: int)
    requires a1 <= a2 && b1 <= b2
    ensures Overlaps(a1, a2, b1, b2) <==> exists t :: Within(t, a1, a2) && Within(t, b1, b2)
  {
    if Overlaps(a1, a2, b1, b2) {
      var t := if a1 < b1 then b1 else a1;
      assert Within(t, a1, a2) && Within(t, b1, b2);
    }
  }

  /** Overlap does not depend on which range is the stored one. */
  lemma OverlapsSymmetric(a1: int, a2: int, b1: int, b2: int)
    ensures Overlaps(a1, a2, b1, b2) <==> Overlaps(b1, b2, a1, a2)
  {
  }

  /** The count is positive exactly when some stored booking conflicts. */
  lemma {:induction false} CountPositiveIffConflict(bookings: map<string, Booking>, carId: string, range: Range)
    ensures OverlappingCount(bookings, carId, range) > 0 <==>
      exists k :: k in bookings && Conflicts(bookings[k], carId, range)
  {
    var s := Conflicting(bookings, carId, range);
    if |s| > 0 {
      var k :| k in s;
      assert k in bookings && Conflicts(bookings[k], carId, range);
    }
    if exists k :: k in bookings && Conflicts(bookings[k], carId, range) {
      var k :| k in bookings && Conflicts(bookings[k], carId, range);
      assert k in s;
    }
  }

  /** The create decision, in both directions: a 409 exactly when a valid
      request for a known car meets a conflicting booking, and a placement
      exactly when it meets none. */
  lemma {:induction false} PlanOutcome(bookings: map<string, Booking>, cars: map<string, CarRecord>, req: BookingRequest, caller: Option<string>)
    requires CarsKeyed(cars)
    ensures var p := Plan(bookings, cars, req, caller);
      var v := ValidateBooking(req);
      var c := ResolveCar(cars, req.car);
      (p == Fail(409, AlreadyBookedMessage) <==>
         v.Ok? && c.Ok? && exists k :: k in bookings && Conflicts(bookings[k], c.value.id.value, v.value)) &&
      (p.Ok? <==>
         v.Ok? && c.Ok? && forall k :: k in bookings ==> !Conflicts(bookings[k], c.value.id.value, v.value))
  {
    var v := ValidateBooking(req);
    var c := ResolveCar(cars, req.car);
    if v.Ok? && c.Ok? {
      CountPositiveIffConflict(bookings, c.value.id.value, v.value);
    }
  }

  /** A stored booking that does not block (cancelled, completed, ...) never
      changes what a create decides. */
  lemma {:induction false} NonBlockingBookingIgnored(bookings: map<string, Booking>, cars: map<string, CarRecord>, req: BookingRequest, caller: Option<string>, k: string, b: Booking)
    requires CarsKeyed(cars)
    requires k !in bookings && b.status !in BlockingStatuses
    ensures Plan(bookings[k := b], cars, req, caller) == Plan(bookings, cars, req, caller)
  {
    var v := ValidateBooking(req);
    var c := ResolveCar(cars, req.car);
    if v.Ok? && c.Ok? {
      var carId, range := c.value.id.value, v.value;
      assert Conflicting(bookings[k := b], carId, range) == Conflicting(bookings, carId, range);
    }
  }

  /** Resolving a stored car by its ObjectId or by its own document as a
      payload gives the same summary. */
  lemma ResolveByIdOrDocumentAgree(cars: map<string, CarRecord>, id: string, json: CarJson)
    requires CarsKeyed(cars) && id in cars && IsObjectIdHex(id)
    ensures ResolveCar(cars, CarText(id, json)) == ResolveCar(cars, CarObject(cars[id].doc))
    ensures ResolveCar(cars, CarText(id, json)).Ok?
  {
  }

  /* ---------- no double booking ---------- */

  /** Two bookings hold the same car over a common instant. */
  predicate Clash(x: Booking, y: Booking) {
    CarIdOf(x.car).Some? && CarIdOf(x.car) == CarIdOf(y.car) &&
    x.status in BlockingStatuses && y.status in BlockingStatuses &&
    Overlaps(x.pickupDate, x.returnDate, y.pickupDate, y.returnDate)
  }

  /** No two stored bookings clash. */
  ghost predicate NoDoubleBooking(bookings: map<string, Booking>) {
    forall a, b :: a in bookings && b in bookings && a != b ==> !Clash(bookings[a], bookings[b])
  }

  /** A booking a create places clashes with a stored one only if the
      overlap query would have matched the stored one. */
  lemma PlacedClashIsConflict(placed: Booking, carId: string, range: Range, other: Booking)
    requires CarIdOf(placed.car) == Some(carId)
    requires placed.pickupDate == range.pickup && placed.returnDate == range.ret
    requires Clash(placed, other) || Clash(other, placed)
    ensures Conflicts(other, carId, range)
  {
  }

  /** A create that succeeds keeps the store free of double bookings. */
  lemma {:induction false} CreatePreservesNoDoubleBooking(bookings: map<string, Booking>, cars: map<string, CarRecord>, req: BookingRequest, caller: Option<string>, freshId: string)
    requires CarsKeyed(cars) && NoDoubleBooking(bookings) && freshId !in bookings
    requires Plan(bookings, cars, req, caller).Ok?
    ensures NoDoubleBooking(bookings[freshId := Plan(bookings, cars, req, caller).value.booking])
  {
    var p := Plan(bookings, cars, req, caller).value;
    var range := ValidateBooking(req).value;
    var after := bookings[freshId := p.booking];
    forall a, b | a in after && b in after && a != b
      ensures !Clash(after[a], after[b])
    {
      if a == freshId || b == freshId {
        var other := if a == freshId then b else a;
        if Clash(after[a], after[b]) {
          PlacedClashIsConflict(p.booking, p.carId, range, bookings[other]);
          assert false;
        }
      }
    }
  }

  /** Moving a booking to a status that does not block keeps the store free
      of double bookings. */
  lemma {:induction false} ReleasingStatusPreservesNoDoubleBooking(bookings: map<string, Booking>, id: string, status: string)
    requires NoDoubleBooking(bookings) && id in bookings && status !in BlockingStatuses
    ensures NoDoubleBooking(bookings[id := bookings[id].(status := status)])
  {
    var after := bookings[id := bookings[id].(status := status)];
    forall a, b | a in after && b in after && a != b
      ensures !Clash(after[a], after[b])
    {
      if a != id && b != id {
        assert !Clash(bookings[a], bookings[b]);
      }
    }
  }

  /** Deleting a booking keeps the store free of double bookings. */
  lemma DeletePreservesNoDoubleBooking(bookings: map<string, Booking>, id: string)
    requires NoDoubleBooking(bookings)
    ensures NoDoubleBooking(bookings - {id})
  {
  }

  /* ---------- the update ---------- */

  /** An update body that gives no field. */
  const NoChanges := UpdateRequest(None, None, None, CarMissing, None, None, None, None, None, ExtraAbsent, ExtraAbsent, None)

  /** An update that gives nothing and uploads nothing leaves the booking as
      it was. */
  lemma EmptyUpdateIsIdentity(b: Booking)
    ensures Revised(b, NoChanges, None) == b
  {
  }

  /** An update never touches the owner, the payment state, the currency or
      the provider session, and a listed field the body does not give keeps
      its value. */
  lemma UpdateTouchesOnlyGivenFields(b: Booking, req: UpdateRequest, upload: Option<string>)
    ensures var r := Revised(b, req, upload);
      r.userId == b.userId && r.paymentStatus == b.paymentStatus && r.currency == b.currency &&
      r.sessionId == b.sessionId && r.stripeSession == b.stripeSession &&
      r.paymentIntentId == b.paymentIntentId && r.paymentDetails == b.paymentDetails &&
      (req.customer.None? ==> r.customer == b.customer) &&
      (req.email.None? ==> r.email == b.email) &&
      (req.phone.None? ==> r.phone == b.phone) &&
      (req.car.CarMissing? ==> r.car == b.car) &&
      (req.pickupDate.None? ==> r.pickupDate == b.pickupDate) &&
      (req.returnDate.None? ==> r.returnDate == b.returnDate) &&
      (req.bookingDate.None? ==> r.bookingDate == b.bookingDate) &&
      (req.status.None? ==> r.status == b.status) &&
      (req.amount.None? ==> r.amount == b.amount) &&
      (req.details.ExtraAbsent? ==> r.details == b.details) &&
      (req.address.ExtraAbsent? ==> r.address == b.address) &&
      (upload.None? && (req.carImage.None? || req.carImage.value == "") ==> r.carImage == b.carImage)
  {
  }

  /** A stored image replaced by another `/uploads/` path from the body is
      not released: the old file stays on disk. */
  lemma LocalReplacementReleasesNothing(b: Booking, req: UpdateRequest)
    requires IsLocalImage(b.carImage)
    requires req.carImage.Some? && IsLocalImage(req.carImage.value)
    ensures ApplyImage(b, req, None).carImage == req.carImage.value
    ensures ReleasedImage(b, req, None).None?
  {
  }

  /** A car update whose payload carries no id keeps the booking's car id. */
  lemma UpdateKeepsCarId(b: Booking, req: UpdateRequest, upload: Option<string>)
    requires UpdateCarSource(req.car).Some?
    requires UpdateCarSource(req.car).value.oid == "" && UpdateCarSource(req.car).value.id == ""
    ensures CarIdOf(Revised(b, req, upload).car) == CarIdOf(b.car)
  {
  }

  /** Applying the same update twice is the same as applying it once. */
  lemma UpdateIdempotent(b: Booking, req: UpdateRequest, upload: Option<string>)
    ensures Revised(Revised(b, req, upload), req, upload) == Revised(b, req, upload)
  {
    var once := Revised(b, req, upload);
    var source := UpdateCarSource(req.car);
    if source.Some? {
      var s := BuildCarSummary(source.value);
      assert CarIdOf(Summary(KeepCarId(s, b.car))) == CarIdOf(Summary(KeepCarId(s, once.car)));
    }
  }

  /* ---------- a worked example ---------- */

  const CarHex := "65f1a2b3c4d5e6f708192a3b"
  /** Midnight UTC of 1, 5, 6 and 8 June 2024, in milliseconds. */
  const June1 := 1717200000000
  const June5 := 1717545600000
  const June6 := 1717632000000
  const June8 := 1717804800000

  const SampleCar := EmptyDoc.(oid := CarHex, make := "Toyota", model := "Corolla")

  /** A pending booking of the sample car from 1 to 5 June. */
  const FirstStay := Booking(None, "Asha", "asha@example.com", "", Summary(BuildCarSummary(SampleCar)), "",
    June1, June5, None, Num(0.0), None, None, "pending", "pending", None, None, None, None, None)

  function StayRequest(pickup: int, ret: int): BookingRequest {
    BookingRequest("Ravi", "ravi@example.com", "", CarText(CarHex, NotJson),
      DateGiven(Some(pickup)), DateGiven(Some(ret)), None, ExtraAbsent, ExtraAbsent, "")
  }

  lemma SampleCarIdIsHex()
    ensures IsObjectIdHex(CarHex)
  {
  }

  /** With the 1-5 June stay stored, a 5-8 June request for the same car is
      refused because the stays touch on 5 June. */
  lemma TouchingStayRefused()
    ensures Plan(map["b1" := FirstStay], map[CarHex := CarRecord(SampleCar, [])], StayRequest(June5, June8), None)
      == Fail(409, AlreadyBookedMessage)
  {
    SampleCarIdIsHex();
    assert Conflicts(FirstStay, CarHex, Range(June5, June8));
    assert "b1" in Conflicting(map["b1" := FirstStay], CarHex, Range(June5, June8));
  }

  /** A 6-8 June request is placed, and the car's mirror then holds both
      stays. */
  lemma FollowingStayPlaced()
    ensures var cars := map[CarHex := CarRecord(SampleCar, [EntryFor("b1", FirstStay)])];
      var p := Plan(map["b1" := FirstStay], cars, StayRequest(June6, June8), None);
      p.Ok? && p.value.carId == CarHex &&
      |WithMirrorEntry(cars, CarHex, EntryFor("b2", p.value.booking))[CarHex].bookings| == 2
  {
    SampleCarIdIsHex();
    assert !Conflicts(FirstStay, CarHex, Range(June6, June8));
    assert Conflicting(map["b1" := FirstStay], CarHex, Range(June6, June8)) == {};
  }

  /** The same 5-8 June request succeeds once the first stay is cancelled. */
  lemma CancelledStayDoesNotBlock()
    ensures Plan(map["b1" := FirstStay.(status := "cancelled")], map[CarHex := CarRecord(SampleCar, [])], StayRequest(June5, June8), None).Ok?
  {
    SampleCarIdIsHex();
    assert Conflicting(map["b1" := FirstStay.(status := "cancelled")], CarHex, Range(June5, June8)) == {};
  }

  /** Updates are not checked against other bookings: moving a stored 6-8
      June stay to start on 5 June makes it clash with the 1-5 June stay. */
  lemma UpdateMayBreakNoDoubleBooking()
    ensures var second := FirstStay.(pickupDate := June6, returnDate := June8);
      var before := map["b1" := FirstStay, "b2" := second];
      var move := NoChanges.(pickupDate := Some(June5));
      NoDoubleBooking(before) && !NoDoubleBooking(before["b2" := Revised(second, move, None)])
  {
    var second := FirstStay.(pickupDate := June6, returnDate := June8);
    var before := map["b1" := FirstStay, "b2" := second];
    var move := NoChanges.(pickupDate := Some(June5));
    var after := before["b2" := Revised(second, move, None)];
    assert Clash(after["b1"], after["b2"]);
  }
}
