/** What checkout and reconciliation guarantee across calls: confirming is
    idempotent, the metadata booking id wins over the session lookup, a
    checkout followed by a confirmation activates the booking it created,
    and, since checkout does not run the overlap check, it can double-book. */
module PaymentProperties {
  import opened JsValues
  import opened Documents
  import opened Ledger
  import BookingController
  import opened BookingProperties
  import opened PaymentController

  /** Two ledgers with the same keys, each booking recording the same
      session in both. */
  ghost predicate SameSessions(a: map<string, Booking>, b: map<string, Booking>) {
    a.Keys == b.Keys && forall k :: k in a ==> a[k].sessionId == b[k].sessionId
  }

  /** Ledgers with the same sessions resolve a session to the same booking. */
  lemma {:induction false} SameSessionsSameTarget(a: map<string, Booking>, b: map<string, Booking>, sessionId: string, s: CheckoutSession)
    requires SessionsUnique(a) && SameSessions(a, b)
    ensures SessionsUnique(b)
    ensures ConfirmTarget(a, sessionId, s) == ConfirmTarget(b, sessionId, s)
  {
    forall x, y | x in b && y in b && b[x].sessionId.Some? && b[x].sessionId == b[y].sessionId
      ensures x == y
    {
      assert a[x].sessionId == b[x].sessionId && a[y].sessionId == b[y].sessionId;
    }
    if exists k :: k in a && a[k].sessionId == Some(sessionId) {
      var k :| k in a && a[k].sessionId == Some(sessionId);
      assert b[k].sessionId == Some(sessionId);
    } else {
      assert forall k :: k in b ==> b[k].sessionId != Some(sessionId) by {
        forall k | k in b
          ensures b[k].sessionId != Some(sessionId)
        {
          assert a[k].sessionId == b[k].sessionId;
        }
      }
    }
  }

  /** Writing the confirmed fields twice is writing them once. */
  lemma PaidUpdateIdempotent(b: Booking, s: CheckoutSession)
    ensures PaidUpdate(PaidUpdate(b, s), s) == PaidUpdate(b, s)
    ensures PaidUpdate(b, s).sessionId == b.sessionId
  {
  }

  /** Confirming the same session a second time answers the same and leaves
      the ledger as the first confirmation left it. */
  lemma {:induction false} ConfirmIdempotent(bookings: map<string, Booking>, sessionId: string, retrieval: Retrieval)
    requires SessionsUnique(bookings)
    ensures var once := Confirmed(bookings, sessionId, retrieval);
      SessionsUnique(once) &&
      ConfirmPlan(once, sessionId, retrieval) == ConfirmPlan(bookings, sessionId, retrieval) &&
      Confirmed(once, sessionId, retrieval) == once
  {
    var p := ConfirmPlan(bookings, sessionId, retrieval);
    if p.Ok? {
      var s := retrieval.session.value;
      var (k, b) := p.value;
      var once := bookings[k := b];
      PaidUpdateIdempotent(bookings[k], s);
      assert SameSessions(bookings, once);
      SameSessionsSameTarget(bookings, once, sessionId, s);
      assert ConfirmPlan(once, sessionId, retrieval) == p;
      assert once[k := b] == once;
    }
  }

  /** A paid session whose metadata names a stored booking updates that
      booking, whichever booking records the session. */
  lemma MetadataWins(bookings: map<string, Booking>, sessionId: string, s: CheckoutSession)
    requires SessionsUnique(bookings)
    requires sessionId != "" && s.paymentStatus == PaidStatus
    requires s.metadataBookingId != "" && s.metadataBookingId in bookings
    ensures ConfirmPlan(bookings, sessionId, Retrieved(Some(s))) ==
      Ok((s.metadataBookingId, PaidUpdate(bookings[s.metadataBookingId], s)))
  {
  }

  /** Without a usable metadata id, a paid session updates the booking that
      records it. */
  lemma FallbackToSessionId(bookings: map<string, Booking>, sessionId: string, s: CheckoutSession, k: string)
    requires SessionsUnique(bookings)
    requires sessionId != "" && s.paymentStatus == PaidStatus
    requires s.metadataBookingId == "" || s.metadataBookingId !in bookings
    requires k in bookings && bookings[k].sessionId == Some(sessionId)
    ensures ConfirmPlan(bookings, sessionId, Retrieved(Some(s))) == Ok((k, PaidUpdate(bookings[k], s)))
  {
  }

  /** A session that is not paid, or that resolves to no booking, leaves the
      ledger as it was. */
  lemma UnresolvedConfirmWritesNothing(bookings: map<string, Booking>, sessionId: string, s: CheckoutSession)
    requires SessionsUnique(bookings)
    requires s.paymentStatus != PaidStatus ||
      ((s.metadataBookingId == "" || s.metadataBookingId !in bookings) &&
       forall k :: k in bookings ==> bookings[k].sessionId != Some(sessionId))
    ensures Confirmed(bookings, sessionId, Retrieved(Some(s))) == bookings
    ensures ConfirmPlan(bookings, sessionId, Retrieved(Some(s))).Fail?
  {
  }

  /** The ledger after a checkout that opened session `sessionId`. */
  function AfterCheckout(bookings: map<string, Booking>, b: Booking, freshId: string, sessionId: string, url: string): (r: map<string, Booking>)
    ensures r.Keys == bookings.Keys + {freshId}
    ensures r[freshId].sessionId == Some(sessionId)
  {
    bookings[freshId := Attached(b, sessionId, url)]
  }

  /** A checkout that opened a session, followed by the provider reporting
      that session paid, activates exactly the booking the checkout created,
      whether or not the metadata came back. */
  lemma {:induction false} CheckoutThenConfirm(bookings: map<string, Booking>, body: Option<CheckoutRequest>, parseError: string,
                                               freshId: string, sessionId: string, url: string, s: CheckoutSession)
    requires SessionsUnique(bookings) && freshId != "" && freshId !in bookings
    requires sessionId != "" && SessionUnused(bookings, sessionId)
    requires CheckoutPlan(body, parseError).Ok?
    requires s.paymentStatus == PaidStatus
    requires s.metadataBookingId == SessionRequestFor(freshId, CheckoutPlan(body, parseError).value).metadata.bookingId ||
             s.metadataBookingId == ""
    ensures var b := CheckoutPlan(body, parseError).value;
      var after := AfterCheckout(bookings, b, freshId, sessionId, url);
      SessionsUnique(after) &&
      ConfirmPlan(after, sessionId, Retrieved(Some(s))) == Ok((freshId, PaidUpdate(Attached(b, sessionId, url), s))) &&
      Confirmed(after, sessionId, Retrieved(Some(s)))[freshId].status == ActiveStatus
  {
    var b := CheckoutPlan(body, parseError).value;
    var after := AfterCheckout(bookings, b, freshId, sessionId, url);
    forall x, y | x in after && y in after && after[x].sessionId.Some? && after[x].sessionId == after[y].sessionId
      ensures x == y
    {
      if x != freshId && y != freshId {
        assert bookings[x].sessionId == bookings[y].sessionId;
      }
    }
    if s.metadataBookingId == "" {
      assert after[freshId].sessionId == Some(sessionId);
    }
  }

  /* ---------- checkout skips the overlap check ---------- */

  /** A checkout for the sample car over the stay already held from 1 to 5
      June. */
  const OverlappingCheckout := CheckoutRequest(None, "Meera", "meera@example.com", "",
    CarObject(EmptyDoc.(id := CarHex, name := "Corolla")),
    DateGiven(Some(June1)), DateGiven(Some(June5)), Num(4200.0), ExtraAbsent, ExtraAbsent, "")

  /** The booking path refuses that stay; the checkout path creates it, and
      the ledger then holds two pending bookings of one car over the same
      days. */
  lemma CheckoutMayDoubleBook()
    ensures var before := map["b1" := FirstStay];
      var p := CheckoutPlan(Some(OverlappingCheckout), "");
      BookingController.Plan(before, map[CarHex := CarRecord(SampleCar, [])], StayRequest(June1, June5), None)
        == Fail(409, BookingController.AlreadyBookedMessage) &&
      p.Ok? &&
      NoDoubleBooking(before) &&
      !NoDoubleBooking(AfterCheckout(before, p.value, "b2", "cs_1", "https://checkout.example/cs_1"))
  {
    var before := map["b1" := FirstStay];
    var p := CheckoutPlan(Some(OverlappingCheckout), "");
    var after := AfterCheckout(before, p.value, "b2", "cs_1", "https://checkout.example/cs_1");
    SampleCarIdIsHex();
    assert BookingController.Conflicts(FirstStay, CarHex, BookingController.Range(June1, June5));
    assert "b1" in BookingController.Conflicting(before, CarHex, BookingController.Range(June1, June5));
    assert Clash(after["b1"], after["b2"]);
  }
}
