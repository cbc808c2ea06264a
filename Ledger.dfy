/** The persisted state: the booking collection (the ledger) and the car
    collection, each car carrying its reservation mirror. The writes here are
    the store operations the controllers issue; each is one atomic step. */
module Ledger {
  import opened JsValues
  import opened Documents

  /** Every stored car's `_id` is the key it is stored under. */
  ghost predicate CarsKeyed(cars: map<string, CarRecord>) {
    forall k :: k in cars ==> cars[k].doc.oid == k
  }

  /** No payment-provider session id is recorded on two bookings. */
  ghost predicate SessionsUnique(bookings: map<string, Booking>) {
    forall a, b ::
      a in bookings && b in bookings && bookings[a].sessionId.Some? && bookings[a].sessionId == bookings[b].sessionId
      ==> a == b
  }

  /** `sid` is recorded on no booking. */
  ghost predicate SessionUnused(bookings: map<string, Booking>, sid: string) {
    forall k :: k in bookings ==> bookings[k].sessionId != Some(sid)
  }

  /** `cars` after `$push`ing entry `e` onto the mirror of car `carId`. */
  function WithMirrorEntry(cars: map<string, CarRecord>, carId: string, e: MirrorEntry): (r: map<string, CarRecord>)
    requires carId in cars
    ensures r.Keys == cars.Keys
    ensures r[carId].doc == cars[carId].doc && r[carId].bookings == cars[carId].bookings + [e]
    ensures forall k :: k in cars && k != carId ==> r[k] == cars[k]
  {
    cars[carId := cars[carId].(bookings := cars[carId].bookings + [e])]
  }

  class Store {
    var bookings: map<string, Booking>
    var cars: map<string, CarRecord>

    ghost predicate Valid()
      reads this
    {
      CarsKeyed(cars) && SessionsUnique(bookings)
    }

    /** A store holding the given cars and no bookings. */
    constructor (cars0: map<string, CarRecord>)
      requires CarsKeyed(cars0)
      ensures Valid()
      ensures bookings == map[] && cars == cars0
    {
      bookings := map[];
      cars := cars0;
    }

    /** `Booking.create`: store a new booking under a fresh ObjectId. */
    method Insert(id: string, b: Booking)
      requires Valid()
      requires id !in bookings
      requires b.sessionId.Some? ==> SessionUnused(bookings, b.sessionId.value)
      modifies this
      ensures Valid()
      ensures bookings == old(bookings)[id := b] && cars == old(cars)
    {
      bookings := bookings[id := b];
    }

    /** `findByIdAndDelete` / `remove`: drop a booking if it is there. */
    method Remove(id: string)
      requires Valid()
      modifies this
      ensures Valid()
      ensures bookings == old(bookings) - {id} && cars == old(cars)
    {
      bookings := bookings - {id};
    }

    /** `save` / `findByIdAndUpdate`: overwrite a stored booking. */
    method Save(id: string, b: Booking)
      requires Valid()
      requires id in bookings
      requires b.sessionId == bookings[id].sessionId
      modifies this
      ensures Valid()
      ensures bookings == old(bookings)[id := b] && cars == old(cars)
    {
      bookings := bookings[id := b];
    }

    /** `save` of a booking that now records provider session `sid`. */
    method SaveWithSession(id: string, b: Booking, sid: string)
      requires Valid()
      requires id in bookings && bookings[id].sessionId.None?
      requires b.sessionId == Some(sid) && SessionUnused(bookings, sid)
      modifies this
      ensures Valid()
      ensures bookings == old(bookings)[id := b] && cars == old(cars)
    {
      bookings := bookings[id := b];
    }

    /** `Car.findByIdAndUpdate(carId, { $push: { bookings: e } })`: a car that
        is not there is left alone. */
    method PushMirror(carId: string, e: MirrorEntry)
      requires Valid()
      modifies this
      ensures Valid()
      ensures bookings == old(bookings)
      ensures cars == if carId in old(cars) then WithMirrorEntry(old(cars), carId, e) else old(cars)
    {
      if carId in cars {
        cars := WithMirrorEntry(cars, carId, e);
      }
    }
  }
}
