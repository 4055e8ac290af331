/**
 The rider-facing handlers of backend/src/controllers/booking.controller.ts: ride options,
 booking creation, lookup by id and history. Each handler is a function from the database and
 the request to the reply (and, for creation, the new database).
 */
module BookingController {

  import opened Common
  import opened Vehicles
  import opened BookingModel
  import opened Database

  /** One entry of the ride-options reply. */
  datatype RideOption = RideOption(vehicleType: string, fare: int, estimatedTimeMin: int)

  const DISTANCE_REQUIRED := "distance query parameter required"
  const DISTANCE_NOT_POSITIVE := "distance must be a positive number"
  const SERVER_ERROR := "Server error"

  /** `GET /api/ride/options?distance=X`. `distance` is the raw query value; `parseFloat` is
      JavaScript's parser, `None` standing for NaN. */
  function GetRideOptions(distance: Option<string>, parseFloat: string -> Option<real>): (r: Result<seq<RideOption>, HttpError>)
    ensures !Truthy(distance) ==> r == Failure(BadRequest(DISTANCE_REQUIRED))
    ensures (Truthy(distance) && (parseFloat(distance.value).None? || parseFloat(distance.value).value <= 0.0))
            ==> r == Failure(BadRequest(DISTANCE_NOT_POSITIVE))
    ensures r.Success? <==> Truthy(distance) && parseFloat(distance.value).Some? && parseFloat(distance.value).value > 0.0
    ensures r.Success? ==>
      var d := parseFloat(distance.value).value;
      && |r.value| == 3
      && r.value[0] == RideOption("BIKE", FareAndTimeFor(BIKE, d).fare, FareAndTimeFor(BIKE, d).estimatedTimeMin)
      && r.value[1] == RideOption("AUTO", FareAndTimeFor(AUTO, d).fare, FareAndTimeFor(AUTO, d).estimatedTimeMin)
      && r.value[2] == RideOption("CAR", FareAndTimeFor(CAR, d).fare, FareAndTimeFor(CAR, d).estimatedTimeMin)
  {
    if !Truthy(distance) then Failure(BadRequest(DISTANCE_REQUIRED))
    else match parseFloat(distance.value)
      case None => Failure(BadRequest(DISTANCE_NOT_POSITIVE))
      case Some(d) =>
        if d <= 0.0 then Failure(BadRequest(DISTANCE_NOT_POSITIVE))
        else
          match (CalculateFareAndTime("BIKE", d), CalculateFareAndTime("AUTO", d), CalculateFareAndTime("CAR", d))
          case (Success(bike), Success(auto), Success(car)) =>
            Success([RideOption("BIKE", bike.fare, bike.estimatedTimeMin),
                     RideOption("AUTO", auto.fare, auto.estimatedTimeMin),
                     RideOption("CAR", car.fare, car.estimatedTimeMin)])
          case _ => Failure(ServerError(SERVER_ERROR))
  }

  /** Every option of a successful reply costs at least 1 and takes at least a minute, and the
      options are ordered BIKE <= AUTO <= CAR in both fare and time. */
  lemma RideOptionsOrdered(distance: Option<string>, parseFloat: string -> Option<real>)
    requires GetRideOptions(distance, parseFloat).Success?
    ensures var opts := GetRideOptions(distance, parseFloat).value;
      && (forall i :: 0 <= i < 3 ==> opts[i].fare >= 1 && opts[i].estimatedTimeMin >= 1)
      && opts[0].fare <= opts[1].fare <= opts[2].fare
      && opts[0].estimatedTimeMin <= opts[1].estimatedTimeMin <= opts[2].estimatedTimeMin
  {
    var d := parseFloat(distance.value).value;
    FareAndTimePositive(BIKE, d);
    FareAndTimePositive(AUTO, d);
    FareAndTimePositive(CAR, d);
    FareAndTimeOrdered(BIKE, AUTO, d);
    FareAndTimeOrdered(AUTO, CAR, d);
  }

  /** The body of `POST /api/ride/book`. A field is `None` when it is absent or, for the numeric
      fields, when `typeof` is not "number". */
  datatype BookingRequest = BookingRequest(
    pickupLocation: Option<string>,
    dropLocation: Option<string>,
    distanceKm: Option<real>,
    vehicleType: Option<string>,
    fare: Option<real>,
    estimatedTimeMin: Option<real>)

  /** The summary echoed back for a created booking. */
  datatype CreatedBooking = CreatedBooking(bookingId: Id, status: BookingStatus, fare: real, estimatedTimeMin: real)

  const MISSING_FIELDS := "Missing or invalid required fields: pickupLocation, dropLocation, distanceKm, vehicleType, fare, estimatedTimeMin"
  const INVALID_VEHICLE_TYPE := "Invalid vehicleType. Must be BIKE, AUTO, or CAR"

  predicate FieldsPresent(req: BookingRequest)
  {
    && Truthy(req.pickupLocation) && Truthy(req.dropLocation)
    && req.distanceKm.Some? && Truthy(req.vehicleType)
    && req.fare.Some? && req.estimatedTimeMin.Some?
  }

  /** `POST /api/ride/book` for the authenticated rider `userId`. The store hands out the fresh id
      `newId` and the clock reads `now`. The client's distance, fare and time are stored as sent:
      nothing is recomputed and nothing is checked for sign. */
  function CreateBooking(db: Db, userId: Id, req: BookingRequest, newId: Id, now: int): (r: Result<(Db, CreatedBooking), HttpError>)
    requires newId !in db.bookings
    ensures !FieldsPresent(req) ==> r == Failure(BadRequest(MISSING_FIELDS))
    ensures (FieldsPresent(req) && ParseVehicleType(req.vehicleType.value).None?)
            ==> r == Failure(BadRequest(INVALID_VEHICLE_TYPE))
    ensures FieldsPresent(req) && ParseVehicleType(req.vehicleType.value).Some? && userId != "" ==> r.Success?
    ensures r.Success? ==>
      var (db', reply) := r.value;
      && FieldsPresent(req)
      && db'.drivers == db.drivers
      && db'.bookings.Keys == db.bookings.Keys + {newId}
      && (forall k :: k in db.bookings ==> db'.bookings[k] == db.bookings[k])
      && var b := db'.bookings[newId];
         && b.userId == userId && b.driverId == None && b.status == PENDING
         && b.pickupLocation == req.pickupLocation.value && b.dropLocation == req.dropLocation.value
         && b.distanceKm == req.distanceKm.value && b.fare == req.fare.value
         && b.estimatedTimeMin == req.estimatedTimeMin.value
         && VehicleTypeName(b.vehicleType) == req.vehicleType.value
         && b.createdAt == now
         && reply == CreatedBooking(newId, b.status, b.fare, b.estimatedTimeMin)
  {
    if !FieldsPresent(req) then Failure(BadRequest(MISSING_FIELDS))
    else if ParseVehicleType(req.vehicleType.value).None? then Failure(BadRequest(INVALID_VEHICLE_TYPE))
    else
      var doc := NewBooking(userId, req.pickupLocation.value, req.dropLocation.value, req.distanceKm.value,
                            req.vehicleType.value, req.fare.value, req.estimatedTimeMin.value, Some("PENDING"));
      match Create(doc, now)
      case Failure(_) => Failure(ServerError(SERVER_ERROR))
      case Success(b) =>
        Success((db.(bookings := db.bookings[newId := b]),
                 CreatedBooking(newId, b.status, b.fare, b.estimatedTimeMin)))
  }

  /** A booking with a negative fare is accepted and stored unchanged. */
  lemma NegativeFareAccepted(db: Db, userId: Id, newId: Id, now: int)
    requires newId !in db.bookings && userId != ""
    ensures var req := BookingRequest(Some("A"), Some("B"), Some(-3.0), Some("CAR"), Some(-100.0), Some(-1.0));
      && CreateBooking(db, userId, req, newId, now).Success?
      && CreateBooking(db, userId, req, newId, now).value.0.bookings[newId].fare == -100.0
  {
    assert ParseVehicleType("CAR") == Some(CAR);
  }

  const BOOKING_ID_REQUIRED := "bookingId required"
  const BOOKING_NOT_FOUND := "Booking not found"

  /** `GET /api/ride/:bookingId`: the stored booking, or not-found for an unknown id. */
  function GetBookingById(db: Db, bookingId: Option<Id>): (r: Result<Booking, HttpError>)
    ensures !Truthy(bookingId) ==> r == Failure(BadRequest(BOOKING_ID_REQUIRED))
    ensures Truthy(bookingId) && bookingId.value !in db.bookings ==> r == Failure(NotFound(BOOKING_NOT_FOUND))
    ensures r.Success? <==> Truthy(bookingId) && bookingId.value in db.bookings
    ensures r.Success? ==> r.value == db.bookings[bookingId.value]
  {
    if !Truthy(bookingId) then Failure(BadRequest(BOOKING_ID_REQUIRED))
    else if bookingId.value !in db.bookings then Failure(NotFound(BOOKING_NOT_FOUND))
    else Success(db.bookings[bookingId.value])
  }

  /** A created booking is then found by its id: PENDING, driverless and holding what the rider
      sent; every other lookup answers as before. */
  lemma CreateThenGet(db: Db, userId: Id, req: BookingRequest, newId: Id, now: int)
    requires newId !in db.bookings && newId != ""
    requires CreateBooking(db, userId, req, newId, now).Success?
    ensures var db' := CreateBooking(db, userId, req, newId, now).value.0;
      var g := GetBookingById(db', Some(newId));
      && g.Success? && g.value.status == PENDING && g.value.driverId == None
      && g.value.userId == userId && g.value.fare == req.fare.value
      && g.value.distanceKm == req.distanceKm.value && g.value.estimatedTimeMin == req.estimatedTimeMin.value
      && g.value.pickupLocation == req.pickupLocation.value && g.value.dropLocation == req.dropLocation.value
      && (forall k :: k != newId ==> GetBookingById(db', Some(k)) == GetBookingById(db, Some(k)))
  {
  }

  /** The page size of the history query. */
  const HISTORY_LIMIT: nat := 50

  const MISSING_USER_ID := "Missing userId"

  ghost function BookingsOf(db: Db, userId: Id): (ks: set<Id>)
    ensures ks <= db.bookings.Keys
  {
    set k | k in db.bookings && db.bookings[k].userId == userId
  }

  /** `GET /api/ride/history`: the ids of the caller's bookings, newest first, at most 50. */
  ghost function GetBookingHistory(db: Db, userId: Option<Id>): (r: Result<seq<Id>, HttpError>)
    ensures !Truthy(userId) ==> r == Failure(BadRequest(MISSING_USER_ID))
    ensures r.Success? <==> Truthy(userId)
    ensures r.Success? ==>
      && |r.value| <= HISTORY_LIMIT && Distinct(r.value)
      && (forall i :: 0 <= i < |r.value| ==> r.value[i] in db.bookings && db.bookings[r.value[i]].userId == userId.value)
      && (forall i, j :: 0 <= i < j < |r.value| ==>
            db.bookings[r.value[i]].createdAt >= db.bookings[r.value[j]].createdAt)
  {
    if !Truthy(userId) then Failure(BadRequest(MISSING_USER_ID))
    else Success(Take(NewestFirst(BookingsOf(db, userId.value), db.bookings), HISTORY_LIMIT))
  }

  /** The history holds all the caller's bookings when there are at most 50, and otherwise 50 of
      them with no left-out booking newer than one that is shown. */
  lemma HistoryIsNewestFifty(db: Db, userId: Id)
    requires userId != ""
    ensures var r := GetBookingHistory(db, Some(userId)).value;
      && |r| == (if |BookingsOf(db, userId)| <= HISTORY_LIMIT then |BookingsOf(db, userId)| else HISTORY_LIMIT)
      && (|BookingsOf(db, userId)| <= HISTORY_LIMIT ==> forall k :: k in BookingsOf(db, userId) ==> k in r)
      && (forall k, i :: k in BookingsOf(db, userId) && k !in r && 0 <= i < |r| ==>
            db.bookings[k].createdAt <= db.bookings[r[i]].createdAt)
  {
    var all := NewestFirst(BookingsOf(db, userId), db.bookings);
    var r := GetBookingHistory(db, Some(userId)).value;
    assert r == Take(all, HISTORY_LIMIT);
    forall k, i | k in BookingsOf(db, userId) && k !in r && 0 <= i < |r|
      ensures db.bookings[k].createdAt <= db.bookings[r[i]].createdAt
    {
      var j :| 0 <= j < |all| && all[j] == k;
      assert all[i] == r[i];
    }
  }
}
