/**
 The driver-facing handlers of backend/src/controllers/driver.controller.ts: the pending-ride
 view, accepting a ride, the delayed auto-completion that credits the driver, and the earnings
 query. The five-second timer of `acceptRide` is the explicit step `Complete`.
 */
module DriverController {

  import opened Common
  import opened Vehicles
  import opened BookingModel
  import opened DriverModel
  import opened Database
  import BookingController

  const IDS_REQUIRED := "driverId and vehicleType required"
  const DRIVER_NOT_FOUND := "Driver not found"
  const VEHICLE_TYPE_MISMATCH := "Vehicle type mismatch"
  const BOOKING_ID_REQUIRED := "bookingId required"
  const BOOKING_NOT_FOUND := "Booking not found"
  const BOOKING_NOT_PENDING := "Booking is not pending"

  /** The bookings a driver of vehicle type v may pick up: that type, `PENDING`, no driver. */
  ghost function OpenBookings(db: Db, v: VehicleType): (ks: set<Id>)
    ensures ks <= db.bookings.Keys
  {
    set k | k in db.bookings && db.bookings[k].vehicleType == v
                             && db.bookings[k].status == PENDING && db.bookings[k].driverId == None
  }

  /** `GET /api/driver/rides?vehicleType=…` for the authenticated `driverId`. */
  ghost function GetPendingRides(db: Db, driverId: Option<Id>, vehicleType: Option<string>): (r: Result<seq<Id>, HttpError>)
    ensures (!Truthy(driverId) || !Truthy(vehicleType)) ==> r == Failure(BadRequest(IDS_REQUIRED))
    ensures (Truthy(driverId) && Truthy(vehicleType) && driverId.value !in db.drivers)
            ==> r == Failure(NotFound(DRIVER_NOT_FOUND))
    ensures (Truthy(driverId) && Truthy(vehicleType) && driverId.value in db.drivers
             && VehicleTypeName(db.drivers[driverId.value].vehicleType) != vehicleType.value)
            ==> r == Failure(BadRequest(VEHICLE_TYPE_MISMATCH))
    ensures r.Success? <==>
      && Truthy(driverId) && Truthy(vehicleType) && driverId.value in db.drivers
      && VehicleTypeName(db.drivers[driverId.value].vehicleType) == vehicleType.value
    ensures r.Success? ==>
      && Truthy(driverId) && driverId.value in db.drivers
      && VehicleTypeName(db.drivers[driverId.value].vehicleType) == vehicleType.value
      && Distinct(r.value)
      && (forall k :: k in r.value <==>
            (k in db.bookings && VehicleTypeName(db.bookings[k].vehicleType) == vehicleType.value
             && db.bookings[k].status == PENDING && db.bookings[k].driverId == None))
      && (forall i, j :: 0 <= i < j < |r.value| ==>
            db.bookings[r.value[i]].createdAt >= db.bookings[r.value[j]].createdAt)
  {
    if !Truthy(driverId) || !Truthy(vehicleType) then Failure(BadRequest(IDS_REQUIRED))
    else if driverId.value !in db.drivers then Failure(NotFound(DRIVER_NOT_FOUND))
    else
      var v := db.drivers[driverId.value].vehicleType;
      if VehicleTypeName(v) != vehicleType.value then Failure(BadRequest(VEHICLE_TYPE_MISMATCH))
      else
        assert forall w :: VehicleTypeName(w) == VehicleTypeName(v) ==> w == v;
        Success(NewestFirst(OpenBookings(db, v), db.bookings))
  }

  /** The delayed completion scheduled by an accepted ride: the booking, the accepting driver
      and the fare of the booking as it was read when the ride was accepted. */
  datatype CompletionJob = CompletionJob(bookingId: Id, driverId: Id, fare: real)

  datatype AcceptResponse = AcceptResponse(
    bookingId: Id,
    status: BookingStatus,
    fare: real,
    earnedAmount: real,
    totalEarnings: real)

  datatype Accepted = Accepted(db: Db, response: AcceptResponse, job: CompletionJob)

  /** `POST /api/driver/accept` by the authenticated `driverId`. The guards run in order: a
      booking id is given, the driver exists, the booking exists, it is `PENDING`, the vehicle
      types match. The first failing guard decides the reply. */
  function AcceptRide(db: Db, driverId: Id, bookingId: Option<Id>): (r: Result<Accepted, HttpError>)
    ensures !Truthy(bookingId) ==> r == Failure(BadRequest(BOOKING_ID_REQUIRED))
    ensures (Truthy(bookingId) && driverId !in db.drivers) ==> r == Failure(NotFound(DRIVER_NOT_FOUND))
    ensures (Truthy(bookingId) && driverId in db.drivers && bookingId.value !in db.bookings)
            ==> r == Failure(NotFound(BOOKING_NOT_FOUND))
    ensures (Truthy(bookingId) && driverId in db.drivers && bookingId.value in db.bookings
             && db.bookings[bookingId.value].status != PENDING)
            ==> r == Failure(BadRequest(BOOKING_NOT_PENDING))
    ensures (Truthy(bookingId) && driverId in db.drivers && bookingId.value in db.bookings
             && db.bookings[bookingId.value].status == PENDING
             && db.bookings[bookingId.value].vehicleType != db.drivers[driverId].vehicleType)
            ==> r == Failure(BadRequest(VEHICLE_TYPE_MISMATCH))
    ensures r.Success? <==>
      && Truthy(bookingId) && driverId in db.drivers && bookingId.value in db.bookings
      && db.bookings[bookingId.value].status == PENDING
      && db.bookings[bookingId.value].vehicleType == db.drivers[driverId].vehicleType
    ensures r.Success? ==>
      var bid := bookingId.value;
      var b := db.bookings[bid];
      && r.value.db.drivers == db.drivers
      && r.value.db.bookings == db.bookings[bid := b.(driverId := Some(driverId), status := ACCEPTED)]
      && r.value.job == CompletionJob(bid, driverId, b.fare)
      && r.value.response.status == ACCEPTED
      && r.value.response.earnedAmount == b.fare
      && r.value.response.totalEarnings == db.drivers[driverId].walletBalance + b.fare
  {
    if !Truthy(bookingId) then Failure(BadRequest(BOOKING_ID_REQUIRED))
    else if driverId !in db.drivers then Failure(NotFound(DRIVER_NOT_FOUND))
    else
      var bid := bookingId.value;
      if bid !in db.bookings then Failure(NotFound(BOOKING_NOT_FOUND))
      else
        var booking := db.bookings[bid];
        var driver := db.drivers[driverId];
        if booking.status != PENDING then Failure(BadRequest(BOOKING_NOT_PENDING))
        else if booking.vehicleType != driver.vehicleType then Failure(BadRequest(VEHICLE_TYPE_MISMATCH))
        else
          var accepted := booking.(driverId := Some(driverId), status := ACCEPTED);
          Success(Accepted(
            db.(bookings := db.bookings[bid := accepted]),
            AcceptResponse(bid, accepted.status, accepted.fare, accepted.fare, driver.walletBalance + accepted.fare),
            CompletionJob(bid, driverId, accepted.fare)))
  }

  /** The timer callback of an accepted ride. It acts only while the booking is still
      `ACCEPTED`: it marks it `COMPLETED` and, if the driver still exists, adds the captured fare
      to the driver's wallet. */
  function Complete(db: Db, job: CompletionJob): (r: Db)
    ensures (job.bookingId !in db.bookings || db.bookings[job.bookingId].status != ACCEPTED) ==> r == db
    ensures job.bookingId in db.bookings && db.bookings[job.bookingId].status == ACCEPTED ==>
      && r.bookings == db.bookings[job.bookingId := db.bookings[job.bookingId].(status := COMPLETED)]
      && r.drivers.Keys == db.drivers.Keys
      && (forall k :: k in db.drivers && k != job.driverId ==> r.drivers[k] == db.drivers[k])
      && (job.driverId in db.drivers ==>
            r.drivers[job.driverId] == db.drivers[job.driverId].(walletBalance := db.drivers[job.driverId].walletBalance + job.fare))
  {
    if job.bookingId in db.bookings && db.bookings[job.bookingId].status == ACCEPTED then
      var bookings := db.bookings[job.bookingId := db.bookings[job.bookingId].(status := COMPLETED)];
      if job.driverId in db.drivers then
        var d := db.drivers[job.driverId];
        Db(bookings, db.drivers[job.driverId := d.(walletBalance := d.walletBalance + job.fare)])
      else Db(bookings, db.drivers)
    else db
  }

  /** The timer firing n times in a row. */
  function CompleteRepeatedly(db: Db, job: CompletionJob, n: nat): Db
    decreases n
  {
    if n == 0 then db else CompleteRepeatedly(Complete(db, job), job, n - 1)
  }

  /** However often the completion fires, it has the effect of firing once: a booking credits a
      wallet at most once. */
  lemma {:induction false} CompletionCreditsOnce(db: Db, job: CompletionJob, n: nat)
    requires n >= 1
    ensures CompleteRepeatedly(db, job, n) == Complete(db, job)
    decreases n
  {
    if n > 1 {
      var once := Complete(db, job);
      assert Complete(once, job) == once;
      CompletionCreditsOnce(once, job, n - 1);
      assert CompleteRepeatedly(once, job, n - 1) == Complete(once, job);
    }
  }

  /** An accepted ride, once completed, is `COMPLETED` with the accepting driver, and that
      driver's wallet grew by exactly the booking's fare, as the accept reply announced. */
  lemma AcceptThenComplete(db: Db, driverId: Id, bookingId: Id)
    requires AcceptRide(db, driverId, Some(bookingId)).Success?
    ensures var a := AcceptRide(db, driverId, Some(bookingId)).value;
      var done := Complete(a.db, a.job);
      && done.bookings[bookingId].status == COMPLETED
      && done.bookings[bookingId].driverId == Some(driverId)
      && done.bookings[bookingId].fare == db.bookings[bookingId].fare
      && done.drivers[driverId].walletBalance == db.drivers[driverId].walletBalance + db.bookings[bookingId].fare
      && done.drivers[driverId].walletBalance == a.response.totalEarnings
  {
  }

  /** A booking that is already `ACCEPTED` or `COMPLETED` cannot be accepted again, by any
      driver. */
  lemma NoSecondAccept(db: Db, driverId: Id, bookingId: Id)
    requires bookingId != "" && bookingId in db.bookings && db.bookings[bookingId].status != PENDING
    ensures AcceptRide(db, driverId, Some(bookingId)).Failure?
  {
  }

  /** `GET /api/driver/earnings`: the caller's wallet balance. */
  function GetDriverEarnings(db: Db, driverId: Id): (r: Result<real, HttpError>)
    ensures r.Success? <==> driverId in db.drivers
    ensures r.Success? ==> r.value == db.drivers[driverId].walletBalance
    ensures r.Failure? ==> r.error == NotFound(DRIVER_NOT_FOUND)
  {
    if driverId !in db.drivers then Failure(NotFound(DRIVER_NOT_FOUND))
    else Success(db.drivers[driverId].walletBalance)
  }

  /** After an accepted ride completes, the earnings query reports the total the accept reply
      announced; before it completes, the earnings are unchanged. */
  lemma EarningsAfterCompletion(db: Db, driverId: Id, bookingId: Id)
    requires AcceptRide(db, driverId, Some(bookingId)).Success?
    ensures var a := AcceptRide(db, driverId, Some(bookingId)).value;
      && GetDriverEarnings(a.db, driverId) == GetDriverEarnings(db, driverId)
      && GetDriverEarnings(Complete(a.db, a.job), driverId) == Success(a.response.totalEarnings)
  {
    AcceptThenComplete(db, driverId, bookingId);
  }

  /** A booking a rider has just created is offered to every driver of its vehicle type. */
  lemma CreatedBookingIsOffered(db: Db, userId: Id, req: BookingController.BookingRequest, newId: Id,
                                now: int, driverId: Id)
    requires newId !in db.bookings
    requires BookingController.CreateBooking(db, userId, req, newId, now).Success?
    requires driverId != "" && driverId in db.drivers
    requires VehicleTypeName(db.drivers[driverId].vehicleType) == req.vehicleType.value
    ensures var db' := BookingController.CreateBooking(db, userId, req, newId, now).value.0;
      && GetPendingRides(db', Some(driverId), req.vehicleType).Success?
      && newId in GetPendingRides(db', Some(driverId), req.vehicleType).value
  {
  }
}
