/**
 The booking document of backend/src/models/Booking.ts: its enums, required paths and
 defaults, and what `Booking.create` does with a new document.
 */
module BookingModel {

  import opened Common
  import opened Vehicles

  /** The schema's status enum; `PENDING` is the default. */
  datatype BookingStatus = PENDING | ACCEPTED | COMPLETED

  function ParseBookingStatus(s: string): (r: Option<BookingStatus>)
    ensures r.Some? <==> s in {"PENDING", "ACCEPTED", "COMPLETED"}
  {
    if s == "PENDING" then Some(PENDING)
    else if s == "ACCEPTED" then Some(ACCEPTED)
    else if s == "COMPLETED" then Some(COMPLETED)
    else None
  }

  datatype Booking = Booking(
    userId: Id,
    driverId: Option<Id>,
    pickupLocation: string,
    dropLocation: string,
    distanceKm: real,
    vehicleType: VehicleType,
    fare: real,
    estimatedTimeMin: real,
    status: BookingStatus,
    createdAt: int)

  /** The fields handed to `Booking.create`; `status` may be left out. */
  datatype NewBooking = NewBooking(
    userId: Id,
    pickupLocation: string,
    dropLocation: string,
    distanceKm: real,
    vehicleType: string,
    fare: real,
    estimatedTimeMin: real,
    status: Option<string>)

  /** Mongoose validation failures: a required path missing (an empty string counts as missing
      for a String path) or a value outside its enum. */
  datatype SchemaError = Required(path: string) | NotInEnum(path: string)

  /** Validates a new document against the schema and fills in the defaults: no driver, status
      `PENDING` unless given, `createdAt` the current time. */
  function Create(n: NewBooking, now: int): (r: Result<Booking, SchemaError>)
    ensures r.Success? <==>
      && n.userId != "" && n.pickupLocation != "" && n.dropLocation != ""
      && ParseVehicleType(n.vehicleType).Some?
      && (n.status.Some? ==> ParseBookingStatus(n.status.value).Some?)
    ensures r.Success? ==>
      && r.value.userId == n.userId
      && r.value.driverId == None
      && r.value.pickupLocation == n.pickupLocation
      && r.value.dropLocation == n.dropLocation
      && r.value.distanceKm == n.distanceKm
      && VehicleTypeName(r.value.vehicleType) == n.vehicleType
      && r.value.fare == n.fare
      && r.value.estimatedTimeMin == n.estimatedTimeMin
      && (n.status.None? ==> r.value.status == PENDING)
      && (n.status.Some? ==> Some(r.value.status) == ParseBookingStatus(n.status.value))
      && r.value.createdAt == now
  {
    if n.userId == "" then Failure(Required("userId"))
    else if n.pickupLocation == "" then Failure(Required("pickupLocation"))
    else if n.dropLocation == "" then Failure(Required("dropLocation"))
    else match ParseVehicleType(n.vehicleType)
      case None => Failure(NotInEnum("vehicleType"))
      case Some(v) =>
        var status := if n.status.Some? then ParseBookingStatus(n.status.value) else Some(PENDING);
        match status
        case None => Failure(NotInEnum("status"))
        case Some(st) =>
          Success(Booking(n.userId, None, n.pickupLocation, n.dropLocation, n.distanceKm, v,
                          n.fare, n.estimatedTimeMin, st, now))
  }
}
