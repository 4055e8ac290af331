/**
 The driver document of backend/src/models/Driver.ts. The schema has name, email, password,
 vehicle type and wallet balance only: no status, location or assignment fields.
 */
module DriverModel {

  import opened Common
  import opened Vehicles
  import opened BookingModel

  datatype Driver = Driver(
    name: string,
    email: string,
    password: string,
    vehicleType: VehicleType,
    walletBalance: real)

  /** The fields handed to `Driver.create`; the wallet balance may be left out. */
  datatype NewDriver = NewDriver(
    name: string,
    email: string,
    password: string,
    vehicleType: string,
    walletBalance: Option<real>)

  /** Errors of an insert: schema validation, or the unique index on `email`. */
  datatype InsertError = SchemaViolation(cause: SchemaError) | DuplicateEmail(email: string)

  /** The unique index on `email` holds of a driver collection. */
  ghost predicate EmailsUnique(drivers: map<Id, Driver>)
  {
    forall a, b :: a in drivers && b in drivers && a != b ==> drivers[a].email != drivers[b].email
  }

  /** Validates a new driver document and stores it under a fresh id. Schema validation comes
      first; the unique index then refuses an email that is already taken. */
  function Insert(drivers: map<Id, Driver>, id: Id, n: NewDriver): (r: Result<map<Id, Driver>, InsertError>)
    requires id !in drivers
    ensures r.Success? <==>
      && n.name != "" && n.email != "" && n.password != ""
      && ParseVehicleType(n.vehicleType).Some?
      && (forall k :: k in drivers ==> drivers[k].email != n.email)
    ensures r.Success? ==>
      && r.value.Keys == drivers.Keys + {id}
      && (forall k :: k in drivers ==> r.value[k] == drivers[k])
      && r.value[id].walletBalance == (if n.walletBalance.Some? then n.walletBalance.value else 0.0)
      && r.value[id].name == n.name
      && r.value[id].email == n.email
      && r.value[id].password == n.password
      && VehicleTypeName(r.value[id].vehicleType) == n.vehicleType
    ensures r.Success? && EmailsUnique(drivers) ==> EmailsUnique(r.value)
  {
    if n.name == "" then Failure(SchemaViolation(Required("name")))
    else if n.email == "" then Failure(SchemaViolation(Required("email")))
    else if n.password == "" then Failure(SchemaViolation(Required("password")))
    else match ParseVehicleType(n.vehicleType)
      case None => Failure(SchemaViolation(NotInEnum("vehicleType")))
      case Some(v) =>
        if exists k :: k in drivers && drivers[k].email == n.email then Failure(DuplicateEmail(n.email))
        else
          var balance := if n.walletBalance.Some? then n.walletBalance.value else 0.0;
          Success(drivers[id := Driver(n.name, n.email, n.password, v, balance)])
  }

  /** A new driver whose wallet is not given starts at zero. */
  lemma WalletDefaultsToZero(drivers: map<Id, Driver>, id: Id, name: string, email: string,
                             password: string, v: VehicleType)
    requires id !in drivers
    requires name != "" && email != "" && password != ""
    requires forall k :: k in drivers ==> drivers[k].email != email
    ensures Insert(drivers, id, NewDriver(name, email, password, VehicleTypeName(v), None)).Success?
    ensures Insert(drivers, id, NewDriver(name, email, password, VehicleTypeName(v), None)).value[id].walletBalance == 0.0
  {
    assert ParseVehicleType(VehicleTypeName(v)) == Some(v);
  }
}
