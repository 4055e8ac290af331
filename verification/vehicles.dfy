/**
 The ride-options pricing table and `calculateFareAndTime` (backend/src/utils/vehicles.ts).
 This table is independent of the fare service's `FARE_RATES`.
 */
module Vehicles {

  import opened Common
  import opened JsMath

  /** The vehicle types of bookings and drivers. */
  datatype VehicleType = BIKE | AUTO | CAR

  function VehicleTypeName(v: VehicleType): string
  {
    match v
    case BIKE => "BIKE"
    case AUTO => "AUTO"
    case CAR => "CAR"
  }

  /** Reads a vehicle type from its wire name; every other string is unknown. */
  function ParseVehicleType(s: string): (r: Option<VehicleType>)
    ensures r.Some? <==> s in {"BIKE", "AUTO", "CAR"}
    ensures r.Some? ==> VehicleTypeName(r.value) == s
  {
    if s == "BIKE" then Some(BIKE)
    else if s == "AUTO" then Some(AUTO)
    else if s == "CAR" then Some(CAR)
    else None
  }

  datatype VehicleRates = VehicleRates(farePerKm: int, timePerKm: int)

  /** The `vehicles` table. */
  function Rates(v: VehicleType): VehicleRates
  {
    match v
    case BIKE => VehicleRates(5, 5)
    case AUTO => VehicleRates(8, 7)
    case CAR => VehicleRates(12, 10)
  }

  datatype FareAndTime = FareAndTime(fare: int, estimatedTimeMin: int)

  /** The error `calculateFareAndTime` throws for an unknown vehicle type. */
  datatype InvalidVehicleType = InvalidVehicleType(message: string)

  /** Prices a trip of `distanceKm` for a known vehicle type. */
  function FareAndTimeFor(v: VehicleType, distanceKm: real): (r: FareAndTime)
    ensures distanceKm * Rates(v).farePerKm as real <= r.fare as real
              < distanceKm * Rates(v).farePerKm as real + 1.0
    ensures distanceKm * Rates(v).timePerKm as real <= r.estimatedTimeMin as real
              < distanceKm * Rates(v).timePerKm as real + 1.0
  {
    FareAndTime(Ceil(distanceKm * Rates(v).farePerKm as real),
                Ceil(distanceKm * Rates(v).timePerKm as real))
  }

  /** `calculateFareAndTime(vehicleType, distanceKm)`: the ceiling of distance times each rate,
      or the "Invalid vehicle type" error for a name outside the table. */
  function CalculateFareAndTime(vehicleType: string, distanceKm: real): (r: Result<FareAndTime, InvalidVehicleType>)
    ensures r.Failure? <==> vehicleType !in {"BIKE", "AUTO", "CAR"}
    ensures r.Failure? ==> r.error.message == "Invalid vehicle type: " + vehicleType
    ensures r.Success? ==> exists v :: VehicleTypeName(v) == vehicleType && r.value == FareAndTimeFor(v, distanceKm)
  {
    match ParseVehicleType(vehicleType)
    case None => Failure(InvalidVehicleType("Invalid vehicle type: " + vehicleType))
    case Some(v) => Success(FareAndTimeFor(v, distanceKm))
  }

  /** The table is exactly BIKE 5/5, AUTO 8/7, CAR 12/10. */
  lemma VehicleTableExact()
    ensures Rates(BIKE) == VehicleRates(5, 5)
    ensures Rates(AUTO) == VehicleRates(8, 7)
    ensures Rates(CAR) == VehicleRates(12, 10)
  {
  }

  /** A positive distance costs at least 1 and takes at least one minute. */
  lemma FareAndTimePositive(v: VehicleType, distanceKm: real)
    requires distanceKm > 0.0
    ensures FareAndTimeFor(v, distanceKm).fare >= 1
    ensures FareAndTimeFor(v, distanceKm).estimatedTimeMin >= 1
  {
    CeilPositive(distanceKm * Rates(v).farePerKm as real);
    CeilPositive(distanceKm * Rates(v).timePerKm as real);
  }

  lemma ScaleMonotone(a: real, b: real, k: real)
    requires a <= b && k >= 0.0
    ensures a * k <= b * k
  {
    assert b * k - a * k == (b - a) * k;
  }

  /** Fare and time never decrease as the distance grows. */
  lemma FareAndTimeMonotone(v: VehicleType, d1: real, d2: real)
    requires d1 <= d2
    ensures FareAndTimeFor(v, d1).fare <= FareAndTimeFor(v, d2).fare
    ensures FareAndTimeFor(v, d1).estimatedTimeMin <= FareAndTimeFor(v, d2).estimatedTimeMin
  {
    ScaleMonotone(d1, d2, Rates(v).farePerKm as real);
    ScaleMonotone(d1, d2, Rates(v).timePerKm as real);
    CeilMonotone(d1 * Rates(v).farePerKm as real, d2 * Rates(v).farePerKm as real);
    CeilMonotone(d1 * Rates(v).timePerKm as real, d2 * Rates(v).timePerKm as real);
  }

  /** Rank of a vehicle type in the table, BIKE first. */
  function Rank(v: VehicleType): nat
  {
    match v
    case BIKE => 0
    case AUTO => 1
    case CAR => 2
  }

  /** For one non-negative distance, fare and time are ordered BIKE <= AUTO <= CAR. */
  lemma FareAndTimeOrdered(v: VehicleType, w: VehicleType, distanceKm: real)
    requires Rank(v) <= Rank(w) && distanceKm >= 0.0
    ensures FareAndTimeFor(v, distanceKm).fare <= FareAndTimeFor(w, distanceKm).fare
    ensures FareAndTimeFor(v, distanceKm).estimatedTimeMin <= FareAndTimeFor(w, distanceKm).estimatedTimeMin
  {
    ScaleMonotone(Rates(v).farePerKm as real, Rates(w).farePerKm as real, distanceKm);
    ScaleMonotone(Rates(v).timePerKm as real, Rates(w).timePerKm as real, distanceKm);
    assert distanceKm * Rates(v).farePerKm as real <= distanceKm * Rates(w).farePerKm as real;
    assert distanceKm * Rates(v).timePerKm as real <= distanceKm * Rates(w).timePerKm as real;
    CeilMonotone(distanceKm * Rates(v).farePerKm as real, distanceKm * Rates(w).farePerKm as real);
    CeilMonotone(distanceKm * Rates(v).timePerKm as real, distanceKm * Rates(w).timePerKm as real);
  }
}
