/**
 The line-item fare breakdown of `fareService.calculateFare`
 (backend/src/services/fare.service.ts), priced from the `FARE_RATES` table.
 */
module FareService {

  import opened Constants
  import opened JsMath

  /** The fixed booking fee added to every fare. */
  const BOOKING_FEE: int := 5

  datatype FareBreakdown = FareBreakdown(
    base: int,
    distanceFare: int,
    timeFare: int,
    bookingFee: int,
    tax: int,
    total: int)

  /** `round(0.05 × subtotal)`: 5% tax on the subtotal, rounded like `Math.round`. */
  function Tax(subtotal: int): int
  {
    Round(subtotal as real * 0.05)
  }

  /** `calculateFare(distanceKm, durationMinutes, rideType)`. Each line item is rounded on its own;
      the final `Math.round` of an integer sum is the identity, so the items sum to the total. */
  function CalculateFare(distanceKm: real, durationMinutes: real, rideType: RideType): (f: FareBreakdown)
    ensures f.base == FareRates(rideType).base
    ensures f.bookingFee == 5
    ensures (FareRates(rideType).perKm as real * distanceKm) - 0.5 < f.distanceFare as real
                <= (FareRates(rideType).perKm as real * distanceKm) + 0.5
    ensures FareRates(rideType).perMinute * durationMinutes - 0.5 < f.timeFare as real
                <= FareRates(rideType).perMinute * durationMinutes + 0.5
    ensures f.tax == Tax(f.base + f.distanceFare + f.timeFare)
    ensures f.base + f.distanceFare + f.timeFare + f.bookingFee + f.tax == f.total
  {
    var rates := FareRates(rideType);
    var distanceFare := Round(rates.perKm as real * distanceKm);
    var timeFare := Round(rates.perMinute * durationMinutes);
    var subtotal := rates.base + distanceFare + timeFare;
    var bookingFee := BOOKING_FEE;
    var tax := Tax(subtotal);
    var total := Round((subtotal + bookingFee + tax) as real);
    RoundOfInteger(subtotal + bookingFee + tax);
    FareBreakdown(rates.base, distanceFare, timeFare, bookingFee, tax, total)
  }

  /** For non-negative distance and duration every line item is non-negative and the total is at
      least the base fare plus the booking fee. */
  lemma FareNonNegative(distanceKm: real, durationMinutes: real, rideType: RideType)
    requires distanceKm >= 0.0 && durationMinutes >= 0.0
    ensures var f := CalculateFare(distanceKm, durationMinutes, rideType);
      f.base > 0 && f.distanceFare >= 0 && f.timeFare >= 0 && f.tax >= 0
      && f.total >= f.base + BOOKING_FEE
  {
    var f := CalculateFare(distanceKm, durationMinutes, rideType);
    RoundNonNegative(FareRates(rideType).perKm as real * distanceKm);
    RoundNonNegative(FareRates(rideType).perMinute * durationMinutes);
    RoundNonNegative((f.base + f.distanceFare + f.timeFare) as real * 0.05);
  }

  /** auto, 10 km, 20 min: 25 + 100 + 12 = 137, tax 7, fee 5, total 149. */
  lemma AutoTenKmExample()
    ensures CalculateFare(10.0, 20.0, Auto) == FareBreakdown(25, 100, 12, 5, 7, 149)
  {
    assert Round(100.0) == 100;
    assert Round(12.0) == 12;
    assert Round(6.85) == 7;
  }
}
