/**
 The closed rate table of the fare service and the assignment constants
 (backend/src/utils/constants.ts).
 */
module Constants {

  import opened Common

  /** `RIDE_TYPES`: the four ride types of the fare service. */
  datatype RideType = Bike | Auto | Mini | Sedan

  /** The wire name of each ride type. */
  function RideTypeName(t: RideType): string
  {
    match t
    case Bike => "bike"
    case Auto => "auto"
    case Mini => "mini"
    case Sedan => "sedan"
  }

  /** The ride types in the order `RIDE_TYPES` lists them. */
  const RIDE_TYPES: seq<RideType> := [Bike, Auto, Mini, Sedan]

  datatype Rates = Rates(base: int, perKm: int, perMinute: real)

  /** `FARE_RATES`: a total map from ride type to its rates. */
  function FareRates(t: RideType): Rates
  {
    match t
    case Bike => Rates(15, 7, 0.5)
    case Auto => Rates(25, 10, 0.6)
    case Mini => Rates(40, 14, 0.8)
    case Sedan => Rates(60, 18, 1.0)
  }

  /** Milliseconds a driver may hold a claim before the reaper frees it. */
  const ASSIGN_TIMEOUT_MS: int := 90 * 1000

  /** Search radius of the candidate query, in meters. */
  const ASSIGN_SEARCH_RADIUS_METERS: real := 5000.0

  /** Position of a ride type in `RIDE_TYPES`, used to state monotonicity. */
  function Rank(t: RideType): nat
  {
    match t
    case Bike => 0
    case Auto => 1
    case Mini => 2
    case Sedan => 3
  }

  /** `RIDE_TYPES` is exactly bike, auto, mini, sedan: every ride type occurs once, at its rank,
      and the names are the four lower-case strings. */
  lemma RideTypesExact(t: RideType)
    ensures t in RIDE_TYPES && RIDE_TYPES[Rank(t)] == t
    ensures |RIDE_TYPES| == 4 && Distinct(RIDE_TYPES)
    ensures RideTypeName(t) in {"bike", "auto", "mini", "sedan"}
    ensures forall u: RideType :: RideTypeName(u) == RideTypeName(t) ==> u == t
  {
  }

  /** Every base and per-km rate is a positive integer; every per-minute rate lies in [0.5, 1]. */
  lemma RatesPositive(t: RideType)
    ensures FareRates(t).base > 0 && FareRates(t).perKm > 0
    ensures 0.5 <= FareRates(t).perMinute <= 1.0
  {
  }

  /** base, perKm and perMinute strictly increase from bike to auto to mini to sedan. */
  lemma RatesIncreasing(s: RideType, t: RideType)
    requires Rank(s) < Rank(t)
    ensures FareRates(s).base < FareRates(t).base
    ensures FareRates(s).perKm < FareRates(t).perKm
    ensures FareRates(s).perMinute < FareRates(t).perMinute
  {
  }

  /** The two assignment constants. */
  lemma AssignConstants()
    ensures ASSIGN_TIMEOUT_MS == 90000
    ensures ASSIGN_SEARCH_RADIUS_METERS == 5000.0
  {
  }
}
