/**
 The driver-assignment engine and the stale-claim reaper of
 backend/src/services/assignment.service.ts.

 The engine works on records of its own: the Mongoose driver schema declares no status,
 location or assignment fields and the booking schema's status enum has neither "assigned"
 nor "unassigned", so these are the fields the service reads and writes, with the status
 strings it uses. The proximity query's result is an input (drivers ordered by distance),
 storage faults are an oracle, and the clock is the parameter `now` (milliseconds).
 */
module Assignment {

  import opened Common
  import opened Constants

  const AVAILABLE := "available"
  const ASSIGNED := "assigned"
  const UNASSIGNED := "unassigned"
  const NO_DRIVER_FOUND := "No driver found"

  /** A driver as the engine sees it. */
  datatype EngineDriver = EngineDriver(
    vehicleType: string,
    status: string,
    assignedBookingId: Option<Id>,
    lastAssignedAt: Option<int>)

  datatype LogEntry = LogEntry(ts: int, text: string)

  /** A booking as the engine sees it: its driver, status and event log. */
  datatype EngineBooking = EngineBooking(driverId: Option<Id>, status: string, logs: seq<LogEntry>)

  datatype Store = Store(drivers: map<Id, EngineDriver>, bookings: map<Id, EngineBooking>)

  /** What a candidate's storage calls do: succeed, throw on the conditional driver update
      (which then does not apply), or throw on the booking update after the driver claim has
      applied. */
  datatype Fault = NoFault | ClaimThrows | BookingUpdateThrows

  // ---------------------------------------------------------------------------------------
  // Candidate query
  // ---------------------------------------------------------------------------------------

  /** One hit of the proximity query: a driver id and its distance from the pickup in meters. */
  datatype Nearby = Nearby(id: Id, meters: real)

  /** The query's filter: requested vehicle type, still available, within the search radius. */
  predicate Eligible(drivers: map<Id, EngineDriver>, rideType: string, n: Nearby)
  {
    && n.id in drivers
    && drivers[n.id].vehicleType == rideType
    && drivers[n.id].status == AVAILABLE
    && n.meters <= ASSIGN_SEARCH_RADIUS_METERS
  }

  function EligibleIds(drivers: map<Id, EngineDriver>, rideType: string, nearby: seq<Nearby>): (r: seq<Id>)
    ensures |r| <= |nearby|
    ensures forall x :: x in r ==> exists n :: n in nearby && n.id == x && Eligible(drivers, rideType, n)
    ensures forall n :: n in nearby && Eligible(drivers, rideType, n) ==> n.id in r
  {
    if nearby == [] then []
    else
      var rest := EligibleIds(drivers, rideType, nearby[1..]);
      assert forall n :: n in nearby[1..] ==> n in nearby;
      if Eligible(drivers, rideType, nearby[0]) then [nearby[0].id] + rest else rest
  }

  /** The limit of the candidate query. */
  const CANDIDATE_LIMIT: nat := 10

  /** `Driver.find({vehicleType, status: "available", location: $nearSphere …}).limit(10)` over
      hits `nearby` that are ordered by distance. */
  function FindCandidates(drivers: map<Id, EngineDriver>, rideType: string, nearby: seq<Nearby>): (r: seq<Id>)
    ensures |r| <= CANDIDATE_LIMIT
    ensures forall i :: 0 <= i < |r| ==>
      && r[i] in drivers && drivers[r[i]].vehicleType == rideType && drivers[r[i]].status == AVAILABLE
      && exists n :: n in nearby && n.id == r[i] && n.meters <= ASSIGN_SEARCH_RADIUS_METERS
    ensures |EligibleIds(drivers, rideType, nearby)| <= CANDIDATE_LIMIT ==>
      forall n :: n in nearby && Eligible(drivers, rideType, n) ==> n.id in r
    ensures |r| == if |EligibleIds(drivers, rideType, nearby)| <= CANDIDATE_LIMIT
                   then |EligibleIds(drivers, rideType, nearby)| else CANDIDATE_LIMIT
    ensures r == EligibleIds(drivers, rideType, nearby)[..|r|]
  {
    var all := EligibleIds(drivers, rideType, nearby);
    var r := Take(all, CANDIDATE_LIMIT);
    assert forall i :: 0 <= i < |r| ==> r[i] == all[i] && r[i] in all;
    r
  }

  /** No driver is hit twice. */
  predicate DistinctHits(nearby: seq<Nearby>)
  {
    forall a, b :: 0 <= a < b < |nearby| ==> nearby[a].id != nearby[b].id
  }

  /** The hits come nearest first, as `$nearSphere` returns them. */
  predicate ByDistance(nearby: seq<Nearby>)
  {
    forall a, b :: 0 <= a < b < |nearby| ==> nearby[a].meters <= nearby[b].meters
  }

  /** Ids x and y come from eligible hits, x's before y's. */
  ghost predicate HitsBefore(drivers: map<Id, EngineDriver>, rideType: string, nearby: seq<Nearby>, x: Id, y: Id)
  {
    exists p, q :: 0 <= p < q < |nearby| && nearby[p].id == x && nearby[q].id == y
                   && Eligible(drivers, rideType, nearby[p]) && Eligible(drivers, rideType, nearby[q])
  }

  /** A hit further down the query keeps its order after a hit is put in front. */
  lemma HitsBeforeCons(drivers: map<Id, EngineDriver>, rideType: string, nearby: seq<Nearby>, x: Id, y: Id)
    requires nearby != [] && HitsBefore(drivers, rideType, nearby[1..], x, y)
    ensures HitsBefore(drivers, rideType, nearby, x, y)
  {
    var tail := nearby[1..];
    var p, q :| 0 <= p < q < |tail| && tail[p].id == x && tail[q].id == y
                && Eligible(drivers, rideType, tail[p]) && Eligible(drivers, rideType, tail[q]);
    assert nearby[1 + p] == tail[p] && nearby[1 + q] == tail[q];
  }

  /** Every two ids of r, in order, come from eligible hits in that order. */
  ghost predicate KeptInOrder(drivers: map<Id, EngineDriver>, rideType: string, nearby: seq<Nearby>, r: seq<Id>)
  {
    forall i, j :: 0 <= i < j < |r| ==> HitsBefore(drivers, rideType, nearby, r[i], r[j])
  }

  /** A kept first hit comes before every id kept from the rest. */
  lemma HeadBefore(drivers: map<Id, EngineDriver>, rideType: string, nearby: seq<Nearby>, y: Id)
    requires nearby != [] && Eligible(drivers, rideType, nearby[0])
    requires y in EligibleIds(drivers, rideType, nearby[1..])
    ensures HitsBefore(drivers, rideType, nearby, nearby[0].id, y)
  {
    var tail := nearby[1..];
    var n :| n in tail && n.id == y && Eligible(drivers, rideType, n);
    var q :| 0 <= q < |tail| && tail[q] == n;
    assert nearby[1 + q] == n;
  }

  /** Putting a kept first hit in front of ids kept in order from the rest keeps them in order. */
  lemma KeptInOrderCons(drivers: map<Id, EngineDriver>, rideType: string, nearby: seq<Nearby>, rest: seq<Id>)
    requires nearby != [] && KeptInOrder(drivers, rideType, nearby[1..], rest)
    requires forall y :: y in rest ==> HitsBefore(drivers, rideType, nearby, nearby[0].id, y)
    ensures KeptInOrder(drivers, rideType, nearby, [nearby[0].id] + rest)
  {
    var r := [nearby[0].id] + rest;
    forall i, j | 0 <= i < j < |r| ensures HitsBefore(drivers, rideType, nearby, r[i], r[j]) {
      if i == 0 {
        assert r[j] == rest[j - 1] && rest[j - 1] in rest;
      } else {
        assert r[i] == rest[i - 1] && r[j] == rest[j - 1];
        HitsBeforeCons(drivers, rideType, nearby, r[i], r[j]);
      }
    }
  }

  /** The step of `EligibleIdsInOrder` when the first hit is kept. */
  lemma InOrderOnKept(drivers: map<Id, EngineDriver>, rideType: string, nearby: seq<Nearby>)
    requires nearby != [] && Eligible(drivers, rideType, nearby[0])
    requires KeptInOrder(drivers, rideType, nearby[1..], EligibleIds(drivers, rideType, nearby[1..]))
    ensures KeptInOrder(drivers, rideType, nearby, EligibleIds(drivers, rideType, nearby))
  {
    var rest := EligibleIds(drivers, rideType, nearby[1..]);
    forall y | y in rest ensures HitsBefore(drivers, rideType, nearby, nearby[0].id, y) {
      HeadBefore(drivers, rideType, nearby, y);
    }
    KeptInOrderCons(drivers, rideType, nearby, rest);
    assert EligibleIds(drivers, rideType, nearby) == [nearby[0].id] + rest;
  }

  /** The step of `EligibleIdsInOrder` when the first hit is dropped. */
  lemma InOrderOnDropped(drivers: map<Id, EngineDriver>, rideType: string, nearby: seq<Nearby>)
    requires nearby != [] && !Eligible(drivers, rideType, nearby[0])
    requires KeptInOrder(drivers, rideType, nearby[1..], EligibleIds(drivers, rideType, nearby[1..]))
    ensures KeptInOrder(drivers, rideType, nearby, EligibleIds(drivers, rideType, nearby))
  {
    var tail := nearby[1..];
    var r := EligibleIds(drivers, rideType, nearby);
    assert r == EligibleIds(drivers, rideType, tail);
    forall i, j | 0 <= i < j < |r| ensures HitsBefore(drivers, rideType, nearby, r[i], r[j]) {
      assert HitsBefore(drivers, rideType, tail, r[i], r[j]);
      HitsBeforeCons(drivers, rideType, nearby, r[i], r[j]);
    }
  }

  /** The filter keeps the query's order: of two kept ids, the earlier one comes from an earlier
      eligible hit. */
  lemma {:induction false} EligibleIdsInOrder(drivers: map<Id, EngineDriver>, rideType: string, nearby: seq<Nearby>)
    ensures KeptInOrder(drivers, rideType, nearby, EligibleIds(drivers, rideType, nearby))
  {
    if nearby != [] {
      EligibleIdsInOrder(drivers, rideType, nearby[1..]);
      if Eligible(drivers, rideType, nearby[0]) {
        InOrderOnKept(drivers, rideType, nearby);
      } else {
        InOrderOnDropped(drivers, rideType, nearby);
      }
    }
  }

  /** Dropping the first hit keeps the hits' ids pairwise different, and the first id is not
      among the rest. */
  lemma DistinctHitsTail(nearby: seq<Nearby>)
    requires nearby != [] && DistinctHits(nearby)
    ensures DistinctHits(nearby[1..])
    ensures forall n :: n in nearby[1..] ==> n.id != nearby[0].id
  {
    var tail := nearby[1..];
    forall a, b | 0 <= a < b < |tail| ensures tail[a].id != tail[b].id {
      assert tail[a] == nearby[a + 1] && tail[b] == nearby[b + 1];
    }
    forall n | n in tail ensures n.id != nearby[0].id {
      var q :| 0 <= q < |tail| && tail[q] == n;
      assert nearby[1 + q] == n;
    }
  }

  /** An element not among distinct ones can be put in front. */
  lemma DistinctCons(x: Id, rest: seq<Id>)
    requires Distinct(rest) && x !in rest
    ensures Distinct([x] + rest)
  {
    var r := [x] + rest;
    forall i, j | 0 <= i < j < |r| ensures r[i] != r[j] {
      if i == 0 {
        assert r[j] == rest[j - 1];
      } else {
        assert r[i] == rest[i - 1] && r[j] == rest[j - 1];
      }
    }
  }

  /** A query that hits each driver at most once yields each candidate at most once. */
  lemma {:induction false} EligibleIdsDistinct(drivers: map<Id, EngineDriver>, rideType: string, nearby: seq<Nearby>)
    requires DistinctHits(nearby)
    ensures Distinct(EligibleIds(drivers, rideType, nearby))
  {
    if nearby != [] {
      var rest := EligibleIds(drivers, rideType, nearby[1..]);
      DistinctHitsTail(nearby);
      EligibleIdsDistinct(drivers, rideType, nearby[1..]);
      if Eligible(drivers, rideType, nearby[0]) {
        assert nearby[0].id !in rest;
        DistinctCons(nearby[0].id, rest);
        assert EligibleIds(drivers, rideType, nearby) == [nearby[0].id] + rest;
      }
    }
  }

  /** x and y are hit in that order, x no farther away than y. */
  ghost predicate NearerPair(nearby: seq<Nearby>, x: Id, y: Id)
  {
    exists p, q :: 0 <= p < q < |nearby| && nearby[p].id == x && nearby[q].id == y
                   && nearby[p].meters <= nearby[q].meters
  }

  /** Of every two ids of r, the earlier is hit before and no farther away than the later. */
  ghost predicate NearerFirst(nearby: seq<Nearby>, r: seq<Id>)
  {
    forall i, j :: 0 <= i < j < |r| ==> NearerPair(nearby, r[i], r[j])
  }

  /** x is hit at most `meters` away. */
  ghost predicate HitWithin(nearby: seq<Nearby>, x: Id, meters: real)
  {
    exists p :: 0 <= p < |nearby| && nearby[p].id == x && nearby[p].meters <= meters
  }

  /** No eligible hit left out of r is nearer than any id of r. */
  ghost predicate NoNearerLeftOut(drivers: map<Id, EngineDriver>, rideType: string, nearby: seq<Nearby>, r: seq<Id>)
  {
    forall m, i :: 0 <= m < |nearby| && Eligible(drivers, rideType, nearby[m]) && nearby[m].id !in r && 0 <= i < |r| ==>
      HitWithin(nearby, r[i], nearby[m].meters)
  }

  /** An eligible hit that is not a candidate is no nearer than the i-th candidate. */
  lemma LeftOutNotNearer(drivers: map<Id, EngineDriver>, rideType: string, nearby: seq<Nearby>, m: int, i: int)
    requires DistinctHits(nearby) && ByDistance(nearby)
    requires KeptInOrder(drivers, rideType, nearby, EligibleIds(drivers, rideType, nearby))
    requires 0 <= m < |nearby| && Eligible(drivers, rideType, nearby[m])
    requires nearby[m].id !in FindCandidates(drivers, rideType, nearby)
    requires 0 <= i < |FindCandidates(drivers, rideType, nearby)|
    ensures HitWithin(nearby, FindCandidates(drivers, rideType, nearby)[i], nearby[m].meters)
  {
    var all := EligibleIds(drivers, rideType, nearby);
    var r := FindCandidates(drivers, rideType, nearby);
    assert nearby[m] in nearby;
    var k :| 0 <= k < |all| && all[k] == nearby[m].id;
    assert k >= |r|;
    assert r[i] == all[i];
    assert HitsBefore(drivers, rideType, nearby, all[i], all[k]);
    var p, q :| 0 <= p < q < |nearby| && nearby[p].id == all[i] && nearby[q].id == all[k]
                && Eligible(drivers, rideType, nearby[p]) && Eligible(drivers, rideType, nearby[q]);
    assert q == m;
    assert nearby[p].meters <= nearby[m].meters;
  }

  /** Over a query that hits each driver once, no candidate occurs twice. */
  lemma CandidatesDistinct(drivers: map<Id, EngineDriver>, rideType: string, nearby: seq<Nearby>)
    requires DistinctHits(nearby)
    ensures Distinct(FindCandidates(drivers, rideType, nearby))
  {
    var all := EligibleIds(drivers, rideType, nearby);
    var r := FindCandidates(drivers, rideType, nearby);
    EligibleIdsDistinct(drivers, rideType, nearby);
    forall i, j | 0 <= i < j < |r| ensures r[i] != r[j] {
      assert r[i] == all[i] && r[j] == all[j];
    }
  }

  /** Over a query whose hits come nearest first, so do the candidates. */
  lemma CandidatesNearerFirst(drivers: map<Id, EngineDriver>, rideType: string, nearby: seq<Nearby>)
    requires ByDistance(nearby)
    ensures NearerFirst(nearby, FindCandidates(drivers, rideType, nearby))
  {
    var all := EligibleIds(drivers, rideType, nearby);
    var r := FindCandidates(drivers, rideType, nearby);
    EligibleIdsInOrder(drivers, rideType, nearby);
    forall i, j | 0 <= i < j < |r| ensures NearerPair(nearby, r[i], r[j]) {
      assert r[i] == all[i] && r[j] == all[j];
      assert HitsBefore(drivers, rideType, nearby, all[i], all[j]);
      var p, q :| 0 <= p < q < |nearby| && nearby[p].id == all[i] && nearby[q].id == all[j]
                  && Eligible(drivers, rideType, nearby[p]) && Eligible(drivers, rideType, nearby[q]);
      assert nearby[p].meters <= nearby[q].meters;
    }
  }

  /** Over a query that hits each driver once, nearest first, the candidates are the nearest
      eligible drivers: no eligible hit left out is nearer than any candidate. */
  lemma CandidatesAreNearest(drivers: map<Id, EngineDriver>, rideType: string, nearby: seq<Nearby>)
    requires DistinctHits(nearby) && ByDistance(nearby)
    ensures NoNearerLeftOut(drivers, rideType, nearby, FindCandidates(drivers, rideType, nearby))
  {
    var r := FindCandidates(drivers, rideType, nearby);
    EligibleIdsInOrder(drivers, rideType, nearby);
    forall m, i | 0 <= m < |nearby| && Eligible(drivers, rideType, nearby[m]) && nearby[m].id !in r && 0 <= i < |r|
      ensures HitWithin(nearby, r[i], nearby[m].meters)
    {
      LeftOutNotNearer(drivers, rideType, nearby, m, i);
    }
  }

  // ---------------------------------------------------------------------------------------
  // Claims
  // ---------------------------------------------------------------------------------------

  /** The conditional update `findOneAndUpdate({_id, status: "available"}, …)` matches. */
  predicate Claimable(drivers: map<Id, EngineDriver>, id: Id)
  {
    id in drivers && drivers[id].status == AVAILABLE
  }

  /** The claimed driver: assigned to the booking at `now`, other fields kept. */
  function Claim(d: EngineDriver, bookingId: Id, now: int): (c: EngineDriver)
    ensures c.status == ASSIGNED && c.assignedBookingId == Some(bookingId) && c.lastAssignedAt == Some(now)
    ensures c.vehicleType == d.vehicleType
  {
    d.(status := ASSIGNED, assignedBookingId := Some(bookingId), lastAssignedAt := Some(now))
  }

  /** The log line of a successful assignment. */
  function AssignedText(driverId: Id): string
  {
    "Driver " + driverId + " assigned"
  }

  /** `Booking.findByIdAndUpdate` of a successful claim; a missing booking is left missing. */
  function RecordAssignment(bookings: map<Id, EngineBooking>, bookingId: Id, driverId: Id, now: int): (r: map<Id, EngineBooking>)
    ensures r.Keys == bookings.Keys
    ensures forall k :: k in bookings && k != bookingId ==> r[k] == bookings[k]
    ensures bookingId in bookings ==>
      && r[bookingId].driverId == Some(driverId)
      && r[bookingId].status == ASSIGNED
      && r[bookingId].logs == bookings[bookingId].logs + [LogEntry(now, AssignedText(driverId))]
  {
    if bookingId in bookings then
      var b := bookings[bookingId];
      bookings[bookingId := b.(driverId := Some(driverId), status := ASSIGNED,
                               logs := b.logs + [LogEntry(now, AssignedText(driverId))])]
    else bookings
  }

  /** The final `Booking.findByIdAndUpdate` when no candidate was claimed. */
  function RecordNoDriver(bookings: map<Id, EngineBooking>, bookingId: Id, now: int): (r: map<Id, EngineBooking>)
    ensures r.Keys == bookings.Keys
    ensures forall k :: k in bookings && k != bookingId ==> r[k] == bookings[k]
    ensures bookingId in bookings ==>
      && r[bookingId].driverId == bookings[bookingId].driverId
      && r[bookingId].status == UNASSIGNED
      && r[bookingId].logs == bookings[bookingId].logs + [LogEntry(now, NO_DRIVER_FOUND)]
  {
    if bookingId in bookings then
      var b := bookings[bookingId];
      bookings[bookingId := b.(status := UNASSIGNED, logs := b.logs + [LogEntry(now, NO_DRIVER_FOUND)])]
    else bookings
  }

  datatype LoopResult = LoopResult(store: Store, winner: Option<Id>)

  /** The `for … of candidates` loop: try each candidate's conditional claim in order, swallow a
      candidate's thrown error and move on, stop at the first claim whose booking update went
      through. */
  function ClaimLoop(st: Store, bookingId: Id, cands: seq<Id>, now: int, fault: Id -> Fault): (r: LoopResult)
    ensures r.store.drivers.Keys == st.drivers.Keys
    ensures forall k :: k in st.drivers && k !in cands ==> r.store.drivers[k] == st.drivers[k]
    ensures forall k :: k in st.drivers && st.drivers[k].status != AVAILABLE ==> r.store.drivers[k] == st.drivers[k]
    ensures forall k :: k in st.drivers && r.store.drivers[k] != st.drivers[k] ==>
              r.store.drivers[k] == Claim(st.drivers[k], bookingId, now)
    ensures r.winner.Some? ==>
      && r.winner.value in cands && Claimable(st.drivers, r.winner.value) && fault(r.winner.value) == NoFault
      && r.store.drivers[r.winner.value] == Claim(st.drivers[r.winner.value], bookingId, now)
      && r.store.bookings == RecordAssignment(st.bookings, bookingId, r.winner.value, now)
    ensures r.winner.None? ==> r.store.bookings == st.bookings
    decreases |cands|
  {
    if cands == [] then LoopResult(st, None)
    else
      var id := cands[0];
      if fault(id) == ClaimThrows || !Claimable(st.drivers, id) then
        ClaimLoop(st, bookingId, cands[1..], now, fault)
      else
        var drivers := st.drivers[id := Claim(st.drivers[id], bookingId, now)];
        if fault(id) == NoFault then
          LoopResult(Store(drivers, RecordAssignment(st.bookings, bookingId, id, now)), Some(id))
        else
          ClaimLoop(Store(drivers, st.bookings), bookingId, cands[1..], now, fault)
  }

  /** What `tryAssignDriver` leaves behind and returns. */
  datatype Outcome =
    | DriverAssigned(store: Store, driver: Id)   // the claimed driver is returned
    | NoDriver(store: Store)                     // null is returned
    | StorageFailure(store: Store)               // the final booking update threw

  /** `tryAssignDriver(bookingId, pickup, rideType)` given the ordered candidates. On no winner
      the booking is marked "unassigned"; `finalUpdateThrows` says whether that last update threw,
      in which case the error reaches the caller and the claims made so far stay. */
  function TryAssignDriver(st: Store, bookingId: Id, cands: seq<Id>, now: int, fault: Id -> Fault,
                           finalUpdateThrows: bool): (r: Outcome)
    ensures r.store.drivers.Keys == st.drivers.Keys
    ensures r.DriverAssigned? ==>
      && r.driver in cands && Claimable(st.drivers, r.driver) && fault(r.driver) == NoFault
      && r.store.drivers[r.driver] == Claim(st.drivers[r.driver], bookingId, now)
      && r.store.bookings == RecordAssignment(st.bookings, bookingId, r.driver, now)
    ensures r.NoDriver? ==> r.store.bookings == RecordNoDriver(st.bookings, bookingId, now)
    ensures r.StorageFailure? ==> finalUpdateThrows && r.store.bookings == st.bookings
    ensures !r.DriverAssigned? ==> (r.StorageFailure? <==> finalUpdateThrows)
    ensures cands == [] ==> r == (if finalUpdateThrows then StorageFailure(st) else NoDriver(Store(st.drivers, RecordNoDriver(st.bookings, bookingId, now))))
  {
    var lr := ClaimLoop(st, bookingId, cands, now, fault);
    if lr.winner.Some? then DriverAssigned(lr.store, lr.winner.value)
    else if finalUpdateThrows then StorageFailure(lr.store)
    else NoDriver(Store(lr.store.drivers, RecordNoDriver(lr.store.bookings, bookingId, now)))
  }

  // ---------------------------------------------------------------------------------------
  // Order of the candidates: an independent characterisation of the loop
  // ---------------------------------------------------------------------------------------

  /** A candidate whose claim would win outright. */
  predicate Wins(drivers: map<Id, EngineDriver>, id: Id, fault: Id -> Fault)
  {
    Claimable(drivers, id) && fault(id) == NoFault
  }

  /** A candidate whose claim applies (it may still lose on the booking update). */
  predicate ClaimApplies(drivers: map<Id, EngineDriver>, id: Id, fault: Id -> Fault)
  {
    Claimable(drivers, id) && fault(id) != ClaimThrows
  }

  /** The position of the first outright winner among the candidates, |cands| if there is none. */
  function FirstWin(drivers: map<Id, EngineDriver>, cands: seq<Id>, fault: Id -> Fault): (i: nat)
    ensures i <= |cands|
    ensures forall j :: 0 <= j < i ==> !Wins(drivers, cands[j], fault)
    ensures i < |cands| ==> Wins(drivers, cands[i], fault)
  {
    if cands == [] then 0
    else if Wins(drivers, cands[0], fault) then 0
    else 1 + FirstWin(drivers, cands[1..], fault)
  }

  /** The number of candidates the loop tries: up to and including the first winner. */
  function Tried(drivers: map<Id, EngineDriver>, cands: seq<Id>, fault: Id -> Fault): (n: nat)
    ensures n <= |cands|
  {
    var i := FirstWin(drivers, cands, fault);
    if i < |cands| then i + 1 else i
  }

  /** The store after trying a candidate that does not win outright: its claim applied (and the
      booking update threw), or nothing changed. */
  function AfterMiss(st: Store, bookingId: Id, id: Id, now: int, fault: Id -> Fault): Store
  {
    if ClaimApplies(st.drivers, id, fault) then Store(st.drivers[id := Claim(st.drivers[id], bookingId, now)], st.bookings)
    else st
  }

  lemma TailDistinct(cands: seq<Id>)
    requires Distinct(cands) && cands != []
    ensures Distinct(cands[1..]) && cands[0] !in cands[1..]
  {
    var rest := cands[1..];
    forall a, b | 0 <= a < b < |rest| ensures rest[a] != rest[b] {
      assert rest[a] == cands[a + 1] && rest[b] == cands[b + 1];
    }
    forall j | 0 <= j < |rest| ensures rest[j] != cands[0] {
      assert rest[j] == cands[j + 1];
    }
  }

  /** A candidate that does not win hands the rest of the loop the store AfterMiss. */
  lemma MissStep(st: Store, bookingId: Id, cands: seq<Id>, now: int, fault: Id -> Fault)
    requires cands != [] && !Wins(st.drivers, cands[0], fault)
    ensures ClaimLoop(st, bookingId, cands, now, fault)
            == ClaimLoop(AfterMiss(st, bookingId, cands[0], now, fault), bookingId, cands[1..], now, fault)
  {
  }

  /** A miss changes at most the head candidate's record. */
  lemma AfterMissFrame(st: Store, bookingId: Id, id: Id, now: int, fault: Id -> Fault)
    ensures var d' := AfterMiss(st, bookingId, id, now, fault).drivers;
      && d'.Keys == st.drivers.Keys
      && AfterMiss(st, bookingId, id, now, fault).bookings == st.bookings
      && (forall k :: k != id && k in st.drivers ==> d'[k] == st.drivers[k])
      && (forall k :: k != id ==> (Wins(d', k, fault) <==> Wins(st.drivers, k, fault)))
      && (forall k :: k != id ==> (ClaimApplies(d', k, fault) <==> ClaimApplies(st.drivers, k, fault)))
  {
  }

  /** A miss changes only the head candidate, so for distinct candidates the rest of the list
      wins and claims exactly as before. */
  lemma MissKeepsRest(st: Store, bookingId: Id, cands: seq<Id>, now: int, fault: Id -> Fault)
    requires Distinct(cands) && cands != [] && !Wins(st.drivers, cands[0], fault)
    ensures var d' := AfterMiss(st, bookingId, cands[0], now, fault).drivers;
      && FirstWin(st.drivers, cands, fault) == 1 + FirstWin(d', cands[1..], fault)
      && Tried(st.drivers, cands, fault) == 1 + Tried(d', cands[1..], fault)
      && (forall k :: k in cands[1..] ==> (ClaimApplies(d', k, fault) <==> ClaimApplies(st.drivers, k, fault)))
      && (forall k :: k != cands[0] && k in st.drivers ==> d'[k] == st.drivers[k])
      && d'.Keys == st.drivers.Keys
  {
    TailDistinct(cands);
    var d' := AfterMiss(st, bookingId, cands[0], now, fault).drivers;
    AfterMissFrame(st, bookingId, cands[0], now, fault);
    FirstWinAgree(st.drivers, d', cands[1..], fault);
  }

  /** The winner and the booking after a miss on the first candidate, given them for the rest
      of the list. */
  lemma WinnerOnMiss(st: Store, bookingId: Id, cands: seq<Id>, now: int, fault: Id -> Fault)
    requires Distinct(cands) && cands != [] && !Wins(st.drivers, cands[0], fault)
    requires var st' := AfterMiss(st, bookingId, cands[0], now, fault);
      var r := ClaimLoop(st', bookingId, cands[1..], now, fault);
      var i := FirstWin(st'.drivers, cands[1..], fault);
      && r.winner == (if i < |cands[1..]| then Some(cands[1..][i]) else None)
      && r.store.bookings == (if i < |cands[1..]| then RecordAssignment(st'.bookings, bookingId, cands[1..][i], now) else st'.bookings)
    ensures var r := ClaimLoop(st, bookingId, cands, now, fault);
      var i := FirstWin(st.drivers, cands, fault);
      && r.winner == (if i < |cands| then Some(cands[i]) else None)
      && r.store.bookings == (if i < |cands| then RecordAssignment(st.bookings, bookingId, cands[i], now) else st.bookings)
  {
    MissStep(st, bookingId, cands, now, fault);
    MissKeepsRest(st, bookingId, cands, now, fault);
    AfterMissFrame(st, bookingId, cands[0], now, fault);
    var i := FirstWin(st.drivers, cands, fault);
    if i < |cands| {
      assert cands[i] == cands[1..][i - 1];
    }
  }

  /** With distinct candidates the winner is the first candidate that is still available and
      whose calls succeed, and the booking records exactly that winner (or is untouched). */
  lemma {:induction false} ClaimLoopWinner(st: Store, bookingId: Id, cands: seq<Id>, now: int, fault: Id -> Fault)
    requires Distinct(cands)
    ensures var r := ClaimLoop(st, bookingId, cands, now, fault);
      var i := FirstWin(st.drivers, cands, fault);
      && r.winner == (if i < |cands| then Some(cands[i]) else None)
      && r.store.bookings == (if i < |cands| then RecordAssignment(st.bookings, bookingId, cands[i], now) else st.bookings)
    decreases |cands|
  {
    if cands != [] && !Wins(st.drivers, cands[0], fault) {
      TailDistinct(cands);
      ClaimLoopWinner(AfterMiss(st, bookingId, cands[0], now, fault), bookingId, cands[1..], now, fault);
      WinnerOnMiss(st, bookingId, cands, now, fault);
    }
  }

  /** With distinct candidates, `tryAssignDriver` returns a driver exactly when some candidate
      wins outright, and then it returns the first such candidate. */
  lemma TryAssignWinner(st: Store, bookingId: Id, cands: seq<Id>, now: int, fault: Id -> Fault,
                        finalUpdateThrows: bool)
    requires Distinct(cands)
    ensures var r := TryAssignDriver(st, bookingId, cands, now, fault, finalUpdateThrows);
      var i := FirstWin(st.drivers, cands, fault);
      && (r.DriverAssigned? <==> i < |cands|)
      && (r.DriverAssigned? ==> r.driver == cands[i])
  {
    ClaimLoopWinner(st, bookingId, cands, now, fault);
  }

  /** A driver as the loop should leave it when `tried` are the candidates it tried. */
  function ExpectedDriver(drivers: map<Id, EngineDriver>, bookingId: Id, tried: seq<Id>, now: int,
                          fault: Id -> Fault, k: Id): EngineDriver
    requires k in drivers
  {
    if k in tried && ClaimApplies(drivers, k, fault) then Claim(drivers[k], bookingId, now) else drivers[k]
  }

  /** After a miss on the head candidate, the expected state of any driver for the rest of the
      list, computed from the store the miss left, is its expected state for the whole list. */
  lemma ExpectedAfterMiss(st: Store, bookingId: Id, cands: seq<Id>, now: int, fault: Id -> Fault, k: Id)
    requires Distinct(cands) && cands != [] && !Wins(st.drivers, cands[0], fault) && k in st.drivers
    ensures var d' := AfterMiss(st, bookingId, cands[0], now, fault).drivers;
      var n := Tried(st.drivers, cands, fault);
      && 1 <= n
      && k in d'
      && ExpectedDriver(d', bookingId, cands[1..][..n - 1], now, fault, k)
         == ExpectedDriver(st.drivers, bookingId, cands[..n], now, fault, k)
  {
    var id := cands[0];
    var rest := cands[1..];
    var d' := AfterMiss(st, bookingId, id, now, fault).drivers;
    MissKeepsRest(st, bookingId, cands, now, fault);
    TailDistinct(cands);
    var n := Tried(st.drivers, cands, fault);
    assert cands[..n] == [id] + rest[..n - 1];
    if k == id {
      assert k !in rest[..n - 1];
    } else {
      assert (k in cands[..n]) <==> (k in rest[..n - 1]);
      assert k in rest[..n - 1] ==> k in rest;
    }
  }

  /** The expected state of the drivers after a loop whose first candidate wins outright. */
  lemma DriversOnWin(st: Store, bookingId: Id, cands: seq<Id>, now: int, fault: Id -> Fault)
    requires cands != [] && Wins(st.drivers, cands[0], fault)
    ensures var r := ClaimLoop(st, bookingId, cands, now, fault);
      var tried := cands[..Tried(st.drivers, cands, fault)];
      && r.store.drivers.Keys == st.drivers.Keys
      && (forall k :: k in st.drivers ==>
            r.store.drivers[k] == ExpectedDriver(st.drivers, bookingId, tried, now, fault, k))
  {
    assert FirstWin(st.drivers, cands, fault) == 0;
    assert cands[..1] == [cands[0]];
  }

  /** The expected state of the drivers after a miss on the first candidate, given the expected
      state for the rest of the list. */
  lemma DriversOnMiss(st: Store, bookingId: Id, cands: seq<Id>, now: int, fault: Id -> Fault)
    requires Distinct(cands) && cands != [] && !Wins(st.drivers, cands[0], fault)
    requires var st' := AfterMiss(st, bookingId, cands[0], now, fault);
      var r := ClaimLoop(st', bookingId, cands[1..], now, fault);
      var tried := cands[1..][..Tried(st'.drivers, cands[1..], fault)];
      && r.store.drivers.Keys == st'.drivers.Keys
      && (forall k :: k in st'.drivers ==>
            r.store.drivers[k] == ExpectedDriver(st'.drivers, bookingId, tried, now, fault, k))
    ensures var r := ClaimLoop(st, bookingId, cands, now, fault);
      var tried := cands[..Tried(st.drivers, cands, fault)];
      && r.store.drivers.Keys == st.drivers.Keys
      && (forall k :: k in st.drivers ==>
            r.store.drivers[k] == ExpectedDriver(st.drivers, bookingId, tried, now, fault, k))
  {
    MissStep(st, bookingId, cands, now, fault);
    MissKeepsRest(st, bookingId, cands, now, fault);
    forall k | k in st.drivers {
      ExpectedAfterMiss(st, bookingId, cands, now, fault, k);
    }
  }

  /** With distinct candidates every tried candidate whose claim applied is now assigned to the
      booking (the winner, and those whose booking update threw), and every other driver,
      including all candidates after the winner, is unchanged. */
  lemma {:induction false} ClaimLoopDrivers(st: Store, bookingId: Id, cands: seq<Id>, now: int, fault: Id -> Fault)
    requires Distinct(cands)
    ensures var r := ClaimLoop(st, bookingId, cands, now, fault);
      var tried := cands[..Tried(st.drivers, cands, fault)];
      && r.store.drivers.Keys == st.drivers.Keys
      && (forall k :: k in st.drivers ==>
            r.store.drivers[k] == ExpectedDriver(st.drivers, bookingId, tried, now, fault, k))
    decreases |cands|
  {
    if cands == [] {
    } else if Wins(st.drivers, cands[0], fault) {
      DriversOnWin(st, bookingId, cands, now, fault);
    } else {
      TailDistinct(cands);
      ClaimLoopDrivers(AfterMiss(st, bookingId, cands[0], now, fault), bookingId, cands[1..], now, fault);
      DriversOnMiss(st, bookingId, cands, now, fault);
    }
  }

  /** FirstWin depends only on whether each candidate wins. */
  lemma {:induction false} FirstWinAgree(d1: map<Id, EngineDriver>, d2: map<Id, EngineDriver>, cands: seq<Id>, fault: Id -> Fault)
    requires forall k :: k in cands ==> (Wins(d1, k, fault) <==> Wins(d2, k, fault))
    ensures FirstWin(d1, cands, fault) == FirstWin(d2, cands, fault)
    ensures Tried(d1, cands, fault) == Tried(d2, cands, fault)
    decreases |cands|
  {
    if cands != [] {
      assert cands[0] in cands;
      assert forall k :: k in cands[1..] ==> k in cands;
      FirstWinAgree(d1, d2, cands[1..], fault);
    }
  }

  /** An empty candidate list (or one where every claim loses) marks the booking "unassigned",
      appends one "No driver found" entry, returns null and touches no driver. */
  lemma NoWinnerMeansUnassigned(st: Store, bookingId: Id, cands: seq<Id>, now: int, fault: Id -> Fault)
    requires bookingId in st.bookings
    requires forall j :: 0 <= j < |cands| ==> !Wins(st.drivers, cands[j], fault)
    ensures var r := TryAssignDriver(st, bookingId, cands, now, fault, false);
      && r.NoDriver?
      && r.store.bookings[bookingId].status == UNASSIGNED
      && r.store.bookings[bookingId].logs == st.bookings[bookingId].logs + [LogEntry(now, NO_DRIVER_FOUND)]
  {
  }

  // ---------------------------------------------------------------------------------------
  // Scenarios
  // ---------------------------------------------------------------------------------------

  function Driver0(): EngineDriver
  {
    EngineDriver("auto", AVAILABLE, None, None)
  }

  function Booking0(): EngineBooking
  {
    EngineBooking(None, "PENDING", [])
  }

  /** Two assignment attempts for two bookings racing for the only available driver, run one
      after the other: the first booking gets the driver, the second finds none. */
  lemma TwoBookingsOneDriver(now1: int, now2: int)
    ensures var st := Store(map["d" := Driver0()], map["b1" := Booking0(), "b2" := Booking0()]);
      var ok := (x: Id) => NoFault;
      var first := TryAssignDriver(st, "b1", ["d"], now1, ok, false);
      var second := TryAssignDriver(first.store, "b2", ["d"], now2, ok, false);
      && first == DriverAssigned(first.store, "d")
      && first.store.bookings["b1"].status == ASSIGNED && first.store.bookings["b1"].driverId == Some("d")
      && second.NoDriver?
      && second.store.bookings["b2"].status == UNASSIGNED
      && second.store.drivers["d"].assignedBookingId == Some("b1")
  {
  }

  /** A booking update that throws after the driver claim applied leaves that driver assigned and
      the loop goes on: here two drivers end up assigned to the same booking. */
  lemma ThrownBookingUpdateLeavesClaim(now: int)
    ensures var st := Store(map["d1" := Driver0(), "d2" := Driver0()], map["b" := Booking0()]);
      var fault := (x: Id) => if x == "d1" then BookingUpdateThrows else NoFault;
      var r := TryAssignDriver(st, "b", ["d1", "d2"], now, fault, false);
      && r == DriverAssigned(r.store, "d2")
      && r.store.drivers["d1"].status == ASSIGNED && r.store.drivers["d1"].assignedBookingId == Some("b")
      && r.store.drivers["d2"].status == ASSIGNED && r.store.drivers["d2"].assignedBookingId == Some("b")
      && r.store.bookings["b"].driverId == Some("d2")
  {
  }

  // ---------------------------------------------------------------------------------------
  // Stale-claim reaper
  // ---------------------------------------------------------------------------------------

  /** The reaper's filter `{status: "assigned", lastAssignedAt: {$lt: cutoff}}`; a missing
      timestamp never compares below the cutoff. */
  predicate Stale(d: EngineDriver, cutoff: int)
  {
    d.status == ASSIGNED && d.lastAssignedAt.Some? && d.lastAssignedAt.value < cutoff
  }

  /** The released driver: available again, no booking, no claim time. */
  function Release(d: EngineDriver): (r: EngineDriver)
    ensures r.status == AVAILABLE && r.assignedBookingId == None && r.lastAssignedAt == None
    ensures r.vehicleType == d.vehicleType
  {
    d.(status := AVAILABLE, assignedBookingId := None, lastAssignedAt := None)
  }

  ghost function StaleIds(drivers: map<Id, EngineDriver>, cutoff: int): set<Id>
  {
    set k | k in drivers && Stale(drivers[k], cutoff)
  }

  datatype Sweep = Sweep(drivers: map<Id, EngineDriver>, freed: nat)

  /** `freeStaleAssignedDrivers(timeoutMs)` at time `now`: release every driver claimed strictly
      before `now - timeoutMs` and report how many were released. Bookings are not touched. */
  function FreeStaleAssignedDrivers(drivers: map<Id, EngineDriver>, now: int, timeoutMs: int): (r: Sweep)
    ensures r.drivers.Keys == drivers.Keys
    ensures forall k :: k in drivers && Stale(drivers[k], now - timeoutMs) ==> r.drivers[k] == Release(drivers[k])
    ensures forall k :: k in drivers && !Stale(drivers[k], now - timeoutMs) ==> r.drivers[k] == drivers[k]
    ensures r.freed == |StaleIds(drivers, now - timeoutMs)|
  {
    var cutoff := now - timeoutMs;
    Sweep(map k | k in drivers :: if Stale(drivers[k], cutoff) then Release(drivers[k]) else drivers[k],
          |set k | k in drivers && Stale(drivers[k], cutoff)|)
  }

  /** The reaper with its default timeout of 90 000 ms. */
  function FreeStaleDefault(drivers: map<Id, EngineDriver>, now: int): (r: Sweep)
    ensures r == FreeStaleAssignedDrivers(drivers, now, ASSIGN_TIMEOUT_MS)
  {
    FreeStaleAssignedDrivers(drivers, now, 90 * 1000)
  }

  /** After a sweep no driver is stale, so an immediate second sweep frees nobody and changes
      nothing. */
  lemma SweepIdempotent(drivers: map<Id, EngineDriver>, now: int, timeoutMs: int)
    ensures var once := FreeStaleAssignedDrivers(drivers, now, timeoutMs);
      var twice := FreeStaleAssignedDrivers(once.drivers, now, timeoutMs);
      twice.freed == 0 && twice.drivers == once.drivers
  {
    var once := FreeStaleAssignedDrivers(drivers, now, timeoutMs);
    assert StaleIds(once.drivers, now - timeoutMs) == {} by {
      forall k | k in once.drivers ensures !Stale(once.drivers[k], now - timeoutMs) {
        assert k in drivers;
      }
    }
  }

  /** A driver claimed exactly at the cutoff is kept; one claimed a millisecond earlier is freed. */
  lemma CutoffIsStrict(d: EngineDriver, now: int, timeoutMs: int)
    requires d.status == ASSIGNED
    ensures var at := d.(lastAssignedAt := Some(now - timeoutMs));
      FreeStaleAssignedDrivers(map["x" := at], now, timeoutMs).drivers["x"] == at
    ensures var before := d.(lastAssignedAt := Some(now - timeoutMs - 1));
      FreeStaleAssignedDrivers(map["x" := before], now, timeoutMs).drivers["x"] == Release(before)
  {
  }

  /** Claimed at t = 0, swept at t = 100 000 with the default timeout: released, count 1. */
  lemma ReapAfterTimeout()
    ensures var claimed := Claim(Driver0(), "b", 0);
      var sweep := FreeStaleDefault(map["d" := claimed], 100000);
      && sweep.drivers["d"].status == AVAILABLE
      && sweep.drivers["d"].assignedBookingId == None
      && sweep.freed == 1
  {
    var claimed := Claim(Driver0(), "b", 0);
    assert StaleIds(map["d" := claimed], 100000 - ASSIGN_TIMEOUT_MS) == {"d"};
  }
}
