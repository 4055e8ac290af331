/**
 The two collections the controllers read and write, their HTTP error replies, and the
 "newest `createdAt` first" ordering the listing queries ask Mongo for.
 */
module Database {

  import opened Common
  import opened BookingModel
  import opened DriverModel

  datatype Db = Db(bookings: map<Id, Booking>, drivers: map<Id, Driver>)

  /** The status code and message of a rejected request. */
  datatype HttpError =
    | BadRequest(msg: string)    // 400
    | NotFound(msg: string)      // 404
    | ServerError(msg: string)   // 500

  /** k is a booking of ks created no earlier than any other booking of ks. */
  ghost predicate IsNewest(k: Id, ks: set<Id>, bookings: map<Id, Booking>)
    requires ks <= bookings.Keys && k in bookings
  {
    forall j :: j in ks ==> bookings[j].createdAt <= bookings[k].createdAt
  }

  lemma {:induction false} NewestExists(ks: set<Id>, bookings: map<Id, Booking>)
    requires ks != {} && ks <= bookings.Keys
    ensures exists k :: k in ks && IsNewest(k, ks, bookings)
    decreases ks
  {
    var k :| k in ks;
    if ks == {k} {
      assert IsNewest(k, ks, bookings);
    } else {
      var rest := ks - {k};
      NewestExists(rest, bookings);
      var m :| m in rest && IsNewest(m, rest, bookings);
      if bookings[k].createdAt >= bookings[m].createdAt {
        assert IsNewest(k, ks, bookings);
      } else {
        assert IsNewest(m, ks, bookings);
      }
    }
  }

  /** `.sort({ createdAt: -1 })`: the bookings ks, each once, newest first. Bookings created at
      the same instant come in an unspecified order, as in Mongo. */
  ghost function NewestFirst(ks: set<Id>, bookings: map<Id, Booking>): (r: seq<Id>)
    requires ks <= bookings.Keys
    ensures |r| == |ks| && Distinct(r)
    ensures forall k :: k in r <==> k in ks
    ensures forall i, j :: 0 <= i < j < |r| ==> bookings[r[i]].createdAt >= bookings[r[j]].createdAt
    decreases ks
  {
    if ks == {} then []
    else
      NewestExists(ks, bookings);
      var k :| k in ks && IsNewest(k, ks, bookings);
      [k] + NewestFirst(ks - {k}, bookings)
  }
}
