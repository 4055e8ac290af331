# Ride booking core, modelled in Dafny

This project models the core of a ride-booking application: a Node/Express backend on MongoDB
and a React frontend. It states that behaviour as pure Dafny functions over immutable records and
proves properties of them. The model covers:

- **Driver assignment** (`assignment.dfy`). The candidate query, the ordered claim loop of
  `tryAssignDriver` with its conditional "claim only if still available" update, the booking
  updates it makes, and the reaper `freeStaleAssignedDrivers`, which releases claims older than a
  timeout. The engine has records of its own: the Mongoose schemas declare no status, location
  or assignment fields for drivers, and no "assigned"/"unassigned" booking status.
- **Fares**. Two independent calculators:
  - the round-based line-item breakdown of the fare service, with its rate table
    (`constants.dfy`, `fare.dfy`);
  - the ceil-based per-vehicle fare and time table used for ride options (`vehicles.dfy`).

  `Math.round` and `Math.ceil` are defined on exact reals (`jsmath.dfy`).
- **Ride lifecycle**:
  - the booking and driver schemas, with their required fields, enums, defaults and the unique
    driver email (`booking_model.dfy`, `driver_model.dfy`);
  - the booking handlers: ride options, create, lookup, history (`booking_controller.dfy`);
  - the driver handlers: pending rides, accept, the delayed completion that credits the wallet,
    earnings (`driver_controller.dfy`).

  The database is two maps of records (`database.dfy`). The 5-second completion timer is an
  explicit step `Complete`.
- **Client validators and formatters**. All are string functions over `seq<char>`:
  - the payment page's UPI, card, expiry and CVV checks and its input sanitisers
    (`payment_page.dfy`, over the regex classes in `js_regex.dfy`);
  - the register and login form checks and the login reply handling (`auth_forms.dfy`);
  - the email regex `\S+@\S+\.\S+`, decided by an automaton proved equal to the regex's
    language (`email_pattern.dfy`).
- **Client session and routing**:
  - the `setUser`/`logout` reducers, with local storage as a key/value map
    (`user_slice.dfy`);
  - the three route guards of the app and its route table (`routes.dfy`).

Clocks, the proximity query, storage faults, `parseFloat`, `JSON.stringify`/`JSON.parse` and
fresh record ids are parameters of the functions that use them.

Behaviour of the code worth noting:

- The fare service does not reject a negative distance or duration. It computes a breakdown
  for any input.
- The engine uses the status strings "available", "assigned" and "unassigned". The
  booking-controller lifecycle uses the schema's PENDING/ACCEPTED/COMPLETED.
- The reaper releases drivers only. It does not touch any booking.
- A booking update that throws after a driver claim applied leaves that driver "assigned", and
  the loop goes on to the next candidate.
- `setUser` with a null user stores the serialised null under "user"; it does not remove the
  key. State and storage still agree, in the sense that reloading restores the state.

## Model

| member | source | states |
|---|---|---|
| Constants.RideTypesExact | backend/src/utils/constants.ts:2-3 | the ride types are exactly bike, auto, mini and sedan, each occurring once and named by a distinct string |
| Constants.RatesPositive | backend/src/utils/constants.ts:5-10 | the rate lookup is total; every base and per-km rate is a positive integer and every per-minute rate lies in 0.5..1 |
| Constants.RatesIncreasing | backend/src/utils/constants.ts:6-9 | base, per-km and per-minute rates strictly increase from bike to auto to mini to sedan |
| Constants.AssignConstants | backend/src/utils/constants.ts:12-13 | the assignment timeout is 90 000 ms and the search radius is 5 000 m |
| JsMath.Round | backend/src/services/fare.service.ts:7-8 | `Math.round` yields the integer within half a unit of x, halves going up |
| JsMath.Ceil | backend/src/utils/vehicles.ts:14-15 | `Math.ceil` yields the least integer at or above x |
| JsMath.RoundOfInteger | backend/src/services/fare.service.ts:12 | rounding an integer gives the integer back |
| JsMath.RoundNonNegative | backend/src/services/fare.service.ts:7-11 | rounding a non-negative number gives a non-negative integer |
| JsMath.CeilMonotone | backend/src/utils/vehicles.ts:14-15 | `Math.ceil` is monotone |
| JsMath.CeilPositive | backend/src/utils/vehicles.ts:14-15 | the ceiling of a positive number is at least 1 |
| FareService.CalculateFare | backend/src/services/fare.service.ts:5-21 | the base is echoed from the rate table, the fee is 5, the distance and time fares lie within half a unit of rate times quantity, the tax is 5 % of the subtotal rounded, and the five line items sum exactly to the total |
| FareService.FareNonNegative | backend/src/services/fare.service.ts:6-19 | for non-negative distance and duration every line item is non-negative and the total is at least base + 5 |
| FareService.AutoTenKmExample | backend/src/services/fare.service.ts:6-19 | auto, 10 km, 20 min gives base 25, distance fare 100, time fare 12, fee 5, tax 7, total 149 |
| Vehicles.ParseVehicleType | backend/src/utils/vehicles.ts:9-10 | a vehicle name is found in the table iff it is BIKE, AUTO or CAR, and it names the vehicle found |
| Vehicles.VehicleTableExact | backend/src/utils/vehicles.ts:2-6 | the table is BIKE 5/5, AUTO 8/7, CAR 12/10 (fare per km / time per km) |
| Vehicles.FareAndTimeFor | backend/src/utils/vehicles.ts:14-17 | fare and estimated time are the least integers at or above distance times the vehicle's fare and time rates |
| Vehicles.CalculateFareAndTime | backend/src/utils/vehicles.ts:8-18 | fails iff the vehicle type is not BIKE, AUTO or CAR, with the message "Invalid vehicle type: " and the name; otherwise gives that vehicle's fare and time |
| Vehicles.FareAndTimePositive | backend/src/utils/vehicles.ts:14-15 | for a positive distance both fare and time are at least 1 |
| Vehicles.FareAndTimeMonotone | backend/src/utils/vehicles.ts:14-15 | fare and time never decrease as the distance grows |
| Vehicles.FareAndTimeOrdered | backend/src/utils/vehicles.ts:2-6 | at a fixed non-negative distance, fare and time are ordered BIKE <= AUTO <= CAR |
| BookingModel.ParseBookingStatus | backend/src/models/Booking.ts:17-21 | a booking status is valid iff it is PENDING, ACCEPTED or COMPLETED |
| BookingModel.Create | backend/src/models/Booking.ts:3-25 | a new booking is stored iff its user, pickup and drop are non-empty and its vehicle type and status are in their enums; the stored record copies every given field, including a given status, has no driver, defaults to PENDING when no status is given and is stamped with the current time |
| DriverModel.Insert | backend/src/models/Driver.ts:3-19 | a new driver is stored iff name, email and password are non-empty, the vehicle type is BIKE, AUTO or CAR and no stored driver has that email; only the new id is added, it holds the given name, email, password and vehicle type, the wallet defaults to 0, and unique emails stay unique |
| DriverModel.WalletDefaultsToZero | backend/src/models/Driver.ts:13-16 | a valid driver inserted without a wallet balance starts at 0 |
| Database.NewestFirst | backend/src/controllers/driver.controller.ts:38 | sorting by `createdAt` descending lists every selected booking exactly once, newest first |
| BookingController.GetRideOptions | backend/src/controllers/booking.controller.ts:14-46 | a missing distance and a distance that parses to NaN or to at most 0 are rejected with their messages; otherwise exactly three options BIKE, AUTO, CAR, each with that vehicle's fare and time for the distance |
| BookingController.RideOptionsOrdered | backend/src/controllers/booking.controller.ts:26-41 | every offered option costs at least 1 and takes at least 1 minute, and fares and times are ordered BIKE <= AUTO <= CAR |
| BookingController.CreateBooking | backend/src/controllers/booking.controller.ts:52-110 | a falsy text field or a non-number numeric field is rejected first, then a vehicle type outside BIKE/AUTO/CAR; a created booking is PENDING with no driver, stores the client's distance, fare and time unchanged, adds only the new id, and the reply echoes id, status, fare and time |
| BookingController.NegativeFareAccepted | backend/src/controllers/booking.controller.ts:65-93 | a request with a negative fare, distance and time is accepted and the fare is stored as sent |
| BookingController.GetBookingById | backend/src/controllers/booking.controller.ts:116-136 | a missing id is a bad request, an unknown id is not-found, and otherwise the stored booking is returned |
| BookingController.CreateThenGet | backend/src/controllers/booking.controller.ts:52-136 | a created booking is then found by its id, PENDING, driverless and holding the rider's values, and every other lookup answers as before |
| BookingController.GetBookingHistory | backend/src/controllers/booking.controller.ts:142-161 | without a caller id the request is rejected; otherwise at most 50 distinct ids, all of the caller's bookings, newest first |
| BookingController.HistoryIsNewestFifty | backend/src/controllers/booking.controller.ts:149-153 | the history shows all the caller's bookings when there are at most 50, and otherwise 50 with no left-out booking newer than a shown one |
| DriverController.GetPendingRides | backend/src/controllers/driver.controller.ts:12-45 | caller id and vehicle type are required, the caller must exist and drive that type, and the request succeeds exactly when all three hold; the rides are exactly the PENDING, driverless bookings of that type, each once, newest first |
| DriverController.AcceptRide | backend/src/controllers/driver.controller.ts:52-125 | the guards run in order (booking id given, driver exists, booking exists, booking PENDING, vehicle types match) and the first failure decides, each with its own status and message; success iff all pass, and then only that booking changes, to ACCEPTED with the caller as driver, the reply reports earned = fare and total = wallet + fare, and the completion job captures the fare |
| DriverController.Complete | backend/src/controllers/driver.controller.ts:90-108 | completion changes nothing unless the booking is ACCEPTED; then it becomes COMPLETED and, if the driver exists, the fare read at accept time is added to that driver's wallet and to no other |
| DriverController.CompletionCreditsOnce | backend/src/controllers/driver.controller.ts:92-104 | running the completion any number n >= 1 of times has the effect of running it once, so a booking credits a wallet at most once |
| DriverController.AcceptThenComplete | backend/src/controllers/driver.controller.ts:83-120 | after accept then completion the booking is COMPLETED with the accepting driver and its fare unchanged, and the wallet equals the old balance plus the fare, as the accept reply announced |
| DriverController.NoSecondAccept | backend/src/controllers/driver.controller.ts:73-75 | a booking that is ACCEPTED or COMPLETED cannot be accepted by any driver |
| DriverController.GetDriverEarnings | backend/src/controllers/driver.controller.ts:131-148 | an existing driver gets its wallet balance, an unknown one not-found; nothing is modified |
| DriverController.EarningsAfterCompletion | backend/src/controllers/driver.controller.ts:83-148 | accepting leaves the earnings unchanged; after the completion the earnings query returns the total the accept reply announced |
| DriverController.CreatedBookingIsOffered | backend/src/controllers/driver.controller.ts:12-45 | a booking just created by a rider is among the pending rides offered to every driver of its vehicle type |
| Assignment.EligibleIds | backend/src/services/assignment.service.ts:17-25 | the query keeps exactly the hits that are of the ride type, available and within 5 000 m |
| Assignment.FindCandidates | backend/src/services/assignment.service.ts:17-26 | at most 10 candidates, each of the ride type, available and within the radius; they are the first min(10, n) of the n eligible hits, in query order, so when at most 10 qualify all of them are candidates |
| Assignment.EligibleIdsInOrder | backend/src/services/assignment.service.ts:17-26 | the filter keeps the query order: of two kept ids, the earlier comes from an earlier eligible hit |
| Assignment.EligibleIdsDistinct | backend/src/services/assignment.service.ts:17-26 | a query that hits each driver at most once yields each eligible driver at most once |
| Assignment.CandidatesDistinct | backend/src/services/assignment.service.ts:17-26 | over a query hitting each driver once, no candidate occurs twice |
| Assignment.CandidatesNearerFirst | backend/src/services/assignment.service.ts:17-26 | over a nearest-first query, of two candidates the earlier is hit first and no farther away |
| Assignment.CandidatesAreNearest | backend/src/services/assignment.service.ts:17-26 | over a nearest-first query hitting each driver once, no eligible driver left out is nearer than any candidate |
| Assignment.Claim | backend/src/services/assignment.service.ts:30-34 | a claimed driver is "assigned" to the booking at the claim time, with its vehicle type kept |
| Assignment.RecordAssignment | backend/src/services/assignment.service.ts:36-39 | only the booking changes: driver set, status "assigned", exactly one "Driver … assigned" entry appended |
| Assignment.RecordNoDriver | backend/src/services/assignment.service.ts:48 | only the booking changes: status "unassigned", exactly one "No driver found" entry appended, driver kept |
| Assignment.ClaimLoop | backend/src/services/assignment.service.ts:28-46 | no driver is added or removed; drivers that are not candidates, or not available, are untouched; every changed driver is a claim for this booking; a winner is a candidate that was available with no fault, is claimed, and is recorded on the booking; with no winner the booking is untouched |
| Assignment.TryAssignDriver | backend/src/services/assignment.service.ts:14-50 | a returned driver was an available candidate whose calls succeeded, is claimed and is recorded on the booking; with no winner the booking is marked "unassigned"; without a winner the call throws exactly when the final update throws, leaving the booking untouched; an empty candidate list claims nobody |
| Assignment.TryAssignWinner | backend/src/services/assignment.service.ts:14-50 | for distinct candidates a driver is returned exactly when some candidate wins outright, and it is the first such candidate |
| Assignment.FirstWin | backend/src/services/assignment.service.ts:28-42 | the candidates are scanned in list order: every candidate before the chosen one fails to win outright, and the chosen one wins |
| Assignment.ClaimLoopWinner | backend/src/services/assignment.service.ts:28-42 | for distinct candidates the winner is the first candidate in list order that is available and whose calls succeed, and the booking records exactly that winner |
| Assignment.ClaimLoopDrivers | backend/src/services/assignment.service.ts:29-45 | for distinct candidates, every candidate tried up to the winner whose claim applied is now assigned to the booking (the winner, and those whose booking update threw), and every other driver, including all candidates after the winner, is unchanged |
| Assignment.NoWinnerMeansUnassigned | backend/src/services/assignment.service.ts:48-49 | when no candidate wins, the result is null, the booking is "unassigned" and gains exactly one "No driver found" entry |
| Assignment.TwoBookingsOneDriver | backend/src/services/assignment.service.ts:28-49 | two bookings assigned one after the other against one available driver: the first gets the driver, the second is "unassigned" |
| Assignment.ThrownBookingUpdateLeavesClaim | backend/src/services/assignment.service.ts:29-45 | a booking update that throws after a claim leaves that driver assigned and the loop claims the next driver too |
| Assignment.Release | backend/src/services/assignment.service.ts:56 | a released driver is "available" with no booking and no claim time, vehicle type kept |
| Assignment.FreeStaleAssignedDrivers | backend/src/services/assignment.service.ts:52-60 | exactly the drivers "assigned" strictly before now - timeout are released, all others are unchanged, no driver is added or removed, and the count is the number released |
| Assignment.FreeStaleDefault | backend/src/services/assignment.service.ts:52 | the default timeout is ASSIGN_TIMEOUT_MS (90 000 ms) |
| Assignment.SweepIdempotent | backend/src/services/assignment.service.ts:53-59 | an immediate second sweep frees 0 drivers and changes nothing |
| Assignment.CutoffIsStrict | backend/src/services/assignment.service.ts:55 | a driver claimed exactly at the cutoff is kept and one claimed a millisecond earlier is released |
| Assignment.ReapAfterTimeout | backend/src/services/assignment.service.ts:52-59 | a claim made at 0 is released by a default sweep at 100 000 ms, with count 1 |
| JsRegex.StripWhitespace | ola-frontend/src/pages/PaymentPage.tsx:87 | deleting `\s` leaves no white space, never lengthens, and changes nothing in a string without white space |
| JsRegex.StripWhitespaceCounts | ola-frontend/src/pages/PaymentPage.tsx:87 | deleting `\s` keeps every other character exactly as often as it occurs |
| JsRegex.StripWhitespaceConcat | ola-frontend/src/pages/PaymentPage.tsx:87 | deleting `\s` from a concatenation deletes it from each part, so the kept characters stay in order |
| JsRegex.KeepDigits | ola-frontend/src/pages/PaymentPage.tsx:240 | deleting `\D` leaves only digits, never lengthens, and keeps an all-digit string unchanged |
| JsRegex.KeepDigitsCounts | ola-frontend/src/pages/PaymentPage.tsx:240 | deleting `\D` keeps every digit exactly as often as it occurs |
| JsRegex.KeepDigitsConcat | ola-frontend/src/pages/PaymentPage.tsx:240 | deleting `\D` from a concatenation deletes it from each part, so the digits stay in order |
| JsRegex.StripThenKeepDigits | ola-frontend/src/pages/PaymentPage.tsx:240 | deleting white space before deleting non-digits gives the same digits as deleting non-digits alone |
| PaymentPage.SplitAtFirstAtCorrect | ola-frontend/src/pages/PaymentPage.tsx:76-79 | splitting at the first "@" and checking both sides accepts exactly the strings of one or more of [A-Za-z0-9_.-], one "@", and one or more of [A-Za-z0-9_.-] |
| PaymentPage.ValidateUpi | ola-frontend/src/pages/PaymentPage.tsx:76-79 | the UPI check passes iff the string has that shape |
| PaymentPage.ExpiryOkMeansMonth | ola-frontend/src/pages/PaymentPage.tsx:84 | an expiry passes iff it is MM/YY with digits everywhere else and MM a month from 1 to 12 |
| PaymentPage.ValidateCard | ola-frontend/src/pages/PaymentPage.tsx:81-100 | valid iff the number is 16 digits after deleting white space, the expiry matches MM/YY and the CVV is 3-4 digits; the first failing check's message is the one shown |
| PaymentPage.ValidatePayment | ola-frontend/src/pages/PaymentPage.tsx:111-129 | UPI: an empty id is rejected before the format check, and it passes iff the id has the UPI shape; card: any empty field is rejected before the card checks, and otherwise it reports the card checks' verdict, passing iff all three pass; every other method passes unchecked |
| PaymentPage.SanitizeCardNumber | ola-frontend/src/pages/PaymentPage.tsx:239-242 | the card-number field holds only digits, at most 16 |
| PaymentPage.SanitizeCvv | ola-frontend/src/pages/PaymentPage.tsx:271 | the CVV field holds only digits, at most 4 |
| PaymentPage.FormatExpiry | ola-frontend/src/pages/PaymentPage.tsx:254-259 | the expiry field is at most 5 characters, all digits except the third; it has a third character exactly when the input holds at least two digits, and that character is '/' |
| PaymentPage.SanitizeCardNumberProperties | ola-frontend/src/pages/PaymentPage.tsx:239-242 | the card-number sanitiser is idempotent, equals the first 16 digits of the input, and its output passes the card-number check iff the input holds at least 16 digits |
| PaymentPage.SanitizeCvvProperties | ola-frontend/src/pages/PaymentPage.tsx:271 | the CVV sanitiser is idempotent and its output passes the CVV check iff the input holds at least 3 digits |
| PaymentPage.FormatExpiryExample | ola-frontend/src/pages/PaymentPage.tsx:254-259 | "1225" is formatted as "12/25" |
| PaymentPage.FormatExpiryDigits | ola-frontend/src/pages/PaymentPage.tsx:255-257 | the digits of the formatted expiry are the first four digits of the input |
| PaymentPage.FormatExpiryProperties | ola-frontend/src/pages/PaymentPage.tsx:254-259 | formatting is idempotent, and the result passes the expiry check iff the input holds at least 4 digits whose first two form a month from 01 to 12 |
| EmailPattern.RunMeaning | ola-frontend/src/pages/Register.tsx:39 | each automaton flag after reading a string holds exactly when its meaning (inside the first run, after "@", inside the second run, after ".", matched) holds of that string |
| EmailPattern.MatchesEmail | ola-frontend/src/pages/Register.tsx:39 | the email test passes iff some substring is a non-white run, "@", a non-white run, ".", a non-white run |
| EmailPattern.EmailExamples | ola-frontend/src/pages/Login.tsx:24 | "a@b.c" passes, and "", "a@b" and "a @b.c" fail |
| AuthForms.ValidateRegister | ola-frontend/src/pages/Register.tsx:34-48 | valid iff the name has at least 2 characters, the email matches and the password has at least 6; name, then email, then password, and only the first failure is shown |
| AuthForms.ValidateLogin | ola-frontend/src/pages/Login.tsx:23-33 | valid iff the email matches and the password has at least 6 characters; the email is checked first |
| AuthForms.LoginChecksAsRegister | ola-frontend/src/pages/Login.tsx:23-33 | with an acceptable name, the register form judges email and password exactly as the login form does |
| AuthForms.ThrownMessage | ola-frontend/src/pages/Login.tsx:77 | the shown error is the server's message if truthy, else the error's message if truthy, else "Login failed", so it is never empty |
| AuthForms.LoginSubmit | ola-frontend/src/pages/Login.tsx:35-84 | an invalid form shows its error and sends nothing; navigation happens iff the reply is ok and carries a token and a user, and then the session is stored and a driver goes to /driver, anyone else to /; any other reply or a thrown request leaves the session unchanged and shows its error |
| UserSlice.LoadInitial | ola-frontend/src/redux/userSlice.ts:10-22 | the initial token is the stored token if present; the user is parsed from a non-empty stored value, and a missing, empty or unparsable value gives no user |
| UserSlice.SetUser | ola-frontend/src/redux/userSlice.ts:28-33 | the state takes the payload, and "token" and the serialised "user" are written with no other key changed |
| UserSlice.Logout | ola-frontend/src/redux/userSlice.ts:34-39 | both state fields become null and both keys are removed, with no other key changed |
| UserSlice.LogoutIdempotent | ola-frontend/src/redux/userSlice.ts:34-39 | logging out twice is logging out once |
| UserSlice.ReducersKeepAgreement | ola-frontend/src/redux/userSlice.ts:10-39 | for a serialiser that round-trips profiles, reloading after either reducer restores exactly the state that reducer produced |
| UserSlice.SetUserKeepsUserKey | ola-frontend/src/redux/userSlice.ts:31-32 | after `setUser` with no user, the "user" key is still present, though the state holds no user |
| Routes.UserRoute | ola-frontend/src/App.tsx:14-26 | renders iff there is a token and the user is not a driver; no token goes to /login, a driver goes to /driver |
| Routes.DriverRoute | ola-frontend/src/App.tsx:29-41 | renders iff there is a token and the user is a driver; no token goes to /login, anyone else (including no user) goes to / |
| Routes.PublicOnlyRoute | ola-frontend/src/App.tsx:44-56 | renders iff not both a token and a user; otherwise a driver goes to /driver and anyone else to / |
| Routes.NoRenderWithoutToken | ola-frontend/src/App.tsx:17-19 | without a token neither protected guard renders, and both send the visitor to /login |
| Routes.ExactlyOneProtectedRenders | ola-frontend/src/App.tsx:14-41 | with a token exactly one of the rider and driver guards renders |
| Routes.GuardAt | ola-frontend/src/App.tsx:58-105 | exactly the six paths "/", "/booking", "/bookings", "/login", "/register" and "/driver" are routed; without a token the login and register pages render and every other routed page redirects to /login |
| Routes.RedirectsSettle | ola-frontend/src/App.tsx:58-105 | every redirect of a routed page lands on a routed page whose guard renders, so the guards never redirect in a loop |
| Routes.LoginLandsOnOwnHome | ola-frontend/src/pages/Login.tsx:54-69 | after a successful login the page navigated to renders for the session just stored |

## Left out

- IEEE-754 arithmetic: numbers are exact reals and integers, so a JavaScript result can differ at
  exact .5 or integer boundaries (0.6 × minutes, say). NaN, Infinity and `typeof NaN ===
  "number"` are not modelled. `parseFloat` is a parameter returning `Option<real>`, with `None`
  for NaN.
- JavaScript string lengths count UTF-16 code units. The model counts characters.
- The `vehicles[...]` lookup also finds inherited object keys such as "constructor". The model
  accepts exactly BIKE, AUTO and CAR.
- Mongoose and MongoDB plumbing is not modelled: `populate`, `$nearSphere` geometry, the
  `timestamps` fields, ObjectId casts and the driver-location service. The proximity query's
  result is an input list of ids with distances, in distance order.
- Concurrency is not modelled. That covers the atomicity of `findOneAndUpdate` and the
  read-then-save race of `acceptRide`. Interleavings appear only as sequential compositions, as
  in `Assignment.TwoBookingsOneDriver`.
- The 5-second timer and `Date.now()` are not modelled. They become the explicit step
  `DriverController.Complete` and `now` parameters.
- Errors that a handler's `try` turns into "Server error" are left out, apart from the schema
  failure in `BookingController.CreateBooking`. The listing queries' database failures are an
  example.
- Listing queries are ghost functions. The order among bookings with equal `createdAt` is
  unspecified, as in MongoDB.
- `JSON.stringify`, `JSON.parse` and local storage are a codec parameter and a key/value map.
  An arbitrary JSON `user` value is reduced to a profile record. Only `role` is inspected, and
  a missing role behaves like any role other than "driver".
- The register page's API calls are left out: driver registration, the follow-up login and
  their error messages. Only its validation gate is modelled.
- The alerts shown by the login and payment pages are left out. The payment page's call to the
  mock payment API and its navigation after paying are also left out.
- Authentication and crypto are not part of this model. That covers the auth controller, the
  middleware, bcrypt and JSON Web Tokens.
- Also not part of this model: the payment controller and service (a mock), the dev seeding
  controller, the scheduler, the logger, route tables, `app.ts`, `server.ts` and the API
  wrappers.
- The UI pages and components other than the validators and guards above are not modelled.
- `backend/dist/` is a compiled copy of `backend/src` and is not modelled.
- Assignment.ClaimLoop, Assignment.TryAssignDriver: one `now` stamps every claim and log entry
  of a call. The code reads `new Date()` afresh for each update, so its timestamps can differ
  within one call.
- BookingModel.Create, DriverModel.Insert: a failure reports only the first failing path. A
  Mongoose ValidationError lists every failing path, but no caller reads that list.
- Routes.GuardAt: paths are compared literally. React Router matches route paths
  case-insensitively and accepts a trailing slash, so "/Login" and "/driver/" reach guarded
  pages in the app but are unrouted in the model.
- BookingController.CreateBooking: request values are strings or numbers as the fields expect.
  A truthy value of another type, such as a number as `pickupLocation`, is outside the model.
- BookingController.CreateBooking: the rider id is a given string. In the code an absent
  `userId` makes `new ObjectId(undefined)` mint a fresh id, and the booking is still created.
- UserSlice.ReducersKeepAgreement: agreement is stated as "reloading restores the state". The
  "user" key is not absent after `setUser` with a null user; it holds the serialised null.
