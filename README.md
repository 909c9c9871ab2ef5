# Park Lane chauffeur booking backend, modelled in Dafny

This project models the logic of a chauffeur-hire backend written as Express
handlers, and proves properties of that model. The backend has three parts:

- **Tier quotes** (`POST /quote`). A fixed price is built from the tier's base fare (Business 85, First 140, XL 110),
  plus 8 for each extra passenger (at most four) and 3 for each bag (at most six).
  There are three copies of this handler: `src/app.js`, `server.js`, and the looser router `src/routes/quotes.js`.
- **Bookings kept in a JSON file**. These cover `POST /bookings` and `GET /bookings` in `src/app.js` and `server.js`,
  and the admin controller's list, lookup and status update. Each handler reads the whole file into an array,
  changes it and writes it back. Here the array is the `items` field of the class `FileBookings.FileStore`.
- **Bookings kept through mongoose**. This is the booking schema with its enums and defaults, `estimatePrice` and `getQuote`,
  and the customer's create, list, lookup and cancel. The collection is the `docs` field of the class
  `CustomerBookings.BookingCollection`.

Modules: `Wrappers` (Option, Result), `JsValues` (request-body JSON values and truthiness),
`JsStrings` (`String.prototype.trim`), `TierQuote`, `FileBookings`, `AdminAccess` (admin password check),
`VehiclePricing`, `BookingSchema`, `CustomerBookings`.

Outside inputs become parameters:
- the booking id and the timestamps (`Date.now()`, `Math.random()`, `new Date()`, mongoose timestamps);
- the caller `req.user._id`, which is `None` when no authentication middleware set `req.user`;
- the `ADMIN_SECRET_PASSWORD` environment variable;
- the contents of the bookings file.

Facts about the code that the model keeps:
- Prices come only from the fixed tier table and `estimatePrice`. Neither looks at distance or duration,
  and neither applies a minimum fare.
- Status changes are not restricted to a set of allowed transitions. The admin update stores any truthy value,
  whatever it is. A customer can cancel a booking in any status except "cancelled", including "completed".
- The JSON-file handlers store `passengers` and `luggage` unclamped, store `tier` unchecked (even absent),
  and trust the client's `quote`.
- File bookings start as "requested". Mongoose bookings start as "pending". "requested" is not in the schema's enum.
- The readers in src/app.js (53-62) and server.js (60-67) turn a missing or unreadable bookings file into an empty list.
  The admin controller's reader, src/db/bookings.js:6-9, does this only for a missing file: a corrupt file makes
  `getAllBookings`, `getBookingById` and `updateBookingStatus` throw. File reading is I/O and is not modelled.

## Model

| member | source | states |
|---|---|---|
| `JsStrings.Trim` | src/models/booking.js:13 | The result has no white space at either end. It is the piece of the input between two cut points, and everything that was cut off is white space. |
| `JsStrings.TrimIdempotent` | src/models/booking.js:10-19 | Trimming an already trimmed value changes nothing. |
| `JsStrings.TrimKeepsTrimmed` | src/models/booking.js:13 | A string with no white space at its ends is its own trim. |
| `TierQuote.ParseTier` | src/app.js:34-38 | Only the exact strings "Business", "First" and "XL" name a tier. |
| `TierQuote.TierNameRoundTrip` | src/app.js:35-37 | Each tier's name is recognised as that tier. |
| `TierQuote.Clamp` | src/app.js:31-32 | `Math.max(lo, Math.min(hi, x))` lies in [lo, hi]. It is x when x is already in range, otherwise the nearer bound. |
| `TierQuote.AppQuote` | src/app.js:21-48 | A falsy tier or a non-number passengers gives "Missing fields". Otherwise an unknown tier gives "Invalid tier" with the allowed list. Otherwise the quote lies in [base, base + 50] for the tier's base fare. |
| `TierQuote.ServerQuote` | server.js:22-54 | The if/else copy gives the same "Missing fields" condition and the same allowed list. |
| `TierQuote.ServerQuoteAgreesWithApp` | server.js:36-51 | For every request, server.js answers exactly what src/app.js answers. |
| `TierQuote.BaseFareAlone` | src/app.js:34-45 | One passenger and no luggage are quoted at exactly the base fare (85/140/110). |
| `TierQuote.EachPassengerAddsEight` | src/app.js:44-45 | From 1 to 5 passengers, each extra passenger adds 8. |
| `TierQuote.EachBagAddsThree` | src/app.js:44-45 | From 0 to 6 bags, each extra bag adds 3. |
| `TierQuote.FewPassengersPriceAsOne` | src/app.js:31 | Any passenger count of 1 or less is priced like 1. |
| `TierQuote.ManyPassengersPriceAlike` | src/app.js:31-44 | All passenger counts of 5 and above give the same quote. |
| `TierQuote.ManyBagsPriceAlike` | src/app.js:32-44 | All luggage counts of 6 and above give the same quote. |
| `TierQuote.AbsentLuggageCountsAsNone` | src/app.js:32 | Missing, non-number or negative luggage is priced like 0. |
| `TierQuote.QuoteMonotoneInPassengers` | src/app.js:31-45 | For a valid tier, every passenger count is quoted, and more passengers never lower the quote. |
| `TierQuote.QuoteMonotoneInLuggage` | src/app.js:32-45 | More luggage never lowers the quote. |
| `TierQuote.RouteQuote` | src/routes/quotes.js:4-23 | The router never answers "Invalid tier". It rejects exactly a falsy tier or falsy passengers (missing or 0). With at least one passenger and no negative luggage, the quote lies in [fare, fare + 50]. |
| `TierQuote.RouteUnknownTierPricedAsXL` | src/routes/quotes.js:11-14 | Any truthy tier it does not know is priced like "XL". |
| `TierQuote.RouteAgreesWithApp` | src/routes/quotes.js:11-20 | For a named tier, 1 or more passengers and 0 or more bags, the router quotes what src/app.js quotes. |
| `TierQuote.RouteMonotoneInPassengers` | src/routes/quotes.js:16-17 | More passengers never lower the router's quote. |
| `TierQuote.RouteMonotoneInLuggage` | src/routes/quotes.js:16-18 | More luggage never lowers the router's quote. |
| `TierQuote.RouteRejectsZeroPassengers` | src/routes/quotes.js:7-9 | Zero passengers are rejected by the router but priced as one by src/app.js. |
| `TierQuote.RouteUndercutsBaseFare` | src/routes/quotes.js:16-20 | Without clamping, -10 passengers on Business are quoted -3. |
| `FileBookings.FindById` | src/controllers/adminController.js:28 | `find` gives the first index whose id matches, or none exactly when no booking has that id. |
| `FileBookings.CreateIn` | server.js:74-118 | A rejected body leaves the array as it was. An accepted body answers `{id, status: "requested"}` and puts the new booking in front of the older ones, which keep their order. The new booking stores what the client sent: quote, passengers, texts and tier. Missing or non-number luggage is stored as 0. |
| `FileBookings.FileStore.Create` | src/app.js:70-119 | The body is accepted exactly when pickup, dropoff, date and time are truthy and passengers and quote are numbers. On rejection the store is unchanged. On acceptance the stored items are the new booking followed by the old ones. The booking has status "requested", the client's quote as given and luggage defaulting to 0, and it is found under its id. |
| `FileBookings.CreateInUnshifts` | src/app.js:115 | An accepted create changes the array exactly as one `unshift` of the new booking does. |
| `FileBookings.UnshiftAllIsNewestFirst` | src/app.js:115 | After unshifting bookings one by one, the list holds them in reverse order of creation, followed by the older contents. |
| `FileBookings.FileStore.List` | src/app.js:122-124 | `GET /bookings` (and server.js:121-123, adminController.js:22-24) returns the stored array as it is. |
| `FileBookings.FileStore.GetById` | src/controllers/adminController.js:27-33 | 404 exactly when no booking has the id. Otherwise the answer is the first booking with that id. |
| `FileBookings.SetStatus` | src/controllers/adminController.js:42 | The array keeps its length, and is unchanged when the id is unknown. |
| `FileBookings.FileStore.UpdateStatus` | src/controllers/adminController.js:36-47 | An unknown id answers 404 and the store stays unchanged. Otherwise only the first matching booking changes, and only its status: it becomes the given value when that is truthy (no check on the value), and stays otherwise. Every other booking, the length and the order stay the same. |
| `FileBookings.FindByIdSeesOnlyIds` | src/controllers/adminController.js:38 | Two arrays with the same ids in the same places give the same `find` result. |
| `FileBookings.SetStatusThenFind` | src/controllers/adminController.js:38-44 | After an update the same booking is found under the id, and it carries the new status. |
| `FileBookings.SetStatusIdempotent` | src/controllers/adminController.js:42 | Repeating the same status update changes nothing more. |
| `AdminAccess.AdminLoginAsWritten` | src/controllers/adminController.js:5-19 | A token is issued exactly when the password equals the configured secret, or when the secret is unset and no password was sent. Every other request gets 401. |
| `AdminAccess.UnsetSecretAdmitsEmptyBody` | src/controllers/adminController.js:8-10 | With `ADMIN_SECRET_PASSWORD` unset, an empty body gets a token. |
| `AdminAccess.AdminLogin` | src/controllers/adminController.js:8-10 | Corrected check: a token is issued exactly when a secret is configured and the password equals it. |
| `AdminAccess.AdminLoginDiffersOnlyWhenUnset` | src/controllers/adminController.js:8-10 | The corrected check agrees with the written one whenever the secret is set, and rejects everything when it is not. |
| `VehiclePricing.RoundDiv` | src/controllers/bookingController.js:12 | `Math.round(x / d)`: the nearest integer, with halves rounded up. |
| `VehiclePricing.EstimatePrice` | src/controllers/bookingController.js:3-13 | The estimate always lies in [50, 75]. |
| `VehiclePricing.EstimatePriceTable` | src/controllers/bookingController.js:4-12 | Rounding 50 × multiplier gives GLS 70, S-Class 75, V-Class 65, and 50 for every other string. |
| `VehiclePricing.EstimatePriceAsWritten` | src/controllers/bookingController.js:11-12 | As written, the result is NaN exactly for the names inherited from `Object.prototype`. Every other string gets the corrected estimate. |
| `VehiclePricing.InheritedNameGivesNoPrice` | src/controllers/bookingController.js:11 | "constructor" and "toString" are priced NaN. |
| `VehiclePricing.GetQuoteAsWritten` | src/controllers/bookingController.js:15-31 | 400 exactly when pickupAddress, dropoffAddress, pickupTime or vehicleType is falsy. Otherwise 200 with currency "GBP", and an estimate that is null exactly for a name inherited from `Object.prototype` and the table estimate otherwise. |
| `VehiclePricing.GetQuote` | src/controllers/bookingController.js:15-31 | Corrected handler: the same 400 condition. Every other body gets the estimate for its vehicle type, in [50, 75], with currency "GBP". |
| `VehiclePricing.GetQuoteDiffersOnlyOnInheritedNames` | src/controllers/bookingController.js:11-26 | The written and the corrected handler answer alike exactly when the body is rejected or its vehicle type is not an inherited name. |
| `VehiclePricing.ConstructorQuotedNull` | src/controllers/bookingController.js:25-26 | A complete body with vehicleType "constructor" answers 200 with `estimatedPrice` null. |
| `BookingSchema.ParseStatus` | src/models/booking.js:37-41 | Only the enum's names are accepted, each as its own status. |
| `BookingSchema.StatusNameRoundTrip` | src/models/booking.js:39 | Every status's name is accepted as that status. |
| `BookingSchema.ParseVehicleType` | src/models/booking.js:24-28 | Only GLS, S-Class, V-Class and Other are accepted, each as its own type. |
| `BookingSchema.VehicleTypeNameRoundTrip` | src/models/booking.js:26 | Every vehicle type's name is accepted as that type. |
| `BookingSchema.ParsePaymentStatus` | src/models/booking.js:48-52 | Only unpaid, paid and refunded are accepted. |
| `BookingSchema.PaymentStatusNameRoundTrip` | src/models/booking.js:50 | Every payment status's name is accepted as that status. |
| `BookingSchema.FailingPaths` | src/models/booking.js:5-52 | A path is reported exactly when its validator fails. The validators: customer required; pickupAddress and dropoffAddress required and non-empty once trimmed; pickupTime required; vehicleType required and in its enum; status and paymentStatus in their enums when given. |
| `BookingSchema.ValidDraftHasNoFailures` | src/models/booking.js:5-52 | A draft is valid exactly when no path is reported. |
| `BookingSchema.NewBooking` | src/models/booking.js:3-60 | The create succeeds exactly for a valid draft, and fails with the failing paths otherwise. On success it keeps the id, customer, pickup time and timestamps, trims the addresses and notes, and turns the enum names into values. It fills in the defaults: 1 passenger, 0 luggage, status pending, payment unpaid. |
| `BookingSchema.StoredStringsStayTrimmed` | src/models/booking.js:13-55 | Stored addresses and notes are already trimmed, so trimming again on a later save changes nothing. |
| `BookingSchema.DefaultsApplied` | src/models/booking.js:29-52 | A draft with only the required fields is accepted. It gets 1 passenger, 0 luggage, pending, unpaid and no notes. |
| `CustomerBookings.CreateOutcome` | src/controllers/bookingController.js:33-68 | 400 exactly when one of the four required fields is falsy. 500 when there is no caller. Otherwise the booking is created exactly when both addresses survive trimming and the vehicle type is in the enum, and 500 otherwise. A created booking is pending and unpaid and belongs to the caller. It has the given id and time, the client's price when truthy and the table estimate otherwise, the trimmed pickup and drop-off addresses, the pickup time, the trimmed notes, `updatedAt` equal to the creation time, and the default passenger and luggage counts when those are absent. |
| `CustomerBookings.CreatedPriceIsClientsOrEstimate` | src/controllers/bookingController.js:59 | A truthy client price is stored exactly. Otherwise the stored price is in [50, 75]. |
| `CustomerBookings.OwnedBy` | src/controllers/bookingController.js:72 | `find({customer})` keeps exactly the customer's documents, each as often as stored. |
| `CustomerBookings.SortNewestFirst` | src/controllers/bookingController.js:72-74 | `sort({createdAt: -1})`: the result is ordered newest first and is a permutation of the input. |
| `CustomerBookings.InsertNewestFirst` | src/controllers/bookingController.js:72-74 | Inserting into a newest-first list keeps it newest first and adds exactly that booking. |
| `CustomerBookings.NewestFirstPairwise` | src/controllers/bookingController.js:72-74 | In a newest-first list, every booking is at least as new as every booking after it. |
| `CustomerBookings.FindOwned` | src/controllers/bookingController.js:84-87 | `findOne({_id, customer})` gives an index whose id and owner both match, or none exactly when no document matches both. |
| `CustomerBookings.FindOwnedSeesOnlyIdAndOwner` | src/controllers/bookingController.js:102-105 | Changes to fields other than id and owner do not change what `findOne` finds. |
| `CustomerBookings.CancelIn` | src/controllers/bookingController.js:100-123 | No caller gives 500. No booking with this id owned by the caller gives 404. An already cancelled booking gives 400. In all three cases the collection is unchanged. Otherwise exactly that booking becomes cancelled, whatever its previous status, and `save()` stamps `updatedAt`. Nothing else changes. |
| `CustomerBookings.CancelTwiceIsRejected` | src/controllers/bookingController.js:111-113 | A second cancel of a just-cancelled booking answers 400 and leaves the collection alone. |
| `CustomerBookings.BookingCollection.Create` | src/controllers/bookingController.js:50-63 | The collection gains the created document at the end, and only when it was created. Ids stay unique. |
| `CustomerBookings.BookingCollection.MyBookings` | src/controllers/bookingController.js:70-80 | No caller gives 500. Otherwise the result is exactly the caller's bookings, each as often as stored, ordered newest `createdAt` first. |
| `CustomerBookings.BookingCollection.GetById` | src/controllers/bookingController.js:82-98 | No caller gives 500. 404 exactly when no booking has this id and this owner. Otherwise the answer is a stored booking with that id, owned by the caller. |
| `CustomerBookings.BookingCollection.Cancel` | src/controllers/bookingController.js:100-123 | The response and the new collection are what `CancelIn` gives. The length stays the same. The only document that can change is the cancelled one. |

## Findings

| source | as written | input that shows it | evidently intended | confidence | as-written member | corrected member |
|---|---|---|---|---|---|---|
| src/controllers/adminController.js:8 | `password !== process.env.ADMIN_SECRET_PASSWORD` when the variable is unset compares against `undefined` | variable unset, body `{}`: `undefined !== undefined` is false, so a token is issued (given JWT_SECRET is set) | no login without a configured secret | high, not executed | `AdminAccess.AdminLoginAsWritten`, `AdminAccess.UnsetSecretAdmitsEmptyBody` | `AdminAccess.AdminLogin` |
| src/controllers/bookingController.js:11 | `multipliers[vehicleType] \|\| multipliers.Other` also finds members inherited from `Object.prototype` | `getQuote` with vehicleType "constructor": `50 * function` is NaN, sent as `estimatedPrice: null` | the "Other" rate, 50 | high, not executed | `VehiclePricing.GetQuoteAsWritten`, `VehiclePricing.ConstructorQuotedNull`, `VehiclePricing.EstimatePriceAsWritten` | `VehiclePricing.GetQuote`, `VehiclePricing.EstimatePrice` |

`createBooking` is modelled with the corrected `EstimatePrice`. There it makes no visible difference: an inherited name is never in the vehicleType enum, so the create fails with 500 either way.

## Left out

- Express wiring is not modelled: routes, middleware, the `auth`/`requireRole` guards and the duplicate `POST /` registration in src/routes/bookings.js. The caller is a parameter instead. `main.py` is an unrelated echo endpoint.
- File and database I/O is not modelled: `readBookings`/`writeBookings`, JSON parsing and the catch-to-empty-list fallbacks, and the mongoose calls. These become operations on an in-memory sequence. The admin controller reads `data/bookings.json`, while src/app.js and server.js each write a file of their own. Each file is one `FileStore`.
- Ids and clocks are parameters: `Date.now()`, `Math.random()`, ObjectId generation and timestamps. A new id is required to be fresh.
- Concurrent read-modify-write on the bookings file is not modelled.
- JavaScript number quirks are not modelled: fractional numbers, NaN as an input, and coercion of strings and booleans by arithmetic, `Math.min` or `||`. Numbers are `int`. The `estimatePrice` multipliers are exact tenths, so their rounded results are exact.
- `TierQuote.RouteQuote`: only absent or numeric `passengers` and `luggage` are modelled, because the router's arithmetic coerces anything else.
- Mongoose casting of non-string or non-number JSON values, CastErrors for ids that are not ObjectIds, and the parsing of `pickupTime` into a `Date` are not modelled. Typed fields hold absent, string or integer values. `pickupTime` is stored as its string.
- Response bodies are reduced to a status code and the data the handler returns. The error texts are not modelled. Neither are the `expected` maps that the "Missing fields" answers of `POST /quote` carry (src/app.js:27, server.js:28-32) and the one of `POST /bookings` in src/app.js:85.
- JWT signing in `adminLogin` is not modelled, so neither is the 500 it raises when `JWT_SECRET` is unset. Only whether a token would be issued is modelled.
- Objects and arrays in a request body are one opaque truthy value (`Obj`). Their contents are never looked at.
- `CustomerBookings.SortNewestFirst`: a sort on equal `createdAt` values may order ties differently from MongoDB. `BookingCollection.MyBookings` therefore promises only the order and the contents.
