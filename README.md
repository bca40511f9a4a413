# Rental-marketplace backend: bookings, validation, signup and sessions

This project models the decision logic of a small Express/Sequelize REST
backend for a short-term rental marketplace, over in-memory tables:

- `validation.dfy` (module `Validation`): the `handleValidationErrors`
  middleware. It folds express-validator's ordered (param, msg) list into an
  `errors` object with a `forEach` loop, then calls `next` exactly once: with
  nothing, or with a 400 "Bad Request" error. A `check(...)` chain is
  represented by the outcome of its validators and the message it leaves.
- `bookings.dfy` (module `Bookings`): the booking routes.
  - POST /api/spots/:spotId/bookings runs validateBooking, then the spot
    lookup (404), the ownership check (403), the three-way conflict query
    (403), and the insert (201).
  - GET /api/spots/:spotId/bookings gives the owner whole rows and anyone
    else three columns.
  - GET /api/bookings/current lists the caller's bookings with a spot
    summary and its preview image.
  - The Bookings table is a class (`BookingTable`) whose `rows` the create
    handler extends. The Spots and SpotImages tables are read-only sequences.
  - Dates are day numbers. The DATEONLY columns hold ISO `YYYY-MM-DD`
    strings, which order the same way.
- `users.dfy` (module `Users`): the validateSignup rules, the signup insert
  into the Users table (a class, `UserTable`), the five-field safe-user
  projection and GET /api/users/current.
- `session.dfy` (module `Session`): validateLogin, the lookup of a user by
  username or email, the uniform 401, GET and DELETE /api/session.
- `wrappers.dfy`: the `Option` type.

Library code the routes call becomes function-typed parameters:
- express-validator's `isDate` becomes `parseDate: string -> Option<Day>`;
- `isEmail` becomes `isEmail: string -> bool`;
- bcrypt's `hashSync` and `compareSync` become `hash` and `compare`.

Two facts about the code shape the model:
- No validator in `backend/routes/api/bookings.js` checks that endDate is on
  or after startDate, and the Booking model has no such constraint, so
  reversed ranges reach the conflict query.
  `Bookings.ReversedCandidateBlockedWithoutSharedDay` shows what the query
  then does.
- The booking routes have no edit or delete handler, so there is no conflict
  check that excludes the booking being edited, and none is modelled.

## Model

| member | source | states |
|---|---|---|
| Validation.ErrorsMap | backend/utils/validation.js:7-10 | definition of the errors object: each entry in list order assigns its param |
| Validation.Run | backend/utils/validation.js:4-6 | the collected error list is empty exactly when every chain's validators pass |
| Validation.CollectErrors | backend/utils/validation.js:7-10 | the `forEach` loop leaves the errors object equal to the in-order fold of the list, each entry assigning its param |
| Validation.HandleValidationErrors | backend/utils/validation.js:3-20 | `next` is called exactly once; it carries no error iff the list is empty, otherwise a 400 error titled and messaged "Bad Request" with the folded errors object |
| Validation.ErrorsMapKeys | backend/utils/validation.js:7-10 | the errors object's keys are exactly the params that appear in the list |
| Validation.ErrorsMapLastWins | backend/utils/validation.js:10 | when params repeat, the object keeps the message of the last entry with that param |
| Validation.RunErrorsMap | backend/utils/validation.js:4-10 | folding the collected list equals applying the chains one by one, a failing chain overriding earlier messages for its field |
| Bookings.Between | backend/routes/api/bookings.js:113-116 | definition of `Op.between`: inclusive at both ends |
| Bookings.DateClause | backend/routes/api/bookings.js:111-122 | definition of the three alternatives of the `Op.or` date condition |
| Bookings.Conflicts | backend/routes/api/bookings.js:109-122 | definition of the whole conflict where-clause: same spotId and the date condition |
| Bookings.Overlaps | backend/routes/api/bookings.js:107-124 | definition of closed-interval overlap, the reference rule the date condition is compared with |
| Bookings.NoDoubleBooking | backend/routes/api/bookings.js:107-128 | definition of the invariant the conflict check protects: no two bookings of a spot share a day |
| Bookings.DateClauseIsOverlap | backend/routes/api/bookings.js:108-124 | for well-formed ranges the three-way `Op.or` date condition holds iff the closed intervals overlap (`b.start <= e && s <= b.end`) |
| Bookings.SharedDayMatchesClause | backend/routes/api/bookings.js:110-122 | for any ranges, reversed or not, a day shared by the booking and the candidate makes the condition match |
| Bookings.ClauseMeansSharedDay | backend/routes/api/bookings.js:110-122 | for well-formed ranges the condition matches only when some day is shared |
| Bookings.TouchingRangesConflict | backend/routes/api/bookings.js:113-116 | a candidate starting on an existing booking's end date conflicts, because `Op.between` is inclusive |
| Bookings.ReversedCandidateBlockedWithoutSharedDay | backend/routes/api/bookings.js:9-19 | validateBooking accepts the reversed request [10, 1], and the whole route then answers "already booked" because of booking [5, 5], although the two share no day |
| Bookings.FindSpot | backend/routes/api/bookings.js:96 | `Spot.findByPk` finds a spot with that id, and finds none iff no spot has it |
| Bookings.FirstConflict | backend/routes/api/bookings.js:108-124 | the conflict `findOne` returns a row matching spotId and the date condition, and returns nothing iff no row matches |
| Bookings.BookingsWhere | backend/routes/api/bookings.js:75-80 | `findAll` on spotId (and on userId, lines 26-27): every row returned holds the value in that column, and every row holding it is returned |
| Bookings.BookingsWhereCounts | backend/routes/api/bookings.js:75-80 | the `findAll` result has each matching row exactly as often as the table has it, and no other row |
| Bookings.IsDateField | backend/routes/api/bookings.js:10-17 | definition of `exists({ checkFalsy: true }).isDate()` on one date field |
| Bookings.BookingChains | backend/routes/api/bookings.js:9-17 | definition of validateBooking's two chains, their fields and messages, in order |
| Bookings.BookingErrors | backend/routes/api/bookings.js:9-19 | validateBooking leaves no error iff both dates are present, non-empty and dates |
| Bookings.CreateOutcome | backend/routes/api/bookings.js:94-138 | 404 iff no spot has the id; 403 own-spot iff the spot's owner is the caller; 403 already-booked iff the spot is someone else's and some row conflicts; 201 iff the spot exists, is someone else's and no row conflicts, with the new booking's id, spotId, userId and dates; never a 400 or a 500 |
| Bookings.CreateOutcomeAsWritten | backend/routes/api/bookings.js:94-141 | as written (without `Op` imported) the create route can never answer 201 |
| Bookings.CreateAsWrittenFailsWhereBookingIsDue | backend/routes/api/bookings.js:107-141 | every request the intended route would accept answers 500 as written |
| Bookings.CreateAsWrittenExample | backend/routes/api/bookings.js:107-141 | a concrete free spot booked by a non-owner: 201 as intended, 500 as written |
| Bookings.PostOutcome | backend/routes/api/bookings.js:89-142 | the route rejects iff validation leaves errors, with status 400, title and message "Bad Request" and the folded errors object; otherwise the answer is the handler's decision (`CreateOutcome`) on the two parsed dates |
| Bookings.OtherSpotsNeverBlock | backend/routes/api/bookings.js:109-110 | bookings on other spots never change the create decision |
| Bookings.OwnSpotDecidedBeforeConflicts | backend/routes/api/bookings.js:102-108 | the own-spot 403 does not depend on the bookings table, so it comes before any conflict lookup |
| Bookings.CreatePreservesNoDoubleBooking | backend/routes/api/bookings.js:107-136 | an accepted create keeps every spot free of two bookings sharing a day, even for reversed ranges |
| Bookings.Views | backend/routes/api/bookings.js:77-79 | one view per booking, in order: the whole row for the owner, only spotId, startDate and endDate for anyone else |
| Bookings.SpotBookings | backend/routes/api/bookings.js:59-86 | 404 iff no spot has the id, otherwise one view per booking of the spot |
| Bookings.OwnerSeesWholeBookings | backend/routes/api/bookings.js:72-82 | the owner receives exactly the spot's bookings, every one with all attributes |
| Bookings.NonOwnerSeesDatesOnly | backend/routes/api/bookings.js:72-82 | a non-owner receives only spotId and dates, each taken from a booking of the spot, and every booking of the spot appears |
| Bookings.PreviewImage | backend/routes/api/bookings.js:32-46 | when the spot has a preview image, the answer is the first one's url, or null when that url is empty; null when it has none; a url returned is always that of the first preview image |
| Bookings.Summary | backend/routes/api/bookings.js:44-49 | definition of the spot copy sent with each booking: the listed attributes and `previewImage` in place of the SpotImages array |
| Bookings.CurrentBookingsAsWritten | backend/routes/api/bookings.js:22-55 | as written (without `SpotImage` imported) GET current always answers 500 |
| Bookings.BookingTable.CreateBooking | backend/routes/api/bookings.js:94-138 | the decision is `CreateOutcome` on the old table; the table gains exactly the new booking iff it is created, and is otherwise unchanged; ids stay distinct and below the next id; no double booking is introduced |
| Bookings.BookingTable.PostBooking | backend/routes/api/bookings.js:89-142 | validation through `handleValidationErrors`, then the handler; the table changes only when a booking is created |
| Bookings.BookingTable.GetCurrentBookings | backend/routes/api/bookings.js:22-52 | 500 iff some booking of the caller has no spot; otherwise exactly the caller's bookings in order, each paired with its spot's summary and preview image |
| Users.SafeUserOf | backend/routes/api/users.js:56-62 | definition of the safeUser object: id, firstName, lastName, email, username (built the same way at session.js:54-60 and 80-86) |
| Users.SignupChains | backend/routes/api/users.js:16-40 | definition of validateSignup's six chains, their fields and messages, in order |
| Users.SafeUserIsPublicFields | backend/routes/api/users.js:56-62 | two users project to the same safe user iff their id, names, email and username agree: the hash is never part of it |
| Users.SignupAcceptedIff | backend/routes/api/users.js:16-42 | validateSignup passes iff the email is present and an email, the username is at least 4 characters and not an email, the password is at least 6 characters, and both names are present |
| Users.SignupErrorsMap | backend/routes/api/users.js:16-42 | the 400's errors object is the chain-by-chain map of the six chains |
| Users.SignupErrorFields | backend/routes/api/users.js:16-41 | the errors object has a key for exactly the fields whose rule fails |
| Users.EmailUsernameMessage | backend/routes/api/users.js:21-30 | a username that is an email gets "Username cannot be an email." whatever its length |
| Users.GetCurrentUser | backend/routes/api/users.js:71-86 | 404 "No user logged in" iff there is no user; otherwise 200 with its five public fields |
| Users.UserTable.Signup | backend/routes/api/users.js:44-69 | a rejected request is a 400 and changes nothing; an accepted one appends one user holding hash(password) with the next id and returns its safe projection (201) |
| Session.LoginChains | backend/routes/api/session.js:16-23 | definition of validateLogin's two chains, their fields and messages, in order |
| Session.Matches | backend/routes/api/session.js:33-36 | definition of the lookup condition: username or email equals the credential |
| Session.LoginErrors | backend/routes/api/session.js:16-25 | validateLogin passes iff the credential and the password are present and non-empty |
| Session.FindByCredential | backend/routes/api/session.js:31-38 | the user found has the credential as username or email, and none is found iff no user has |
| Session.Login | backend/routes/api/session.js:28-67 | 400 iff validation fails; 200 iff a user matching the credential is found and the password compares, answering that user's safe projection; otherwise the 401 "Invalid credentials" |
| Session.UnknownUserAndWrongPasswordAlike | backend/routes/api/session.js:40-51 | an unknown credential and a wrong password get the very same 401 response |
| Session.GetSession | backend/routes/api/session.js:77-91 | `{ user: null }` iff nobody is logged in, otherwise the five-field projection |
| Session.Logout | backend/routes/api/session.js:71-74 | the answer is always `{ message: "success" }` |

## Left out

- HTTP plumbing is not modelled: Express routing, middleware wiring, cookies and JWTs (`setTokenCookie`, `clearCookie`), the CSRF route.
- `requireAuth` and `restoreUser` are not part of this model. The caller's user id, or the optional current user, is a parameter.
- `Users.GetCurrentUser` models the handler's own branch. When nobody is logged in, `requireAuth` answers 401 before the handler runs.
- bcrypt, `isEmail` and `isDate` are foreign libraries and become function parameters.
- Validation.Run: holds one entry per failing chain. express-validator also records a default "Invalid value" entry when `exists()` fails in a chain with a later validator. For an absent field or a string value that entry comes first and the chain's own entry, which then fails too, overrides it, so the `errors` object is the same. For other values it need not be (see the next line).
- Users.SignupChains: the length rules of `isLength({ min: 4 })` and `isLength({ min: 6 })` count every Unicode scalar value. validator.js's `isLength` does not count the variation selectors U+FE0E and U+FE0F, so a username such as "❤️❤️" (U+2764 U+FE0F twice) is 2 characters to the route, which rejects it, and 4 to the model, which accepts it.
- Request body fields are absent or strings. Non-string JSON values (`false`, numbers, objects) are not modelled: for them express-validator's later validators see the value's string form, so with `{"username": false}` the username chain records only "Invalid value", which no modelled chain produces.
- express-validator also reads fields from params, query, headers and cookies. Only the body is modelled.
- Sequelize returns `findOne`, `findByPk` and `findAll` rows in an unspecified order. The model takes table order, so the first match wins.
- Bookings.BookingTable.CreateBooking: the race between the conflict query and the insert under concurrent requests is not modelled. Concurrency is outside a sequential model.
- Bookings.BookingTable.CreateBooking: database failures other than the missing import (the 500 catch) are not modelled.
- Bookings.BookingTable.GetCurrentBookings: when a booking's spot is missing, the model answers 500 without the error text.
- Users.UserTable.Signup: the unique constraints on email and username, and the error `User.create` would raise for them, are not modelled. The User model is not part of this model.
- The timestamp columns createdAt and updatedAt are not modelled.
- The spot columns lat, lng and price are not modelled. They are numeric data with no logic here.
- The Spot description is carried but never sent.
- backend/routes/api/spots.js, backend/routes/api/reviews.js, the seeders and backend/config/index.js are not modelled. They are read-only ORM pass-throughs, static data and environment lookup.

## Findings

| source | as written | input that shows it | evidently intended | confidence | as-written member | corrected member |
|---|---|---|---|---|---|---|
| backend/routes/api/bookings.js:108-124 | `Op` is used in the conflict query but the imports (lines 1-6) never bring it in, so past the ownership check the handler throws a ReferenceError inside the try block and the catch answers 500 | spot 1 owned by user 2, no bookings, user 3 posts startDate 10 and endDate 12: the intended answer is 201, the code gives 500 | import `Op` from sequelize, so that the conflict query runs and a free spot is booked with 201 | high, not executed | Bookings.CreateOutcomeAsWritten | Bookings.BookingTable.CreateBooking |
| backend/routes/api/bookings.js:22-55 | `SpotImage` is used in the include of GET /api/bookings/current but the imports (lines 1-6) never bring it in, so the route always answers 500 | any caller, even one with no bookings, gets 500 "Failed to retrieve bookings" | import `SpotImage` from the models, so that the route lists the caller's bookings with spot summaries and preview images | high, not executed | Bookings.CurrentBookingsAsWritten | Bookings.BookingTable.GetCurrentBookings |
