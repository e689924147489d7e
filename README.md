# Vidly rental returns, modelled in Dafny

A model of the movie-rental store backend's one piece of real state-transition
logic, the **rental return** (`POST /api/returns`), and the smaller cores around
it: the authentication gate that protects it, the Joi body validators for
rentals, movies and users, the mongoose schema bounds of those documents, the
rental fee rule, and user registration (`POST /api/users`).

- `wrappers.dfy` — `Option` and `Result`.
- `json.dfy` — parsed JSON bodies (`map<string, Json>`, integer numbers), lodash
  `_.pick`, and the `trim: true` setter (`String.prototype.trim`, removing the
  WhiteSpace and LineTerminator characters of sections 11.2 and 11.3 of ECMAScript 2015).
- `joi.dfy` — Joi object schemas: every key required, unknown keys refused, the
  first violation in schema order reported; `ValidateAccepts` ties the validator
  to a declarative `Conforms` predicate.
- `auth.dfy` — tokens, `Sign`/`Verify` (abstract, no cryptography) and the gate
  `Authenticate`: no token is 401, a token that does not verify is 400, a valid
  token's `{ _id, isAdmin }` becomes the caller's claims.
- `movie.dfy`, `user.dfy`, `rental.dfy` — the three models: schema bounds, the
  `validate*` predicates, `generateAuthToken`'s payload, and the rental close:
  `return()` is a method of the class `RentalDocument` that sets `dateReturned`
  and `rentalFee` in place (its frame admits only those two fields), specified by
  the value function `Close`. Time is integer milliseconds;
  `rentingDays = ceil((dateReturned - dateOut) / 86 400 000)` is integer ceiling
  division, and the fee is `rentingDays * movie.dailyRentalRate` at the rental's
  snapshot rate.
- `http.dfy` — responses (status and body).
- `returns.dfy` — the return route. `ReturnRental` is the handler as a function
  of the collections (a sequence of rentals and a movie-id → `numberInStock`
  map); `ReturnsRouter.Post` is the handler as imperative code over those
  collections (lookup, hydrate a `RentalDocument`, `Return`, save with schema
  validation, `$inc`), proved equal to `ReturnRental`. `findOne` may return any
  rental matching the customer/movie filter, closed ones included; its answer is
  the input `found`, constrained by `LookupResult`.
- `users.dfy` — registration: `Register` as a function of the user collection,
  `UsersRouter.Post` as imperative code proved equal to it, and the invariant
  that stored emails stay pairwise distinct across any run of registrations.

The model follows the code where a stricter design would differ. An
already-processed return is answered with 404, not with 409 Conflict. The
lookup does not restrict itself to open rentals. The rental write is not
conditional on the rental still being open, and the restock is a separate
write, so two concurrent returns of one rental are not excluded. The test titled "should return 400 if return is already processed"
expects 404, as the code sends.

## Model

| member | source | states |
|---|---|---|
| `Json.Utf16Length` | models/user.js:9-26 | a string's JavaScript `.length`, the count of UTF-16 code units, lies between its number of characters and twice that |
| `Json.Utf16LengthOfBmp` | models/user.js:9-26 | within the Basic Multilingual Plane `.length` is the number of characters |
| `Json.ThreeEmojiAreSixUnits` | models/user.js:42 | three characters beyond the Basic Multilingual Plane have `.length` 6 |
| `Json.Pick` | routes/users.js:19 | `_.pick` keeps exactly the listed keys the object has, with their values |
| `Json.Trim` | models/user.js:14-21 | the mongoose `trim` setter never lengthens a value and leaves no ECMAScript whitespace or line terminator at either end |
| `Json.TrimRemovesOnlyEdgeWhitespace` | models/user.js:14-21 | the trimmed value is a contiguous slice of the input with only whitespace before and after it, so with `Trim`'s contract it is the input minus its leading and trailing whitespace |
| `Json.TrimIdentity` | models/user.js:14-21 | a value is stored exactly as given if and only if it neither starts nor ends with whitespace |
| `Joi.Check` | models/movie.js:34-39 | with string lengths in UTF-16 code units, Joi's ordered check of one value reports nothing exactly when the value satisfies its rule, and otherwise names that key |
| `Joi.Validate` | models/movie.js:41 | `Joi.validate` on an object schema; specified by `Joi.ValidateAccepts` and, for each body schema, by the `Validate*Accepts` lemmas |
| `Joi.ValidateAccepts` | models/movie.js:41 | `Joi.validate` passes a body exactly when every schema key is present and satisfies its rule and no other key is present |
| `Auth.Authenticate` | routes/returns.js:9 | no token is refused as missing, a token that does not verify is refused as invalid, and claims pass only from a token signed with the server key |
| `Auth.SignedTokenAuthenticates` | tests/unit/middleware/auth.test.js:8-25 | a token signed with the server key verifies to exactly the claims it was signed with and passes the gate |
| `Auth.ForeignTokenRefused` | tests/integration/auth.test.js:22-29 | a token that is not signed with the server key is refused with 400 |
| `MovieModel.ValidateMovieAccepts` | models/movie.js:33-42 | `validateMovie` accepts exactly: title of 5..255 UTF-16 code units, object-id `genreId`, `numberInStock` and `dailyRentalRate` in 0..255, no other key |
| `MovieModel.ValidatedMovieWithinSchema` | models/movie.js:18-29 | an accepted body's stock count and daily rate lie within the schema's 0..255 bounds |
| `UserModel.Document` | models/user.js:7-29 | a user document has keys `_id`, `name`, `email`, `password`, and `isAdmin` only when set |
| `UserModel.ValidateUserAccepts` | models/user.js:40-48 | `validateUser` accepts exactly, in UTF-16 code units: name of 5..50, email-shaped email of 5..255, password of 5..255, no other key |
| `UserModel.EmojiNameAccepted` | models/user.js:40-48 | a body whose name is three U+1F600 emoji (six code units) passes `validateUser` |
| `UserModel.ValidatedUserWithinSchema` | models/user.js:7-29 | an accepted body builds a user within the schema bounds (name 5..50, email 5..255, password 5..1024) whose name, email and password are the submitted ones |
| `UserModel.NewUser` | routes/users.js:19 | `new User(...)` from the picked fields, email trimmed; specified by `UserModel.ValidatedUserWithinSchema` and `UsersRoute.WhitelistDropsExtraFields` |
| `UserModel.GenerateAuthToken` | models/user.js:32-34 | the token verifies under the server key to exactly the user's `_id` and `isAdmin` |
| `UserModel.AuthTokenIdentifiesUser` | models/user.js:32-34 | a user's own token passes the gate, and the caller's claims are exactly that user's `_id` and `isAdmin` |
| `RentalModel.CeilDiv` | models/rental.js:62 | the ceiling division result is the least q with elapsed <= q * day |
| `RentalModel.CeilDivUnique` | models/rental.js:62 | that bound determines the ceiling uniquely |
| `RentalModel.RentingDays` | models/rental.js:62 | the renting days are the least whole number of days covering the time out |
| `RentalModel.Fee` | models/rental.js:63 | renting days times the snapshot rate; specified by `RentalModel.FeeNonNegative`, `RentalModel.FeeMonotone` and `RentalModel.SixDaysAtRateTwo` |
| `RentalModel.RentingDaysWholeDays` | models/rental.js:62 | exactly k days out counts as k days, zero elapsed as 0 |
| `RentalModel.RentingDaysPartialDay` | models/rental.js:62 | any time out within the k-th day counts as k days |
| `RentalModel.OneHourIsOneDay` | models/rental.js:62 | a rental returned after one hour is charged one day |
| `RentalModel.FeeNonNegative` | models/rental.js:52-55 | returned no earlier than issued at a non-negative rate, the fee is non-negative, meeting the schema minimum |
| `RentalModel.FeeMonotone` | models/rental.js:62-63 | for a fixed rate the fee never decreases as the return time moves later |
| `RentalModel.Close` | models/rental.js:59-64 | `return()` on values; specified by `RentalModel.CloseKeepsSchema`, and `RentalModel.RentalDocument.Return` is proved to compute it |
| `RentalModel.CloseKeepsSchema` | models/rental.js:59-64 | closing makes the rental closed with date and fee together, keeps `_id`, customer, movie and `dateOut`, and keeps the document schema-valid |
| `RentalModel.SixDaysAtRateTwo` | tests/integration/returns.test.js:162-188 | at rate 2, exactly six days out costs 12 |
| `RentalModel.RentalDocument.constructor` | models/rental.js:5-57 | a hydrated document holds exactly the stored rental's fields |
| `RentalModel.RentalDocument.Return` | models/rental.js:59-64 | `return()` sets `dateReturned` to now and `rentalFee` to renting days times the snapshot rate, in place, and changes no other field |
| `RentalModel.ValidateRentalAccepts` | models/rental.js:70-77 | `validateRental` accepts exactly the bodies with object-id `customerId` and `movieId` and no other key |
| `ReturnsRoute.ValidateReturn` | routes/returns.js:41-48 | the body is accepted exactly when it holds object-id `customerId` and `movieId` and nothing else, and then yields those two ids |
| `ReturnsRoute.MatchIgnoresHexCase` | routes/returns.js:13-16 | the filter compares ids as `ObjectId`s: a request id in upper-case hex finds the rental stored under the same id in lower case |
| `ReturnsRoute.Restock` | routes/returns.js:33-35 | the `$inc` adds one to that movie's stock, changes no other movie, and does nothing when no such movie exists |
| `ReturnsRoute.ReturnRental` | routes/returns.js:9-38 | the handler with every refusal ending the request, as a function of the collections and `findOne`'s answer; specified by the `ReturnsRoute.Return*` lemmas and `ReturnsRoute.SecondReturnRefused` |
| `ReturnsRoute.ReturnRequiresToken` | routes/returns.js:9 | without a token the answer is 401, with a token that does not verify 400, and nothing is read or written |
| `ReturnsRoute.ReturnRejectsMalformedBody` | routes/returns.js:10-11 | a missing or malformed `customerId` or `movieId` (or any extra key) gives 400 and no change |
| `ReturnsRoute.ReturnNotFound` | routes/returns.js:13-18 | with no rental for the customer/movie pair the answer is 404 and nothing changes |
| `ReturnsRoute.ReturnAlreadyProcessed` | routes/returns.js:20 | when the rental found is closed the answer is 404 "already processed" and neither rentals nor stock change |
| `ReturnsRoute.ReturnSucceeds` | routes/returns.js:22-37 | on valid collections, for an open matching rental returned no earlier than it went out, exactly that rental is closed (date now, fee at snapshot rate, snapshots kept), the stock of the movie its snapshot names rises by one, all else is unchanged, and the answer is 200 with the saved rental |
| `ReturnsRoute.ReturnPreservesStoreValid` | routes/returns.js:22-35 | every request keeps stored rentals schema-valid with date and fee together and with distinct `_id`s, stored ids in canonical form, and stock non-negative |
| `ReturnsRoute.SecondReturnRefused` | tests/integration/returns.test.js:77-104 | after a successful return of the only rental for a pair, returning it again gets 404 and changes nothing, so stock rose by exactly one |
| `ReturnsRoute.ReturnRentalAsWritten` | routes/returns.js:9-38 | the handler as written, without `return` after either 404; specified by `ReturnsRoute.AsWrittenReprocessesClosedRental`, `ReturnsRoute.AsWrittenNotFoundThrows` and `ReturnsRoute.AsWrittenAgreesOnOpenRentals` |
| `ReturnsRoute.AsWrittenReprocessesClosedRental` | routes/returns.js:20-35 | as written, a closed rental answers 404 yet is re-closed and its movie restocked again, while the intended handler changes nothing |
| `ReturnsRoute.AsWrittenNotFoundThrows` | routes/returns.js:18-20 | as written, no match answers 404 with no change, then throws on the null rental |
| `ReturnsRoute.AsWrittenAgreesOnOpenRentals` | routes/returns.js:9-37 | outside the two faulty branches the handler as written and the intended one answer and write alike |
| `ReturnsRoute.DoubleRestockExample` | tests/integration/returns.test.js:77-104 | the closed rental of the already-processed test combined with the 7-in-stock movie of the restock test (tests/integration/returns.test.js:190-225): the stock ends at 8 as written and stays 7 as intended |
| `ReturnsRoute.ReturnsRouter.constructor` | routes/returns.js:13-35 | the router starts on valid collections |
| `ReturnsRoute.ReturnsRouter.FindOne` | routes/returns.js:13-16 | the lookup answers nothing exactly when no rental matches the pair, otherwise some matching rental |
| `ReturnsRoute.ReturnsRouter.Save` | routes/returns.js:24 | `save` writes the rental only when it passes the schema's validators |
| `ReturnsRoute.ReturnsRouter.IncrementStock` | routes/returns.js:33-35 | the `$inc` changes the stock map exactly as `Restock` says |
| `ReturnsRoute.ReturnsRouter.Post` | routes/returns.js:9-38 | the imperative handler keeps the collections valid and its answer and resulting collections are those of `ReturnRental` for the rental `findOne` returned |
| `UsersRoute.Register` | routes/users.js:7-24 | registration as a function of the user collection; specified by the `UsersRoute.Register*` lemmas, `UsersRoute.ResponseHidesPassword` and `UsersRoute.RegistrationsKeepEmailsDistinct` |
| `UsersRoute.RegisterRejectsInvalid` | routes/users.js:8-9 | a body `validateUser` refuses gets 400 and the users are unchanged |
| `UsersRoute.RegisterRejectsDuplicate` | routes/users.js:11-12 | an email already stored gets 400 "User already registered" and the users are unchanged |
| `UsersRoute.RegisterAddsUser` | routes/users.js:19-23 | a valid body with a new email appends exactly one user built from the submitted name, email and password, without `isAdmin`, and answers 200 with its public fields |
| `UsersRoute.ResponseHidesPassword` | routes/users.js:23 | the answer has exactly `_id`, `name` and `email`, never `password` |
| `UsersRoute.WhitelistDropsExtraFields` | routes/users.js:19 | whatever else the body carries, the new user is built from name, email and password alone |
| `UsersRoute.RegisterKeepsUsersValid` | models/user.js:19 | one registration keeps all stored users schema-valid and their emails distinct |
| `UsersRoute.RegistrationsKeepEmailsDistinct` | routes/users.js:11-12 | across any run of registrations the stored emails stay pairwise distinct |
| `UsersRoute.UsersRouter.constructor` | routes/users.js:11-21 | the router starts on a valid user collection |
| `UsersRoute.UsersRouter.FindOneByEmail` | routes/users.js:11 | the lookup finds a user exactly when one with that email is stored, and then one with that email |
| `UsersRoute.UsersRouter.Save` | routes/users.js:21 | `save` inserts the user only when the validators and the unique email index admit it |
| `UsersRoute.UsersRouter.Post` | routes/users.js:7-24 | the imperative handler keeps the collection valid and its answer and resulting users are those of `Register` |

## Findings

| source | as written | input that shows it | evidently intended | confidence | as-written member | corrected member |
|---|---|---|---|---|---|---|
| routes/returns.js:20 | the 404 "Rental is already processed" is sent without `return`, so the rental is closed again, saved and its movie restocked a second time | a closed rental for the pair whose movie has 7 in stock: stock becomes 8 | end the request after the 404, changing nothing | high; not executed | `ReturnsRoute.AsWrittenReprocessesClosedRental` | `ReturnsRoute.ReturnAlreadyProcessed` |
| routes/returns.js:18 | the 404 "No rental found" is sent without `return`, so line 20 reads `dateReturned` of `null` and throws | a request whose customer/movie pair matches no rental | end the request after the 404 | high; not executed | `ReturnsRoute.AsWrittenNotFoundThrows` | `ReturnsRoute.ReturnNotFound` |

## Left out

- The `auth` middleware's own source is not part of this model; the gate is modelled from the tests. An empty `x-auth-token` header is not distinguished from other tokens, and the gate's message texts are not modelled.
- Signing and verification of JSON Web Tokens (RFC 7519) and the configured key: a token records its payload and the key it was signed with; no cryptography, expiry or encoding is modelled.
- The stricter admin gate and the catalogue routes it guards are not part of this model.
- String lengths are JavaScript `.length` in UTF-16 code units; a Dafny string holds Unicode scalar values, so JavaScript strings with unpaired surrogates are not modelled.
- `Joi.objectId()` is taken to mean 24 hexadecimal digits; `.email()` is stood in for by "no whitespace and an `@` with text on both sides".
- Joi's message texts are replaced by a `Violation` value; an empty string is reported as its rule's violation rather than Joi's "is not allowed to be empty"; the unknown-key violation carries the set of unknown keys rather than the first one; Joi's conversion of numeric strings to numbers is not modelled.
- Request bodies are JSON objects of scalar values with integer numbers; non-integer rates and stock counts, and JavaScript `Date` and floating-point rounding in `Math.ceil`, are replaced by integer milliseconds and integer ceiling division.
- Mongoose persistence: the atomicity of the separate rental and stock writes, concurrent returns of one rental, and the retry and partial-failure policies are out of scope of a sequential model. The `$inc` skips validators, so stock is not bounded above by 255 in the model either.
- `dateOut`'s default (`Date.now()` evaluated once at load) is not modelled: `dateOut` is part of the stored rental, and the clock is the input `now`.
- A rental's `_id` is its `id` field, and `StoreValid` keeps these distinct; the collection is a sequence, and `findOne`'s answer and the save address a rental by its position in it. The `_id` of a new user is an input, and its uniqueness is not modelled.
- `ReturnsRoute.ReturnsRouter.FindOne`: the request's ids are cast to `ObjectId` by folding hex letters to lower case; the stored snapshot ids and the movie keys of the stock map are `ObjectId`s, which `StoreValid` requires to be in that canonical lower-case form, so `$inc` finds the movie by the snapshot's id as stored.
- The movie document itself (its title with the `trim` setter, and its genre) is not modelled: the only movie state the return route changes is `numberInStock`, kept as the stock map; the bounds of `numberInStock` and `dailyRentalRate` are modelled.
- Movie creation is not part of this model (its route is not part of it): `validateMovie` is modelled as a predicate only; `models/genre.js` and `models/customer.js` are not part of this model.
- The successful return's answer is the rental value itself, not its JSON rendering, so the key list of the response is given by the `Rental` fields rather than proved as a set of keys.
- `ReturnsRoute.SecondReturnRefused`: holds only when a single rental matches the pair; with several, `findOne` may pick another open one and succeed again, as the code allows.
- `routes/customers.js`, `index.js`, `startup/logging.js` and logging in `middleware/error.js`: start-up, logging and plain CRUD; only the error middleware's 500 answer is modelled.
- The tests' server and database harness, and `tests/integration/genres.test.js`.
