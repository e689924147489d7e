/**
 * POST /api/returns: close the rental of a movie by a customer and put the
 * movie back in stock.  The rental collection is a sequence of rentals, each
 * with its own distinct `_id`; a lookup answers with a position in it and the
 * save writes back to that position.  The movie collection is a map from movie
 * `_id` to `numberInStock`.
 *
 * `findOne` may return any rental matching the filter, and the filter does not
 * exclude closed rentals; the store's answer is therefore an input `found`,
 * constrained by `LookupResult`.
 */
module ReturnsRoute {
  import opened Wrappers
  import opened Json
  import opened Joi
  import opened Auth
  import opened RentalModel
  import opened Http

  datatype ReturnRequest = ReturnRequest(customerId: Id, movieId: Id)

  /** The Joi schema of `validateReturn`. */
  const ReturnBodySchema: Schema := [("customerId", ObjectId), ("movieId", ObjectId)]

  /** `validateReturn(req.body)`, yielding the two ids when the body is accepted. */
  function ValidateReturn(body: Object): (r: Result<ReturnRequest, Violation>)
    ensures r.Success? <==>
      && HasString(body, "customerId") && IsObjectId(body["customerId"].s)
      && HasString(body, "movieId") && IsObjectId(body["movieId"].s)
      && body.Keys <= {"customerId", "movieId"}
    ensures r.Success? ==> r.value == ReturnRequest(body["customerId"].s, body["movieId"].s)
    ensures r.Failure? ==> Validate(body, ReturnBodySchema) == Some(r.error)
  {
    var schema := ReturnBodySchema;
    ValidateAccepts(body, schema);
    assert Keys(schema) == {"customerId", "movieId"} by {
      assert schema[0].0 == "customerId" && schema[1].0 == "movieId";
    }
    assert FieldsConform(body, schema) ==>
      && schema[0].0 in body && Satisfies(body[schema[0].0], schema[0].1)
      && schema[1].0 in body && Satisfies(body[schema[1].0], schema[1].1);
    match Validate(body, schema)
    case Some(v) => Failure(v)
    case None => Success(ReturnRequest(body["customerId"].s, body["movieId"].s))
  }

  /** A hexadecimal digit in lower case; other characters are left alone. */
  function LowerHex(c: char): char
  {
    if 'A' <= c <= 'F' then c - 'A' + 'a' else c
  }

  /** The form an object-id string takes once cast to an `ObjectId`: hex letters in lower case. */
  function Canonical(id: Id): (r: Id)
    ensures |r| == |id|
    ensures forall i :: 0 <= i < |id| ==> r[i] == LowerHex(id[i])
  {
    if id == [] then [] else [LowerHex(id[0])] + Canonical(id[1..])
  }

  /** Two object-id strings name the same `ObjectId` when they differ at most in the case of hex letters. */
  predicate SameObjectId(a: Id, b: Id)
  {
    Canonical(a) == Canonical(b)
  }

  /** The `findOne` filter: mongoose casts the requested ids to `ObjectId`s, so the embedded snapshots
      match when their ids name the same `ObjectId` as the requested customer and movie ids. */
  predicate Matches(r: Rental, req: ReturnRequest)
  {
    SameObjectId(r.customer.id, req.customerId) && SameObjectId(r.movie.id, req.movieId)
  }

  /** A request id written in upper-case hex still finds the rental stored under the lower-case id. */
  lemma MatchIgnoresHexCase(r: Rental, req: ReturnRequest)
    requires r.customer.id == Canonical(req.customerId) && r.movie.id == Canonical(req.movieId)
    ensures Matches(r, req)
  {
    CanonicalIdempotent(req.customerId);
    CanonicalIdempotent(req.movieId);
  }

  lemma CanonicalIdempotent(id: Id)
    ensures Canonical(Canonical(id)) == Canonical(id)
  {
  }

  /** `found` is an answer `findOne` may give: nothing exactly when no rental matches, else a match. */
  predicate LookupResult(rentals: seq<Rental>, req: ReturnRequest, found: Option<nat>)
  {
    && (found.None? <==> forall i :: 0 <= i < |rentals| ==> !Matches(rentals[i], req))
    && (found.Some? ==> found.value < |rentals| && Matches(rentals[found.value], req))
  }

  /** No two rentals carry the same customer/movie pair. */
  predicate AtMostOneMatch(rentals: seq<Rental>, req: ReturnRequest)
  {
    forall i, j :: 0 <= i < |rentals| && 0 <= j < |rentals| && Matches(rentals[i], req) && Matches(rentals[j], req) ==> i == j
  }

  datatype Store = Store(rentals: seq<Rental>, stock: map<Id, int>)

  /** No two stored rentals share an `_id`. */
  predicate IdsDistinct(rentals: seq<Rental>)
  {
    forall i, j :: 0 <= i < |rentals| && 0 <= j < |rentals| && rentals[i].id == rentals[j].id ==> i == j
  }

  /** An id as an `ObjectId` renders it: hex letters in lower case. */
  predicate IsCanonical(id: Id)
  {
    Canonical(id) == id
  }

  /** Every stored rental passed the schema when it was saved and has its return date and fee
      together, rentals have distinct `_id`s, stored ids (snapshot ids and movie keys) are
      `ObjectId`s in their canonical lower-case form, and no stock count is negative. */
  predicate StoreValid(s: Store)
  {
    && (forall i :: 0 <= i < |s.rentals| ==> SchemaValid(s.rentals[i]) && Consistent(s.rentals[i]))
    && (forall i :: 0 <= i < |s.rentals| ==>
          IsCanonical(s.rentals[i].customer.id) && IsCanonical(s.rentals[i].movie.id))
    && IdsDistinct(s.rentals)
    && (forall m :: m in s.stock ==> IsCanonical(m) && s.stock[m] >= 0)
  }

  /** `Movie.update({ _id: movieId }, { $inc: { numberInStock: 1 } })`: one more in stock for that movie,
      and nothing at all when there is no such movie. */
  function Restock(stock: map<Id, int>, movieId: Id): (r: map<Id, int>)
    ensures r.Keys == stock.Keys
    ensures movieId in stock ==> r[movieId] == stock[movieId] + 1
    ensures forall m :: m in stock && m != movieId ==> r[m] == stock[m]
  {
    if movieId in stock then stock[movieId := stock[movieId] + 1] else stock
  }

  const NoRental: Response := Response(404, Text("No rental found with the given customerId/movieId"))
  const AlreadyProcessed: Response := Response(404, Text("Rental is already processed"))

  /** What one request produces: the response and the collections afterwards. */
  datatype Handled = Handled(res: Response, store: Store)

  /**
   * The handler with each refusal ending the request, as the tests expect:
   * gate, body check, lookup, not-found and already-processed refusals, the
   * close, its save (whose schema validation throws, answered with 500), the
   * restock, and the saved rental as the answer.
   */
  function ReturnRental(s: Store, key: Key, token: Option<Token>, body: Object, now: int, found: Option<nat>): Handled
    requires found.Some? ==> found.value < |s.rentals|
  {
    match Authenticate(token, key)
    case Failure(e) => Handled(Refused(e), s)
    case Success(_) =>
      match ValidateReturn(body)
      case Failure(v) => Handled(BadRequest(v), s)
      case Success(req) =>
        if found.None? then Handled(NoRental, s)
        else
          var rental := s.rentals[found.value];
          if rental.dateReturned.Some? then Handled(AlreadyProcessed, s)
          else
            var closed := Close(rental, now);
            if !SchemaValid(closed) then Handled(InternalError, s)
            else Handled(Response(200, RentalBody(closed)),
                         Store(s.rentals[found.value := closed], Restock(s.stock, closed.movie.id)))
  }

  /** A caller without a token gets 401, one whose token does not verify gets 400, and neither
      reaches validation, lookup or any write. */
  lemma ReturnRequiresToken(s: Store, key: Key, token: Option<Token>, body: Object, now: int, found: Option<nat>)
    requires found.Some? ==> found.value < |s.rentals|
    requires token.None? || Verify(token.value, key).None?
    ensures ReturnRental(s, key, token, body, now, found).store == s
    ensures token.None? ==> ReturnRental(s, key, token, body, now, found).res.status == 401
    ensures token.Some? ==> ReturnRental(s, key, token, body, now, found).res.status == 400
  {
  }

  /** An authenticated request whose body lacks an object-id `customerId` or `movieId` (or carries any
      other key) gets 400 and changes nothing. */
  lemma ReturnRejectsMalformedBody(s: Store, key: Key, token: Option<Token>, body: Object, now: int, found: Option<nat>)
    requires found.Some? ==> found.value < |s.rentals|
    requires Authenticate(token, key).Success?
    requires !(HasString(body, "customerId") && IsObjectId(body["customerId"].s))
          || !(HasString(body, "movieId") && IsObjectId(body["movieId"].s))
          || !(body.Keys <= {"customerId", "movieId"})
    ensures ReturnRental(s, key, token, body, now, found).res.status == 400
    ensures ReturnRental(s, key, token, body, now, found).store == s
  {
  }

  /** With no rental for the pair the answer is 404 and nothing changes. */
  lemma ReturnNotFound(s: Store, key: Key, token: Option<Token>, body: Object, now: int, found: Option<nat>)
    requires Authenticate(token, key).Success? && ValidateReturn(body).Success?
    requires LookupResult(s.rentals, ValidateReturn(body).value, found)
    requires forall i :: 0 <= i < |s.rentals| ==> !Matches(s.rentals[i], ValidateReturn(body).value)
    ensures ReturnRental(s, key, token, body, now, found) == Handled(NoRental, s)
  {
  }

  /** When the rental found is already closed the answer is 404 and neither the rental nor any stock changes. */
  lemma ReturnAlreadyProcessed(s: Store, key: Key, token: Option<Token>, body: Object, now: int, found: Option<nat>)
    requires Authenticate(token, key).Success? && ValidateReturn(body).Success?
    requires LookupResult(s.rentals, ValidateReturn(body).value, found)
    requires found.Some? && !IsOpen(s.rentals[found.value])
    ensures ReturnRental(s, key, token, body, now, found) == Handled(AlreadyProcessed, s)
  {
  }

  /** On an open rental found for the pair, brought back no earlier than it went out, the return
      succeeds: exactly that rental is closed, with return date `now` and the fee at its snapshot
      rate; the stock of its movie, by the `_id` its snapshot holds, rises by one (and nothing happens to stock when that movie is not
      stored); every other rental and movie is unchanged; the answer is 200 with the saved rental. */
  lemma ReturnSucceeds(s: Store, key: Key, token: Option<Token>, body: Object, now: int, found: Option<nat>)
    requires StoreValid(s)
    requires Authenticate(token, key).Success? && ValidateReturn(body).Success?
    requires LookupResult(s.rentals, ValidateReturn(body).value, found)
    requires found.Some? && IsOpen(s.rentals[found.value]) && s.rentals[found.value].dateOut <= now
    ensures var h := ReturnRental(s, key, token, body, now, found);
      var i, req := found.value, ValidateReturn(body).value;
      var before, after := s.rentals[i], h.store.rentals[i];
      && h.res == Response(200, RentalBody(after))
      && Matches(before, req)
      && |h.store.rentals| == |s.rentals|
      && (forall j :: 0 <= j < |s.rentals| && j != i ==> h.store.rentals[j] == s.rentals[j])
      && after.id == before.id && after.customer == before.customer
      && after.movie == before.movie && after.dateOut == before.dateOut
      && after.dateReturned == Some(now)
      && after.rentalFee == Some(Fee(before.dateOut, now, before.movie.dailyRentalRate))
      && h.store.stock.Keys == s.stock.Keys
      && (before.movie.id in s.stock ==> h.store.stock[before.movie.id] == s.stock[before.movie.id] + 1)
      && (forall m :: m in s.stock && m != before.movie.id ==> h.store.stock[m] == s.stock[m])
  {
    CloseKeepsSchema(s.rentals[found.value], now);
  }

  /** Every request keeps the collections valid. */
  lemma ReturnPreservesStoreValid(s: Store, key: Key, token: Option<Token>, body: Object, now: int, found: Option<nat>)
    requires StoreValid(s)
    requires found.Some? ==> found.value < |s.rentals|
    ensures StoreValid(ReturnRental(s, key, token, body, now, found).store)
  {
    var h := ReturnRental(s, key, token, body, now, found);
    if h.store != s {
      var i := found.value;
      forall j | 0 <= j < |h.store.rentals|
        ensures SchemaValid(h.store.rentals[j]) && Consistent(h.store.rentals[j])
        ensures h.store.rentals[j].id == s.rentals[j].id
        ensures h.store.rentals[j].customer == s.rentals[j].customer
        ensures h.store.rentals[j].movie == s.rentals[j].movie
      {
        if j != i {
          assert h.store.rentals[j] == s.rentals[j];
        }
      }
    }
  }

  /** Closed is terminal: when a single rental matches the pair and one return of it succeeds, a
      second return of the pair gets 404 "already processed" and changes nothing, so the movie's stock
      has risen by exactly one over both requests. */
  lemma SecondReturnRefused(s: Store, key: Key, token: Option<Token>, body: Object,
                            now1: int, found1: Option<nat>, now2: int, found2: Option<nat>)
    requires StoreValid(s)
    requires Authenticate(token, key).Success? && ValidateReturn(body).Success?
    requires AtMostOneMatch(s.rentals, ValidateReturn(body).value)
    requires LookupResult(s.rentals, ValidateReturn(body).value, found1)
    requires ReturnRental(s, key, token, body, now1, found1).res.status == 200
    requires LookupResult(ReturnRental(s, key, token, body, now1, found1).store.rentals, ValidateReturn(body).value, found2)
    ensures var h1 := ReturnRental(s, key, token, body, now1, found1);
      && ReturnRental(h1.store, key, token, body, now2, found2) == Handled(AlreadyProcessed, h1.store)
      && h1.store.stock == Restock(s.stock, s.rentals[found1.value].movie.id)
  {
    var req := ValidateReturn(body).value;
    var h1 := ReturnRental(s, key, token, body, now1, found1);
    var i := found1.value;
    assert h1.store.rentals == s.rentals[i := Close(s.rentals[i], now1)];
    assert Matches(h1.store.rentals[i], req);
  }

  /** What the handler as written produces; `threw` records an exception raised after a response was
      already sent, which the error middleware can no longer answer. */
  datatype AsWritten = AsWritten(res: Response, store: Store, threw: bool)

  /**
   * The handler as written: the not-found and already-processed branches send
   * their 404 but do not return.  With no rental it throws on `null.dateReturned`;
   * with a closed rental it goes on to close it again, save it, restock the
   * movie, and throw when it tries to send the rental after the 404.
   */
  function ReturnRentalAsWritten(s: Store, key: Key, token: Option<Token>, body: Object, now: int, found: Option<nat>): AsWritten
    requires found.Some? ==> found.value < |s.rentals|
  {
    match Authenticate(token, key)
    case Failure(e) => AsWritten(Refused(e), s, false)
    case Success(_) =>
      match ValidateReturn(body)
      case Failure(v) => AsWritten(BadRequest(v), s, false)
      case Success(req) =>
        if found.None? then AsWritten(NoRental, s, true)
        else
          var rental := s.rentals[found.value];
          var processed := rental.dateReturned.Some?;
          var closed := Close(rental, now);
          if !SchemaValid(closed) then
            AsWritten(if processed then AlreadyProcessed else InternalError, s, processed)
          else
            var after := Store(s.rentals[found.value := closed], Restock(s.stock, closed.movie.id));
            if processed then AsWritten(AlreadyProcessed, after, true)
            else AsWritten(Response(200, RentalBody(closed)), after, false)
  }

  /** As written, a request for an already-closed rental answers 404 yet re-closes the rental with a
      new date and fee and restocks its movie a second time; the intended handler changes nothing. */
  lemma AsWrittenReprocessesClosedRental(s: Store, key: Key, token: Option<Token>, body: Object, now: int, found: Option<nat>)
    requires StoreValid(s)
    requires Authenticate(token, key).Success? && ValidateReturn(body).Success?
    requires LookupResult(s.rentals, ValidateReturn(body).value, found)
    requires found.Some? && !IsOpen(s.rentals[found.value]) && s.rentals[found.value].dateOut <= now
    ensures var w := ReturnRentalAsWritten(s, key, token, body, now, found);
      var i := found.value;
      var m := s.rentals[i].movie.id;
      && w.res == AlreadyProcessed && w.threw
      && w.store.rentals[i] == Close(s.rentals[i], now)
      && (m in s.stock ==> w.store.stock[m] == s.stock[m] + 1)
    ensures ReturnRental(s, key, token, body, now, found).store == s
  {
    CloseKeepsSchema(s.rentals[found.value], now);
  }

  /** As written, a request with no matching rental does answer 404 with nothing changed, but then throws. */
  lemma AsWrittenNotFoundThrows(s: Store, key: Key, token: Option<Token>, body: Object, now: int, found: Option<nat>)
    requires Authenticate(token, key).Success? && ValidateReturn(body).Success?
    requires LookupResult(s.rentals, ValidateReturn(body).value, found)
    requires found.None?
    ensures ReturnRentalAsWritten(s, key, token, body, now, found) == AsWritten(NoRental, s, true)
  {
  }

  /** Outside those two branches the handler as written and the intended one answer and write alike. */
  lemma AsWrittenAgreesOnOpenRentals(s: Store, key: Key, token: Option<Token>, body: Object, now: int, found: Option<nat>)
    requires found.Some? ==> found.value < |s.rentals|
    requires Authenticate(token, key).Success? && ValidateReturn(body).Success? ==>
      found.Some? && IsOpen(s.rentals[found.value])
    ensures var w := ReturnRentalAsWritten(s, key, token, body, now, found);
      var h := ReturnRental(s, key, token, body, now, found);
      w.res == h.res && w.store == h.store && !w.threw
  {
  }

  /** The closed rental at rate 2 of the tests' already-processed case, combined with the movie
      with 7 in stock of their restock case, asked for again by a user with a valid token.  As
      written the stock ends at 8; the intended handler leaves it at 7. */
  lemma DoubleRestockExample(key: Key, user: Id, customerId: Id, movieId: Id, now: int)
    requires IsObjectId(customerId) && IsObjectId(movieId) && 0 <= now
    requires IsCanonical(customerId) && IsCanonical(movieId)
    ensures var rental := Rental("r", CustomerSnapshot(customerId, "12345", false, "12345"),
                                 MovieSnapshot(movieId, "12345", 2), 0, Some(0), Some(1));
      var s := Store([rental], map[movieId := 7]);
      var body := map["customerId" := JString(customerId), "movieId" := JString(movieId)];
      var token := Some(Sign(Claims(user, None), key));
      && ReturnRentalAsWritten(s, key, token, body, now, Some(0)).store.stock[movieId] == 8
      && ReturnRental(s, key, token, body, now, Some(0)).store.stock[movieId] == 7
  {
    var rental := Rental("r", CustomerSnapshot(customerId, "12345", false, "12345"),
                         MovieSnapshot(movieId, "12345", 2), 0, Some(0), Some(1));
    var s := Store([rental], map[movieId := 7]);
    var body := map["customerId" := JString(customerId), "movieId" := JString(movieId)];
    var token := Some(Sign(Claims(user, None), key));
    assert ValidateReturn(body) == Success(ReturnRequest(customerId, movieId));
    assert Matches(s.rentals[0], ReturnRequest(customerId, movieId));
    AsWrittenReprocessesClosedRental(s, key, token, body, now, Some(0));
  }

  /** The rental and movie collections the return route works on. */
  class ReturnsRouter {
    var rentals: seq<Rental>
    var stock: map<Id, int>
    const key: Key

    function State(): Store
      reads this
    {
      Store(rentals, stock)
    }

    ghost predicate Valid()
      reads this
    {
      StoreValid(State())
    }

    constructor (key: Key, s: Store)
      requires StoreValid(s)
      ensures Valid() && State() == s && this.key == key
    {
      this.key := key;
      rentals, stock := s.rentals, s.stock;
    }

    /** `Rental.findOne({ 'customer._id': customerId, 'movie._id': movieId })`. */
    method FindOne(req: ReturnRequest) returns (found: Option<nat>)
      ensures LookupResult(rentals, req, found)
    {
      if exists i :: 0 <= i < |rentals| && Matches(rentals[i], req) {
        var i :| 0 <= i < |rentals| && Matches(rentals[i], req);
        found := Some(i);
      } else {
        found := None;
      }
    }

    /** `rental.save()`: mongoose validates the document against the schema and writes it only if it passes. */
    method Save(i: nat, r: Rental) returns (saved: bool)
      requires i < |rentals|
      modifies this`rentals
      ensures saved == SchemaValid(r)
      ensures rentals == if saved then old(rentals)[i := r] else old(rentals)
    {
      saved := SchemaValid(r);
      if saved {
        rentals := rentals[i := r];
      }
    }

    /** The `$inc` of the movie's `numberInStock`. */
    method IncrementStock(movieId: Id)
      modifies this`stock
      ensures stock == Restock(old(stock), movieId)
    {
      if movieId in stock {
        stock := stock[movieId := stock[movieId] + 1];
      }
    }

    /** The route handler, each refusal ending the request. */
    method Post(token: Option<Token>, body: Object, now: int) returns (res: Response, ghost found: Option<nat>)
      requires Valid()
      modifies this
      ensures Valid()
      ensures found.Some? ==> found.value < |old(rentals)|
      ensures Authenticate(token, key).Success? && ValidateReturn(body).Success? ==>
        LookupResult(old(rentals), ValidateReturn(body).value, found)
      ensures Handled(res, State()) == ReturnRental(old(State()), key, token, body, now, found)
    {
      found := None;
      var auth := Authenticate(token, key);
      if auth.Failure? {
        res := Refused(auth.error);
        return;
      }
      var parsed := ValidateReturn(body);
      if parsed.Failure? {
        res := BadRequest(parsed.error);
        return;
      }
      var lookup := FindOne(parsed.value);
      found := lookup;
      if lookup.None? {
        res := NoRental;
        return;
      }
      var rental := new RentalDocument(rentals[lookup.value]);
      if rental.dateReturned.Some? {
        res := AlreadyProcessed;
        return;
      }
      rental.Return(now);
      var saved := Save(lookup.value, rental.Record());
      if !saved {
        res := InternalError;
        return;
      }
      IncrementStock(rental.movie.id);
      res := Response(200, RentalBody(rental.Record()));
      ReturnPreservesStoreValid(old(State()), key, token, body, now, found);
    }
  }
}
