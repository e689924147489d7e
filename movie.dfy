/** The movie catalogue entry: the mongoose bounds of its counters and the `validateMovie` body check. */
module MovieModel {
  import opened Wrappers
  import opened Json
  import opened Joi

  // Bounds of `numberInStock` and `dailyRentalRate` in the mongoose schema (models/movie.js).
  const STOCK_MIN: int := 0
  const STOCK_MAX: int := 255
  const RATE_MIN: int := 0
  const RATE_MAX: int := 255

  predicate StockWithinSchema(n: int)
  {
    STOCK_MIN <= n <= STOCK_MAX
  }

  predicate RateWithinSchema(n: int)
  {
    RATE_MIN <= n <= RATE_MAX
  }

  /** The Joi schema of `validateMovie`, in the order it lists its keys. */
  const MovieBodySchema: Schema := [
    ("title", Str(5, 255, false)),
    ("genreId", ObjectId),
    ("numberInStock", Num(0, 255)),
    ("dailyRentalRate", Num(0, 255))
  ]

  /** `validateMovie(body).error`. */
  function ValidateMovie(body: Object): Option<Violation>
  {
    Validate(body, MovieBodySchema)
  }

  predicate NumberIn(body: Object, key: string, lo: int, hi: int)
  {
    key in body && body[key].JNumber? && lo <= body[key].n <= hi
  }

  /** `validateMovie` accepts exactly the bodies with a 5..255-character title, an object-id genreId,
      numberInStock and dailyRentalRate in 0..255, and no other key. */
  lemma ValidateMovieAccepts(body: Object)
    ensures ValidateMovie(body).None? <==>
      && HasString(body, "title") && 5 <= Utf16Length(body["title"].s) <= 255
      && HasString(body, "genreId") && IsObjectId(body["genreId"].s)
      && NumberIn(body, "numberInStock", 0, 255)
      && NumberIn(body, "dailyRentalRate", 0, 255)
      && body.Keys <= {"title", "genreId", "numberInStock", "dailyRentalRate"}
  {
    var schema := MovieBodySchema;
    ValidateAccepts(body, schema);
    assert Keys(schema) == {"title", "genreId", "numberInStock", "dailyRentalRate"} by {
      assert schema[0].0 == "title" && schema[1].0 == "genreId";
      assert schema[2].0 == "numberInStock" && schema[3].0 == "dailyRentalRate";
    }
    if FieldsConform(body, schema) {
      assert schema[0].0 in body && Satisfies(body[schema[0].0], schema[0].1);
      assert schema[1].0 in body && Satisfies(body[schema[1].0], schema[1].1);
      assert schema[2].0 in body && Satisfies(body[schema[2].0], schema[2].1);
      assert schema[3].0 in body && Satisfies(body[schema[3].0], schema[3].1);
    }
  }

  /** Whatever `validateMovie` accepts carries a stock count and a daily rate the mongoose schema admits. */
  lemma ValidatedMovieWithinSchema(body: Object)
    requires ValidateMovie(body).None?
    ensures "numberInStock" in body && body["numberInStock"].JNumber?
    ensures StockWithinSchema(body["numberInStock"].n)
    ensures "dailyRentalRate" in body && body["dailyRentalRate"].JNumber?
    ensures RateWithinSchema(body["dailyRentalRate"].n)
  {
    ValidateMovieAccepts(body);
  }
}
