/**
 * A rental: embedded customer and movie snapshots, the time it went out and,
 * once it is closed, the time it came back and the fee charged.  Times are
 * integer milliseconds since the epoch.
 */
module RentalModel {
  import opened Wrappers
  import opened Json
  import opened Joi

  /** 1000 ms * 60 s * 60 min * 24 h. */
  const MS_PER_DAY: int := 86_400_000

  /** The customer fields copied into the rental when it is issued. */
  datatype CustomerSnapshot = CustomerSnapshot(id: Id, name: string, isGold: bool, phone: string)

  /** The movie fields copied into the rental when it is issued; the rate is locked in here. */
  datatype MovieSnapshot = MovieSnapshot(id: Id, title: string, dailyRentalRate: int)

  datatype Rental = Rental(
    id: Id,
    customer: CustomerSnapshot,
    movie: MovieSnapshot,
    dateOut: int,
    dateReturned: Option<int>,
    rentalFee: Option<int>)

  /** A rental without a return date is open; once it has one it is closed. */
  predicate IsOpen(r: Rental)
  {
    r.dateReturned.None?
  }

  /** An open rental has no fee and a closed one has one. */
  predicate Consistent(r: Rental)
  {
    r.dateReturned.Some? <==> r.rentalFee.Some?
  }

  /** What mongoose's validators demand of a rental document when it is saved. */
  predicate SchemaValid(r: Rental)
  {
    && 5 <= Utf16Length(r.customer.name) <= 50
    && 5 <= Utf16Length(r.customer.phone) <= 50
    && 5 <= Utf16Length(r.movie.title) <= 255
    && 0 <= r.movie.dailyRentalRate <= 255
    && (r.rentalFee.Some? ==> r.rentalFee.value >= 0)
  }

  /** `Math.ceil(x / d)` on integers: the least q with x <= d * q. */
  function CeilDiv(x: int, d: int): (q: int)
    requires d > 0
    ensures d * (q - 1) < x <= d * q
  {
    var f := (-x) / d;
    assert d * f <= -x < d * f + d;
    -f
  }

  lemma MulMonotone(d: int, a: int, b: int)
    requires d >= 0 && a <= b
    ensures d * a <= d * b
  {
    assert d * b - d * a == d * (b - a);
  }

  /** The bounds of `CeilDiv` pin its value down. */
  lemma CeilDivUnique(x: int, d: int, q: int)
    requires d > 0 && d * (q - 1) < x <= d * q
    ensures CeilDiv(x, d) == q
  {
    var c := CeilDiv(x, d);
    if c < q {
      MulMonotone(d, c, q - 1);
    } else if c > q {
      MulMonotone(d, q, c - 1);
    }
  }

  /** `rentingDays`: elapsed time in whole days, any started day counting in full. */
  function RentingDays(dateOut: int, dateReturned: int): (days: int)
    ensures MS_PER_DAY * (days - 1) < dateReturned - dateOut <= MS_PER_DAY * days
  {
    CeilDiv(dateReturned - dateOut, MS_PER_DAY)
  }

  /** `rentalFee`: renting days times the snapshot's daily rate. */
  function Fee(dateOut: int, dateReturned: int, rate: int): int
  {
    RentingDays(dateOut, dateReturned) * rate
  }

  /** Exactly k days out is charged as k days; in particular no time out is charged as 0 days. */
  lemma RentingDaysWholeDays(dateOut: int, k: int)
    ensures RentingDays(dateOut, dateOut + k * MS_PER_DAY) == k
  {
    CeilDivUnique(k * MS_PER_DAY, MS_PER_DAY, k);
  }

  /** Any time out in the k-th day, however short the part of it, is charged as k days. */
  lemma RentingDaysPartialDay(dateOut: int, dateReturned: int, k: int)
    requires (k - 1) * MS_PER_DAY < dateReturned - dateOut <= k * MS_PER_DAY
    ensures RentingDays(dateOut, dateReturned) == k
  {
    CeilDivUnique(dateReturned - dateOut, MS_PER_DAY, k);
  }

  /** One hour out is one day. */
  lemma OneHourIsOneDay(dateOut: int)
    ensures RentingDays(dateOut, dateOut + 3_600_000) == 1
  {
    RentingDaysPartialDay(dateOut, dateOut + 3_600_000, 1);
  }

  /** A rental returned no earlier than it went out, at a non-negative rate, costs a non-negative fee. */
  lemma FeeNonNegative(dateOut: int, dateReturned: int, rate: int)
    requires dateOut <= dateReturned && 0 <= rate
    ensures Fee(dateOut, dateReturned, rate) >= 0
  {
    var days := RentingDays(dateOut, dateReturned);
    if days < 0 {
      MulMonotone(MS_PER_DAY, days, -1);
    }
    MulMonotone(rate, 0, days);
  }

  lemma CeilDivMonotone(x1: int, x2: int, d: int)
    requires d > 0 && x1 <= x2
    ensures CeilDiv(x1, d) <= CeilDiv(x2, d)
  {
    var q1, q2 := CeilDiv(x1, d), CeilDiv(x2, d);
    if q1 > q2 {
      MulMonotone(d, q2, q1 - 1);
    }
  }

  /** For a fixed daily rate the fee never decreases as the return time moves later. */
  lemma FeeMonotone(dateOut: int, t1: int, t2: int, rate: int)
    requires t1 <= t2 && 0 <= rate
    ensures Fee(dateOut, t1, rate) <= Fee(dateOut, t2, rate)
  {
    CeilDivMonotone(t1 - dateOut, t2 - dateOut, MS_PER_DAY);
    MulMonotone(rate, RentingDays(dateOut, t1), RentingDays(dateOut, t2));
  }

  /** `rental.return()` on values: the return date becomes `now` and the fee is charged at the snapshot rate. */
  function Close(r: Rental, now: int): Rental
  {
    r.(dateReturned := Some(now), rentalFee := Some(Fee(r.dateOut, now, r.movie.dailyRentalRate)))
  }

  /** Closing leaves the rental closed and consistent, keeps its identity, snapshots and issue date,
      and, when it comes back no earlier than it went out, keeps it valid for the schema. */
  lemma CloseKeepsSchema(r: Rental, now: int)
    requires SchemaValid(r) && r.dateOut <= now
    ensures !IsOpen(Close(r, now)) && Consistent(Close(r, now))
    ensures Close(r, now).id == r.id && Close(r, now).customer == r.customer
    ensures Close(r, now).movie == r.movie && Close(r, now).dateOut == r.dateOut
    ensures SchemaValid(Close(r, now))
  {
    FeeNonNegative(r.dateOut, now, r.movie.dailyRentalRate);
  }

  /** A rental at rate 2 brought back exactly six days after it went out costs 12. */
  lemma SixDaysAtRateTwo(r: Rental)
    requires r.movie.dailyRentalRate == 2
    ensures Close(r, r.dateOut + 6 * MS_PER_DAY).rentalFee == Some(12)
  {
    RentingDaysWholeDays(r.dateOut, 6);
  }

  /** A rental document loaded from the store, mutated in place by `return()`. */
  class RentalDocument {
    var id: Id
    var customer: CustomerSnapshot
    var movie: MovieSnapshot
    var dateOut: int
    var dateReturned: Option<int>
    var rentalFee: Option<int>

    /** The document's current field values. */
    function Record(): Rental
      reads this
    {
      Rental(id, customer, movie, dateOut, dateReturned, rentalFee)
    }

    /** Hydrate a document from a stored rental. */
    constructor (r: Rental)
      ensures Record() == r
    {
      id, customer, movie, dateOut := r.id, r.customer, r.movie, r.dateOut;
      dateReturned, rentalFee := r.dateReturned, r.rentalFee;
    }

    /** `rentalSchema.methods.return`: sets the return date and the fee, and nothing else. */
    method Return(now: int)
      modifies this`dateReturned, this`rentalFee
      ensures dateReturned == Some(now)
      ensures rentalFee == Some(RentingDays(dateOut, now) * movie.dailyRentalRate)
      ensures Record() == Close(old(Record()), now)
    {
      dateReturned := Some(now);
      var rentingDays := CeilDiv(dateReturned.value - dateOut, MS_PER_DAY);
      rentalFee := Some(rentingDays * movie.dailyRentalRate);
    }
  }

  /** The Joi schema of `validateRental`. */
  const RentalBodySchema: Schema := [("customerId", ObjectId), ("movieId", ObjectId)]

  /** `validateRental(body).error`. */
  function ValidateRental(body: Object): Option<Violation>
  {
    Validate(body, RentalBodySchema)
  }

  /** `validateRental` accepts exactly the bodies holding object-id strings under `customerId` and
      `movieId` and nothing else. */
  lemma ValidateRentalAccepts(body: Object)
    ensures ValidateRental(body).None? <==>
      && HasString(body, "customerId") && IsObjectId(body["customerId"].s)
      && HasString(body, "movieId") && IsObjectId(body["movieId"].s)
      && body.Keys <= {"customerId", "movieId"}
  {
    var schema := RentalBodySchema;
    ValidateAccepts(body, schema);
    assert Keys(schema) == {"customerId", "movieId"} by {
      assert schema[0].0 == "customerId" && schema[1].0 == "movieId";
    }
    if FieldsConform(body, schema) {
      assert schema[0].0 in body && Satisfies(body[schema[0].0], schema[0].1);
      assert schema[1].0 in body && Satisfies(body[schema[1].0], schema[1].1);
    }
  }
}
