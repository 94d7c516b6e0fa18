/** The car catalogue handlers (routes/cars.js): the list filter built from
    the query string, the admin-only create, update and delete, and review
    submission with the rating recomputed as the mean of all reviews. The
    location filter is a case-insensitive regular expression built from the
    raw parameter; it is passed in as an opaque matching relation. */
module CarRoutes {
  import opened Common
  import opened JsText
  import opened CarModel
  import opened Database

  /** The query parameters `GET /` reads, each absent or given as text. */
  datatype CarQuery = CarQuery(
    carType: Option<string>,      // `type`
    minPrice: Option<string>,
    maxPrice: Option<string>,
    transmission: Option<string>,
    fuelType: Option<string>,
    seats: Option<string>,
    location: Option<string>,
    available: Option<string>)

  /** The filter object. `None` leaves a field unconstrained; a numeric
      constraint holds the result of `parseInt`, where `None` is NaN. */
  datatype CarFilter = CarFilter(
    carType: Option<string>,
    transmission: Option<string>,
    fuelType: Option<string>,
    seats: Option<Option<int>>,
    location: Option<string>,
    available: Option<bool>,
    minPrice: Option<Option<int>>,
    maxPrice: Option<Option<int>>)

  /** A query value is truthy: present and not the empty string. */
  predicate Given(p: Option<string>) { p.Some? && p.value != "" }

  /** The filter construction of `GET /`: a text parameter constrains its
      field only when non-empty, `available` whenever it is present, and
      seats and the two price bounds through `parseInt`. */
  function BuildFilter(q: CarQuery): CarFilter {
    CarFilter(
      if Given(q.carType) then q.carType else None,
      if Given(q.transmission) then q.transmission else None,
      if Given(q.fuelType) then q.fuelType else None,
      if Given(q.seats) then Some(ParseInt(q.seats.value)) else None,
      if Given(q.location) then q.location else None,
      if q.available.Some? then Some(q.available.value == "true") else None,
      if Given(q.minPrice) then Some(ParseInt(q.minPrice.value)) else None,
      if Given(q.maxPrice) then Some(ParseInt(q.maxPrice.value)) else None)
  }

  /** A car satisfies the filter. */
  predicate Matches(f: CarFilter, c: Car, locationMatches: (string, string) -> bool) {
    && (f.carType.Some? ==> CarTypeName(c.carType) == f.carType.value)
    && (f.transmission.Some? ==> TransmissionName(c.transmission) == f.transmission.value)
    && (f.fuelType.Some? ==> FuelTypeName(c.fuelType) == f.fuelType.value)
    && (f.seats.Some? ==> f.seats.value == Some(c.seats))
    && (f.location.Some? ==> locationMatches(f.location.value, c.location))
    && (f.available.Some? ==> c.available == f.available.value)
    && (f.minPrice.Some? ==> f.minPrice.value.Some? && f.minPrice.value.value <= c.pricePerDay)
    && (f.maxPrice.Some? ==> f.maxPrice.value.Some? && c.pricePerDay <= f.maxPrice.value.value)
  }

  /** What a query selects, parameter by parameter: each non-empty parameter
      is one more condition, price bounds are inclusive, and `available`
      selects available cars only for the literal "true". */
  lemma QuerySelects(q: CarQuery, c: Car, locationMatches: (string, string) -> bool)
    ensures Matches(BuildFilter(q), c, locationMatches) <==>
      && (Given(q.carType) ==> CarTypeName(c.carType) == q.carType.value)
      && (Given(q.transmission) ==> TransmissionName(c.transmission) == q.transmission.value)
      && (Given(q.fuelType) ==> FuelTypeName(c.fuelType) == q.fuelType.value)
      && (Given(q.seats) ==> ParseInt(q.seats.value) == Some(c.seats))
      && (Given(q.location) ==> locationMatches(q.location.value, c.location))
      && (q.available.Some? ==> (c.available <==> q.available.value == "true"))
      && (Given(q.minPrice) ==> ParseInt(q.minPrice.value).Some? && ParseInt(q.minPrice.value).value <= c.pricePerDay)
      && (Given(q.maxPrice) ==> ParseInt(q.maxPrice.value).Some? && c.pricePerDay <= ParseInt(q.maxPrice.value).value)
  {
  }

  /** A query whose parameters are all absent or empty, with no `available`,
      selects every car. */
  lemma EmptyQuerySelectsAll(q: CarQuery, c: Car, locationMatches: (string, string) -> bool)
    requires !Given(q.carType) && !Given(q.transmission) && !Given(q.fuelType) && !Given(q.seats)
    requires !Given(q.location) && !Given(q.minPrice) && !Given(q.maxPrice) && q.available.None?
    ensures Matches(BuildFilter(q), c, locationMatches)
  {
  }

  /** A numeric constraint of the filter is NaN. */
  predicate HasNaN(f: CarFilter) {
    f.seats == Some(None) || f.minPrice == Some(None) || f.maxPrice == Some(None)
  }

  /** The filter cannot be used: `new RegExp(location, 'i')` throws on a
      location that is not a valid pattern, and a NaN in a numeric
      constraint fails the cast of the query. `patternValid` is the
      pattern syntax, left opaque. */
  predicate FilterFails(f: CarFilter, patternValid: string -> bool) {
    HasNaN(f) || (f.location.Some? && !patternValid(f.location.value))
  }

  /** `GET /`: the ids of the cars the filter selects. A filter that cannot
      be built or cast answers 500. */
  function ListCars(db: Store, q: CarQuery, patternValid: string -> bool,
                    locationMatches: (string, string) -> bool): (r: Result<set<CarId>>)
    reads db
    ensures r.Err? <==> FilterFails(BuildFilter(q), patternValid)
    ensures r.Err? ==> r.error == ServerError
    ensures r.Ok? ==> forall id :: id in r.value <==> id in db.cars && Matches(BuildFilter(q), db.cars[id], locationMatches)
  {
    var f := BuildFilter(q);
    if FilterFails(f, patternValid) then Err(ServerError)
    else Ok(set id | id in db.cars && Matches(f, db.cars[id], locationMatches))
  }

  /** A non-empty location that is not a valid pattern makes the listing
      fail; an empty one is never compiled. */
  lemma InvalidPatternFails(q: CarQuery, patternValid: string -> bool)
    ensures Given(q.location) && !patternValid(q.location.value) ==> FilterFails(BuildFilter(q), patternValid)
    ensures !Given(q.location) ==> (FilterFails(BuildFilter(q), patternValid) <==> HasNaN(BuildFilter(q)))
  {
  }

  /** A non-numeric `seats`, `minPrice` or `maxPrice` makes the listing fail. */
  lemma NonNumericParamFails(q: CarQuery)
    requires || (Given(q.seats) && ParseInt(q.seats.value).None?)
             || (Given(q.minPrice) && ParseInt(q.minPrice.value).None?)
             || (Given(q.maxPrice) && ParseInt(q.maxPrice.value).None?)
    ensures HasNaN(BuildFilter(q))
  {
  }

  /** `GET /:id`. */
  function GetCar(db: Store, id: CarId): (r: Result<Car>)
    reads db
    ensures r.Ok? <==> id in db.cars
    ensures r.Err? ==> r.error == NotFound
    ensures r.Ok? ==> r.value == db.cars[id]
  {
    if id in db.cars then Ok(db.cars[id]) else Err(NotFound)
  }

  /** `POST /`: an admin adds a car. The role is checked before the body. */
  method CreateCar(db: Store, caller: UserId, input: CarInput) returns (r: Result<CarId>)
    requires db.Valid()
    modifies db
    ensures db.Valid()
    ensures db.users == old(db.users) && db.bookings == old(db.bookings)
    ensures db.notifications == old(db.notifications)
    ensures r == Err(AccessDenied) <==> !old(db.IsAdmin(caller))
    ensures r == Err(ValidationFailed) <==> old(db.IsAdmin(caller)) && !InputValid(input)
    ensures r.Ok? <==> old(db.IsAdmin(caller)) && InputValid(input)
    ensures r.Err? ==> db.cars == old(db.cars)
    ensures r.Ok? ==> r.value !in old(db.cars) && db.cars == old(db.cars)[r.value := NewCar(input).value]
  {
    if !db.IsAdmin(caller) {
      return Err(AccessDenied);
    }
    var car := NewCar(input);
    if car.None? {
      return Err(ValidationFailed);
    }
    var id := db.AddCar(car.value);
    r := Ok(id);
  }

  /** `PUT /:id`: an admin updates a car. The role is checked first; the
      update validators run before the car is looked up. */
  method UpdateCar(db: Store, caller: UserId, id: CarId, patch: CarPatch) returns (r: Result<Car>)
    requires db.Valid()
    modifies db
    ensures db.Valid()
    ensures db.users == old(db.users) && db.bookings == old(db.bookings)
    ensures db.notifications == old(db.notifications)
    ensures r == Err(AccessDenied) <==> !old(db.IsAdmin(caller))
    ensures r == Err(ValidationFailed) <==> old(db.IsAdmin(caller)) && !PatchValid(patch)
    ensures r == Err(NotFound) <==> old(db.IsAdmin(caller)) && PatchValid(patch) && id !in old(db.cars)
    ensures r.Err? ==> db.cars == old(db.cars)
    ensures r.Ok? ==> id in old(db.cars) && PatchValid(patch)
                      && r.value == ApplyPatch(old(db.cars)[id], patch)
                      && db.cars == old(db.cars)[id := r.value]
  {
    if !db.IsAdmin(caller) {
      return Err(AccessDenied);
    }
    if !PatchValid(patch) {
      return Err(ValidationFailed);
    }
    if id !in db.cars {
      return Err(NotFound);
    }
    var car := ApplyPatch(db.cars[id], patch);
    ApplyPatchSchemaValid(db.cars[id], patch);
    db.cars := db.cars[id := car];
    r := Ok(car);
  }

  /** `DELETE /:id`: an admin removes a car. Its bookings stay in the store. */
  method DeleteCar(db: Store, caller: UserId, id: CarId) returns (r: Result<()>)
    requires db.Valid()
    modifies db
    ensures db.Valid()
    ensures db.users == old(db.users) && db.bookings == old(db.bookings)
    ensures db.notifications == old(db.notifications)
    ensures r == Err(AccessDenied) <==> !old(db.IsAdmin(caller))
    ensures r == Err(NotFound) <==> old(db.IsAdmin(caller)) && id !in old(db.cars)
    ensures r.Ok? <==> old(db.IsAdmin(caller)) && id in old(db.cars)
    ensures r.Err? ==> db.cars == old(db.cars)
    ensures r.Ok? ==> db.cars == old(db.cars) - {id}
  {
    if !db.IsAdmin(caller) {
      return Err(AccessDenied);
    }
    if id !in db.cars {
      return Err(NotFound);
    }
    db.cars := db.cars - {id};
    r := Ok(());
  }

  /** The running total of the `reduce` over the review ratings. */
  function SumRatings(rs: seq<Review>): real {
    if rs == [] then 0.0 else SumRatings(rs[..|rs| - 1]) + rs[|rs| - 1].rating
  }

  /** The aggregate rating: the arithmetic mean of every review's rating. */
  function MeanRating(rs: seq<Review>): real
    requires rs != []
  {
    SumRatings(rs) / |rs| as real
  }

  lemma {:induction false} SumRatingsBounds(rs: seq<Review>, lo: real, hi: real)
    requires forall i :: 0 <= i < |rs| ==> lo <= rs[i].rating <= hi
    ensures |rs| as real * lo <= SumRatings(rs) <= |rs| as real * hi
  {
    if rs != [] {
      SumRatingsBounds(rs[..|rs| - 1], lo, hi);
    }
  }

  /** The mean of ratings that all lie in [lo, hi] lies in [lo, hi]. */
  lemma MeanRatingBounds(rs: seq<Review>, lo: real, hi: real)
    requires rs != []
    requires forall i :: 0 <= i < |rs| ==> lo <= rs[i].rating <= hi
    ensures lo <= MeanRating(rs) <= hi
  {
    SumRatingsBounds(rs, lo, hi);
    var n := |rs| as real;
    assert MeanRating(rs) * n == SumRatings(rs);
  }

  /** Reviews rated within [0, 5] keep the car's rating within its schema
      bounds, so such a review is always stored. */
  lemma InRangeReviewsKeepRatingValid(rs: seq<Review>, r: Review)
    requires forall i :: 0 <= i < |rs| ==> RatingInBounds(rs[i].rating)
    requires RatingInBounds(r.rating)
    ensures RatingInBounds(MeanRating(rs + [r]))
  {
    MeanRatingBounds(rs + [r], 0.0, 5.0);
  }

  /** A review's own rating is unbounded: a 6 after a 0 averages to 3 and is
      stored. */
  lemma OutOfRangeReviewCanBeStored(u: UserId, t: Ms)
    ensures var rs := [Review(u, 0.0, None, t), Review(u, 6.0, None, t)];
            !RatingInBounds(rs[1].rating) && RatingInBounds(MeanRating(rs))
  {
    var rs := [Review(u, 0.0, None, t), Review(u, 6.0, None, t)];
    assert rs[..1][..0] == [];
    assert SumRatings(rs[..1]) == 0.0;
    assert SumRatings(rs) == 6.0;
  }

  /** `POST /:id/reviews`: any signed-in user appends one review, authored by
      the caller and dated `now`, and the rating becomes the mean of all
      reviews; a mean outside [0, 5] fails the save and nothing changes. */
  method AddReview(db: Store, caller: UserId, id: CarId, rating: real, comment: Option<string>, now: Ms)
    returns (r: Result<Car>)
    requires db.Valid()
    modifies db
    ensures db.Valid()
    ensures db.users == old(db.users) && db.bookings == old(db.bookings)
    ensures db.notifications == old(db.notifications)
    ensures r == Err(NotFound) <==> id !in old(db.cars)
    ensures id in old(db.cars) ==>
      var c := old(db.cars)[id];
      var rs := c.reviews + [Review(caller, rating, comment, now)];
      && (RatingInBounds(MeanRating(rs)) ==>
            r == Ok(c.(reviews := rs, rating := MeanRating(rs))) && db.cars == old(db.cars)[id := r.value])
      && (!RatingInBounds(MeanRating(rs)) ==> r == Err(ValidationFailed))
    ensures r.Err? ==> db.cars == old(db.cars)
  {
    if id !in db.cars {
      return Err(NotFound);
    }
    var car := db.cars[id];
    var reviews := car.reviews + [Review(caller, rating, comment, now)];
    var mean := MeanRating(reviews);
    if !RatingInBounds(mean) {
      return Err(ValidationFailed);
    }
    car := car.(reviews := reviews, rating := mean);
    db.cars := db.cars[id := car];
    r := Ok(car);
  }
}
