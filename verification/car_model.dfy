/** The car document (models/Car.js): its enumerations, defaults, the rating
    bound, and the embedded review records. */
module CarModel {
  import opened Common
  import opened JsText

  datatype CarType = Sedan | SUV | Sports | Luxury | Compact | Van
  datatype Transmission = Automatic | Manual
  datatype FuelType = Petrol | Diesel | Electric | Hybrid

  /** The stored name of a type; the schema accepts it back as that type. */
  function CarTypeName(t: CarType): (s: string)
    ensures ParseCarType(s) == Some(t)
  {
    match t
    case Sedan => "Sedan"
    case SUV => "SUV"
    case Sports => "Sports"
    case Luxury => "Luxury"
    case Compact => "Compact"
    case Van => "Van"
  }

  function TransmissionName(t: Transmission): (s: string)
    ensures ParseTransmission(s) == Some(t)
  {
    match t
    case Automatic => "Automatic"
    case Manual => "Manual"
  }

  function FuelTypeName(f: FuelType): (s: string)
    ensures ParseFuelType(s) == Some(f)
  {
    match f
    case Petrol => "Petrol"
    case Diesel => "Diesel"
    case Electric => "Electric"
    case Hybrid => "Hybrid"
  }

  /** The schema's enum check for `type`: exactly the six names are accepted. */
  function ParseCarType(s: string): (r: Option<CarType>)
    ensures r.Some? <==> s in {"Sedan", "SUV", "Sports", "Luxury", "Compact", "Van"}
  {
    if s == "Sedan" then Some(Sedan)
    else if s == "SUV" then Some(SUV)
    else if s == "Sports" then Some(Sports)
    else if s == "Luxury" then Some(Luxury)
    else if s == "Compact" then Some(Compact)
    else if s == "Van" then Some(Van)
    else None
  }

  function ParseTransmission(s: string): (r: Option<Transmission>)
    ensures r.Some? <==> s in {"Automatic", "Manual"}
  {
    if s == "Automatic" then Some(Automatic)
    else if s == "Manual" then Some(Manual)
    else None
  }

  function ParseFuelType(s: string): (r: Option<FuelType>)
    ensures r.Some? <==> s in {"Petrol", "Diesel", "Electric", "Hybrid"}
  {
    if s == "Petrol" then Some(Petrol)
    else if s == "Diesel" then Some(Diesel)
    else if s == "Electric" then Some(Electric)
    else if s == "Hybrid" then Some(Hybrid)
    else None
  }

  /** An embedded review: author, a rating with no bound of its own, an
      optional comment and the instant it was added (default: now). */
  datatype Review = Review(user: UserId, rating: real, comment: Option<string>, date: Ms)

  datatype Car = Car(
    make: string,
    model: string,
    year: int,
    carType: CarType,
    transmission: Transmission,
    fuelType: FuelType,
    seats: int,
    pricePerDay: int,
    images: seq<string>,
    features: seq<string>,
    available: bool,
    location: string,
    mileage: int,
    rating: real,
    reviews: seq<Review>)

  /** Bounds on the aggregate rating: `min: 0, max: 5`. */
  predicate RatingInBounds(r: real) { 0.0 <= r <= 5.0 }

  /** A car the store accepts on save: required strings present (make and
      model after trimming), every image URI non-empty, rating in [0, 5].
      year, seats, pricePerDay and mileage are unconstrained numbers. */
  predicate SchemaValid(c: Car) {
    && c.make != "" && c.model != "" && c.location != ""
    && (forall i :: 0 <= i < |c.images| ==> c.images[i] != "")
    && RatingInBounds(c.rating)
  }

  /** The body of a create request, before the schema's setters, casts and defaults. */
  datatype CarInput = CarInput(
    make: string,
    model: string,
    year: int,
    carType: string,
    transmission: string,
    fuelType: string,
    seats: int,
    pricePerDay: int,
    images: seq<string>,
    features: seq<string>,
    available: Option<bool>,
    location: string,
    mileage: int,
    rating: Option<real>)

  predicate InputValid(b: CarInput) {
    && Trim(b.make) != "" && Trim(b.model) != "" && b.location != ""
    && ParseCarType(b.carType).Some?
    && ParseTransmission(b.transmission).Some?
    && ParseFuelType(b.fuelType).Some?
    && (forall i :: 0 <= i < |b.images| ==> b.images[i] != "")
    && RatingInBounds(b.rating.GetOr(0.0))
  }

  /** `new Car(body)` followed by validation: the trimmed make and model, the
      parsed enumerations, `available` defaulting to true, `rating` to 0, and
      no reviews. */
  function NewCar(b: CarInput): (r: Option<Car>)
    ensures r.Some? <==> InputValid(b)
    ensures r.Some? ==> SchemaValid(r.value)
    ensures r.Some? ==> && r.value.make == Trim(b.make) && r.value.model == Trim(b.model)
                        && ParseCarType(b.carType) == Some(r.value.carType)
                        && ParseTransmission(b.transmission) == Some(r.value.transmission)
                        && ParseFuelType(b.fuelType) == Some(r.value.fuelType)
                        && (b.available.None? ==> r.value.available)
                        && (b.available.Some? ==> r.value.available == b.available.value)
                        && (b.rating.None? ==> r.value.rating == 0.0)
                        && (b.rating.Some? ==> r.value.rating == b.rating.value)
                        && r.value.reviews == []
                        && r.value.pricePerDay == b.pricePerDay && r.value.seats == b.seats
                        && r.value.year == b.year && r.value.mileage == b.mileage
                        && r.value.images == b.images && r.value.features == b.features
                        && r.value.location == b.location
  {
    if !InputValid(b) then None
    else Some(Car(
      Trim(b.make), Trim(b.model), b.year,
      ParseCarType(b.carType).value, ParseTransmission(b.transmission).value,
      ParseFuelType(b.fuelType).value,
      b.seats, b.pricePerDay, b.images, b.features,
      b.available.GetOr(true), b.location, b.mileage,
      b.rating.GetOr(0.0), []))
  }

  /** The fields an update request may set; absent fields keep their value. */
  datatype CarPatch = CarPatch(
    make: Option<string>,
    model: Option<string>,
    year: Option<int>,
    carType: Option<string>,
    transmission: Option<string>,
    fuelType: Option<string>,
    seats: Option<int>,
    pricePerDay: Option<int>,
    images: Option<seq<string>>,
    features: Option<seq<string>>,
    available: Option<bool>,
    location: Option<string>,
    mileage: Option<int>,
    rating: Option<real>,
    reviews: Option<seq<Review>>)

  /** The update validators: each field the patch sets must pass its own
      schema rule; fields the patch leaves out are not checked. */
  predicate PatchValid(p: CarPatch) {
    && (p.make.Some? ==> Trim(p.make.value) != "")
    && (p.model.Some? ==> Trim(p.model.value) != "")
    && (p.carType.Some? ==> ParseCarType(p.carType.value).Some?)
    && (p.transmission.Some? ==> ParseTransmission(p.transmission.value).Some?)
    && (p.fuelType.Some? ==> ParseFuelType(p.fuelType.value).Some?)
    && (p.images.Some? ==> forall i :: 0 <= i < |p.images.value| ==> p.images.value[i] != "")
    && (p.location.Some? ==> p.location.value != "")
    && (p.rating.Some? ==> RatingInBounds(p.rating.value))
  }

  /** The car after `findByIdAndUpdate` sets the fields of a valid patch. */
  function ApplyPatch(c: Car, p: CarPatch): (r: Car)
    requires PatchValid(p)
    ensures p.make.None? ==> r.make == c.make
    ensures p.make.Some? ==> r.make == Trim(p.make.value)
    ensures p.model.None? ==> r.model == c.model
    ensures p.model.Some? ==> r.model == Trim(p.model.value)
    ensures p.year.None? ==> r.year == c.year
    ensures p.year.Some? ==> r.year == p.year.value
    ensures p.carType.None? ==> r.carType == c.carType
    ensures p.carType.Some? ==> ParseCarType(p.carType.value) == Some(r.carType)
    ensures p.transmission.None? ==> r.transmission == c.transmission
    ensures p.transmission.Some? ==> ParseTransmission(p.transmission.value) == Some(r.transmission)
    ensures p.fuelType.None? ==> r.fuelType == c.fuelType
    ensures p.fuelType.Some? ==> ParseFuelType(p.fuelType.value) == Some(r.fuelType)
    ensures p.seats.None? ==> r.seats == c.seats
    ensures p.seats.Some? ==> r.seats == p.seats.value
    ensures p.pricePerDay.None? ==> r.pricePerDay == c.pricePerDay
    ensures p.pricePerDay.Some? ==> r.pricePerDay == p.pricePerDay.value
    ensures p.images.None? ==> r.images == c.images
    ensures p.images.Some? ==> r.images == p.images.value
    ensures p.features.None? ==> r.features == c.features
    ensures p.features.Some? ==> r.features == p.features.value
    ensures p.available.None? ==> r.available == c.available
    ensures p.available.Some? ==> r.available == p.available.value
    ensures p.location.None? ==> r.location == c.location
    ensures p.location.Some? ==> r.location == p.location.value
    ensures p.mileage.None? ==> r.mileage == c.mileage
    ensures p.mileage.Some? ==> r.mileage == p.mileage.value
    ensures p.rating.None? ==> r.rating == c.rating
    ensures p.rating.Some? ==> r.rating == p.rating.value
    ensures p.reviews.None? ==> r.reviews == c.reviews
    ensures p.reviews.Some? ==> r.reviews == p.reviews.value
  {
    Car(
      if p.make.Some? then Trim(p.make.value) else c.make,
      if p.model.Some? then Trim(p.model.value) else c.model,
      p.year.GetOr(c.year),
      if p.carType.Some? then ParseCarType(p.carType.value).value else c.carType,
      if p.transmission.Some? then ParseTransmission(p.transmission.value).value else c.transmission,
      if p.fuelType.Some? then ParseFuelType(p.fuelType.value).value else c.fuelType,
      p.seats.GetOr(c.seats),
      p.pricePerDay.GetOr(c.pricePerDay),
      p.images.GetOr(c.images),
      p.features.GetOr(c.features),
      p.available.GetOr(c.available),
      p.location.GetOr(c.location),
      p.mileage.GetOr(c.mileage),
      p.rating.GetOr(c.rating),
      p.reviews.GetOr(c.reviews))
  }

  /** A valid patch keeps a car the store accepts acceptable. */
  lemma ApplyPatchSchemaValid(c: Car, p: CarPatch)
    requires SchemaValid(c) && PatchValid(p)
    ensures SchemaValid(ApplyPatch(c, p))
  {
  }

  /** The empty patch changes nothing. */
  lemma EmptyPatchIsNoOp(c: Car)
    ensures ApplyPatch(c, CarPatch(None, None, None, None, None, None, None, None, None, None, None, None, None, None, None)) == c
  {
  }
}
