/** The feature derivation: the raw property attributes chosen in the form
    become the thirteen-column row the regressor was trained on, and one
    prediction becomes the record kept for the comparison view. */
module Features {
  import opened Wrappers
  import opened CityTable

  /** The raw values of the form's thirteen controls. `bathrooms` is already
      converted from its option label ("2.5") to a number. */
  datatype PropertyInput = PropertyInput(
    sqftLiving: int,
    sqftLot: int,
    sqftAbove: int,
    sqftBasement: int,
    yrBuilt: int,
    yrRenovated: int,
    pricePerSqft: int,
    bedrooms: int,
    bathrooms: real,
    view: int,
    condition: int,
    floors: int,
    city: string)

  /** The bathroom counts offered by the form, as numbers. */
  const BathroomOptions: seq<real> := [0.5, 1.0, 1.5, 2.0, 2.5, 3.0, 3.5, 4.0, 4.5, 5.0]

  /** The values the form's sliders and selectors can produce. The Year
      Renovated slider's range is 1900..2020 but its initial value is 0, so
      0 is admitted beside that range. */
  ghost predicate InFormRanges(p: PropertyInput)
  {
    && 0 <= p.sqftLiving <= 10000
    && 0 <= p.sqftLot <= 100000
    && 0 <= p.sqftAbove <= 10000
    && 0 <= p.sqftBasement <= 5000
    && 1900 <= p.yrBuilt <= 2020
    && 0 <= p.yrRenovated <= 2020
    && 50 <= p.pricePerSqft <= 2000
    && 0 <= p.bedrooms <= 10
    && p.bathrooms in BathroomOptions
    && 0 <= p.view <= 4
    && 1 <= p.condition <= 5
    && 1 <= p.floors <= 4
    && p.city in CityNames()
  }

  /** The value of a floating-point division: a number, or the infinity or
      not-a-number that IEEE 754 arithmetic yields for a zero divisor. */
  datatype Quotient = Finite(value: real) | PositiveInfinity | NegativeInfinity | NotANumber

  /** Division as the column-wise quotient computes it. Under a non-zero
      divisor the result is the exact quotient; under a zero divisor it is
      an infinity signed like the dividend, or NaN for 0 / 0. */
  function Divide(x: real, y: real): (q: Quotient)
    ensures q.Finite? <==> y != 0.0
    ensures q.Finite? ==> q.value * y == x
    ensures q == NotANumber <==> x == 0.0 && y == 0.0
    ensures q == PositiveInfinity <==> x > 0.0 && y == 0.0
  {
    if y != 0.0 then Finite(x / y)
    else if x > 0.0 then PositiveInfinity
    else if x < 0.0 then NegativeInfinity
    else NotANumber
  }

  /** The row handed to the regressor, with its columns in the order the
      model was trained on. `city` is the city's code. */
  datatype FeatureVector = FeatureVector(
    bedrooms: int,
    bathrooms: real,
    sqftLivingAbove: real,
    sqftLot: int,
    floors: int,
    view: int,
    condition: int,
    sqftBasement: int,
    yrBuilt: int,
    yrRenovated: int,
    city: int,
    pricePerSqft: int,
    lotToLivingRatio: Quotient)

  /** Why a prediction could not be made: the city is not a key of the
      table, or the regressor rejected the row. */
  datatype Failure = UnknownCity(name: string) | RegressorFailed

  /** The averaged area column: the mean of the living area and the area
      above ground. It lies between the two areas. */
  function SqftLivingAbove(sqftLiving: int, sqftAbove: int): (r: real)
    ensures r + r == (sqftLiving + sqftAbove) as real
    ensures Min(sqftLiving, sqftAbove) as real <= r <= Max(sqftLiving, sqftAbove) as real
  {
    (sqftLiving + sqftAbove) as real / 2.0
  }

  function Min(a: int, b: int): int { if a <= b then a else b }

  function Max(a: int, b: int): int { if a <= b then b else a }

  /** The ratio column: lot area over the averaged area. */
  function LotToLivingRatio(sqftLot: int, sqftLivingAbove: real): (q: Quotient)
    ensures q.Finite? <==> sqftLivingAbove != 0.0
    ensures q.Finite? ==> q.value * sqftLivingAbove == sqftLot as real
  {
    Divide(sqftLot as real, sqftLivingAbove)
  }

  /** The fields the row copies from the form unchanged. */
  ghost predicate CopiesRawFields(p: PropertyInput, fv: FeatureVector)
  {
    && fv.bedrooms == p.bedrooms
    && fv.bathrooms == p.bathrooms
    && fv.sqftLot == p.sqftLot
    && fv.floors == p.floors
    && fv.view == p.view
    && fv.condition == p.condition
    && fv.sqftBasement == p.sqftBasement
    && fv.yrBuilt == p.yrBuilt
    && fv.yrRenovated == p.yrRenovated
    && fv.pricePerSqft == p.pricePerSqft
  }

  /** The row for one set of form values. It exists exactly when the city is
      in the table; it copies the raw fields, carries the code that decodes
      back to the chosen city, the mean of the two areas, and the ratio of
      the lot to that mean, which is a number exactly when the mean is not
      zero. */
  function Derive(p: PropertyInput): (r: Result<FeatureVector, Failure>)
    ensures r.Ok? <==> p.city in CityNames()
    ensures r.Err? ==> r.error == UnknownCity(p.city)
    ensures r.Ok? ==> CopiesRawFields(p, r.value)
    ensures r.Ok? ==> 1 <= r.value.city <= CityCount && CityNames()[r.value.city - 1] == p.city
    ensures r.Ok? ==> r.value.sqftLivingAbove + r.value.sqftLivingAbove == (p.sqftLiving + p.sqftAbove) as real
    ensures r.Ok? ==> (r.value.lotToLivingRatio.Finite? <==> p.sqftLiving + p.sqftAbove != 0)
    ensures r.Ok? && r.value.lotToLivingRatio.Finite? ==>
      r.value.lotToLivingRatio.value * r.value.sqftLivingAbove == p.sqftLot as real
    ensures r.Ok? ==> r.value.lotToLivingRatio == Divide(p.sqftLot as real, r.value.sqftLivingAbove)
  {
    match CityCode(p.city)
    case None => Err(UnknownCity(p.city))
    case Some(code) =>
      var livingAbove := SqftLivingAbove(p.sqftLiving, p.sqftAbove);
      Ok(FeatureVector(
        p.bedrooms, p.bathrooms, livingAbove, p.sqftLot, p.floors, p.view,
        p.condition, p.sqftBasement, p.yrBuilt, p.yrRenovated, code,
        p.pricePerSqft, LotToLivingRatio(p.sqftLot, livingAbove)))
  }

  /** On values the form can produce, the lookup never fails, and the ratio
      is a non-negative number unless both areas are zero; then it is NaN
      for an empty lot and +infinity otherwise. */
  lemma DeriveOnFormValues(p: PropertyInput)
    requires InFormRanges(p)
    ensures Derive(p).Ok?
    ensures Derive(p).value.sqftLivingAbove >= 0.0
    ensures Derive(p).value.lotToLivingRatio.Finite? ==> Derive(p).value.lotToLivingRatio.value >= 0.0
    ensures Derive(p).value.lotToLivingRatio == NotANumber <==> p.sqftLiving == p.sqftAbove == p.sqftLot == 0
    ensures Derive(p).value.lotToLivingRatio == PositiveInfinity <==> p.sqftLiving == p.sqftAbove == 0 < p.sqftLot
  {
  }

  /** The record kept for one prediction: the model's price, the price per
      square foot and the ratio, and a snapshot of the form values with the
      city as its name and the ratio added. */
  datatype FeatureSnapshot = FeatureSnapshot(
    bathrooms: real,
    bedrooms: int,
    sqftLiving: int,
    sqftLot: int,
    floors: int,
    view: int,
    condition: int,
    sqftAbove: int,
    sqftBasement: int,
    yrBuilt: int,
    yrRenovated: int,
    city: string,
    pricePerSqft: int,
    lotToLivingRatio: Quotient)

  datatype Prediction = Prediction(
    price: real,
    pricePerSqft: int,
    lotToLivingRatio: Quotient,
    features: FeatureSnapshot)

  /** The form values a snapshot was taken of. */
  function SnapshotInput(s: FeatureSnapshot): PropertyInput
  {
    PropertyInput(
      s.sqftLiving, s.sqftLot, s.sqftAbove, s.sqftBasement, s.yrBuilt,
      s.yrRenovated, s.pricePerSqft, s.bedrooms, s.bathrooms, s.view,
      s.condition, s.floors, s.city)
  }

  /** The record for the form values `p`, their row `fv` and the price the
      model gave. The snapshot gives back exactly the form values, and the
      record's ratio is the row's. */
  function MakePrediction(p: PropertyInput, fv: FeatureVector, price: real): (r: Prediction)
    ensures SnapshotInput(r.features) == p
    ensures r.price == price && r.pricePerSqft == p.pricePerSqft
    ensures r.lotToLivingRatio == fv.lotToLivingRatio && r.features.lotToLivingRatio == fv.lotToLivingRatio
  {
    Prediction(
      price, p.pricePerSqft, fv.lotToLivingRatio,
      FeatureSnapshot(
        p.bathrooms, p.bedrooms, p.sqftLiving, p.sqftLot, p.floors, p.view,
        p.condition, p.sqftAbove, p.sqftBasement, p.yrBuilt, p.yrRenovated,
        p.city, p.pricePerSqft, fv.lotToLivingRatio))
  }

  /** The trained regressor, loaded once and handed in: it maps a row to a
      price, or to None where its prediction call raises. */
  type Regressor = FeatureVector -> Option<real>

  /** One press of the predict button: derive the row, ask the regressor,
      and build the record. It succeeds exactly when the city is known and
      the regressor answers; the record's price is the regressor's answer
      for the derived row, and the record gives back the form values. A
      rejection by the regressor is reported as such, never as an unknown
      city. */
  function PredictOnce(p: PropertyInput, model: Regressor): (r: Result<Prediction, Failure>)
    ensures r.Ok? <==> p.city in CityNames() && model(Derive(p).value).Some?
    ensures p.city !in CityNames() ==> r == Err(UnknownCity(p.city))
    ensures r.Ok? ==> r.value.price == model(Derive(p).value).value
    ensures p.city in CityNames() && model(Derive(p).value).None? ==> r == Err(RegressorFailed)
    ensures r.Ok? ==> r.value == MakePrediction(p, Derive(p).value, r.value.price)
    ensures r.Ok? ==> SnapshotInput(r.value.features) == p && r.value.pricePerSqft == p.pricePerSqft
    ensures r.Ok? ==> r.value.lotToLivingRatio == r.value.features.lotToLivingRatio == Derive(p).value.lotToLivingRatio
  {
    match Derive(p)
    case Err(e) => Err(e)
    case Ok(fv) =>
      match model(fv)
      case None => Err(RegressorFailed)
      case Some(price) => Ok(MakePrediction(p, fv, price))
  }

  /** A worked example: a three-bedroom house in Seattle whose living and
      above-ground areas are both 2000 square feet, on a 10000 square foot
      lot, priced by a regressor that always answers 450000. */
  lemma SeattleExample()
    ensures var p := PropertyInput(2000, 10000, 2000, 0, 2000, 0, 300, 3, 2.0, 0, 3, 1, "Seattle");
      && Derive(p) == Ok(FeatureVector(3, 2.0, 2000.0, 10000, 1, 0, 3, 0, 2000, 0, 5, 300, Finite(5.0)))
      && PredictOnce(p, fv => Some(450000.0)).Ok?
      && PredictOnce(p, fv => Some(450000.0)).value.price == 450000.0
  {
    CodeOfPosition(4);
    assert CityNames()[4] == "Seattle";
  }
}
