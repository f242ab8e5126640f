/**
  The serving side of the car-price app: the unseen-label-safe encoder call,
  the dropdown option lists, the one-row feature vector handed to the
  regressor, and the feature-importance labels.
*/
module App {
  import opened Wrappers
  import opened StringOrder
  import opened LabelEncoding
  import opened Artifact

  /** Code given to a label the encoder never saw; no class has it. */
  const Unknown: int := -1

  /** The first year offered in the year dropdown. */
  const FirstYear: int := 2005

  /** `safe_transform(le, value)`: the label's code if known, otherwise `Unknown`. */
  function SafeTransform(e: Encoder, value: Label): (code: int)
    ensures value in e.classes ==> 0 <= code < |e.classes| && e.classes[code] == value
    ensures code == Unknown <==> value !in e.classes
  {
    if value in e.classes then
      assert forall y :: y in [value] ==> y in e.classes;
      Transform(e, [value]).value[0]
    else
      Unknown
  }

  /** Encoding is injective on known labels and sends every unseen label to the one sentinel. */
  lemma SafeTransformInjective(e: Encoder, x: Label, y: Label)
    ensures SafeTransform(e, x) == SafeTransform(e, y) <==> x == y || (x !in e.classes && y !in e.classes)
  {
    if x in e.classes && y in e.classes && SafeTransform(e, x) == SafeTransform(e, y) {
      PositionUnique(e, SafeTransform(e, x), SafeTransform(e, y));
    }
  }

  /** An encoder over "BMW", "Honda", "Maruti": those brands get 0, 1, 2, and "Tesla" gets the sentinel. */
  lemma SafeTransformThreeBrandsExample(e: Encoder)
    requires e.classes == ["BMW", "Honda", "Maruti"]
    ensures SafeTransform(e, "BMW") == 0
    ensures SafeTransform(e, "Honda") == 1
    ensures SafeTransform(e, "Maruti") == 2
    ensures SafeTransform(e, "Tesla") == Unknown
  {
    PositionUnique(e, SafeTransform(e, "BMW"), 0);
    PositionUnique(e, SafeTransform(e, "Honda"), 1);
    PositionUnique(e, SafeTransform(e, "Maruti"), 2);
  }

  /** `sorted(list(le.classes_))`: the choices of a categorical dropdown. */
  function OptionList(e: Encoder): (choices: seq<Label>)
    ensures choices == e.classes
    ensures forall v :: v in choices ==> SafeTransform(e, v) >= 0
  {
    StrictlySortedIsSorted(e.classes);
    SortOfSorted(e.classes);
    Sort(e.classes)
  }

  /** `list(range(lo, hi))`. */
  function Range(lo: int, hi: int): (r: seq<int>)
    ensures |r| == if lo < hi then hi - lo else 0
    ensures forall k :: 0 <= k < |r| ==> r[k] == lo + k
    decreases hi - lo
  {
    if lo >= hi then [] else [lo] + Range(lo + 1, hi)
  }

  /** `xs[::-1]`. */
  function Reverse<T>(xs: seq<T>): (r: seq<T>)
    ensures |r| == |xs|
    ensures forall k :: 0 <= k < |xs| ==> r[k] == xs[|xs| - 1 - k]
  {
    if xs == [] then [] else Reverse(xs[1..]) + [xs[0]]
  }

  /** `list(range(2005, current_year + 1))[::-1]`: the year dropdown. */
  function YearOptions(currentYear: int): (years: seq<int>)
    ensures |years| == if currentYear >= FirstYear then currentYear - FirstYear + 1 else 0
    ensures forall k :: 0 <= k < |years| ==> years[k] == currentYear - k
  {
    Reverse(Range(FirstYear, currentYear + 1))
  }

  /**
    The year choices start at the current year, end at 2005, strictly
    descend, and are exactly the years from 2005 to the current year.
  */
  lemma YearOptionsShape(currentYear: int)
    ensures currentYear >= FirstYear ==>
      YearOptions(currentYear)[0] == currentYear &&
      YearOptions(currentYear)[|YearOptions(currentYear)| - 1] == FirstYear
    ensures forall i, j :: 0 <= i < j < |YearOptions(currentYear)| ==>
      YearOptions(currentYear)[i] > YearOptions(currentYear)[j]
    ensures forall y :: y in YearOptions(currentYear) <==> FirstYear <= y <= currentYear
  {
    var years := YearOptions(currentYear);
    forall y | FirstYear <= y <= currentYear ensures y in years {
      assert years[currentYear - y] == y;
    }
  }

  /** What the form collects for one prediction. */
  datatype PredictionRequest = PredictionRequest(
    brand: Label,
    year: int,
    kmDriven: int,
    fuel: Label,
    sellerType: Label,
    transmission: Label,
    owner: int,
    mileage: real,
    engine: int,
    maxPower: real,
    seats: int)

  /** The `features` list the importance chart labels its bars with. */
  const ImportanceLabels: seq<string> := [
    "year", "km_driven", "name_encoded", "fuel_encoded", "seller_type_encoded",
    "transmission_encoded", "owner", "mileage", "engine", "max_power", "seats"]

  /** One column of the one-row `input_data` frame. */
  datatype NamedValue = NamedValue(name: string, value: real)

  /** The columns of `input_data`, in the order the frame is built. */
  function InputData(req: PredictionRequest, art: ModelArtifact): (row: seq<NamedValue>)
    ensures |row| == |ImportanceLabels| == 11
    ensures forall k :: 0 <= k < |row| ==> row[k].name == ImportanceLabels[k]
  {
    [ NamedValue("year", req.year as real),
      NamedValue("km_driven", req.kmDriven as real),
      NamedValue("name_encoded", SafeTransform(art.leName, req.brand) as real),
      NamedValue("fuel_encoded", SafeTransform(art.leFuel, req.fuel) as real),
      NamedValue("seller_type_encoded", SafeTransform(art.leSeller, req.sellerType) as real),
      NamedValue("transmission_encoded", SafeTransform(art.leTransmission, req.transmission) as real),
      NamedValue("owner", req.owner as real),
      NamedValue("mileage", req.mileage),
      NamedValue("engine", req.engine as real),
      NamedValue("max_power", req.maxPower),
      NamedValue("seats", req.seats as real) ]
  }

  /** The values of a row, by position: all the regressor sees. */
  function Values(row: seq<NamedValue>): (v: seq<real>)
  {
    seq(|row|, k requires 0 <= k < |row| => row[k].value)
  }

  function Names(row: seq<NamedValue>): (names: seq<string>)
  {
    seq(|row|, k requires 0 <= k < |row| => row[k].name)
  }

  /** The request as the regressor receives it. */
  function FeatureVector(req: PredictionRequest, art: ModelArtifact): (v: seq<real>)
    ensures |v| == 11
  {
    Values(InputData(req, art))
  }

  /** `model.predict(input_data)[0]`. */
  function Predict(art: ModelArtifact, req: PredictionRequest): real
  {
    art.model.predict(FeatureVector(req, art))
  }

  /** The importance labels name the columns of `input_data`, position by position. */
  lemma ImportanceLabelsAreColumns(req: PredictionRequest, art: ModelArtifact)
    ensures Names(InputData(req, art)) == ImportanceLabels
  {
  }

  /** The seven numeric fields are copied into their slots unchanged, with no clamping. */
  lemma NumericFieldsVerbatim(req: PredictionRequest, art: ModelArtifact)
    ensures FeatureVector(req, art)[0] == req.year as real
    ensures FeatureVector(req, art)[1] == req.kmDriven as real
    ensures FeatureVector(req, art)[6] == req.owner as real
    ensures FeatureVector(req, art)[7] == req.mileage
    ensures FeatureVector(req, art)[8] == req.engine as real
    ensures FeatureVector(req, art)[9] == req.maxPower
    ensures FeatureVector(req, art)[10] == req.seats as real
  {
  }

  /** The vector in full: numeric fields as given, categorical fields by their safe codes. */
  lemma FeatureVectorValues(req: PredictionRequest, art: ModelArtifact)
    ensures FeatureVector(req, art) == [
      req.year as real, req.kmDriven as real,
      SafeTransform(art.leName, req.brand) as real,
      SafeTransform(art.leFuel, req.fuel) as real,
      SafeTransform(art.leSeller, req.sellerType) as real,
      SafeTransform(art.leTransmission, req.transmission) as real,
      req.owner as real, req.mileage, req.engine as real, req.maxPower, req.seats as real]
  {
  }

  /** A categorical slot decodes back to its label under its own encoder, or is the sentinel. */
  predicate EncodedBy(e: Encoder, value: Label, slot: real)
  {
    if value in e.classes then
      && 0.0 <= slot < |e.classes| as real
      && slot == slot.Floor as real
      && e.classes[slot.Floor] == value
    else
      slot == Unknown as real
  }

  /**
    Each categorical slot holds the code of its own field under its own
    encoder: brand under `le_name`, fuel under `le_fuel`, seller type under
    `le_seller`, transmission under `le_transmission`.
  */
  lemma CategoricalSlotsUseOwnEncoder(req: PredictionRequest, art: ModelArtifact)
    ensures EncodedBy(art.leName, req.brand, FeatureVector(req, art)[2])
    ensures EncodedBy(art.leFuel, req.fuel, FeatureVector(req, art)[3])
    ensures EncodedBy(art.leSeller, req.sellerType, FeatureVector(req, art)[4])
    ensures EncodedBy(art.leTransmission, req.transmission, FeatureVector(req, art)[5])
  {
  }

  /** Two requests that differ only in brand give vectors that differ at most in the brand slot. */
  lemma BrandOnlyAffectsItsSlot(req: PredictionRequest, art: ModelArtifact, brand: Label)
    ensures forall k :: 0 <= k < 11 && k != 2 ==>
      FeatureVector(req, art)[k] == FeatureVector(req.(brand := brand), art)[k]
  {
  }

  /** Every unseen brand is the same to the regressor: the sentinel hides which brand it was. */
  lemma UnseenBrandsPredictAlike(req: PredictionRequest, art: ModelArtifact, brand: Label)
    requires req.brand !in art.leName.classes && brand !in art.leName.classes
    ensures Predict(art, req) == Predict(art, req.(brand := brand))
  {
    assert FeatureVector(req, art) == FeatureVector(req.(brand := brand), art);
  }

  /** A request whose categorical fields were picked from the dropdowns encodes no sentinel. */
  lemma DropdownChoicesEncodeKnown(req: PredictionRequest, art: ModelArtifact)
    requires req.brand in OptionList(art.leName)
    requires req.fuel in OptionList(art.leFuel)
    requires req.sellerType in OptionList(art.leSeller)
    requires req.transmission in OptionList(art.leTransmission)
    ensures FeatureVector(req, art)[2] >= 0.0 && FeatureVector(req, art)[3] >= 0.0
    ensures FeatureVector(req, art)[4] >= 0.0 && FeatureVector(req, art)[5] >= 0.0
  {
    CategoricalSlotsUseOwnEncoder(req, art);
  }

  /** Pairs the importance scores with the feature labels, as the chart does. */
  function Zip(names: seq<string>, scores: seq<real>): (pairs: seq<(string, real)>)
    requires |names| == |scores|
  {
    seq(|names|, k requires 0 <= k < |names| => (names[k], scores[k]))
  }

  /**
    The scores as `barh` lines them up with `n` bars: one score per bar, or a
    single score that numpy broadcasts to every bar.
  */
  function Broadcast(scores: seq<real>, n: nat): (r: seq<real>)
    requires |scores| == n || |scores| == 1
    ensures |r| == n
    ensures forall k :: 0 <= k < n ==> r[k] == if |scores| == 1 then scores[0] else scores[k]
  {
    if |scores| == n then scores else seq(n, _ => scores[0])
  }

  /**
    The sidebar's importance chart: each label paired with its score, in
    column order and not re-sorted. A single score is broadcast to every
    label. `None` (the "not available" warning) when the regressor has no
    scores, or a number of them that is neither one nor one per feature.
  */
  function FeatureImportances(m: Regressor): (chart: Option<seq<(string, real)>>)
    ensures chart.Some? <==>
      m.importances.Some? && (|m.importances.value| == |ImportanceLabels| || |m.importances.value| == 1)
    ensures chart.Some? ==>
      && |chart.value| == 11
      && forall k :: 0 <= k < 11 ==>
        chart.value[k] == (ImportanceLabels[k], ShownScore(m.importances.value, k))
  {
    match m.importances
    case Some(scores) =>
      if |scores| == |ImportanceLabels| || |scores| == 1 then
        Some(Zip(ImportanceLabels, Broadcast(scores, |ImportanceLabels|)))
      else
        None
    case None => None
  }

  /** The score drawn against bar `k`: the only score, or the `k`-th one. */
  function ShownScore(scores: seq<real>, k: nat): real
    requires k < |scores| || |scores| == 1
  {
    if |scores| == 1 then scores[0] else scores[k]
  }

  /** The score shown against a label is the score of the input column of that name. */
  lemma ImportancesMatchColumns(req: PredictionRequest, art: ModelArtifact, k: nat)
    requires FeatureImportances(art.model).Some? && k < 11
    ensures FeatureImportances(art.model).value[k].0 == InputData(req, art)[k].name
    ensures FeatureImportances(art.model).value[k].1 == ShownScore(art.model.importances.value, k)
  {
  }
}
