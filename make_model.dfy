/**
  The training script: the sample frame, the four encoders fitted column by
  column with their code columns added to the frame, the feature matrix drawn
  in the `features` order, and the dictionary saved as the artifact.
*/
module Training {
  import opened Wrappers
  import opened StringOrder
  import opened LabelEncoding
  import opened Artifact

  /** The vocabularies the sample columns are drawn from. */
  const Brands: seq<Label> :=
    ["Maruti", "Hyundai", "Honda", "Toyota", "BMW", "Audi", "Ford", "Volkswagen", "Nissan", "Kia"]
  const FuelTypes: seq<Label> := ["Petrol", "Diesel", "CNG", "Electric"]
  const SellerTypes: seq<Label> := ["Individual", "Dealer", "Trustmark Dealer"]
  const Transmissions: seq<Label> := ["Manual", "Automatic"]

  /** The columns of the frame: the twelve generated ones and the four code columns. */
  datatype ColumnName =
    | Name | Year | KmDriven | Fuel | SellerType | Transmission
    | Owner | Mileage | Engine | MaxPower | Seats | SellingPrice
    | NameEncoded | FuelEncoded | SellerTypeEncoded | TransmissionEncoded

  /** The column's header in the frame. */
  function Header(c: ColumnName): string
  {
    match c
    case Name => "name"
    case Year => "year"
    case KmDriven => "km_driven"
    case Fuel => "fuel"
    case SellerType => "seller_type"
    case Transmission => "transmission"
    case Owner => "owner"
    case Mileage => "mileage"
    case Engine => "engine"
    case MaxPower => "max_power"
    case Seats => "seats"
    case SellingPrice => "selling_price"
    case NameEncoded => "name_encoded"
    case FuelEncoded => "fuel_encoded"
    case SellerTypeEncoded => "seller_type_encoded"
    case TransmissionEncoded => "transmission_encoded"
  }

  /** The `features` list: the columns of the training matrix, in order. */
  const Features: seq<ColumnName> := [
    Year, KmDriven, NameEncoded, FuelEncoded,
    SellerTypeEncoded, TransmissionEncoded, Owner,
    Mileage, Engine, MaxPower, Seats]

  function Headers(names: seq<ColumnName>): (headers: seq<string>)
  {
    seq(|names|, k requires 0 <= k < |names| => Header(names[k]))
  }

  /** The sample columns the script generates; their values are taken as given. */
  datatype Samples = Samples(
    names: seq<Label>,
    years: seq<int>,
    kmDriven: seq<int>,
    fuels: seq<Label>,
    sellerTypes: seq<Label>,
    transmissions: seq<Label>,
    owners: seq<int>,
    mileages: seq<real>,
    engines: seq<int>,
    maxPowers: seq<real>,
    seats: seq<int>,
    sellingPrices: seq<real>)
  {
    function Rows(): nat
    {
      |names|
    }

    /** Every column has one value per row, as the frame constructor demands. */
    predicate WellFormed()
    {
      && |years| == Rows() && |kmDriven| == Rows() && |fuels| == Rows()
      && |sellerTypes| == Rows() && |transmissions| == Rows() && |owners| == Rows()
      && |mileages| == Rows() && |engines| == Rows() && |maxPowers| == Rows()
      && |seats| == Rows() && |sellingPrices| == Rows()
    }

    /** Every categorical value is drawn from its vocabulary. */
    predicate FromVocabulary()
      requires WellFormed()
    {
      forall i :: 0 <= i < Rows() ==>
        names[i] in Brands && fuels[i] in FuelTypes &&
        sellerTypes[i] in SellerTypes && transmissions[i] in Transmissions
    }
  }

  /** One column of the frame. */
  datatype Column = Labels(labels: seq<Label>) | Ints(ints: seq<int>) | Reals(reals: seq<real>)

  function Length(c: Column): nat
  {
    match c
    case Labels(s) => |s|
    case Ints(s) => |s|
    case Reals(s) => |s|
  }

  /** A frame's columns by name. */
  type Table = map<ColumnName, Column>

  /** Every column of the table has `n` rows. */
  predicate Rectangular(t: Table, n: nat)
  {
    forall name :: name in t ==> Length(t[name]) == n
  }

  /** The twelve columns the script generates. */
  predicate IsGenerated(c: ColumnName)
  {
    !(c.NameEncoded? || c.FuelEncoded? || c.SellerTypeEncoded? || c.TransmissionEncoded?)
  }

  /** A generated column's values in the sample. */
  function SampleColumn(s: Samples, c: ColumnName): Column
    requires IsGenerated(c)
  {
    match c
    case Name => Labels(s.names)
    case Year => Ints(s.years)
    case KmDriven => Ints(s.kmDriven)
    case Fuel => Labels(s.fuels)
    case SellerType => Labels(s.sellerTypes)
    case Transmission => Labels(s.transmissions)
    case Owner => Ints(s.owners)
    case Mileage => Reals(s.mileages)
    case Engine => Ints(s.engines)
    case MaxPower => Reals(s.maxPowers)
    case Seats => Ints(s.seats)
    case SellingPrice => Reals(s.sellingPrices)
  }

  /** The sample frame as the script builds it: the generated columns and no others. */
  function InitialColumns(s: Samples): (t: Table)
    requires s.WellFormed()
  {
    map c | IsGenerated(c) :: SampleColumn(s, c)
  }

  /** The sample frame holds exactly the twelve generated columns, each with one value per row. */
  lemma InitialColumnsShape(s: Samples)
    requires s.WellFormed()
    ensures forall c :: c in InitialColumns(s) <==> IsGenerated(c)
    ensures Rectangular(InitialColumns(s), s.Rows())
  {
  }

  lemma SampleColumnAt(s: Samples, c: ColumnName)
    requires s.WellFormed() && IsGenerated(c)
    ensures c in InitialColumns(s) && InitialColumns(s)[c] == SampleColumn(s, c)
  {
  }

  /** The pandas frame the script adds its code columns to. */
  class DataFrame {
    var columns: Table
    const rows: nat

    predicate Valid()
      reads this
    {
      Rectangular(columns, rows)
    }

    constructor (s: Samples)
      requires s.WellFormed()
      ensures Valid() && rows == s.Rows() && columns == InitialColumns(s)
    {
      rows := s.Rows();
      columns := InitialColumns(s);
    }

    /** `data[name] = values`: adds the column, or replaces one of that name. */
    method SetColumn(name: ColumnName, c: Column)
      requires Valid() && Length(c) == rows
      modifies this
      ensures Valid() && columns == old(columns)[name := c]
    {
      columns := columns[name := c];
    }
  }

  /**
    Why `data[names]` cannot become the regressor's matrix: pandas' `KeyError`
    listing every requested column the frame lacks, or a text column, which the
    fit cannot convert to numbers.
  */
  datatype SelectError = MissingColumns(names: seq<ColumnName>) | NotNumeric(name: ColumnName)

  /** The column exists and holds numbers. */
  predicate Numeric(t: Table, name: ColumnName)
  {
    name in t && !t[name].Labels?
  }

  function NumberAt(c: Column, i: nat): real
    requires !c.Labels? && i < Length(c)
  {
    match c
    case Ints(s) => s[i] as real
    case Reals(s) => s[i]
  }

  /**
    The requested names the frame lacks, each once, in the order of their
    first request: the list pandas' `KeyError` prints. `MissingElements` and
    `MissingGrowsInOrder` state what it holds and in which order.
  */
  function Missing(t: Table, names: seq<ColumnName>): seq<ColumnName>
  {
    if names == [] then []
    else
      var r := Missing(t, names[..|names| - 1]);
      var last := names[|names| - 1];
      if last !in t && last !in r then r + [last] else r
  }

  /** The missing list names every requested column the frame lacks, and no other, each once. */
  lemma {:induction false} MissingElements(t: Table, names: seq<ColumnName>)
    ensures forall c :: c in Missing(t, names) <==> c in names && c !in t
    ensures forall i, j :: 0 <= i < j < |Missing(t, names)| ==> Missing(t, names)[i] != Missing(t, names)[j]
  {
    if names != [] {
      var init := names[..|names| - 1];
      MissingElements(t, init);
      assert names == init + [names[|names| - 1]];
    }
  }

  lemma MissingSnoc(t: Table, names: seq<ColumnName>, c: ColumnName)
    ensures Missing(t, names + [c]) ==
      if c !in t && c !in Missing(t, names) then Missing(t, names) + [c] else Missing(t, names)
  {
    assert (names + [c])[..|names|] == names;
  }

  /** Requested columns the frame holds add nothing to the missing list. */
  lemma {:induction false} MissingPresentSuffix(t: Table, names: seq<ColumnName>, rest: seq<ColumnName>)
    requires forall c :: c in rest ==> c in t
    ensures Missing(t, names + rest) == Missing(t, names)
    decreases |rest|
  {
    if rest != [] {
      var init := rest[..|rest| - 1];
      assert names + rest == (names + init) + [rest[|rest| - 1]];
      MissingSnoc(t, names + init, rest[|rest| - 1]);
      MissingPresentSuffix(t, names, init);
    } else {
      assert names + rest == names;
    }
  }

  /**
    The missing names of a prefix of the request come first, in the same
    order: a name is listed before every name first requested after it.
  */
  lemma {:induction false} MissingGrowsInOrder(t: Table, names: seq<ColumnName>, p: nat)
    requires p <= |names|
    ensures Missing(t, names[..p]) <= Missing(t, names)
    decreases |names| - p
  {
    if p < |names| {
      MissingGrowsInOrder(t, names, p + 1);
      var init := names[..p + 1];
      assert init[..|init| - 1] == names[..p];
    } else {
      assert names[..p] == names;
    }
  }

  /** The first of `names` that the frame holds as text, if any. */
  function FirstText(t: Table, names: seq<ColumnName>): (r: Option<ColumnName>)
    ensures r.None? <==> forall j :: 0 <= j < |names| && names[j] in t ==> !t[names[j]].Labels?
    ensures r.Some? ==> exists j :: (
      && 0 <= j < |names| && names[j] == r.value && names[j] in t && t[names[j]].Labels?
      && forall i :: 0 <= i < j && names[i] in t ==> !t[names[i]].Labels?)
  {
    if names == [] then None
    else if names[0] in t && t[names[0]].Labels? then Some(names[0])
    else
      var r := FirstText(t, names[1..]);
      if r.Some? then
        var j :| 0 <= j < |names[1..]| && names[1..][j] == r.value && names[1..][j] in t &&
          t[names[1..][j]].Labels? &&
          (forall i :: 0 <= i < j && names[1..][i] in t ==> !t[names[1..][i]].Labels?);
        assert names[j + 1] == r.value;
        r
      else
        r
  }

  /**
    `data[names]` as the number matrix the regressor is fitted on, one row per
    sample and one column per name, in the order of `names`. Missing columns
    fail first, all of them together; then a text column fails.
  */
  function Select(t: Table, names: seq<ColumnName>, n: nat): (r: Result<seq<seq<real>>, SelectError>)
    requires Rectangular(t, n)
    ensures r.Success? <==> forall j :: 0 <= j < |names| ==> Numeric(t, names[j])
    ensures r.Success? ==> |r.value| == n && forall i :: 0 <= i < n ==> |r.value[i]| == |names|
    ensures r.Success? ==> forall i, j :: 0 <= i < n && 0 <= j < |names| ==>
      r.value[i][j] == NumberAt(t[names[j]], i)
    ensures (r.Failure? && r.error.MissingColumns?) <==> exists j :: 0 <= j < |names| && names[j] !in t
    ensures r.Failure? && r.error.MissingColumns? ==> r.error.names == Missing(t, names)
    ensures r.Failure? && r.error.NotNumeric? ==> FirstText(t, names) == Some(r.error.name)
  {
    var missing := Missing(t, names);
    MissingElements(t, names);
    if missing != [] then
      assert missing[0] in names && missing[0] !in t;
      Failure(MissingColumns(missing))
    else
      assert forall j :: 0 <= j < |names| ==> names[j] in t by {
        forall j | 0 <= j < |names| ensures names[j] in t { assert names[j] !in missing; }
      }
      match FirstText(t, names)
      case Some(c) => Failure(NotNumeric(c))
      case None =>
        Success(seq(n, i requires 0 <= i < n =>
          seq(|names|, j requires 0 <= j < |names| => NumberAt(t[names[j]], i))))
  }

  /** The four code columns the script adds. */
  datatype CodeColumns = CodeColumns(
    name: seq<int>, fuel: seq<int>, sellerType: seq<int>, transmission: seq<int>)
  {
    predicate HasRows(n: nat)
    {
      |name| == n && |fuel| == n && |sellerType| == n && |transmission| == n
    }
  }

  /** The codes `fit_transform` assigns to the four text columns. */
  function TrainingCodes(s: Samples): (codes: CodeColumns)
    requires s.WellFormed()
    ensures codes.HasRows(s.Rows())
  {
    CodeColumns(
      FitTransform(s.names).1, FitTransform(s.fuels).1,
      FitTransform(s.sellerTypes).1, FitTransform(s.transmissions).1)
  }

  /** The frame after the four `data[...] = ...fit_transform(...)` assignments. */
  function WithCodes(s: Samples, codes: CodeColumns): (t: Table)
    requires s.WellFormed()
  {
    InitialColumns(s)
      [NameEncoded := Ints(codes.name)]
      [FuelEncoded := Ints(codes.fuel)]
      [SellerTypeEncoded := Ints(codes.sellerType)]
      [TransmissionEncoded := Ints(codes.transmission)]
  }

  /** Column `c` of the frame once the code columns are added. */
  function ColumnAfterEncoding(s: Samples, codes: CodeColumns, c: ColumnName): Column
  {
    if IsGenerated(c) then SampleColumn(s, c)
    else
      match c
      case NameEncoded => Ints(codes.name)
      case FuelEncoded => Ints(codes.fuel)
      case SellerTypeEncoded => Ints(codes.sellerType)
      case TransmissionEncoded => Ints(codes.transmission)
  }

  /** After the four assignments the frame has all sixteen columns, each holding what it should. */
  lemma WithCodesAt(s: Samples, codes: CodeColumns, c: ColumnName)
    requires s.WellFormed()
    ensures c in WithCodes(s, codes) && WithCodes(s, codes)[c] == ColumnAfterEncoding(s, codes, c)
  {
  }

  /** Adding the code columns keeps one value per row in every column. */
  lemma WithCodesRectangular(s: Samples, codes: CodeColumns)
    requires s.WellFormed() && codes.HasRows(s.Rows())
    ensures Rectangular(WithCodes(s, codes), s.Rows())
  {
    forall c | c in WithCodes(s, codes) ensures Length(WithCodes(s, codes)[c]) == s.Rows() {
      WithCodesAt(s, codes, c);
    }
  }

  /** `X = data[features]` succeeds once the code columns are in place. */
  lemma FeaturesAreNumericAfterEncoding(s: Samples, codes: CodeColumns)
    requires s.WellFormed()
    ensures forall j :: 0 <= j < |Features| ==> Numeric(WithCodes(s, codes), Features[j])
  {
    forall j | 0 <= j < |Features| ensures Numeric(WithCodes(s, codes), Features[j]) {
      WithCodesAt(s, codes, Features[j]);
    }
  }

  /**
    Before the code columns are added, `data[features]` fails naming all four
    code columns, in the order `features` lists them.
  */
  lemma FeaturesMissingBeforeEncoding(s: Samples)
    requires s.WellFormed()
    ensures Select(InitialColumns(s), Features, s.Rows()) ==
      Failure(MissingColumns([NameEncoded, FuelEncoded, SellerTypeEncoded, TransmissionEncoded]))
  {
    InitialColumnsShape(s);
    MissingFromGenerated(InitialColumns(s));
  }

  /** `features`: two sample columns and the four code columns, then five more sample columns. */
  lemma FeaturesAroundCodes()
    ensures Features == [Year, KmDriven, NameEncoded, FuelEncoded, SellerTypeEncoded, TransmissionEncoded]
      + [Owner, Mileage, Engine, MaxPower, Seats]
  {
  }

  /** On a frame without the code columns, the first six features miss exactly the four code columns. */
  lemma MissingCodeColumns(t: Table)
    requires Year in t && KmDriven in t
    requires NameEncoded !in t && FuelEncoded !in t && SellerTypeEncoded !in t && TransmissionEncoded !in t
    ensures Missing(t, [Year, KmDriven, NameEncoded, FuelEncoded, SellerTypeEncoded, TransmissionEncoded]) ==
      [NameEncoded, FuelEncoded, SellerTypeEncoded, TransmissionEncoded]
  {
    var two := [Year, KmDriven];
    var three := two + [NameEncoded];
    var four := three + [FuelEncoded];
    var five := four + [SellerTypeEncoded];
    assert five + [TransmissionEncoded] ==
      [Year, KmDriven, NameEncoded, FuelEncoded, SellerTypeEncoded, TransmissionEncoded];
    assert [] + two == two;
    MissingPresentSuffix(t, [], two);
    MissingSnoc(t, two, NameEncoded);
    MissingSnoc(t, three, FuelEncoded);
    MissingSnoc(t, four, SellerTypeEncoded);
    MissingSnoc(t, five, TransmissionEncoded);
  }

  /** On a frame holding just the generated columns, the four code columns are what `features` misses. */
  lemma MissingFromGenerated(t: Table)
    requires forall c :: c in t <==> IsGenerated(c)
    ensures Missing(t, Features) == [NameEncoded, FuelEncoded, SellerTypeEncoded, TransmissionEncoded]
  {
    FeaturesAroundCodes();
    MissingCodeColumns(t);
    MissingPresentSuffix(t,
      [Year, KmDriven, NameEncoded, FuelEncoded, SellerTypeEncoded, TransmissionEncoded],
      [Owner, Mileage, Engine, MaxPower, Seats]);
  }

  /** Row `i` of `X`: the sample's values in the `features` order, with the codes in the code slots. */
  function FeatureRow(s: Samples, codes: CodeColumns, i: nat): (row: seq<real>)
    requires s.WellFormed() && codes.HasRows(s.Rows()) && i < s.Rows()
    ensures |row| == |Features|
  {
    [ s.years[i] as real, s.kmDriven[i] as real,
      codes.name[i] as real, codes.fuel[i] as real, codes.sellerType[i] as real, codes.transmission[i] as real,
      s.owners[i] as real, s.mileages[i], s.engines[i] as real, s.maxPowers[i], s.seats[i] as real ]
  }

  /** `X` once the code columns hold `codes`: one row per sample. */
  function FeatureMatrix(s: Samples, codes: CodeColumns): (x: seq<seq<real>>)
    requires s.WellFormed() && codes.HasRows(s.Rows())
  {
    seq(s.Rows(), i requires 0 <= i < s.Rows() => FeatureRow(s, codes, i))
  }

  /** Entry `j` of a row is that row's value in column `Features[j]` of the encoded frame. */
  lemma FeatureRowReadsColumns(s: Samples, codes: CodeColumns, i: nat)
    requires s.WellFormed() && codes.HasRows(s.Rows()) && i < s.Rows()
    ensures forall j :: 0 <= j < |Features| ==>
      && !ColumnAfterEncoding(s, codes, Features[j]).Labels?
      && i < Length(ColumnAfterEncoding(s, codes, Features[j]))
      && FeatureRow(s, codes, i)[j] == NumberAt(ColumnAfterEncoding(s, codes, Features[j]), i)
  {
  }

  /**
    `data[features]` on the encoded frame succeeds, and its rows are the
    feature rows: each entry is read from the column the `features` list
    names at that position.
  */
  lemma SelectFeatures(s: Samples, codes: CodeColumns)
    requires s.WellFormed() && codes.HasRows(s.Rows())
    ensures Rectangular(WithCodes(s, codes), s.Rows())
    ensures Select(WithCodes(s, codes), Features, s.Rows()) == Success(FeatureMatrix(s, codes))
  {
    WithCodesRectangular(s, codes);
    FeaturesAreNumericAfterEncoding(s, codes);
    var t := WithCodes(s, codes);
    var x := Select(t, Features, s.Rows()).value;
    var m := FeatureMatrix(s, codes);
    forall i | 0 <= i < s.Rows() ensures x[i] == m[i] {
      FeatureRowReadsColumns(s, codes, i);
      forall j | 0 <= j < |Features| ensures x[i][j] == m[i][j] {
        WithCodesAt(s, codes, Features[j]);
      }
      assert |x[i]| == |m[i]|;
    }
    assert |x| == |m|;
    assert x == m;
  }

  /**
    Encoders whose classes are exactly each text column's labels, with code
    columns that decode back to those labels, are the ones `fit_transform`
    produces.
  */
  lemma TrainingCodesAreCanonical(s: Samples, codes: CodeColumns,
                                  name: Encoder, fuel: Encoder, seller: Encoder, transmission: Encoder)
    requires s.WellFormed()
    requires Elements(name.classes) == Elements(s.names) && EncodesAs(name, s.names, codes.name)
    requires Elements(fuel.classes) == Elements(s.fuels) && EncodesAs(fuel, s.fuels, codes.fuel)
    requires Elements(seller.classes) == Elements(s.sellerTypes) && EncodesAs(seller, s.sellerTypes, codes.sellerType)
    requires Elements(transmission.classes) == Elements(s.transmissions)
    requires EncodesAs(transmission, s.transmissions, codes.transmission)
    ensures codes == TrainingCodes(s)
    ensures name == Fit(s.names) && fuel == Fit(s.fuels)
    ensures seller == Fit(s.sellerTypes) && transmission == Fit(s.transmissions)
  {
    FitTransformIsCanonical(s.names, name, codes.name);
    FitTransformIsCanonical(s.fuels, fuel, codes.fuel);
    FitTransformIsCanonical(s.sellerTypes, seller, codes.sellerType);
    FitTransformIsCanonical(s.transmissions, transmission, codes.transmission);
  }

  /** The training matrix `X`. */
  function TrainingMatrix(s: Samples): (x: seq<seq<real>>)
    requires s.WellFormed()
    ensures |x| == s.Rows()
  {
    FeatureMatrix(s, TrainingCodes(s))
  }

  /**
    `data[code] = le.fit_transform(data[text])` on a fresh encoder `le`: the
    encoder's classes are the labels of the text column, and the new column
    `code` holds, row by row, the code that decodes to that row's label;
    every other column is left as it was.
  */
  method EncodeColumn(data: DataFrame, text: ColumnName, code: ColumnName) returns (le: Encoder)
    requires data.Valid() && text in data.columns && data.columns[text].Labels?
    modifies data
    ensures data.Valid()
    ensures Elements(le.classes) == Elements(old(data.columns)[text].labels)
    ensures code in data.columns && data.columns[code].Ints?
    ensures EncodesAs(le, old(data.columns)[text].labels, data.columns[code].ints)
    ensures data.columns == old(data.columns)[code := data.columns[code]]
  {
    var fitted := FitTransform(data.columns[text].labels);
    data.SetColumn(code, Ints(fitted.1));
    le := fitted.0;
  }

  /**
    The script from the sample frame to the saved dictionary. `train` stands
    for the seeded split and random-forest fit, which the model does not look
    inside.
  */
  method TrainingScript(s: Samples, train: (seq<seq<real>>, seq<real>) -> Regressor)
    returns (modelData: Blob)
    requires s.WellFormed()
    ensures modelData == Save(ModelArtifact(
      train(TrainingMatrix(s), s.sellingPrices),
      Fit(s.names), Fit(s.fuels), Fit(s.sellerTypes), Fit(s.transmissions)))
    ensures Load(modelData) == Success(ModelArtifact(
      train(TrainingMatrix(s), s.sellingPrices),
      Fit(s.names), Fit(s.fuels), Fit(s.sellerTypes), Fit(s.transmissions)))
  {
    var data := new DataFrame(s);
    SampleColumnAt(s, Name);
    SampleColumnAt(s, Fuel);
    SampleColumnAt(s, SellerType);
    SampleColumnAt(s, Transmission);

    var leName := EncodeColumn(data, Name, NameEncoded);
    var leFuel := EncodeColumn(data, Fuel, FuelEncoded);
    var leSeller := EncodeColumn(data, SellerType, SellerTypeEncoded);
    var leTransmission := EncodeColumn(data, Transmission, TransmissionEncoded);

    ghost var codes := CodeColumns(
      data.columns[NameEncoded].ints, data.columns[FuelEncoded].ints,
      data.columns[SellerTypeEncoded].ints, data.columns[TransmissionEncoded].ints);
    assert data.columns == WithCodes(s, codes);

    SelectFeatures(s, codes);
    var x := Select(data.columns, Features, data.rows);
    SampleColumnAt(s, SellingPrice);
    var y := data.columns[SellingPrice].reals;
    TrainingCodesAreCanonical(s, codes, leName, leFuel, leSeller, leTransmission);
    var model := train(x.value, y);

    var artifact := ModelArtifact(model, leName, leFuel, leSeller, leTransmission);
    modelData := Save(artifact);
    LoadSave(artifact);
  }

  /**
    Columns drawn from the script's vocabularies fit to classes inside those
    vocabularies: at most ten brands, four fuels, three seller types and two
    transmissions.
  */
  lemma FittedClassesWithinVocabularies(s: Samples)
    requires s.WellFormed() && s.FromVocabulary()
    ensures forall c :: c in Fit(s.names).classes ==> c in Brands
    ensures forall c :: c in Fit(s.fuels).classes ==> c in FuelTypes
    ensures forall c :: c in Fit(s.sellerTypes).classes ==> c in SellerTypes
    ensures forall c :: c in Fit(s.transmissions).classes ==> c in Transmissions
    ensures |Fit(s.names).classes| <= 10 && |Fit(s.fuels).classes| <= 4
    ensures |Fit(s.sellerTypes).classes| <= 3 && |Fit(s.transmissions).classes| <= 2
  {
    FitWithinVocabulary(s.names, Brands);
    FitWithinVocabulary(s.fuels, FuelTypes);
    FitWithinVocabulary(s.sellerTypes, SellerTypes);
    FitWithinVocabulary(s.transmissions, Transmissions);
  }
}
