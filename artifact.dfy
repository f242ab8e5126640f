/**
  The trained-model artifact: the dictionary the training script pickles
  and the app unpickles, with the regressor under `model` and the four
  encoders under `le_name`, `le_fuel`, `le_seller`, `le_transmission`.
*/
module Artifact {
  import opened Wrappers
  import opened LabelEncoding

  /**
    The fitted regressor, which the model does not look inside: a total map
    from a feature vector to a price, and the per-feature importance scores
    when the regressor exposes them.
  */
  datatype Regressor = Regressor(predict: seq<real> -> real, importances: Option<seq<real>>)

  /** The five objects the app reads out of the artifact. */
  datatype ModelArtifact = ModelArtifact(
    model: Regressor,
    leName: Encoder,
    leFuel: Encoder,
    leSeller: Encoder,
    leTransmission: Encoder)

  /** A value as it sits in the unpickled dictionary; it may be of any shape. */
  datatype Entry = RegressorEntry(regressor: Regressor) | EncoderEntry(encoder: Encoder) | OtherEntry

  /** The unpickled dictionary. */
  type Blob = map<string, Entry>

  const ModelKey: string := "model"
  const NameKey: string := "le_name"
  const FuelKey: string := "le_fuel"
  const SellerKey: string := "le_seller"
  const TransmissionKey: string := "le_transmission"

  /** The keys in the order the app reads them. */
  const ArtifactKeys: seq<string> := [ModelKey, NameKey, FuelKey, SellerKey, TransmissionKey]

  datatype LoadError = MissingKey(key: string) | WrongShape(key: string)

  /** The entry under `key` is of the kind the app uses it as. */
  predicate ShapeOk(blob: Blob, key: string)
    requires key in blob
  {
    if key == ModelKey then blob[key].RegressorEntry? else blob[key].EncoderEntry?
  }

  /** All five keys are present, each holding an object of the right kind. */
  predicate WellShaped(blob: Blob)
  {
    forall k :: k in ArtifactKeys ==> k in blob && ShapeOk(blob, k)
  }

  /** The `model_data` dictionary the training script dumps. */
  function Save(a: ModelArtifact): (blob: Blob)
    ensures forall k :: k in blob <==> k in ArtifactKeys
    ensures |blob| == 5
    ensures WellShaped(blob)
  {
    map[
      ModelKey := RegressorEntry(a.model),
      NameKey := EncoderEntry(a.leName),
      FuelKey := EncoderEntry(a.leFuel),
      SellerKey := EncoderEntry(a.leSeller),
      TransmissionKey := EncoderEntry(a.leTransmission)]
  }

  /**
    Reading the five objects back out of the unpickled dictionary. A missing
    key fails with the first missing one in reading order (a `KeyError`); an
    object of the wrong kind fails with the first such key. Other keys are
    ignored.
  */
  function Load(blob: Blob): (r: Result<ModelArtifact, LoadError>)
    ensures r.Success? <==> WellShaped(blob)
    ensures r.Failure? && r.error.MissingKey? ==>
      exists i :: 0 <= i < |ArtifactKeys| && ArtifactKeys[i] == r.error.key && r.error.key !in blob &&
        forall j :: 0 <= j < i ==> ArtifactKeys[j] in blob
    ensures r.Failure? && r.error.WrongShape? ==>
      && (forall k :: k in ArtifactKeys ==> k in blob)
      && r.error.key in ArtifactKeys && !ShapeOk(blob, r.error.key)
  {
    if ModelKey !in blob then Failure(MissingKey(ModelKey))
    else if NameKey !in blob then Failure(MissingKey(NameKey))
    else if FuelKey !in blob then Failure(MissingKey(FuelKey))
    else if SellerKey !in blob then Failure(MissingKey(SellerKey))
    else if TransmissionKey !in blob then Failure(MissingKey(TransmissionKey))
    else if !blob[ModelKey].RegressorEntry? then Failure(WrongShape(ModelKey))
    else if !blob[NameKey].EncoderEntry? then Failure(WrongShape(NameKey))
    else if !blob[FuelKey].EncoderEntry? then Failure(WrongShape(FuelKey))
    else if !blob[SellerKey].EncoderEntry? then Failure(WrongShape(SellerKey))
    else if !blob[TransmissionKey].EncoderEntry? then Failure(WrongShape(TransmissionKey))
    else
      assert WellShaped(blob);
      var a := ModelArtifact(
        blob[ModelKey].regressor,
        blob[NameKey].encoder,
        blob[FuelKey].encoder,
        blob[SellerKey].encoder,
        blob[TransmissionKey].encoder);
      Success(a)
  }

  /** What the training script saves, the app loads back unchanged. */
  lemma LoadSave(a: ModelArtifact)
    ensures Load(Save(a)) == Success(a)
  {
  }

  /** A well-shaped dictionary loads as the five objects stored under the five keys. */
  lemma LoadReadsEntries(blob: Blob)
    requires WellShaped(blob)
    ensures Load(blob) == Success(ModelArtifact(
      blob[ModelKey].regressor, blob[NameKey].encoder, blob[FuelKey].encoder,
      blob[SellerKey].encoder, blob[TransmissionKey].encoder))
  {
    assert ArtifactKeys[0] == ModelKey && ArtifactKeys[1] == NameKey && ArtifactKeys[2] == FuelKey;
    assert ArtifactKeys[3] == SellerKey && ArtifactKeys[4] == TransmissionKey;
  }

  /**
    Loading keeps the five entries the app reads: saving what was loaded gives
    back exactly the dictionary's entries under the five keys, and drops the rest.
  */
  lemma SaveLoad(blob: Blob)
    requires Load(blob).Success?
    ensures Save(Load(blob).value) == map k | k in blob && k in ArtifactKeys :: blob[k]
  {
    LoadReadsEntries(blob);
    var saved := Save(Load(blob).value);
    var m := map k | k in blob && k in ArtifactKeys :: blob[k];
    assert forall i :: 0 <= i < |ArtifactKeys| ==> ArtifactKeys[i] in blob;
    forall k | k in ArtifactKeys ensures k in m && m[k] == saved[k] {
    }
    assert m.Keys == saved.Keys;
  }

  /** An artifact without the fuel encoder is refused, naming that key. */
  lemma LoadWithoutFuelEncoder(a: ModelArtifact)
    ensures Load(Save(a) - {FuelKey}) == Failure(MissingKey(FuelKey))
  {
  }
}
