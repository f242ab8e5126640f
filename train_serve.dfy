/**
  The link between the two programs: the training matrix's columns and the
  app's input row agree in order, and each training row is exactly the vector
  the app would build for that row's values with the saved encoders.
*/
module TrainServe {
  import opened StringOrder
  import opened LabelEncoding
  import opened Artifact
  import App
  import Training

  /** The app's request carrying the values of training row `i`. */
  function RowRequest(s: Training.Samples, i: nat): (req: App.PredictionRequest)
    requires s.WellFormed() && i < s.Rows()
  {
    App.PredictionRequest(
      s.names[i], s.years[i], s.kmDriven[i], s.fuels[i], s.sellerTypes[i], s.transmissions[i],
      s.owners[i], s.mileages[i], s.engines[i], s.maxPowers[i], s.seats[i])
  }

  /** The artifact the script saves, with whatever regressor the fit produced. */
  function Trained(s: Training.Samples, model: Regressor): ModelArtifact
  {
    ModelArtifact(model, Fit(s.names), Fit(s.fuels), Fit(s.sellerTypes), Fit(s.transmissions))
  }

  /**
    The training `features` list, the app's input columns and the importance
    labels are the same eleven names in the same order.
  */
  lemma FeatureOrderAgrees(req: App.PredictionRequest, art: ModelArtifact)
    ensures Training.Headers(Training.Features) == App.ImportanceLabels
    ensures Training.Headers(Training.Features) == App.Names(App.InputData(req, art))
  {
    App.ImportanceLabelsAreColumns(req, art);
  }

  /** A code that decodes to its row's label is what `safe_transform` gives that label. */
  lemma EncodedCodeIsSafeCode(e: Encoder, labels: seq<Label>, codes: seq<int>, i: nat)
    requires EncodesAs(e, labels, codes) && i < |labels|
    ensures codes[i] == App.SafeTransform(e, labels[i])
  {
    PositionUnique(e, codes[i], App.SafeTransform(e, labels[i]));
  }

  /** The code `fit_transform` gave a training row is what `safe_transform` gives its label. */
  lemma TrainingCodeIsSafeCode(labels: seq<Label>, i: nat)
    requires i < |labels|
    ensures FitTransform(labels).1[i] == App.SafeTransform(Fit(labels), labels[i])
  {
    EncodedCodeIsSafeCode(Fit(labels), labels, FitTransform(labels).1, i);
  }

  /**
    For any encoders and code columns that agree with the text columns, row
    `i` of the feature matrix is the vector the app builds for row `i`.
  */
  lemma EncodedRowIsServingVector(s: Training.Samples, codes: Training.CodeColumns, art: ModelArtifact, i: nat)
    requires s.WellFormed() && codes.HasRows(s.Rows()) && i < s.Rows()
    requires EncodesAs(art.leName, s.names, codes.name)
    requires EncodesAs(art.leFuel, s.fuels, codes.fuel)
    requires EncodesAs(art.leSeller, s.sellerTypes, codes.sellerType)
    requires EncodesAs(art.leTransmission, s.transmissions, codes.transmission)
    ensures Training.FeatureMatrix(s, codes)[i] == App.FeatureVector(RowRequest(s, i), art)
  {
    App.FeatureVectorValues(RowRequest(s, i), art);
    EncodedCodeIsSafeCode(art.leName, s.names, codes.name, i);
    EncodedCodeIsSafeCode(art.leFuel, s.fuels, codes.fuel, i);
    EncodedCodeIsSafeCode(art.leSeller, s.sellerTypes, codes.sellerType, i);
    EncodedCodeIsSafeCode(art.leTransmission, s.transmissions, codes.transmission, i);
  }

  /**
    Row `i` of the training matrix is the feature vector the app builds for the
    request with row `i`'s values, against the encoders the script saved.
  */
  lemma TrainingRowIsServingVector(s: Training.Samples, model: Regressor, i: nat)
    requires s.WellFormed() && i < s.Rows()
    ensures Training.TrainingMatrix(s)[i] == App.FeatureVector(RowRequest(s, i), Trained(s, model))
  {
    FitTransformEncodes(s.names);
    FitTransformEncodes(s.fuels);
    FitTransformEncodes(s.sellerTypes);
    FitTransformEncodes(s.transmissions);
    EncodedRowIsServingVector(s, Training.TrainingCodes(s), Trained(s, model), i);
  }
}
