# Car price prediction: the encoding contract between training and serving

This project models the core of a two-program car price predictor. The
training script (`make_model.py`) proceeds in three steps:

- It builds a sample frame of car listings.
- It fits one label encoder per text column (brand, fuel, seller type,
  transmission) and adds each encoder's integer codes to the frame as a new
  column.
- It selects the eleven feature columns in a fixed order, fits a regressor on
  them, and saves the regressor and the four encoders as a five-entry dictionary.

The serving app (`app.py`) loads that dictionary and builds each dropdown of
known labels from an encoder's classes. It turns a request into the same
eleven features. Unseen labels become the sentinel code `-1`. It then asks
the regressor for a price and shows the per-feature importances.

The model is organised by the programs' own structure:

- `wrappers.dfy` (`Wrappers`): `Option` and `Result`.
- `string_order.dfy` (`StringOrder`): Python's ordering of `str` values, which
  is lexicographic by code point. It also holds `sorted` (`Sort`, an insertion
  sort) and duplicate-free sorting (`Unique`, the `np.unique` at the heart of
  `LabelEncoder.fit`). For both it proves that a sorted result is determined
  by its contents.
- `label_encoder.dfy` (`LabelEncoding`): scikit-learn's `LabelEncoder`. The
  encoder's `classes_` are a subset type of strictly ascending label lists.
  It models `fit`, `transform` (a lookup of each text label in the table
  from class to position, with the "previously unseen labels" error naming
  the first label missing from it) and `fit_transform`.
- `artifact.dfy` (`Artifact`): the five-key dictionary. `Save` is the
  script's `model_data`. `Load` is the app's five key lookups.
- `app.dfy` (`App`): `safe_transform`, the dropdown option lists, the year
  list, the `input_data` row, the prediction, and the importance chart.
- `make_model.dfy` (`Training`): the script itself.
  - The pandas frame is a class `DataFrame` whose column map the four
    `data[...] = ...fit_transform(...)` assignments update in place.
  - `X = data[features]` is `Select`. Like pandas, it fails listing every
    missing column at once.
  - The whole script is the method `TrainingScript`.
- `train_serve.dfy` (`TrainServe`): lemmas that join the two programs. The
  training `features` list, the app's input columns and the importance
  labels agree. Each training row is exactly the vector the app builds for
  that row's values with the saved encoders.

The random sample frame (make_model.py:9-30) is the parameter `s: Samples`
of `TrainingScript`. The train/test split and the random-forest fit
(make_model.py:51-55) are its parameter `train`; the regressor is an opaque
value (`Regressor`). The clock read by `datetime.now()` is the parameter
`currentYear` of `App.YearOptions`.

## Model

| member | source | states |
|---|---|---|
| StringOrder.LessIrreflexive | app.py:45 | no label sorts strictly before itself |
| StringOrder.LessTransitive | app.py:45 | the string order is transitive |
| StringOrder.LessTotal | app.py:45 | any two distinct labels are ordered one way or the other |
| StringOrder.LessAsymmetric | app.py:45 | two labels are never each strictly before the other |
| StringOrder.LessEqTransitive | app.py:45 | the non-strict order is transitive |
| StringOrder.LessEqAntisymmetric | app.py:45 | labels ordered both ways are equal |
| StringOrder.Insert | app.py:45 | inserting into an ascending list keeps it ascending and adds exactly the one label |
| StringOrder.Sort | app.py:45 | `sorted` returns an ascending permutation of its input |
| StringOrder.InsertUnique | make_model.py:38 | inserting into a duplicate-free ascending list keeps it so and adds the label to its element set |
| StringOrder.Unique | make_model.py:38 | the unique values are strictly ascending and are exactly the input's labels |
| StringOrder.SortedDetermined | app.py:45 | two ascending lists with the same multiset are equal |
| StringOrder.StrictlySortedDetermined | make_model.py:38 | two strictly ascending lists with the same elements are equal |
| StringOrder.SortOfSorted | app.py:45 | `sorted` of an ascending list returns it unchanged |
| StringOrder.UniqueIsCanonical | make_model.py:38 | any strictly ascending list holding the input's labels is the unique values |
| StringOrder.StrictlySortedCardinality | make_model.py:38 | a strictly ascending list has as many distinct labels as positions |
| StringOrder.ElementsCardinality | make_model.py:38 | a list has at most as many distinct labels as positions |
| StringOrder.StrictlySortedIsSorted | app.py:45 | the stored classes are already in the order `sorted` produces |
| LabelEncoding.Fit | make_model.py:38-41 | the fitted classes are exactly the labels seen, with no duplicates, in ascending order |
| LabelEncoding.FitIsCanonical | make_model.py:38-41 | the fitted classes are the only strictly ascending list of the labels seen |
| LabelEncoding.ClassIndex | app.py:29 | the position the lookup table gives is within bounds, and for a known label it is that label's index |
| LabelEncoding.Codes | make_model.py:38-41 | one code per label, each a class index that decodes back to its label |
| LabelEncoding.Transform | app.py:29 | `transform` succeeds exactly when every label is known. Its codes decode back to the labels. Otherwise it fails naming an unseen label of the input, every label before which is known |
| LabelEncoding.FitThenTransform | make_model.py:38-41 | `fit(ys).transform(ys)` succeeds and returns the codes of `fit_transform(ys)` |
| LabelEncoding.FitTransform | make_model.py:38-41 | `fit_transform` fits on the column and returns one valid code per row that decodes to that row's label |
| LabelEncoding.FitTransformEncodes | make_model.py:38-41 | `fit_transform` is `fit` followed by `transform` on the same column, and its codes decode back to the labels |
| LabelEncoding.FitTransformIsCanonical | make_model.py:38-41 | any encoder holding exactly the column's labels, with codes that decode to the column, is what `fit_transform` returns |
| LabelEncoding.CodeIsOnlyPosition | app.py:29 | a label's code is the one index where it sits among the classes |
| LabelEncoding.CodesInjective | app.py:29 | two known labels get the same code exactly when they are the same label |
| LabelEncoding.PositionUnique | app.py:29 | no label sits at two positions among the classes |
| LabelEncoding.FitWithinVocabulary | make_model.py:12-23 | a column drawn from a vocabulary fits to classes inside it, and no more of them than the vocabulary has |
| LabelEncoding.FitThreeBrandsExample | make_model.py:38 | fitting "Maruti", "Honda", "BMW" gives the classes "BMW", "Honda", "Maruti" |
| LabelEncoding.CodesThreeBrandsExample | app.py:29 | over those classes the codes are 0, 1 and 2 |
| Artifact.Save | make_model.py:58-64 | the saved dictionary has exactly the five keys, each holding an object of the right kind |
| Artifact.Load | app.py:19-24 | loading succeeds exactly when all five keys hold objects of the right kind. A missing key fails with the first one missing in reading order. A wrong kind is reported only once all keys are present |
| Artifact.LoadSave | app.py:19-24 | what the script saves, the app loads back unchanged |
| Artifact.LoadReadsEntries | app.py:20-24 | a well-shaped dictionary loads as the five objects stored under the five keys |
| Artifact.SaveLoad | app.py:20-24 | saving a loaded artifact gives back the dictionary's five entries and drops any other keys |
| Artifact.LoadWithoutFuelEncoder | app.py:22 | a dictionary lacking `le_fuel` fails, naming that key |
| App.SafeTransform | app.py:27-31 | a known label gets the index it sits at among the classes. The code is -1 exactly when the label is unseen |
| App.SafeTransformInjective | app.py:27-31 | two labels share a code exactly when they are equal or both unseen |
| App.SafeTransformThreeBrandsExample | app.py:27-31 | with classes "BMW", "Honda", "Maruti": codes 0, 1, 2, and -1 for "Tesla" |
| App.OptionList | app.py:45 | a dropdown's choices are the encoder's classes in their stored order, and each choice encodes to a class index |
| App.Range | app.py:50 | `range(lo, hi)` lists the integers from `lo` up to but excluding `hi` |
| App.Reverse | app.py:50 | `[::-1]` reverses positions |
| App.YearOptions | app.py:49-50 | the year list has one entry per year from 2005 to the current year, and the entry at position k is the current year minus k |
| App.YearOptionsShape | app.py:50 | the year list starts at the current year and ends at 2005. It strictly descends. A year is offered exactly when it lies between 2005 and the current year |
| App.InputData | app.py:87-99 | the input row has eleven columns named in the `features` order |
| App.FeatureVector | app.py:87-101 | the regressor receives eleven numbers |
| App.FeatureVectorValues | app.py:87-99 | which field fills each of the eleven positions, numeric fields as given and categorical fields by their safe codes |
| App.ImportanceLabelsAreColumns | app.py:153-154 | the importance labels are the input row's column names, in order |
| App.NumericFieldsVerbatim | app.py:88-98 | the seven numeric fields reach the regressor unchanged at their positions |
| App.CategoricalSlotsUseOwnEncoder | app.py:90-93 | each categorical slot decodes to its own field under its own encoder, or holds -1 when that field is unseen |
| App.BrandOnlyAffectsItsSlot | app.py:90 | changing only the brand changes only slot 2 of the vector |
| App.UnseenBrandsPredictAlike | app.py:90-101 | `model.predict` gives the same price for any two unseen brands |
| App.DropdownChoicesEncodeKnown | app.py:44-65 | a request picked from the dropdowns carries no sentinel in any categorical slot |
| App.FeatureImportances | app.py:151-163 | the chart exists exactly when the regressor has scores and there is one per feature or a single one. Label k is paired with score k, not re-sorted, or with the single score broadcast to every label. Otherwise the chart is the "not available" warning |
| App.ImportancesMatchColumns | app.py:152-157 | the score shown against label k belongs to input column k, or is the single broadcast score |
| Training.InitialColumnsShape | make_model.py:17-30 | the generated frame holds exactly the twelve generated columns, each with one value per row |
| Training.SampleColumnAt | make_model.py:17-30 | the generated frame holds each generated column's sample values |
| Training.DataFrame.constructor | make_model.py:17-30 | a new frame holds exactly the generated columns |
| Training.DataFrame.SetColumn | make_model.py:38 | `data[name] = values` adds or replaces that one column and leaves the rest |
| Training.MissingElements | make_model.py:47 | the missing list names every requested column the frame lacks and no other, each once |
| Training.MissingGrowsInOrder | make_model.py:47 | the missing columns of a prefix of the request open the missing list of the whole request, in the same order |
| Training.FirstText | make_model.py:47 | finds the first requested column the frame holds as text, and reports none exactly when no requested column is text |
| Training.Select | make_model.py:47 | `data[names]` succeeds exactly when every column is present and numeric. Its matrix has one row per sample and one entry per name, and entry (i, j) is row i of column j. It fails on missing columns exactly when some column is absent, listing all of them; otherwise it fails on the first text column |
| Training.TrainingCodes | make_model.py:38-41 | the four code columns have one code per row |
| Training.WithCodesAt | make_model.py:38-41 | after the four assignments every column, original or code column, holds what it should |
| Training.WithCodesRectangular | make_model.py:38-41 | adding the code columns keeps one value per row in every column |
| Training.FeaturesAreNumericAfterEncoding | make_model.py:44-47 | once the codes are added, every feature column exists and is numeric |
| Training.FeaturesMissingBeforeEncoding | make_model.py:38-47 | on the frame without code columns, `data[features]` fails listing the four code columns in the order of `features` |
| Training.MissingFromGenerated | make_model.py:44-47 | on any frame holding just the generated columns, `features` misses exactly the four code columns, in that order |
| Training.FeatureRow | make_model.py:44-46 | a training row has one value per feature |
| Training.FeatureRowReadsColumns | make_model.py:44-47 | entry j of a row is that row's value in the column named by `features[j]` |
| Training.SelectFeatures | make_model.py:44-47 | selecting `features` from the encoded frame succeeds and yields the feature matrix |
| Training.TrainingCodesAreCanonical | make_model.py:38-41 | encoders and code columns that agree with the text columns are the ones `fit_transform` produces |
| Training.TrainingMatrix | make_model.py:47 | the training matrix has one row per sample |
| Training.EncodeColumn | make_model.py:38 | the new encoder's classes are exactly the column's labels. The code column decodes back to them row by row. No other column changes |
| Training.TrainingScript | make_model.py:17-64 | the saved dictionary is `Save` of the regressor trained on the feature matrix and the sale prices together with the four fitted encoders, and it loads back as exactly that artifact |
| Training.FittedClassesWithinVocabularies | make_model.py:12-41 | the fitted classes lie within the script's vocabularies: at most 10 brands, 4 fuels, 3 seller types and 2 transmissions |
| TrainServe.FeatureOrderAgrees | make_model.py:44-46 | the training `features` list, the app's input columns and the importance labels are the same eleven names in the same order |
| TrainServe.EncodedCodeIsSafeCode | app.py:27-31 | a code that decodes to its row's label is the one `safe_transform` gives that label |
| TrainServe.TrainingCodeIsSafeCode | app.py:27-31 | the code `fit_transform` gave a training row is what `safe_transform` gives its label |
| TrainServe.EncodedRowIsServingVector | app.py:87-99 | under agreeing encoders, training row i is the vector the app builds for row i's values |
| TrainServe.TrainingRowIsServingVector | app.py:87-101 | each training row is exactly the vector the app builds for that row's values with the saved encoders |

## Left out

- The Streamlit page is not modelled: layout, widgets, the summary text, tips, the sidebar text and the footer are display only. The numeric widgets' bounds and the fixed owner and seat choices are not modelled either; the request fields are given as values.
- `st.cache_data` (app.py:13) memoises `load_model` within the process and is not modelled. `open` and pickling are file I/O. The model works on the unpickled dictionary (`Blob`), and a source that cannot be read is not modelled.
- `datetime.now()` is a clock and becomes the parameter `currentYear`.
- `np.random` sample generation (make_model.py:9-30) is the parameter `s: Samples` of `TrainingScript`, so the seed and the value ranges of the sample columns are not modelled. `train_test_split` and `RandomForestRegressor.fit` (make_model.py:51-55) are its parameter `train`.
- How the random forest predicts and how it scores feature importance are hidden inside `Regressor`, which holds a total prediction function and optional scores.
- Python floats (`mileage`, `max_power`, `selling_price`, the request's numeric fields and the importance scores) are modelled as exact reals, so rounding is not modelled.
- `predicted_price / 100000` and the formatting of the price are floating-point display and are not modelled.
- The importance plot itself (matplotlib) is not modelled; only which score the chart pairs with which label is.
- The `try`/`except` around the prediction (app.py:86-118) is not modelled. With a well-shaped artifact, `App.FeatureVector` and `App.Predict` are total, so the only error left is whatever the regressor raises, which is not visible.
- The final `print` is console output and is not modelled.
- Artifact.Load reports an object of the wrong kind as an error at load time. The app finds this only when it first uses that object.
- Artifact.Load accepts extra keys and empty encoders, as the app does: app.py:19-24 checks neither.
- Training.Select: when none of the requested columns exists, pandas words its `KeyError` differently ("None of [...] are in the [columns]"). The model gives the same `MissingColumns` list in both cases.
- Training.Select reports a text column as `NotNumeric`. This stands for the conversion error the regressor's fit would raise. The script never hits it, because `features` names only numeric columns.
- LabelEncoding.Transform models the text-label path of scikit-learn, the only one the app uses. The numeric path through `np.searchsorted` and the wording of the error message are not modelled.
- Training.EncodeColumn states its result by meaning: the classes hold exactly the column's labels, and the codes decode back. It does not name `Fit` and `FitTransform` directly. `LabelEncoding.FitTransformIsCanonical` shows the two statements are equivalent, and `Training.TrainingScript` restates the result through `Fit`.
- Column names are the enumeration `ColumnName`, not strings. `Training.Header` gives each one's pandas header, and `TrainServe.FeatureOrderAgrees` ties the headers to the app's column names.
- `Predict` is `model.predict` applied to the modelled vector. The regressor is hidden, so the model states nothing about the price beyond `App.UnseenBrandsPredictAlike`.
