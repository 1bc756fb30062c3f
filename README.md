# Brain-tumor label fallback chain, modelled in Dafny

This project models how the brain-tumor detection application produces its
binary label (1 = tumor, 0 = no tumor) for an uploaded scan, and proves
properties of that model. The application tries four tiers in order:

1. a VGG19-based deep model, when its weights loaded at start-up;
2. the adaptive detector (`SmartTumorDetector`). It labels the images already in
   the `uploads` directory by file name, trains a scaler and a random forest on
   their feature vectors, and degrades to a brightness/contrast rule whenever it
   cannot classify;
3. the threshold scorer, a fixed integer score over five image characteristics
   with a decision at score 2, plus a 10% random override;
4. a uniform random label.

The model also covers the label names, the rule that attaches random "tumor
data" to a positive result, and the duplicate of that generator in the demo
script.

Image numerics and learned models are opaque inputs:

- an image is `Unreadable`, fails its grayscale conversion, or is `Gray` with
  the statistics OpenCV/NumPy would compute (and a flag saying a later numeric
  step raises);
- the learning library is a `Library` value saying whether each fit completes
  and what class probabilities the fitted pipeline gives;
- the deep model is a function from an image to its softmax pair;
- every random draw is a parameter: a coin for `random.choice([0, 1])`, a real
  for `random.random()`, a function for `random.randint`, and an integer number
  of hundredths (50..500) for the rounded tumor size.

Modules, one per source file plus three shared ones:

- `Wrappers`: `Option` and `Result`.
- `Text`: ASCII `lower`, `startswith`, `endswith` and substring `in`.
- `Common`: images, the disk, labels, draws, `argmax` and the tumor-data record.
- `SmartPrediction`: the `SmartTumorDetector` class. It keeps its fields
  `classifier`, `scaler` and `is_trained`. Its methods have the source's loops,
  and each is proved against a specification function (`TrainingOutcome`,
  `AfterTraining`, `PredictStep`).
- `ImprovedPrediction`: the scorer. It is a method that accumulates the score,
  proved equal to a sum of indicator terms.
- `App`: the `Server` class. `model03` is a constant fixed by the constructor.
  `GetResult` is the cascade.
- `Demo`: the demo's generator, proved equal to the application's.

## Behaviour worth knowing

- Training counts matching file names per class before any image is read.
  After extraction it checks only the total number of valid vectors (at least
  four), not the count per class. So all four rows may come from one class
  (`OneClassCanTrain`).
- `getResult` catches only `ImportError` around the fallback imports. Any other
  exception raised by an import escapes it. The model returns `Failure` (tier
  `Raised`) for that case.
- The simple rule answers 1 for "brightness > 120 and contrast > 30" and 0 for
  "brightness < 80". In every other case it tosses a coin. This includes a
  bright image of low contrast and a mid-brightness image of any contrast.

## Model

| member | source | states |
|---|---|---|
| `Common.ArgMax` | app.py:83 | numpy's argmax: an index of the largest value, the first such index |
| `Common.RandomLabel` | smart_prediction.py:204 | `random.choice([0, 1])` gives a label, 1 exactly when the injected coin says so |
| `SmartPrediction.LargestArea` | smart_prediction.py:73-77 | the largest contour's area is one of the areas and no area exceeds it |
| `SmartPrediction.ShapeFeature` | smart_prediction.py:73-79 | 0 without contours; no value (division by zero) when there are contours and no pixels; otherwise the value times the pixel count is the largest contour area |
| `SmartPrediction.Features` | smart_prediction.py:21-95 | a vector exists exactly for a readable, convertible image whose numeric steps do not raise (including the zero-area division); it then has exactly 16 values |
| `SmartPrediction.FeatureLayout` | smart_prediction.py:34-89 | each of the 16 positions holds its documented statistic; position 13 is the largest contour area over the image area, or 0 without contours |
| `SmartPrediction.SmartTumorDetector.ExtractFeatures` | smart_prediction.py:21-95 | building the vector stage by stage yields the specified vector or None, never a partial vector; the contour stage appends one value on both branches |
| `SmartPrediction.SimplePredict` | smart_prediction.py:199-222 | always a label; bright (> 120) and contrasted (> 30) gives 1; otherwise dark (< 80) gives 0 |
| `SmartPrediction.SimpleDecidedIffCoinIrrelevant` | smart_prediction.py:213-218 | the answer ignores the coin exactly for a readable image that is bright and contrasted or dark; every other image gets the coin's label, including bright with contrast at most 30 |
| `SmartPrediction.Classify` | smart_prediction.py:110-118 | only names with an image extension are classified, and a name the tumor test accepts is never a non-tumor file |
| `SmartPrediction.ClassifyRule` | smart_prediction.py:110-118 | a name is tumor iff it has an image extension and passes the tumor test; non-tumor iff it has an image extension, fails the tumor test and passes the non-tumor test; ignored otherwise |
| `SmartPrediction.ExtensionIgnoresCase` | smart_prediction.py:111 | the extension test gives the same answer for a name and its lower-case form |
| `SmartPrediction.NoTumorFileIsTumor` | smart_prediction.py:115-118 | `no_tumor.png` is labelled tumor, because the tumor test is tried first |
| `SmartPrediction.UpperCaseExtension` | smart_prediction.py:111-118 | `Y_1.JPG` is tumor and `N_2.PNG` is non-tumor: upper-case extensions count |
| `SmartPrediction.CapitalYesIsIgnored` | smart_prediction.py:115-117 | `Yes.jpg` is ignored: the `y` and `Y_` prefix tests are case-sensitive |
| `SmartPrediction.TextFileIsIgnored` | smart_prediction.py:111 | `tumor.txt` is ignored: the extension filter comes before the name tests |
| `SmartPrediction.SplitListing` | smart_prediction.py:110-118 | the directory scan puts at most one path per listed name into the two lists |
| `SmartPrediction.SplitListingMembers` | smart_prediction.py:107-118 | a path is in the tumor (non-tumor) list exactly when some listed name of that class joins to it; the two lists together are no longer than the listing |
| `SmartPrediction.SmartTumorDetector.CollectImages` | smart_prediction.py:107-118 | the directory scan builds exactly the specified pair of path lists |
| `SmartPrediction.VectorsMembers` | smart_prediction.py:130-142 | a vector is in the result exactly when some path of the list yields it; a path whose extraction fails contributes nothing |
| `SmartPrediction.Vectors` | smart_prediction.py:130-142 | the valid vectors of a path list, in order: at most one per path |
| `SmartPrediction.VectorsShape` | smart_prediction.py:130-142 | extraction keeps at most one vector per path, each of length 16, and none when no path yields a vector |
| `SmartPrediction.LabelledSamples` | smart_prediction.py:127-142 | the training set: as many labels as rows, and no more rows than files in the two lists |
| `SmartPrediction.LabelledSamplesShape` | smart_prediction.py:127-142 | X and y have equal length; y is 1 on exactly the leading tumor rows and 0 after them; there are no more rows than files |
| `SmartPrediction.SmartTumorDetector.AddSamples` | smart_prediction.py:130-142 | each extraction loop appends the vectors that exist and one copy of its label per vector; a file without a vector adds to neither |
| `SmartPrediction.Classes` | smart_prediction.py:188 | the forest's classes are exactly the labels present in y, strictly ascending |
| `SmartPrediction.TrainingOutcome` | smart_prediction.py:99-168 | the run's verdict in decision order: no uploads directory exactly when the listing is absent; too few files only when a class has fewer than 2; too few vectors only below 4; the scaler raised only with 4 or more rows; the forest raised only after the scaler fitted; fitted only when both fitted on at least 4 rows |
| `SmartPrediction.GuardsPassedTrains` | smart_prediction.py:102-164 | a listing with at least 2 files per class, at least 4 valid vectors and fits that complete gives `Fitted` on exactly the scanned samples |
| `SmartPrediction.OutcomeCarriesSamples` | smart_prediction.py:127-164 | too few vectors, a raising scaler, a raising forest and success all carry the samples built from the scanned lists |
| `SmartPrediction.AfterTraining` | smart_prediction.py:153-160 | only a run that reaches the forest changes the classifier, and only a run that reaches the scaler changes the scaler; a raising scaler leaves it unfitted with classifier and flag unchanged; a raising forest leaves a new unfitted 100-tree, seed-42 forest and the flag unchanged |
| `SmartPrediction.TooFewFilesIgnoresImages` | smart_prediction.py:122-124 | the "too few files" refusal happens exactly when a class has fewer than 2 matching names, and depends on the listing alone, not on image contents |
| `SmartPrediction.FittedTrainingSet` | smart_prediction.py:122-158 | a successful run saw at least 2 files per class and at least 4 valid vectors, and fitted on the labelled samples with binary labels and 16-value rows |
| `SmartPrediction.TrainingFlag` | smart_prediction.py:153-168 | after a run the flag is set iff it was set or the run fitted; runs that stop before fitting change nothing; a fitted run leaves the scaler and the 100-tree, seed-42 forest fitted on the training set |
| `SmartPrediction.OneClassCanTrain` | smart_prediction.py:144-146 | four readable tumor images and two unreadable non-tumor images still train, on rows labelled only 1 |
| `SmartPrediction.ClassifierPredict` | smart_prediction.py:178-197 | the trained path always gives a label; no vector, an unfitted scaler or forest, or a raising transform or probability call gives the simple rule's answer |
| `SmartPrediction.ClassifierLabelSeenInTraining` | smart_prediction.py:185-188 | when the forest answers, its label is `classes_[argmax(predict_proba)]`, one of the labels it was trained on; with both labels seen, it is 1 exactly when the tumor probability is strictly larger |
| `SmartPrediction.PredictStep` | smart_prediction.py:170-197 | one predict call keeps the detector sound and always returns a label |
| `SmartPrediction.PredictLifecycle` | smart_prediction.py:170-176 | a trained detector never retrains; an untrained one trains on every call; a failed training answers by the simple rule and stays untrained |
| `SmartPrediction.SmartTumorDetector.constructor` | smart_prediction.py:16-19 | a new detector has no classifier, an unfitted scaler and `is_trained` false |
| `SmartPrediction.SmartTumorDetector.CollectSamples` | smart_prediction.py:130-142 | the rows built from the two lists are the tumor vectors then the non-tumor vectors, labelled 1 and 0 only |
| `SmartPrediction.SmartTumorDetector.TrainOnExistingImages` | smart_prediction.py:97-168 | returns true exactly on a fitted outcome, and leaves the fields as `AfterTraining` specifies |
| `SmartPrediction.SmartTumorDetector.Predict` | smart_prediction.py:170-197 | the returned label and new fields are those of `PredictStep` on the old fields |
| `SmartPrediction.SmartGetResult` | smart_prediction.py:227-229 | a one-element array holding the detector's label |
| `ImprovedPrediction.AnalyzeImageCharacteristics` | improved_prediction.py:13-56 | characteristics exist exactly for a readable, convertible image whose analysis does not raise |
| `ImprovedPrediction.BrightnessTerm` | improved_prediction.py:69-72 | the brightness term is -1, 0 or +1 |
| `ImprovedPrediction.Score` | improved_prediction.py:66-88 | the score lies in [-1, 5] |
| `ImprovedPrediction.RuleOutput` | improved_prediction.py:58-94 | always a label; without characteristics the coin's label; with them 1 iff the score is at least 2 |
| `ImprovedPrediction.PredictTumorBasedOnCharacteristics` | improved_prediction.py:58-94 | accumulating the score one `if` at a time gives the rule's label |
| `ImprovedPrediction.ImprovedGetResult` | improved_prediction.py:96-115 | a one-element array holding a label; the second coin's label when the uniform draw is below 0.1, else the rule's output |
| `ImprovedPrediction.ScoreMonotone` | improved_prediction.py:66-94 | raising characteristics never lowers the score and never turns a 1 into a 0 |
| `ImprovedPrediction.ThresholdsAreStrict` | improved_prediction.py:69-87 | with every characteristic exactly at its threshold (brightness at 120 or 80, contrast 40, edge density 0.1, texture variance 500, histogram spread 2000), the brightness term and the indicator count are 0, so the score is 0 and the label 0 |
| `ImprovedPrediction.EachThresholdIsStrict` | improved_prediction.py:69-87 | each characteristic exactly at its threshold scores as it would far below it: brightness at 120 or 80 adds 0, and contrast, edge density, texture variance and histogram spread at 40, 0.1, 500 and 2000 add nothing to the indicator count |
| `ImprovedPrediction.DarkImageNeedsThree` | improved_prediction.py:69-94 | below brightness 80, the label is 1 iff at least three of the other four indicators fire |
| `ImprovedPrediction.ReferenceCases` | improved_prediction.py:66-94 | (130, 45, 0.15, 600, 2500) scores 5, label 1; (100, 10, 0.02, 50, 100) scores 0, label 0 |
| `ImprovedPrediction.ImprovedFollowsScore` | improved_prediction.py:96-110 | without the override, a readable image gets 1 iff its score is at least 2, whatever the first coin |
| `App.LoadModel03` | app.py:30-52 | model_03 is absent iff construction fails, the weights file is missing or loading it fails |
| `App.DeepLabel` | app.py:76-84 | the deep tier answers only for a readable image whose prediction does not raise; its answer is a label, 1 iff the second softmax output is strictly larger |
| `App.ClassName` | app.py:54-58 | a name exists exactly for 0 and 1: "No Brain Tumor" for 0, "Yes Brain Tumor" for 1 |
| `App.YesOnlyForTumor` | app.py:264-267 | the class name contains "Yes" iff the label is 1 |
| `App.TierUsed` | app.py:60-96 | deep iff it answered; smart iff it did not and smart imports; improved only after smart's ImportError; random only after both ImportErrors; any other import exception escapes |
| `App.DeepFailureJoinsAbsentPath` | app.py:85-96 | a failing deep model leads to the same tier as an absent one |
| `App.CascadeAlwaysAnswers` | app.py:60-96 | when no import raises anything but ImportError, some tier answers |
| `App.Server.constructor` | app.py:29-52 | model_03 is decided once, at start-up, and the detector starts untrained |
| `App.Server.Fallback` | app.py:61-74 | the chain after the deep model: the tier chosen, a one-element label array, and the detector changed only by the smart tier |
| `App.Server.GetResult` | app.py:60-96 | every non-escaping path returns exactly one label from the tier `TierUsed` picks; the tiers not used leave the detector unchanged |
| `App.CharacteristicsMatchFeatureVector` | improved_prediction.py:27-50 | the scorer's five characteristics are positions 0, 1, 6, 9 and 12 of the detector's feature vector |
| `App.GenerateTumorData` | app.py:98-115 | dangerous iff size > 3.00 cm; dangerous cases get life span 1..5 and "within 1 month" above 4.00 cm, else "within 3 months"; others get 10..30 and "within 6 months" |
| `App.TumorDataFor` | app.py:264-267 | tumor data is present iff the label is 1, and is then the generator's record |
| `Demo.GenerateTumorData` | demo.py:18-35 | the same size, danger, life-span and timeframe rules as the application's generator |
| `Demo.AgreesWithApp` | demo.py:18-35 | given the same draws, the demo's record equals the application's |
| `Demo.DangerShortensLifeSpan` | demo.py:21-28 | every dangerous case gets a shorter life span than every non-dangerous one |

## Left out

- Pixel numerics are not modelled. This covers grayscale conversion, histogram,
  Canny, box filter, contours, FFT, mean/std/percentile, and the uint8
  wrap-around of `gray - blurred`. Each image's statistics are inputs, because
  they are floating-point library work.
- Which numeric step raises is one flag per image. The model cannot express
  the feature extractor and the characteristic analysis failing at different
  steps on the same image.
- Python's `lower()` is modelled for ASCII letters only. Unicode case mapping
  is not.
- Real-number comparisons stand in for floating-point ones. NaN, which compares
  false both ways, is not modelled.
- scikit-learn is the opaque `Library`. Scaling, tree fitting and probabilities
  are not computed. A failed scaler fit is modelled as leaving the scaler
  unfitted. A probability row whose length does not match the classes is
  treated as an exception.
- TensorFlow/VGG19, the weights file and `create_test_model.py` are out of
  scope: foreign deep-learning code and file I/O.
- File-system access (`os.path.exists`, `os.listdir`, `cv2.imread`) becomes the
  `Disk` value. A missing directory and a listing error both read as no
  listing.
- Flask routes, uploads, `send_file`, the HTTP test client and PDF report
  layout (`app.py` and `demo.py` report builders, `test_pdf.py`) are out of
  scope: they are I/O and presentation.
- `print` output is not modelled. The detector's confidence is computed and
  then dropped, as in the source, where it is only printed.
- Randomness is injected through draws, not modelled as a distribution.
- `ImprovedPrediction.ImprovedGetResult`: does not model the `except` branch,
  because no modelled step of the improved tier can raise.
- The smart module's detector is created by `Server`'s constructor. In the
  source it is created at the first successful import. `__init__` has no
  effect besides setting the fields, so nothing observable differs.
- Concurrent requests are not modelled. The source defines no locking, and the
  model is single-threaded.
