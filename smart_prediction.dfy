/** The adaptive detector: labels the images already in the uploads directory by
    their file names, trains a scaler and a random forest on their feature
    vectors, and degrades to a brightness/contrast rule whenever it cannot
    classify. The numeric library and the learning library are opaque inputs. */
module SmartPrediction {
  import opened Wrappers
  import opened Text
  import opened Common

  const FeatureCount := 16
  const UploadsDir := "uploads"
  const TumorLabel := 1
  const NoTumorLabel := 0
  /** Files of each class needed before any feature is extracted. */
  const MinFilesPerClass := 2
  /** Valid feature vectors needed in total. */
  const MinVectors := 4
  /** RandomForestClassifier(n_estimators=100, random_state=42). */
  const Estimators := 100
  const Seed := 42

  // ---------------------------------------------------------------------------
  // Feature extraction

  /** The area of the largest contour (max with key=cv2.contourArea). */
  function LargestArea(areas: seq<real>): (m: real)
    requires |areas| > 0
    ensures m in areas
    ensures forall a :: a in areas ==> a <= m
  {
    if |areas| == 1 then areas[0]
    else
      var rest := LargestArea(areas[1..]);
      assert forall a :: a in areas ==> a == areas[0] || a in areas[1..];
      if areas[0] >= rest then areas[0] else rest
  }

  /** The shape feature: the largest contour area over the image area, or 0 with
      no contour. The division raises ZeroDivisionError on an image of no pixels. */
  function ShapeFeature(s: GrayStats): (r: Option<real>)
    ensures |s.contourAreas| == 0 ==> r == Some(0.0)
    ensures r.None? <==> |s.contourAreas| > 0 && s.pixelCount == 0
    ensures r.Some? && |s.contourAreas| > 0 ==> r.value * s.pixelCount as real == LargestArea(s.contourAreas)
  {
    if |s.contourAreas| == 0 then Some(0.0)
    else if s.pixelCount == 0 then None
    else Some(LargestArea(s.contourAreas) / s.pixelCount as real)
  }

  /** The feature vector of an image in its documented order, or None when the
      image cannot be read or any step raises. */
  function Features(img: Image): (r: Option<seq<real>>)
    ensures r.Some? <==> img.Gray? && !img.stats.analysisRaises && ShapeFeature(img.stats).Some?
    ensures r.Some? ==> |r.value| == FeatureCount
  {
    match img
    case Gray(s) =>
      if s.analysisRaises then None
      else (match ShapeFeature(s)
        case None => None
        case Some(shape) =>
          Some([s.mean, s.std, s.variance, s.max, s.min,
                s.histMean, s.histStd, s.histP25, s.histP75,
                s.edgeDensity,
                s.textureMean, s.textureStd, s.textureVariance,
                shape,
                s.fftMean, s.fftStd]))
    case _ => None
  }

  /** The feature vector places each statistic where the classifier expects it. */
  lemma FeatureLayout(img: Image)
    requires Features(img).Some?
    ensures var v, s := Features(img).value, img.stats;
      && v[0] == s.mean && v[1] == s.std && v[2] == s.variance && v[3] == s.max && v[4] == s.min
      && v[5] == s.histMean && v[6] == s.histStd && v[7] == s.histP25 && v[8] == s.histP75
      && v[9] == s.edgeDensity
      && v[10] == s.textureMean && v[11] == s.textureStd && v[12] == s.textureVariance
      && v[13] == (if |s.contourAreas| == 0 then 0.0
                   else LargestArea(s.contourAreas) / s.pixelCount as real)
      && v[14] == s.fftMean && v[15] == s.fftStd
  {
  }

  // ---------------------------------------------------------------------------
  // The simple brightness/contrast rule

  /** simple_predict: bright and contrasted is a tumor, dark is not, anything
      else (and any image that cannot be read or converted) is a coin toss. */
  function SimplePredict(img: Image, heads: bool): (cls: int)
    ensures IsLabel(cls)
    ensures img.Gray? && img.stats.mean > 120.0 && img.stats.std > 30.0 ==> cls == 1
    ensures img.Gray? && !(img.stats.mean > 120.0 && img.stats.std > 30.0) && img.stats.mean < 80.0
            ==> cls == 0
  {
    match img
    case Gray(s) =>
      if s.mean > 120.0 && s.std > 30.0 then TumorLabel
      else if s.mean < 80.0 then NoTumorLabel
      else RandomLabel(heads)
    case _ => RandomLabel(heads)
  }

  /** The rule decides without the coin exactly on a readable image that is
      bright and contrasted, or dark. */
  predicate SimpleDecides(img: Image)
  {
    img.Gray? && ((img.stats.mean > 120.0 && img.stats.std > 30.0) || img.stats.mean < 80.0)
  }

  lemma SimpleDecidedIffCoinIrrelevant(img: Image)
    ensures SimpleDecides(img) <==> SimplePredict(img, true) == SimplePredict(img, false)
    ensures !SimpleDecides(img) ==> forall h :: SimplePredict(img, h) == RandomLabel(h)
  {
  }

  // ---------------------------------------------------------------------------
  // Labelling the uploads directory by file name

  datatype FileClass = TumorFile | NonTumorFile | Ignored

  /** Only .jpg, .jpeg and .png names count, in any letter case. */
  predicate HasImageExtension(name: string)
  {
    var l := Lower(name);
    EndsWith(l, ".jpg") || EndsWith(l, ".jpeg") || EndsWith(l, ".png")
  }

  /** The prefix tests are case-sensitive; the substring test is not. */
  predicate TumorName(name: string)
  {
    StartsWith(name, "Y_") || StartsWith(name, "y") || Contains(Lower(name), "tumor")
  }

  predicate NonTumorName(name: string)
  {
    StartsWith(name, "N_") || StartsWith(name, "n") || Contains(Lower(name), "no")
  }

  /** The first matching rule wins: the tumor test is tried before the non-tumor test. */
  function Classify(name: string): (c: FileClass)
    ensures c != Ignored ==> HasImageExtension(name)
    ensures c == NonTumorFile ==> !TumorName(name)
  {
    if !HasImageExtension(name) then Ignored
    else if TumorName(name) then TumorFile
    else if NonTumorName(name) then NonTumorFile
    else Ignored
  }

  /** The three outcomes of the rule, each as a condition on the name. */
  lemma ClassifyRule(name: string)
    ensures Classify(name) == TumorFile <==> HasImageExtension(name) && TumorName(name)
    ensures Classify(name) == NonTumorFile <==> HasImageExtension(name) && !TumorName(name) && NonTumorName(name)
    ensures Classify(name) == Ignored <==> !HasImageExtension(name) || (!TumorName(name) && !NonTumorName(name))
  {
  }

  lemma ExtensionIgnoresCase(name: string)
    ensures HasImageExtension(name) <==> HasImageExtension(Lower(name))
  {
    LowerIdempotent(name);
  }

  /** `no_tumor.png` contains "tumor", so the tumor rule claims it first. */
  lemma NoTumorFileIsTumor()
    ensures Classify("no_tumor.png") == TumorFile
  {
    var name := "no_tumor.png";
    LowerFixesLowerCase(name);
    assert EndsWith(Lower(name), ".png");
    assert OccursAt(Lower(name), "tumor", 3);
  }

  /** Upper-case extensions count; the `Y_` prefix marks a tumor. */
  lemma UpperCaseExtension()
    ensures Classify("Y_1.JPG") == TumorFile
    ensures Classify("N_2.PNG") == NonTumorFile
  {
    var y, n := "Y_1.JPG", "N_2.PNG";
    assert Lower(y) == "y_1.jpg";
    assert Lower(n) == "n_2.png";
    assert EndsWith(Lower(y), ".jpg") && StartsWith(y, "Y_");
    MissingFirstChar(Lower(n), "tumor");
    assert n[..1] == "N" && n[..2] == "N_";
    assert EndsWith(Lower(n), ".png") && StartsWith(n, "N_");
  }

  /** A capital `Y` without the underscore is no tumor marker. */
  lemma CapitalYesIsIgnored()
    ensures Classify("Yes.jpg") == Ignored
  {
    var name := "Yes.jpg";
    assert name[..1] == "Y" && name[..2] == "Ye";
    assert Lower(name) == "yes.jpg";
    MissingFirstChar(Lower(name), "tumor");
    MissingFirstChar(Lower(name), "no");
  }

  /** Not an image, so never training data, whatever the name says. */
  lemma TextFileIsIgnored()
    ensures Classify("tumor.txt") == Ignored
  {
    var name := "tumor.txt";
    LowerFixesLowerCase(name);
    assert !EndsWith(Lower(name), ".jpg") && !EndsWith(Lower(name), ".png");
  }

  /** os.path.join("uploads", name) */
  function UploadPath(name: string): string
  {
    UploadsDir + "/" + name
  }

  datatype Split = Split(tumor: seq<string>, nonTumor: seq<string>)

  /** The two path lists the directory scan builds, in listing order. */
  function SplitListing(names: seq<string>): (s: Split)
    ensures |s.tumor| + |s.nonTumor| <= |names|
  {
    SplitByLength(names, Classify);
    SplitBy(names, Classify)
  }

  /** The scan with the file-name rule as a parameter, so that proofs about
      the scan itself need not look inside the rule. */
  function SplitBy(names: seq<string>, classify: string -> FileClass): Split
  {
    if names == [] then Split([], [])
    else
      var s := SplitBy(names[..|names| - 1], classify);
      var name := names[|names| - 1];
      match classify(name)
      case TumorFile => Split(s.tumor + [UploadPath(name)], s.nonTumor)
      case NonTumorFile => Split(s.tumor, s.nonTumor + [UploadPath(name)])
      case Ignored => s
  }

  /** The list of one class in a split. */
  function ListOf(s: Split, c: FileClass): seq<string>
    requires c != Ignored
  {
    if c == TumorFile then s.tumor else s.nonTumor
  }

  /** Every listed path comes from a name of its class, every such name gives a
      path, and no name lands in both lists. */
  lemma SplitListingMembers(names: seq<string>, path: string)
    ensures path in SplitListing(names).tumor <==>
      exists i :: 0 <= i < |names| && Classify(names[i]) == TumorFile && path == UploadPath(names[i])
    ensures path in SplitListing(names).nonTumor <==>
      exists i :: 0 <= i < |names| && Classify(names[i]) == NonTumorFile && path == UploadPath(names[i])
    ensures |SplitListing(names).tumor| + |SplitListing(names).nonTumor| <= |names|
  {
    SplitByMembers(names, Classify, path, TumorFile);
    SplitByMembers(names, Classify, path, NonTumorFile);
    SplitByLength(names, Classify);
  }

  lemma {:induction false} SplitByMembers(names: seq<string>, classify: string -> FileClass, path: string, c: FileClass)
    requires c != Ignored
    ensures path in ListOf(SplitBy(names, classify), c) <==>
      exists i :: 0 <= i < |names| && classify(names[i]) == c && path == UploadPath(names[i])
  {
    if names != [] {
      var init, last := names[..|names| - 1], names[|names| - 1];
      SplitByMembers(init, classify, path, c);
      var before, after := ListOf(SplitBy(init, classify), c), ListOf(SplitBy(names, classify), c);
      assert after == if classify(last) == c then before + [UploadPath(last)] else before;
      if path in after {
        if path in before {
          var i :| 0 <= i < |init| && classify(init[i]) == c && path == UploadPath(init[i]);
          assert names[i] == init[i];
        } else {
          assert classify(names[|names| - 1]) == c && path == UploadPath(names[|names| - 1]);
        }
      }
      if exists i :: 0 <= i < |names| && classify(names[i]) == c && path == UploadPath(names[i]) {
        var i :| 0 <= i < |names| && classify(names[i]) == c && path == UploadPath(names[i]);
        if i < |init| {
          assert init[i] == names[i];
        }
      }
    }
  }

  lemma {:induction false} SplitByLength(names: seq<string>, classify: string -> FileClass)
    ensures |SplitBy(names, classify).tumor| + |SplitBy(names, classify).nonTumor| <= |names|
  {
    if names != [] {
      SplitByLength(names[..|names| - 1], classify);
    }
  }

  // ---------------------------------------------------------------------------
  // Training data

  datatype TrainingSet = TrainingSet(x: seq<seq<real>>, y: seq<int>)

  /** The feature vectors of the paths whose extraction succeeds, in order. */
  function Vectors(disk: Disk, paths: seq<string>): (vs: seq<seq<real>>)
    ensures |vs| <= |paths|
  {
    KeptLength(paths, Extractor(disk));
    Kept(paths, Extractor(disk))
  }

  /** extract_features on the file at a path. */
  function Extractor(disk: Disk): string -> Option<seq<real>>
  {
    p => Features(Read(disk, p))
  }

  /** A vector is in the result exactly when some path of the list reads to an
      image that yields it. */
  lemma VectorsMembers(disk: Disk, paths: seq<string>, v: seq<real>)
    ensures v in Vectors(disk, paths) <==> exists i :: 0 <= i < |paths| && Features(Read(disk, paths[i])) == Some(v)
  {
    KeptMembers(paths, Extractor(disk), v);
  }

  /** The values an extraction yields along a list, in order, with the
      extraction as a parameter so that proofs about it need not look inside. */
  function Kept(paths: seq<string>, extract: string -> Option<seq<real>>): seq<seq<real>>
  {
    if paths == [] then []
    else
      var init := Kept(paths[..|paths| - 1], extract);
      match extract(paths[|paths| - 1])
      case Some(v) => init + [v]
      case None => init
  }

  lemma {:induction false} KeptLength(paths: seq<string>, extract: string -> Option<seq<real>>)
    ensures |Kept(paths, extract)| <= |paths|
  {
    if paths != [] {
      KeptLength(paths[..|paths| - 1], extract);
    }
  }

  lemma {:induction false} KeptMembers(paths: seq<string>, extract: string -> Option<seq<real>>, v: seq<real>)
    ensures v in Kept(paths, extract) <==> exists i :: 0 <= i < |paths| && extract(paths[i]) == Some(v)
  {
    if paths != [] {
      var init := paths[..|paths| - 1];
      KeptMembers(init, extract, v);
      if v in Kept(paths, extract) && v in Kept(init, extract) {
        var i :| 0 <= i < |init| && extract(init[i]) == Some(v);
        assert paths[i] == init[i];
      }
      if exists i :: 0 <= i < |paths| && extract(paths[i]) == Some(v) {
        var i :| 0 <= i < |paths| && extract(paths[i]) == Some(v);
        if i < |init| {
          assert init[i] == paths[i];
        }
      }
    }
  }

  lemma VectorsShape(disk: Disk, paths: seq<string>)
    ensures |Vectors(disk, paths)| <= |paths|
    ensures forall v :: v in Vectors(disk, paths) ==> |v| == FeatureCount
    ensures (forall p :: p in paths ==> Features(Read(disk, p)).None?) ==> Vectors(disk, paths) == []
  {
    VectorsWidth(disk, paths);
    if forall p :: p in paths ==> Features(Read(disk, p)).None? {
      VectorsNone(disk, paths);
    }
  }

  lemma {:induction false} VectorsWidth(disk: Disk, paths: seq<string>)
    ensures forall v :: v in Vectors(disk, paths) ==> |v| == FeatureCount
  {
    if paths != [] {
      VectorsWidth(disk, paths[..|paths| - 1]);
    }
  }

  lemma {:induction false} VectorsNone(disk: Disk, paths: seq<string>)
    requires forall p :: p in paths ==> Features(Read(disk, p)).None?
    ensures Vectors(disk, paths) == []
  {
    if paths != [] {
      assert forall p :: p in paths[..|paths| - 1] ==> p in paths;
      VectorsNone(disk, paths[..|paths| - 1]);
    }
  }

  function Repeat(cls: int, n: nat): (r: seq<int>)
    ensures |r| == n && forall i :: 0 <= i < n ==> r[i] == cls
  {
    seq(n, _ => cls)
  }

  /** X holds the tumor files' vectors then the non-tumor files' vectors; y
      labels them 1 and 0. */
  function LabelledSamples(disk: Disk, split: Split): (ts: TrainingSet)
    ensures |ts.x| == |ts.y| <= |split.tumor| + |split.nonTumor|
  {
    var pos := Vectors(disk, split.tumor);
    var neg := Vectors(disk, split.nonTumor);
    TrainingSet(pos + neg, Repeat(TumorLabel, |pos|) + Repeat(NoTumorLabel, |neg|))
  }

  predicate BinaryLabels(ts: TrainingSet)
  {
    forall i :: 0 <= i < |ts.y| ==> IsLabel(ts.y[i])
  }

  lemma LabelledSamplesShape(disk: Disk, split: Split)
    ensures var ts, pos := LabelledSamples(disk, split), |Vectors(disk, split.tumor)|;
      && |ts.x| == |ts.y|
      && BinaryLabels(ts)
      && (forall i :: 0 <= i < |ts.y| ==> (ts.y[i] == TumorLabel <==> i < pos))
      && |ts.x| <= |split.tumor| + |split.nonTumor|
      && (forall v :: v in ts.x ==> |v| == FeatureCount)
  {
    var pos, neg := Vectors(disk, split.tumor), Vectors(disk, split.nonTumor);
    VectorsWidth(disk, split.tumor);
    VectorsWidth(disk, split.nonTumor);
    var ts := LabelledSamples(disk, split);
    assert ts.x == pos + neg;
    assert ts.y == Repeat(TumorLabel, |pos|) + Repeat(NoTumorLabel, |neg|);
    forall i | 0 <= i < |ts.y|
      ensures ts.y[i] == if i < |pos| then TumorLabel else NoTumorLabel
    {
      if i >= |pos| {
        assert ts.y[i] == Repeat(NoTumorLabel, |neg|)[i - |pos|];
      }
    }
    forall v | v in ts.x
      ensures |v| == FeatureCount
    {
      assert v in pos || v in neg;
    }
  }

  // ---------------------------------------------------------------------------
  // The learning library (opaque)

  /** What the learning library does with the data it is given: whether fitting
      the scaler and the forest completes, and the class probabilities the
      pipeline fitted on (scaler data, forest data) gives a feature vector
      (None when transform or predict raises). */
  datatype Library = Library(
    scalerFits: seq<seq<real>> -> bool,
    forestFits: TrainingSet -> bool,
    proba: (seq<seq<real>>, TrainingSet, seq<real>) -> Option<seq<real>>)

  /** StandardScaler, unfitted or fitted on the given rows. */
  datatype Scaler = Scaler(fittedOn: Option<seq<seq<real>>>)

  /** RandomForestClassifier, unfitted or fitted on a training ts. */
  datatype Forest = Forest(nEstimators: nat, randomState: int, fittedOn: Option<TrainingSet>)

  /** classes_ of a forest fitted on binary labels: the labels present, ascending. */
  function Classes(y: seq<int>): (cs: seq<int>)
    requires forall i :: 0 <= i < |y| ==> IsLabel(y[i])
    ensures forall c :: c in cs <==> c in y
    ensures forall i, j :: 0 <= i < j < |cs| ==> cs[i] < cs[j]
  {
    assert forall c :: c in y ==> IsLabel(c);
    (if 0 in y then [0] else []) + (if 1 in y then [1] else [])
  }

  // ---------------------------------------------------------------------------
  // Training

  datatype Training =
    | NoUploads                       // the directory is missing or cannot be listed
    | TooFewFiles(split: Split)       // fewer than two files of a class
    | TooFewVectors(ts: TrainingSet) // fewer than four valid vectors in all
    | ScalerRaised(ts: TrainingSet)
    | ForestRaised(ts: TrainingSet)
    | Fitted(ts: TrainingSet)

  /** What train_on_existing_images decides, in the order it decides it. */
  function TrainingOutcome(disk: Disk, lib: Library): (o: Training)
    ensures o.NoUploads? <==> disk.uploads.None?
    ensures o.TooFewFiles? ==> |o.split.tumor| < MinFilesPerClass || |o.split.nonTumor| < MinFilesPerClass
    ensures o.TooFewVectors? ==> |o.ts.x| < MinVectors
    ensures o.ScalerRaised? ==> |o.ts.x| >= MinVectors && !lib.scalerFits(o.ts.x)
    ensures o.ForestRaised? ==> |o.ts.x| >= MinVectors && lib.scalerFits(o.ts.x) && !lib.forestFits(o.ts)
    ensures o.Fitted? ==> |o.ts.x| >= MinVectors && lib.scalerFits(o.ts.x) && lib.forestFits(o.ts)
  {
    match disk.uploads
    case None => NoUploads
    case Some(names) =>
      var split := SplitListing(names);
      if |split.tumor| < MinFilesPerClass || |split.nonTumor| < MinFilesPerClass then TooFewFiles(split)
      else
        FitOutcome(LabelledSamples(disk, split), lib)
  }

  /** The part of the run after the vectors are collected. */
  function FitOutcome(ts: TrainingSet, lib: Library): Training
  {
    if |ts.x| < MinVectors then TooFewVectors(ts)
    else if !lib.scalerFits(ts.x) then ScalerRaised(ts)
    else if !lib.forestFits(ts) then ForestRaised(ts)
    else Fitted(ts)
  }

  datatype DetectorState = DetectorState(classifier: Option<Forest>, scaler: Scaler, isTrained: bool)

  /** The fields after a training run with the given outcome. A failed fit of the
      scaler leaves it reset; a failed fit of the forest leaves the fitted scaler
      and a new unfitted forest behind. */
  function AfterTraining(s: DetectorState, o: Training): (t: DetectorState)
    ensures t.classifier != s.classifier ==> o.ForestRaised? || o.Fitted?
    ensures t.scaler != s.scaler ==> o.ScalerRaised? || o.ForestRaised? || o.Fitted?
    ensures o.ScalerRaised? ==> t.scaler.fittedOn.None? && t.classifier == s.classifier && t.isTrained == s.isTrained
    ensures o.ForestRaised? ==> t.classifier == Some(Forest(Estimators, Seed, None)) && t.isTrained == s.isTrained
  {
    match o
    case ScalerRaised(_) => s.(scaler := Scaler(None))
    case ForestRaised(ts) => s.(scaler := Scaler(Some(ts.x)), classifier := Some(Forest(Estimators, Seed, None)))
    case Fitted(ts) => DetectorState(Some(Forest(Estimators, Seed, Some(ts))), Scaler(Some(ts.x)), true)
    case _ => s
  }

  /** The file counts are checked before any image is read: the verdict depends
      on the listing alone. */
  lemma TooFewFilesIgnoresImages(d1: Disk, d2: Disk, lib: Library)
    requires d1.uploads == d2.uploads
    ensures TrainingOutcome(d1, lib).TooFewFiles? <==> TrainingOutcome(d2, lib).TooFewFiles?
    ensures TrainingOutcome(d1, lib).TooFewFiles? <==>
      d1.uploads.Some? && (|SplitListing(d1.uploads.value).tumor| < MinFilesPerClass
                           || |SplitListing(d1.uploads.value).nonTumor| < MinFilesPerClass)
  {
  }

  /** A successful run saw at least two files of each class and at least four
      valid vectors, with X and y of equal length and tumor rows first. */
  lemma FittedTrainingSet(disk: Disk, lib: Library)
    requires TrainingOutcome(disk, lib).Fitted?
    ensures var ts, split := TrainingOutcome(disk, lib).ts, SplitListing(disk.uploads.value);
      && |split.tumor| >= MinFilesPerClass && |split.nonTumor| >= MinFilesPerClass
      && |ts.x| == |ts.y| >= MinVectors
      && BinaryLabels(ts)
      && ts == LabelledSamples(disk, split)
      && (forall v :: v in ts.x ==> |v| == FeatureCount)
  {
    LabelledSamplesShape(disk, SplitListing(disk.uploads.value));
  }

  /** The converse of the guards: a listing with two files per class, four valid
      vectors and fits that complete trains on exactly those samples. */
  lemma GuardsPassedTrains(disk: Disk, lib: Library)
    requires disk.uploads.Some?
    requires |SplitListing(disk.uploads.value).tumor| >= MinFilesPerClass
    requires |SplitListing(disk.uploads.value).nonTumor| >= MinFilesPerClass
    requires |LabelledSamples(disk, SplitListing(disk.uploads.value)).x| >= MinVectors
    requires lib.scalerFits(LabelledSamples(disk, SplitListing(disk.uploads.value)).x)
    requires lib.forestFits(LabelledSamples(disk, SplitListing(disk.uploads.value)))
    ensures TrainingOutcome(disk, lib) == Fitted(LabelledSamples(disk, SplitListing(disk.uploads.value)))
  {
  }

  /** Every verdict past the file counts carries the samples the scan yields. */
  lemma OutcomeCarriesSamples(disk: Disk, lib: Library)
    requires TrainingOutcome(disk, lib).TooFewVectors? || TrainingOutcome(disk, lib).ScalerRaised?
             || TrainingOutcome(disk, lib).ForestRaised? || TrainingOutcome(disk, lib).Fitted?
    ensures disk.uploads.Some?
    ensures TrainingOutcome(disk, lib).ts == LabelledSamples(disk, SplitListing(disk.uploads.value))
  {
  }

  /** Only the success path sets the flag; every failing run keeps it, and the
      runs that stop before fitting change nothing at all. */
  lemma TrainingFlag(s: DetectorState, o: Training)
    ensures AfterTraining(s, o).isTrained <==> s.isTrained || o.Fitted?
    ensures o.NoUploads? || o.TooFewFiles? || o.TooFewVectors? ==> AfterTraining(s, o) == s
    ensures o.Fitted? ==> (&& AfterTraining(s, o).scaler.fittedOn == Some(o.ts.x)
                           && AfterTraining(s, o).classifier == Some(Forest(Estimators, Seed, Some(o.ts))))
  {
  }

  /** The per-class counts are not rechecked after extraction: two tumor files
      that read and two non-tumor files that do not still train, on four tumor
      rows. */
  lemma OneClassCanTrain(img: Image, lib: Library)
    requires Features(img).Some?
    requires forall x :: lib.scalerFits(x)
    requires forall ts :: lib.forestFits(ts)
    ensures var disk := Disk(Some(["y1.png", "y2.png", "y3.png", "y4.png", "n1.png", "n2.png"]),
                             map["uploads/y1.png" := img, "uploads/y2.png" := img,
                                 "uploads/y3.png" := img, "uploads/y4.png" := img]);
      TrainingOutcome(disk, lib).Fitted? && TrainingOutcome(disk, lib).ts.y == [1, 1, 1, 1]
  {
    var disk := Disk(Some(["y1.png", "y2.png", "y3.png", "y4.png", "n1.png", "n2.png"]),
                     map["uploads/y1.png" := img, "uploads/y2.png" := img,
                         "uploads/y3.png" := img, "uploads/y4.png" := img]);
    var split := SplitOfSampleListing();
    var v := Features(img).value;
    VectorsOfSampleDisk(disk, img);
    assert LabelledSamples(disk, split).y == Repeat(TumorLabel, 4) + Repeat(NoTumorLabel, 0);
  }

  lemma SampleListingClasses()
    ensures Classify("y1.png") == TumorFile && Classify("y2.png") == TumorFile
    ensures Classify("y3.png") == TumorFile && Classify("y4.png") == TumorFile
    ensures Classify("n1.png") == NonTumorFile && Classify("n2.png") == NonTumorFile
  {
    SampleTumorNames();
    SampleNonTumorNames();
  }

  lemma SampleTumorNames()
    ensures Classify("y1.png") == TumorFile && Classify("y2.png") == TumorFile
    ensures Classify("y3.png") == TumorFile && Classify("y4.png") == TumorFile
  {
    TumorByInitial("y1.png");
    TumorByInitial("y2.png");
    TumorByInitial("y3.png");
    TumorByInitial("y4.png");
  }

  lemma SampleNonTumorNames()
    ensures Classify("n1.png") == NonTumorFile && Classify("n2.png") == NonTumorFile
  {
    NonTumorByInitial("n1.png");
    NonTumorByInitial("n2.png");
  }

  /** The scan of a listing with one more name: that name's path joins its list. */
  lemma SplitBySnoc(names: seq<string>, name: string, classify: string -> FileClass)
    ensures SplitBy(names + [name], classify) == match classify(name)
      case TumorFile => Split(SplitBy(names, classify).tumor + [UploadPath(name)], SplitBy(names, classify).nonTumor)
      case NonTumorFile => Split(SplitBy(names, classify).tumor, SplitBy(names, classify).nonTumor + [UploadPath(name)])
      case Ignored => SplitBy(names, classify)
  {
    assert (names + [name])[..|names|] == names;
  }

  lemma SplitOfSampleListing() returns (split: Split)
    ensures split == SplitListing(["y1.png", "y2.png", "y3.png", "y4.png", "n1.png", "n2.png"])
    ensures split == Split(["uploads/y1.png", "uploads/y2.png", "uploads/y3.png", "uploads/y4.png"],
                           ["uploads/n1.png", "uploads/n2.png"])
  {
    SampleListingClasses();
    split := SplitOfSampleNames(Classify);
  }

  /** The sample listing under any rule that sorts its names as the file-name rule does. */
  lemma SplitOfSampleNames(classify: string -> FileClass) returns (split: Split)
    requires classify("y1.png") == TumorFile && classify("y2.png") == TumorFile
    requires classify("y3.png") == TumorFile && classify("y4.png") == TumorFile
    requires classify("n1.png") == NonTumorFile && classify("n2.png") == NonTumorFile
    ensures split == SplitBy(["y1.png", "y2.png", "y3.png", "y4.png", "n1.png", "n2.png"], classify)
    ensures split == Split(["uploads/y1.png", "uploads/y2.png", "uploads/y3.png", "uploads/y4.png"],
                           ["uploads/n1.png", "uploads/n2.png"])
  {
    var l0: seq<string> := [];
    SplitBySnoc(l0, "y1.png", classify);
    var l1 := l0 + ["y1.png"];
    SplitBySnoc(l1, "y2.png", classify);
    var l2 := l1 + ["y2.png"];
    SplitBySnoc(l2, "y3.png", classify);
    var l3 := l2 + ["y3.png"];
    SplitBySnoc(l3, "y4.png", classify);
    var l4 := l3 + ["y4.png"];
    SplitBySnoc(l4, "n1.png", classify);
    var l5 := l4 + ["n1.png"];
    SplitBySnoc(l5, "n2.png", classify);
    var l6 := l5 + ["n2.png"];
    assert l6 == ["y1.png", "y2.png", "y3.png", "y4.png", "n1.png", "n2.png"];
    assert UploadPath("y1.png") == "uploads/y1.png" && UploadPath("y2.png") == "uploads/y2.png";
    assert UploadPath("y3.png") == "uploads/y3.png" && UploadPath("y4.png") == "uploads/y4.png";
    assert UploadPath("n1.png") == "uploads/n1.png" && UploadPath("n2.png") == "uploads/n2.png";
    split := SplitBy(l6, classify);
  }

  lemma VectorsOfSampleDisk(disk: Disk, img: Image)
    requires Features(img).Some?
    requires disk.files == map["uploads/y1.png" := img, "uploads/y2.png" := img,
                               "uploads/y3.png" := img, "uploads/y4.png" := img]
    ensures var v := Features(img).value;
      && Vectors(disk, ["uploads/y1.png", "uploads/y2.png", "uploads/y3.png", "uploads/y4.png"]) == [v, v, v, v]
      && Vectors(disk, ["uploads/n1.png", "uploads/n2.png"]) == []
  {
    var t1, t2, t3, t4 := "uploads/y1.png", "uploads/y2.png", "uploads/y3.png", "uploads/y4.png";
    var n1, n2 := "uploads/n1.png", "uploads/n2.png";
    var v := Features(img).value;
    assert Read(disk, t1) == img && Read(disk, t2) == img && Read(disk, t3) == img && Read(disk, t4) == img;
    assert Vectors(disk, [t1]) == [v] by { assert [t1][..0] == []; }
    assert Vectors(disk, [t1, t2]) == [v, v] by { assert [t1, t2][..1] == [t1]; }
    assert Vectors(disk, [t1, t2, t3]) == [v, v, v] by { assert [t1, t2, t3][..2] == [t1, t2]; }
    assert Vectors(disk, [t1, t2, t3, t4]) == [v, v, v, v] by { assert [t1, t2, t3, t4][..3] == [t1, t2, t3]; }
    assert n1 !in disk.files && n2 !in disk.files;
    assert Vectors(disk, [n1]) == [] by { assert [n1][..0] == []; }
    assert Vectors(disk, [n1, n2]) == [] by { assert [n1, n2][..1] == [n1]; }
  }

  /** A lower-case image name starting with `y` is a tumor file. */
  lemma TumorByInitial(name: string)
    requires IsLower(name) && |name| > 0 && name[0] == 'y' && EndsWith(name, ".png")
    ensures Classify(name) == TumorFile
  {
    LowerFixesLowerCase(name);
    assert name[..1] == "y";
  }

  /** A lower-case image name starting with `n` and holding no `t` is a non-tumor file. */
  lemma NonTumorByInitial(name: string)
    requires IsLower(name) && |name| > 1 && name[0] == 'n' && name[1] != '_' && 't' !in name
    requires EndsWith(name, ".png")
    ensures Classify(name) == NonTumorFile
  {
    LowerFixesLowerCase(name);
    MissingFirstChar(name, "tumor");
    assert name[..1] == "n" && name[..1] != "y" && name[..2] != "Y_";
  }

  // ---------------------------------------------------------------------------
  // Prediction

  /** The state invariant: a fitted forest was fitted on labels 0 and 1 only. */
  predicate Sound(s: DetectorState)
  {
    s.classifier.Some? && s.classifier.value.fittedOn.Some? ==> BinaryLabels(s.classifier.value.fittedOn.value)
  }

  lemma TrainingKeepsSound(s: DetectorState, disk: Disk, lib: Library)
    requires Sound(s)
    ensures Sound(AfterTraining(s, TrainingOutcome(disk, lib)))
  {
    var o := TrainingOutcome(disk, lib);
    if o.Fitted? || o.ForestRaised? {
      LabelledSamplesShape(disk, SplitListing(disk.uploads.value));
    }
  }

  /** The try block of predict: extract, scale, classify; the label is
      classes_[argmax(proba)]. Any failure along the way (no vector, an unfitted
      scaler or forest, a raising library call, a malformed probability row)
      falls back to simple_predict. */
  function ClassifierPredict(s: DetectorState, lib: Library, img: Image, heads: bool): (cls: int)
    requires Sound(s)
    ensures IsLabel(cls)
    ensures Features(img).None? ==> cls == SimplePredict(img, heads)
    ensures s.scaler.fittedOn.None? || s.classifier.None? || s.classifier.value.fittedOn.None?
            ==> cls == SimplePredict(img, heads)
    ensures (&& Features(img).Some? && s.scaler.fittedOn.Some?
             && s.classifier.Some? && s.classifier.value.fittedOn.Some?
             && lib.proba(s.scaler.fittedOn.value, s.classifier.value.fittedOn.value, Features(img).value).None?)
            ==> cls == SimplePredict(img, heads)
  {
    match Features(img)
    case None => SimplePredict(img, heads)
    case Some(v) =>
      if s.scaler.fittedOn.None? || s.classifier.None? || s.classifier.value.fittedOn.None? then
        SimplePredict(img, heads)
      else
        var ts := s.classifier.value.fittedOn.value;
        var classes := Classes(ts.y);
        match lib.proba(s.scaler.fittedOn.value, ts, v)
        case None => SimplePredict(img, heads)
        case Some(p) =>
          if |p| == |classes| && |p| > 0 then
            assert classes[ArgMax(p)] in ts.y;
            classes[ArgMax(p)]
          else SimplePredict(img, heads)
  }

  /** The classifier's label is one of the labels it was trained on. */
  lemma ClassifierLabelSeenInTraining(s: DetectorState, lib: Library, img: Image, heads: bool)
    requires Sound(s) && s.scaler.fittedOn.Some? && s.classifier.Some? && s.classifier.value.fittedOn.Some?
    requires Features(img).Some?
    requires var ts := s.classifier.value.fittedOn.value;
      && lib.proba(s.scaler.fittedOn.value, ts, Features(img).value).Some?
      && |lib.proba(s.scaler.fittedOn.value, ts, Features(img).value).value| == |Classes(ts.y)| > 0
    ensures ClassifierPredict(s, lib, img, heads) in s.classifier.value.fittedOn.value.y
    ensures var ts := s.classifier.value.fittedOn.value;
      var p := lib.proba(s.scaler.fittedOn.value, ts, Features(img).value).value;
      ClassifierPredict(s, lib, img, heads) == Classes(ts.y)[ArgMax(p)]
    ensures var ts := s.classifier.value.fittedOn.value;
      var p := lib.proba(s.scaler.fittedOn.value, ts, Features(img).value).value;
      Classes(ts.y) == [0, 1] ==> (ClassifierPredict(s, lib, img, heads) == 1 <==> p[1] > p[0])
  {
  }

  /** One call of predict as a function of the fields before it: train if
      untrained, fall back to simple_predict if that fails, else classify. */
  function PredictStep(s: DetectorState, disk: Disk, lib: Library, path: string, heads: bool): (r: (int, DetectorState))
    requires Sound(s)
    ensures Sound(r.1) && IsLabel(r.0)
  {
    var img := Read(disk, path);
    if s.isTrained then (ClassifierPredict(s, lib, img, heads), s)
    else
      var o := TrainingOutcome(disk, lib);
      TrainingKeepsSound(s, disk, lib);
      var t := AfterTraining(s, o);
      if o.Fitted? then (ClassifierPredict(t, lib, img, heads), t)
      else (SimplePredict(img, heads), t)
  }

  /** Once trained, predict never trains again; while untrained, every call
      trains, and a call whose training fails answers by the simple rule and
      leaves the detector untrained, so the next call trains again. */
  lemma PredictLifecycle(s: DetectorState, disk: Disk, lib: Library, path: string, heads: bool)
    requires Sound(s)
    ensures s.isTrained ==> PredictStep(s, disk, lib, path, heads).1 == s
    ensures !s.isTrained ==> PredictStep(s, disk, lib, path, heads).1 == AfterTraining(s, TrainingOutcome(disk, lib))
    ensures !s.isTrained && !TrainingOutcome(disk, lib).Fitted? ==>
      && !PredictStep(s, disk, lib, path, heads).1.isTrained
      && PredictStep(s, disk, lib, path, heads).0 == SimplePredict(Read(disk, path), heads)
    ensures PredictStep(s, disk, lib, path, heads).1.isTrained <==> s.isTrained || TrainingOutcome(disk, lib).Fitted?
  {
  }

  /** SmartTumorDetector: an is_trained flag and the fitted scaler and forest,
      trained lazily from the uploads directory. */
  class SmartTumorDetector {
    var classifier: Option<Forest>
    var scaler: Scaler
    var isTrained: bool

    function State(): DetectorState
      reads this
    {
      DetectorState(classifier, scaler, isTrained)
    }

    predicate Valid()
      reads this
    {
      Sound(State())
    }

    constructor ()
      ensures Valid()
      ensures State() == DetectorState(None, Scaler(None), false)
    {
      classifier := None;
      scaler := Scaler(None);
      isTrained := false;
    }

    /** extract_features: the vector is built stage by stage; the shape stage
        appends exactly one value on both of its branches. */
    method ExtractFeatures(disk: Disk, path: string) returns (r: Option<seq<real>>)
      ensures r == Features(Read(disk, path))
      ensures r.Some? ==> |r.value| == FeatureCount
    {
      var img := Read(disk, path);
      if !img.Gray? || img.stats.analysisRaises {
        return None;
      }
      var s := img.stats;
      var features: seq<real> := [];
      features := features + [s.mean, s.std, s.variance, s.max, s.min];
      features := features + [s.histMean, s.histStd, s.histP25, s.histP75];
      features := features + [s.edgeDensity];
      features := features + [s.textureMean, s.textureStd, s.textureVariance];
      if |s.contourAreas| > 0 {
        if s.pixelCount == 0 {
          return None;
        }
        features := features + [LargestArea(s.contourAreas) / s.pixelCount as real];
      } else {
        features := features + [0.0];
      }
      features := features + [s.fftMean, s.fftStd];
      assert features == Features(img).value;
      r := Some(features);
    }

    /** The directory scan: each image name goes to the first list whose rule it
        matches. */
    method CollectImages(names: seq<string>) returns (tumorImages: seq<string>, nonTumorImages: seq<string>)
      ensures Split(tumorImages, nonTumorImages) == SplitListing(names)
    {
      tumorImages, nonTumorImages := [], [];
      for i := 0 to |names|
        invariant Split(tumorImages, nonTumorImages) == SplitListing(names[..i])
      {
        assert names[..i + 1][..i] == names[..i];
        var filename := names[i];
        var c := Classify(filename);
        if c == TumorFile {
          tumorImages := tumorImages + [UploadPath(filename)];
        } else if c == NonTumorFile {
          nonTumorImages := nonTumorImages + [UploadPath(filename)];
        }
      }
      assert names[..|names|] == names;
    }

    /** One extraction loop: every path whose vector exists adds a row to X and
        the given label to y; a path without a vector adds to neither. */
    method AddSamples(disk: Disk, x: seq<seq<real>>, y: seq<int>, paths: seq<string>, cls: int)
      returns (x': seq<seq<real>>, y': seq<int>)
      ensures x' == x + Vectors(disk, paths)
      ensures y' == y + Repeat(cls, |Vectors(disk, paths)|)
    {
      x', y' := x, y;
      for i := 0 to |paths|
        invariant x' == x + Vectors(disk, paths[..i])
        invariant y' == y + Repeat(cls, |Vectors(disk, paths[..i])|)
      {
        assert paths[..i + 1][..i] == paths[..i];
        var features := ExtractFeatures(disk, paths[i]);
        if features.Some? {
          x' := x' + [features.value];
          y' := y' + [cls];
        }
        assert Repeat(cls, |Vectors(disk, paths[..i + 1])|) == y'[|y|..];
      }
      assert paths[..|paths|] == paths;
    }

    /** The tumor rows, then the non-tumor rows, of the two lists. */
    method CollectSamples(disk: Disk, split: Split) returns (ts: TrainingSet)
      ensures ts == LabelledSamples(disk, split)
      ensures BinaryLabels(ts)
    {
      var x, y := [], [];
      x, y := AddSamples(disk, x, y, split.tumor, TumorLabel);
      x, y := AddSamples(disk, x, y, split.nonTumor, NoTumorLabel);
      ts := TrainingSet(x, y);
      LabelledSamplesShape(disk, split);
    }

    /** train_on_existing_images */
    method TrainOnExistingImages(disk: Disk, lib: Library) returns (ok: bool)
      requires Valid()
      modifies this
      ensures Valid()
      ensures ok <==> TrainingOutcome(disk, lib).Fitted?
      ensures State() == AfterTraining(old(State()), TrainingOutcome(disk, lib))
    {
      if disk.uploads.None? {
        return false;
      }
      var tumorImages, nonTumorImages := CollectImages(disk.uploads.value);
      if |tumorImages| < MinFilesPerClass || |nonTumorImages| < MinFilesPerClass {
        return false;
      }
      var ts := CollectSamples(disk, Split(tumorImages, nonTumorImages));
      var x := ts.x;
      assert TrainingOutcome(disk, lib) == FitOutcome(ts, lib);
      if |x| < MinVectors {
        return false;
      }
      if !lib.scalerFits(x) {
        scaler := Scaler(None);
        return false;
      }
      scaler := Scaler(Some(x));
      classifier := Some(Forest(Estimators, Seed, None));
      if !lib.forestFits(ts) {
        return false;
      }
      classifier := Some(Forest(Estimators, Seed, Some(ts)));
      isTrained := true;
      ok := true;
    }

    /** predict: the confidence, max(predict_proba), is computed but only logged. */
    method Predict(disk: Disk, lib: Library, path: string, heads: bool) returns (cls: int)
      requires Valid()
      modifies this
      ensures Valid()
      ensures (cls, State()) == PredictStep(old(State()), disk, lib, path, heads)
    {
      var img := Read(disk, path);
      if !isTrained {
        var trained := TrainOnExistingImages(disk, lib);
        if !trained {
          return SimplePredict(img, heads);
        }
      }
      var features := ExtractFeatures(disk, path);
      if features.None? {
        return SimplePredict(img, heads);
      }
      if scaler.fittedOn.None? || classifier.None? || classifier.value.fittedOn.None? {
        // transform or predict raises on an unfitted object
        return SimplePredict(img, heads);
      }
      var ts := classifier.value.fittedOn.value;
      var classes := Classes(ts.y);
      var proba := lib.proba(scaler.fittedOn.value, ts, features.value);
      if proba.None? || |proba.value| != |classes| || |proba.value| == 0 {
        return SimplePredict(img, heads);
      }
      var k := ArgMax(proba.value);
      cls := classes[k];
      var confidence := proba.value[k];
    }
  }

  /** smart_getResult: the module-level detector's label as a one-element array. */
  method SmartGetResult(detector: SmartTumorDetector, disk: Disk, lib: Library, path: string, heads: bool)
    returns (r: seq<int>)
    requires detector.Valid()
    modifies detector
    ensures detector.Valid()
    ensures |r| == 1 && IsLabel(r[0])
    ensures (r[0], detector.State()) == PredictStep(old(detector.State()), disk, lib, path, heads)
  {
    var cls := detector.Predict(disk, lib, path, heads);
    r := [cls];
  }
}
