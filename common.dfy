/** What the prediction modules share: images as the statistics OpenCV and
    NumPy compute from them, the uploads directory, labels, injected random
    draws, NumPy's argmax and the tumor-data record. */
module Common {
  import opened Wrappers

  /** Statistics of the grayscale image, as the numeric library computes them.
      `analysisRaises` records that one of the later numeric steps (histogram,
      edge detector, box filter, contours, FFT) raises for this image. */
  datatype GrayStats = GrayStats(
    mean: real, std: real, variance: real, max: real, min: real,
    histMean: real, histStd: real, histP25: real, histP75: real,
    edgeDensity: real,
    textureMean: real, textureStd: real, textureVariance: real,
    contourAreas: seq<real>, pixelCount: nat,
    fftMean: real, fftStd: real,
    analysisRaises: bool)

  /** The outcome of reading one image file. */
  datatype Image =
    | Unreadable                 // cv2.imread returned None (missing or undecodable file)
    | ConversionFails            // loaded, but the grayscale conversion raises
    | Gray(stats: GrayStats)

  /** The file system as the core sees it: the listing of the uploads directory
      (None when it does not exist or cannot be listed) and the image at each path. */
  datatype Disk = Disk(uploads: Option<seq<string>>, files: map<string, Image>)

  /** cv2.imread: a path with no image behind it reads as None. */
  function Read(disk: Disk, path: string): (img: Image)
    ensures path !in disk.files ==> img == Unreadable
  {
    if path in disk.files then disk.files[path] else Unreadable
  }

  /** Class labels: 0 = no tumor, 1 = tumor. */
  predicate IsLabel(x: int)
  {
    x == 0 || x == 1
  }

  /** random.choice([0, 1]) with the draw injected: `heads` picks 1. */
  function RandomLabel(heads: bool): (r: int)
    ensures IsLabel(r)
    ensures r == 1 <==> heads
  {
    if heads then 1 else 0
  }

  /** numpy.argmax: the FIRST index holding the largest value. */
  function ArgMax(p: seq<real>): (k: nat)
    requires |p| > 0
    ensures k < |p|
    ensures forall j :: 0 <= j < |p| ==> p[j] <= p[k]
    ensures forall j :: 0 <= j < k ==> p[j] < p[k]
  {
    if |p| == 1 then 0
    else
      var k := ArgMax(p[..|p| - 1]);
      if p[|p| - 1] > p[k] then |p| - 1 else k
  }

  /** The draws random.randint makes: `randint(a, b)` lies in [a, b]. */
  ghost predicate RandintInRange(randint: (int, int) -> int)
  {
    forall a, b :: a <= b ==> a <= randint(a, b) <= b
  }

  /** round(random.uniform(0.5, 5.0), 2) in hundredths of a centimetre. */
  type Hundredths = x: int | 50 <= x <= 500 witness 50

  /** The dictionary generate_tumor_data returns, one field per key. */
  datatype TumorData = TumorData(
    size: Hundredths, isDangerous: bool, lifeSpan: int, treatmentTimeframe: string)
}
