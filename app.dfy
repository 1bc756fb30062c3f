/** The web application's prediction path: the deep model decided once at
    start-up, the tier cascade that runs when it is absent or fails, the label
    names, and the tumor data attached to a positive result. */
module App {
  import opened Wrappers
  import opened Text
  import opened Common
  import opened SmartPrediction
  import opened ImprovedPrediction

  /** The VGG19-based network: for an image, its 2-way softmax output, or None
      when prediction raises. */
  datatype DeepModel = DeepModel(softmax: Image -> Option<(real, real)>)

  /** model_03 at import: present only when the network is built, its weights
      file exists and the weights load. */
  function LoadModel03(net: DeepModel, constructs: bool, weightsPresent: bool, weightsLoad: bool)
    : (m: Option<DeepModel>)
    ensures m.None? <==> !constructs || !weightsPresent || !weightsLoad
    ensures m.Some? ==> m.value == net
  {
    if !constructs then None
    else if !weightsPresent then None
    else if !weightsLoad then None
    else Some(net)
  }

  /** The deep tier's answer: argmax over the softmax pair, or None when it raises
      (an unreadable image already fails converting the missing array). */
  function DeepLabel(m: DeepModel, img: Image): (r: Option<int>)
    ensures img.Unreadable? ==> r.None?
    ensures r.Some? <==> !img.Unreadable? && m.softmax(img).Some?
    ensures r.Some? ==> IsLabel(r.value)
    ensures r.Some? ==> (r.value == 1 <==> m.softmax(img).value.1 > m.softmax(img).value.0)
  {
    if img.Unreadable? then None
    else
      match m.softmax(img)
      case None => None
      case Some(p) => Some(ArgMax([p.0, p.1]) as int)
  }

  /** get_className: only 0 and 1 have a name. */
  function ClassName(classNo: int): (r: Option<string>)
    ensures r.Some? <==> IsLabel(classNo)
    ensures classNo == 0 ==> r == Some("No Brain Tumor")
    ensures classNo == 1 ==> r == Some("Yes Brain Tumor")
  {
    if classNo == 0 then Some("No Brain Tumor")
    else if classNo == 1 then Some("Yes Brain Tumor")
    else None
  }

  /** The upload handler's test `"Yes" in result` holds exactly for label 1. */
  lemma YesOnlyForTumor(classNo: int)
    requires IsLabel(classNo)
    ensures Contains(ClassName(classNo).value, "Yes") <==> classNo == 1
  {
    if classNo == 1 {
      assert OccursAt("Yes Brain Tumor", "Yes", 0);
    } else {
      MissingFirstChar("No Brain Tumor", "Yes");
    }
  }

  // ---------------------------------------------------------------------------
  // The tier cascade

  /** What importing a fallback module does: it loads, it raises ImportError, or
      it raises some other exception (which no handler catches). */
  datatype ImportOutcome = Imported | ImportFails | OtherError

  datatype Tier = DeepTier | SmartTier | ImprovedTier | RandomTier | Raised

  /** The tier that answers, given whether the deep model answered and what the
      two imports do. Only ImportError moves the cascade on. */
  function TierUsed(deepAnswers: bool, smart: ImportOutcome, improved: ImportOutcome): (t: Tier)
    ensures t == DeepTier <==> deepAnswers
    ensures t == SmartTier <==> !deepAnswers && smart == Imported
    ensures t == ImprovedTier <==> !deepAnswers && smart == ImportFails && improved == Imported
    ensures t == RandomTier <==> !deepAnswers && smart == ImportFails && improved == ImportFails
    ensures t == Raised <==> !deepAnswers && (smart == OtherError || (smart == ImportFails && improved == OtherError))
  {
    if deepAnswers then DeepTier
    else
      match smart
      case Imported => SmartTier
      case OtherError => Raised
      case ImportFails =>
        match improved
        case Imported => ImprovedTier
        case ImportFails => RandomTier
        case OtherError => Raised
  }

  /** Whether the deep tier answers for this image. */
  predicate DeepAnswers(model03: Option<DeepModel>, img: Image)
  {
    model03.Some? && DeepLabel(model03.value, img).Some?
  }

  /** A failing deep model leads into the same chain as an absent one. */
  lemma DeepFailureJoinsAbsentPath(m: DeepModel, img: Image, smart: ImportOutcome, improved: ImportOutcome)
    requires DeepLabel(m, img).None?
    ensures TierUsed(DeepAnswers(Some(m), img), smart, improved) == TierUsed(DeepAnswers(None, img), smart, improved)
  {
  }

  /** When no import raises anything but ImportError, some tier always answers. */
  lemma CascadeAlwaysAnswers(deepAnswers: bool, smart: ImportOutcome, improved: ImportOutcome)
    requires smart != OtherError && improved != OtherError
    ensures TierUsed(deepAnswers, smart, improved) != Raised
  {
  }

  /** The random draws one request can consume: the coin of a random label, the
      uniform draw of the 10% override and the coin that override tosses. */
  datatype Draws = Draws(heads: bool, u: real, heads2: bool)

  /** An exception that escapes getResult. */
  datatype Uncaught = ImportRaisedOther

  /** The process: model_03, the module-level detector of the smart tier, and what
      importing each fallback module does (the same on every call). */
  class Server {
    const model03: Option<DeepModel>
    const smartImport: ImportOutcome
    const improvedImport: ImportOutcome
    const detector: SmartTumorDetector

    /** Import time: model_03 is decided here and never reassigned. */
    constructor (net: DeepModel, constructs: bool, weightsPresent: bool, weightsLoad: bool,
                 smartImport: ImportOutcome, improvedImport: ImportOutcome)
      ensures model03 == LoadModel03(net, constructs, weightsPresent, weightsLoad)
      ensures this.smartImport == smartImport && this.improvedImport == improvedImport
      ensures fresh(detector) && detector.Valid() && !detector.isTrained
    {
      model03 := LoadModel03(net, constructs, weightsPresent, weightsLoad);
      this.smartImport := smartImport;
      this.improvedImport := improvedImport;
      detector := new SmartTumorDetector();
    }

    /** The chain after the deep model: smart, else improved, else random. */
    method Fallback(disk: Disk, lib: Library, path: string, draws: Draws)
      returns (r: Result<seq<int>, Uncaught>, ghost tier: Tier)
      requires detector.Valid()
      modifies detector
      ensures detector.Valid()
      ensures tier == TierUsed(false, smartImport, improvedImport)
      ensures r.Success? <==> tier != Raised
      ensures r.Success? ==> |r.value| == 1 && IsLabel(r.value[0])
      ensures tier == SmartTier ==>
        (r.value[0], detector.State()) == PredictStep(old(detector.State()), disk, lib, path, draws.heads)
      ensures tier != SmartTier ==> detector.State() == old(detector.State())
      ensures tier == ImprovedTier ==> r.value == ImprovedGetResult(Read(disk, path), draws.heads, draws.u, draws.heads2)
      ensures tier == RandomTier ==> r.value == [RandomLabel(draws.heads)]
    {
      tier := TierUsed(false, smartImport, improvedImport);
      match smartImport
      case Imported =>
        var labels := SmartGetResult(detector, disk, lib, path, draws.heads);
        r := Success(labels);
      case OtherError =>
        r := Failure(ImportRaisedOther);
      case ImportFails =>
        match improvedImport
        case Imported =>
          r := Success(ImprovedGetResult(Read(disk, path), draws.heads, draws.u, draws.heads2));
        case ImportFails =>
          r := Success([RandomLabel(draws.heads)]);
        case OtherError =>
          r := Failure(ImportRaisedOther);
    }

    /** getResult: the deep model when it is loaded and answers, else the chain. */
    method GetResult(disk: Disk, lib: Library, path: string, draws: Draws)
      returns (r: Result<seq<int>, Uncaught>, ghost tier: Tier)
      requires detector.Valid()
      modifies detector
      ensures detector.Valid()
      ensures tier == TierUsed(DeepAnswers(model03, Read(disk, path)), smartImport, improvedImport)
      ensures r.Success? <==> tier != Raised
      ensures r.Success? ==> |r.value| == 1 && IsLabel(r.value[0])
      ensures tier == DeepTier ==> r.value == [DeepLabel(model03.value, Read(disk, path)).value]
      ensures tier == SmartTier ==>
        (r.value[0], detector.State()) == PredictStep(old(detector.State()), disk, lib, path, draws.heads)
      ensures tier != SmartTier ==> detector.State() == old(detector.State())
      ensures tier == ImprovedTier ==> r.value == ImprovedGetResult(Read(disk, path), draws.heads, draws.u, draws.heads2)
      ensures tier == RandomTier ==> r.value == [RandomLabel(draws.heads)]
    {
      if model03.Some? {
        var deep := DeepLabel(model03.value, Read(disk, path));
        if deep.Some? {
          return Success([deep.value]), DeepTier;
        }
      }
      r, tier := Fallback(disk, lib, path, draws);
    }
  }

  /** The feature vector of the smart tier and the characteristics of the
      improved tier read the same statistics. */
  lemma CharacteristicsMatchFeatureVector(img: Image)
    requires Features(img).Some?
    ensures AnalyzeImageCharacteristics(img).Some?
    ensures var c, v := AnalyzeImageCharacteristics(img).value, Features(img).value;
      && c.brightness == v[0] && c.contrast == v[1] && c.histogramStd == v[6]
      && c.edgeDensity == v[9] && c.textureVariance == v[12]
  {
    FeatureLayout(img);
  }

  // ---------------------------------------------------------------------------
  // Tumor data

  /** generate_tumor_data: dangerous above 3 cm, with a short life span and an
      urgent timeframe; otherwise a long life span and six months. */
  function GenerateTumorData(size: Hundredths, randint: (int, int) -> int): (d: TumorData)
    requires RandintInRange(randint)
    ensures d.size == size
    ensures d.isDangerous <==> size > 300
    ensures d.isDangerous ==> 1 <= d.lifeSpan <= 5
    ensures d.isDangerous ==> d.treatmentTimeframe == (if size > 400 then "within 1 month" else "within 3 months")
    ensures !d.isDangerous ==> 10 <= d.lifeSpan <= 30 && d.treatmentTimeframe == "within 6 months"
  {
    var isDangerous := size > 300;
    if isDangerous then
      TumorData(size, isDangerous, randint(1, 5), if size > 400 then "within 1 month" else "within 3 months")
    else
      TumorData(size, isDangerous, randint(10, 30), "within 6 months")
  }

  /** The upload handler attaches tumor data only when the class name says "Yes". */
  function TumorDataFor(classNo: int, size: Hundredths, randint: (int, int) -> int): (r: Option<TumorData>)
    requires IsLabel(classNo) && RandintInRange(randint)
    ensures r.Some? <==> classNo == 1
    ensures r.Some? ==> r.value == GenerateTumorData(size, randint)
  {
    YesOnlyForTumor(classNo);
    if Contains(ClassName(classNo).value, "Yes") then Some(GenerateTumorData(size, randint)) else None
  }
}
