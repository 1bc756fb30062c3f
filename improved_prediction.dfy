/** The threshold scorer: five image characteristics, a fixed integer score and
    a decision at score 2, with a 10% chance of a random answer on top. */
module ImprovedPrediction {
  import opened Wrappers
  import opened Common

  /** The dictionary analyze_image_characteristics fills, one field per key. */
  datatype Characteristics = Characteristics(
    brightness: real, contrast: real, edgeDensity: real, textureVariance: real, histogramStd: real)

  const BrightAbove := 120.0
  const DarkBelow := 80.0
  const ContrastAbove := 40.0
  const EdgeDensityAbove := 0.1
  const TextureVarianceAbove := 500.0
  const HistogramStdAbove := 2000.0
  /** The score at which the rule answers "tumor". */
  const DecisionScore := 2
  /** random.random() below this replaces the rule's answer by a coin toss. */
  const RandomOverride := 0.1

  /** analyze_image_characteristics: None when the image cannot be read or a
      step raises; otherwise all five characteristics. */
  function AnalyzeImageCharacteristics(img: Image): (r: Option<Characteristics>)
    ensures r.Some? <==> img.Gray? && !img.stats.analysisRaises
  {
    match img
    case Gray(s) =>
      if s.analysisRaises then None
      else Some(Characteristics(s.mean, s.std, s.edgeDensity, s.textureVariance, s.histStd))
    case _ => None
  }

  function Indicator(b: bool): int
  {
    if b then 1 else 0
  }

  /** +1 when bright, -1 when dark, 0 in between. */
  function BrightnessTerm(brightness: real): (t: int)
    ensures -1 <= t <= 1
  {
    if brightness > BrightAbove then 1 else if brightness < DarkBelow then -1 else 0
  }

  /** How many of the four indicators other than brightness fire. */
  function OtherIndicators(c: Characteristics): (n: int)
    ensures 0 <= n <= 4
  {
    Indicator(c.contrast > ContrastAbove) + Indicator(c.edgeDensity > EdgeDensityAbove)
    + Indicator(c.textureVariance > TextureVarianceAbove) + Indicator(c.histogramStd > HistogramStdAbove)
  }

  /** The score as a sum of its six terms. */
  function Score(c: Characteristics): (score: int)
    ensures -1 <= score <= 5
  {
    BrightnessTerm(c.brightness) + OtherIndicators(c)
  }

  /** predict_tumor_based_on_characteristics as a value: a coin toss without
      characteristics, else 1 exactly when the score reaches 2. */
  function RuleOutput(c: Option<Characteristics>, heads: bool): (r: int)
    ensures IsLabel(r)
    ensures c.None? ==> r == RandomLabel(heads)
    ensures c.Some? ==> (r == 1 <==> Score(c.value) >= DecisionScore)
  {
    match c
    case None => RandomLabel(heads)
    case Some(ch) => if Score(ch) >= DecisionScore then 1 else 0
  }

  /** predict_tumor_based_on_characteristics, accumulating the score term by term. */
  method PredictTumorBasedOnCharacteristics(c: Option<Characteristics>, heads: bool) returns (r: int)
    ensures r == RuleOutput(c, heads)
    ensures IsLabel(r)
  {
    if c.None? {
      return RandomLabel(heads);
    }
    var ch := c.value;
    var score := 0;
    if ch.brightness > BrightAbove {
      score := score + 1;
    } else if ch.brightness < DarkBelow {
      score := score - 1;
    }
    if ch.contrast > ContrastAbove {
      score := score + 1;
    }
    if ch.edgeDensity > EdgeDensityAbove {
      score := score + 1;
    }
    if ch.textureVariance > TextureVarianceAbove {
      score := score + 1;
    }
    if ch.histogramStd > HistogramStdAbove {
      score := score + 1;
    }
    r := if score >= DecisionScore then 1 else 0;
  }

  /** improved_getResult: the rule's label, replaced by a second coin toss when
      the uniform draw `u` falls below 0.1; always a one-element array. */
  function ImprovedGetResult(img: Image, heads: bool, u: real, heads2: bool): (r: seq<int>)
    ensures |r| == 1 && IsLabel(r[0])
    ensures u < RandomOverride ==> r[0] == RandomLabel(heads2)
    ensures u >= RandomOverride ==> r[0] == RuleOutput(AnalyzeImageCharacteristics(img), heads)
  {
    var prediction := RuleOutput(AnalyzeImageCharacteristics(img), heads);
    [if u < RandomOverride then RandomLabel(heads2) else prediction]
  }

  // ---------------------------------------------------------------------------
  // Properties of the rule

  /** Raising any characteristic never lowers the score, so never turns a 1 into a 0. */
  lemma ScoreMonotone(c: Characteristics, d: Characteristics)
    requires c.brightness <= d.brightness && c.contrast <= d.contrast && c.edgeDensity <= d.edgeDensity
    requires c.textureVariance <= d.textureVariance && c.histogramStd <= d.histogramStd
    ensures Score(c) <= Score(d)
    ensures forall h :: RuleOutput(Some(c), h) <= RuleOutput(Some(d), h)
  {
  }

  /** Every comparison is strict: a characteristic exactly at its threshold adds
      nothing, term by term, and so all of them at once score 0. */
  lemma ThresholdsAreStrict(c: Characteristics)
    requires c.brightness == BrightAbove || c.brightness == DarkBelow
    requires c.contrast == ContrastAbove && c.edgeDensity == EdgeDensityAbove
    requires c.textureVariance == TextureVarianceAbove && c.histogramStd == HistogramStdAbove
    ensures BrightnessTerm(c.brightness) == 0 && OtherIndicators(c) == 0
    ensures Score(c) == 0
    ensures forall h :: RuleOutput(Some(c), h) == 0
  {
  }

  /** One characteristic at a time: sitting exactly at its threshold, it scores
      as if it were far below. */
  lemma EachThresholdIsStrict(c: Characteristics)
    ensures c.brightness == BrightAbove || c.brightness == DarkBelow ==> BrightnessTerm(c.brightness) == 0
    ensures c.contrast == ContrastAbove ==> OtherIndicators(c) == OtherIndicators(c.(contrast := 0.0))
    ensures c.edgeDensity == EdgeDensityAbove ==> OtherIndicators(c) == OtherIndicators(c.(edgeDensity := 0.0))
    ensures c.textureVariance == TextureVarianceAbove ==>
              OtherIndicators(c) == OtherIndicators(c.(textureVariance := 0.0))
    ensures c.histogramStd == HistogramStdAbove ==> OtherIndicators(c) == OtherIndicators(c.(histogramStd := 0.0))
  {
  }

  /** A dark image is a tumor only when at least three of the other four indicators fire. */
  lemma DarkImageNeedsThree(c: Characteristics)
    requires c.brightness < DarkBelow
    ensures Score(c) >= DecisionScore <==> OtherIndicators(c) >= 3
  {
  }

  /** The rule's two reference cases. */
  lemma ReferenceCases(h: bool)
    ensures Score(Characteristics(130.0, 45.0, 0.15, 600.0, 2500.0)) == 5
    ensures RuleOutput(Some(Characteristics(130.0, 45.0, 0.15, 600.0, 2500.0)), h) == 1
    ensures Score(Characteristics(100.0, 10.0, 0.02, 50.0, 100.0)) == 0
    ensures RuleOutput(Some(Characteristics(100.0, 10.0, 0.02, 50.0, 100.0)), h) == 0
  {
  }

  /** Without the random override, a readable image is labelled by its score
      alone, and the first coin is never consulted. */
  lemma ImprovedFollowsScore(img: Image, heads: bool, u: real, heads2: bool)
    requires u >= RandomOverride && img.Gray? && !img.stats.analysisRaises
    ensures var c := AnalyzeImageCharacteristics(img).value;
      ImprovedGetResult(img, heads, u, heads2)[0] == 1 <==> Score(c) >= DecisionScore
    ensures ImprovedGetResult(img, heads, u, heads2) == ImprovedGetResult(img, !heads, u, heads2)
  {
  }
}
