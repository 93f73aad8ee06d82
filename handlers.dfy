/**
 * The helpers of the HTTP handlers that compute rather than talk to the
 * network: indicator renaming, averages, the analysis confidence, the
 * per-feature differences of two samples, the basic weighted comparison
 * and its confidence, the conversion of a weight map into category
 * weights, and the pagination defaults of the listing endpoint.
 *
 * Feature values arrive as JSON numbers, so they are finite; the NaN and
 * infinity guards of the source never fire on such values and are not
 * modelled. `math.Log` is the parameter `log`.
 */
module Handlers {
  import opened Common
  import opened Detector
  import opened Comparison
  import Classification

  // ------------------------------------------------------------------
  // Indicators and averages.
  // ------------------------------------------------------------------

  /**
   * combineClassificationIndicators: the same renaming as the classifier's
   * combineIndicators; the keys are exactly the renamed input keys.
   */
  method CombineClassificationIndicators(weaponIndicators: FeatureMap, caliberIndicators: FeatureMap)
    returns (combined: FeatureMap)
    ensures combined.Keys == (set k | k in weaponIndicators :: "weapon_" + k)
                           + (set k | k in caliberIndicators :: "caliber_" + k)
    ensures forall k :: k in weaponIndicators ==> combined["weapon_" + k] == weaponIndicators[k]
    ensures forall k :: k in caliberIndicators ==> combined["caliber_" + k] == caliberIndicators[k]
  {
    combined := Classification.CombineIndicators(weaponIndicators, caliberIndicators);
  }

  /** calculateAverageVariance: the mean of the values, 0 for an empty map. */
  method CalculateAverageVariance(variances: FeatureMap) returns (average: real)
    ensures average == Mean(variances)
  {
    if |variances| == 0 {
      return 0.0;
    }
    var sum := TotalScore(variances);
    average := sum / (|variances| as real);
  }

  lemma DivBetween(a: real, n: real, lo: real, hi: real)
    requires n > 0.0 && n * lo <= a <= n * hi
    ensures lo <= a / n <= hi
  {
  }

  /** The mean of values lying in [lo, hi] lies in [lo, hi]. */
  lemma MeanBetween(m: FeatureMap, lo: real, hi: real)
    requires |m| > 0
    requires forall k :: k in m ==> lo <= m[k] <= hi
    ensures lo <= Mean(m) <= hi
  {
    var ones := (k: string) => 1.0;
    var los := (k: string) => lo;
    var his := (k: string) => hi;
    RealSumOnes(m.Keys, ones);
    RealSumScale(m.Keys, ones, los, lo);
    RealSumScale(m.Keys, ones, his, hi);
    RealSumMono(m.Keys, los, ValuesOf(m));
    RealSumMono(m.Keys, ValuesOf(m), his);
    DivBetween(RealSum(m.Keys, ValuesOf(m)), |m| as real, lo, hi);
  }

  // ------------------------------------------------------------------
  // calculateAnalysisConfidence.
  // ------------------------------------------------------------------

  /** How many of the three key features count: the Hu moment, a positive contour area, the striation density. */
  function KeyFeatureCount(features: FeatureMap): (n: nat)
    ensures n <= 3
    ensures n == 0 <==> "hu_moment_1" !in features && "striation_density" !in features
                        && !Above(features, "contour_area", 0.0)
  {
    (if "hu_moment_1" in features then 1 else 0)
    + (if Above(features, "contour_area", 0.0) then 1 else 0)
    + (if "striation_density" in features then 1 else 0)
  }

  /** The quality points of the key features that count. */
  function QualitySum(features: FeatureMap, log: real -> real): real
  {
    (if "hu_moment_1" in features then Abs(features["hu_moment_1"]) * 0.3 else 0.0)
    + (if Above(features, "contour_area", 0.0) then log(features["contour_area"]) * 0.2 else 0.0)
    + (if "striation_density" in features then features["striation_density"] * 0.2 else 0.0)
  }

  /** The share of the 15 expected features present, at most 1. */
  function Completeness(featureCount: nat): (c: real)
    ensures 0.0 <= c <= 1.0
  {
    Min(featureCount as real / 15.0, 1.0)
  }

  /**
   * calculateAnalysisConfidence: 0.7 of the mean quality of the key
   * features plus 0.3 of the completeness, clamped to [0, 1]; 0 for an
   * empty map or when no key feature counts.
   */
  function CalculateAnalysisConfidence(features: FeatureMap, log: real -> real): (r: real)
    ensures 0.0 <= r <= 1.0
    ensures |features| == 0 ==> r == 0.0
    ensures KeyFeatureCount(features) == 0 ==> r == 0.0
  {
    if |features| == 0 then 0.0
    else
      var keyFeatures := KeyFeatureCount(features);
      if keyFeatures == 0 then 0.0
      else
        var qualityScore := QualitySum(features, log) / (keyFeatures as real);
        var confidence := qualityScore * 0.7 + Completeness(|features|) * 0.3;
        Max(0.0, Min(1.0, confidence))
  }

  /** Two maps that agree on the three key features. */
  predicate SameKeyFeatures(f: FeatureMap, g: FeatureMap)
  {
    forall k :: k in {"hu_moment_1", "contour_area", "striation_density"} ==>
      (k in f <==> k in g) && (k in f ==> f[k] == g[k])
  }

  /** Adding features other than the key ones never lowers the confidence. */
  lemma AnalysisConfidenceMonotone(f: FeatureMap, g: FeatureMap, log: real -> real)
    requires SameKeyFeatures(f, g) && |f| <= |g|
    ensures CalculateAnalysisConfidence(f, log) <= CalculateAnalysisConfidence(g, log)
  {
    assert "hu_moment_1" in {"hu_moment_1", "contour_area", "striation_density"};
    assert "contour_area" in {"hu_moment_1", "contour_area", "striation_density"};
    assert "striation_density" in {"hu_moment_1", "contour_area", "striation_density"};
    assert KeyFeatureCount(f) == KeyFeatureCount(g);
    assert QualitySum(f, log) == QualitySum(g, log);
    assert Completeness(|f|) <= Completeness(|g|);
  }

  /** A full sample (15 features or more) whose key features score non-negatively gets at least 0.3. */
  lemma AnalysisConfidenceFullSample(f: FeatureMap, log: real -> real)
    requires |f| >= 15 && KeyFeatureCount(f) > 0 && QualitySum(f, log) >= 0.0
    ensures CalculateAnalysisConfidence(f, log) >= 0.3
  {
    assert Completeness(|f|) == 1.0;
    var q := QualitySum(f, log) / (KeyFeatureCount(f) as real);
    assert q >= 0.0;
  }

  // ------------------------------------------------------------------
  // Differences between two samples.
  // ------------------------------------------------------------------

  /** The absolute difference on every key the two samples share. */
  function FeatureDiffsOf(s1: FeatureMap, s2: FeatureMap): FeatureMap
  {
    map k | k in s1.Keys * s2.Keys :: Abs(s1[k] - s2[k])
  }

  /**
   * The differences are keyed by exactly the shared features, one entry
   * each, are non-negative, vanish exactly on equal values, and do not
   * depend on the order of the samples.
   */
  lemma FeatureDiffsFacts(s1: FeatureMap, s2: FeatureMap)
    ensures FeatureDiffsOf(s1, s2).Keys == s1.Keys * s2.Keys
    ensures |FeatureDiffsOf(s1, s2)| == |s1.Keys * s2.Keys|
    ensures forall k :: k in FeatureDiffsOf(s1, s2) ==> FeatureDiffsOf(s1, s2)[k] >= 0.0
    ensures forall k :: k in FeatureDiffsOf(s1, s2) ==> (FeatureDiffsOf(s1, s2)[k] == 0.0 <==> s1[k] == s2[k])
    ensures FeatureDiffsOf(s1, s2) == FeatureDiffsOf(s2, s1)
  {
    var d := FeatureDiffsOf(s1, s2);
    assert d.Keys == s1.Keys * s2.Keys;
    assert s1.Keys * s2.Keys == s2.Keys * s1.Keys;
    assert forall k :: k in d ==> d[k] == FeatureDiffsOf(s2, s1)[k];
  }

  /** calculateFeatureDiffs: one loop over the first sample's keys. */
  method CalculateFeatureDiffs(s1: FeatureMap, s2: FeatureMap) returns (diffs: FeatureMap)
    ensures diffs == FeatureDiffsOf(s1, s2)
  {
    diffs := map[];
    var rest := s1.Keys;
    while rest != {}
      invariant rest <= s1.Keys
      invariant diffs.Keys == (s1.Keys - rest) * s2.Keys
      invariant forall k :: k in diffs ==> diffs[k] == Abs(s1[k] - s2[k])
      decreases rest
    {
      var k :| k in rest;
      if k in s2 {
        diffs := diffs[k := Abs(s1[k] - s2[k])];
      }
      rest := rest - {k};
    }
    assert diffs.Keys == FeatureDiffsOf(s1, s2).Keys;
  }

  const CriticalDifference: real := 0.2

  /** The shared features whose values differ by more than 0.2. */
  function CriticalSet(s1: FeatureMap, s2: FeatureMap): set<string>
  {
    set k | k in s1 && k in s2 && Abs(s1[k] - s2[k]) > CriticalDifference
  }

  predicate Distinct(s: seq<string>)
  {
    forall i, j :: 0 <= i < j < |s| ==> s[i] != s[j]
  }

  /**
   * identifyCriticalDifferences: each critical feature once, in the map's
   * iteration order (left open here).
   */
  method IdentifyCriticalDifferences(s1: FeatureMap, s2: FeatureMap) returns (critical: seq<string>)
    ensures Distinct(critical)
    ensures Elements(critical) == CriticalSet(s1, s2)
  {
    critical := [];
    var rest := s1.Keys;
    while rest != {}
      invariant rest <= s1.Keys
      invariant Distinct(critical)
      invariant forall k :: k in critical <==> k in s1 && k !in rest && k in s2 && Abs(s1[k] - s2[k]) > CriticalDifference
      decreases rest
    {
      var feature :| feature in rest;
      if feature in s2 && Abs(s1[feature] - s2[feature]) > CriticalDifference {
        critical := critical + [feature];
      }
      rest := rest - {feature};
    }
  }

  /** A feature is critical exactly when its entry in the differences exceeds 0.2; identical samples have none. */
  lemma CriticalMeansLargeDiff(s1: FeatureMap, s2: FeatureMap)
    ensures forall k :: k in CriticalSet(s1, s2) <==>
      k in FeatureDiffsOf(s1, s2) && FeatureDiffsOf(s1, s2)[k] > CriticalDifference
    ensures CriticalSet(s1, s1) == {}
  {
  }

  // ------------------------------------------------------------------
  // compareFeatures.
  // ------------------------------------------------------------------

  /** The weight of a feature: its entry in the request's weights, 1.0 when it has none. */
  function WeightOf(weights: FeatureMap, k: string): real
  {
    if k in weights then weights[k] else 1.0
  }

  function WeightOrOne(weights: FeatureMap): string -> real
  {
    k => WeightOf(weights, k)
  }

  /**
   * The state of the compareFeatures loop with the keys `rest` of `f1`
   * still to visit: the sums and the count cover the shared keys already
   * visited.
   */
  ghost predicate SumsSoFar(f1: FeatureMap, f2: FeatureMap, weights: FeatureMap, rest: set<string>,
                            totalWeight: real, weightedSum: real, validFeatures: int)
  {
    var common := f1.Keys * f2.Keys;
    var weight := WeightOrOne(weights);
    && totalWeight + RealSum(rest * f2.Keys, weight) == RealSum(common, weight)
    && weightedSum + RealSum(rest * f2.Keys, WeightedTerms(f1, f2, weight)) == RealSum(common, WeightedTerms(f1, f2, weight))
    && validFeatures + |rest * f2.Keys| == |common|
  }

  /** Visiting a shared key adds its weight, its weighted similarity and one to the count. */
  lemma SharedStep(f1: FeatureMap, f2: FeatureMap, weights: FeatureMap, rest: set<string>,
                   totalWeight: real, weightedSum: real, validFeatures: int, k: string)
    requires SumsSoFar(f1, f2, weights, rest, totalWeight, weightedSum, validFeatures)
    requires k in rest && k in f1 && k in f2
    ensures SumsSoFar(f1, f2, weights, rest - {k}, totalWeight + WeightOf(weights, k),
                      weightedSum + WeightedTerm(f1, f2, WeightOrOne(weights), k), validFeatures + 1)
  {
    var weight := WeightOrOne(weights);
    assert (rest - {k}) * f2.Keys == rest * f2.Keys - {k};
    RealSumRemove(rest * f2.Keys, weight, k);
    RealSumRemove(rest * f2.Keys, WeightedTerms(f1, f2, weight), k);
  }

  /** Visiting a key `f2` lacks changes nothing. */
  lemma SkippedStep(f1: FeatureMap, f2: FeatureMap, weights: FeatureMap, rest: set<string>,
                    totalWeight: real, weightedSum: real, validFeatures: int, k: string)
    requires SumsSoFar(f1, f2, weights, rest, totalWeight, weightedSum, validFeatures)
    requires k in rest && k !in f2
    ensures SumsSoFar(f1, f2, weights, rest - {k}, totalWeight, weightedSum, validFeatures)
  {
    assert (rest - {k}) * f2.Keys == rest * f2.Keys;
  }

  /** The loop of compareFeatures: the running sums over the keys of `f1` that `f2` shares. */
  method AccumulateShared(f1: FeatureMap, f2: FeatureMap, weights: FeatureMap)
    returns (totalWeight: real, weightedSum: real, validFeatures: int)
    ensures totalWeight == RealSum(f1.Keys * f2.Keys, WeightOrOne(weights))
    ensures weightedSum == RealSum(f1.Keys * f2.Keys, WeightedTerms(f1, f2, WeightOrOne(weights)))
    ensures validFeatures == |f1.Keys * f2.Keys|
  {
    totalWeight, weightedSum := 0.0, 0.0;
    validFeatures := 0;
    var rest := f1.Keys;
    assert rest * f2.Keys == f1.Keys * f2.Keys;
    while rest != {}
      invariant rest <= f1.Keys
      invariant SumsSoFar(f1, f2, weights, rest, totalWeight, weightedSum, validFeatures)
      decreases rest
    {
      var feature :| feature in rest;
      if feature in f2 {
        SharedStep(f1, f2, weights, rest, totalWeight, weightedSum, validFeatures, feature);
        // weight * (1 - |value1 - value2| / maxVal)
        weightedSum := weightedSum + WeightedTerm(f1, f2, WeightOrOne(weights), feature);
        totalWeight := totalWeight + WeightOf(weights, feature);
        validFeatures := validFeatures + 1;
      } else {
        SkippedStep(f1, f2, weights, rest, totalWeight, weightedSum, validFeatures, feature);
      }
      rest := rest - {feature};
    }
    assert rest * f2.Keys == {};
  }

  /**
   * compareFeatures: the weight-averaged per-feature similarity over the
   * shared keys, the same measure as the advanced comparison's weighted
   * similarity but with per-name weights defaulting to 1.0. It is 0 when
   * either map is empty, when no key is shared or when the weights of
   * the shared keys sum to 0.
   */
  method CompareFeatures(f1: FeatureMap, f2: FeatureMap, weights: FeatureMap) returns (similarity: real)
    ensures similarity == WeightedAverage(f1, f2, WeightOrOne(weights))
  {
    if |f1| == 0 || |f2| == 0 {
      assert f1.Keys * f2.Keys == {};
      return 0.0;
    }
    var totalWeight, weightedSum, validFeatures := AccumulateShared(f1, f2, weights);
    if validFeatures == 0 || totalWeight == 0.0 {
      return 0.0;
    }
    similarity := weightedSum / totalWeight;
  }

  /**
   * With non-negative weights the basic similarity lies in [-1, 1], does
   * not depend on the order of the samples, and is 1 for a sample
   * compared with itself when its features carry some weight.
   */
  lemma CompareFeaturesFacts(f1: FeatureMap, f2: FeatureMap, weights: FeatureMap)
    requires forall k :: k in weights ==> weights[k] >= 0.0
    ensures -1.0 <= WeightedAverage(f1, f2, WeightOrOne(weights)) <= 1.0
    ensures WeightedAverage(f1, f2, WeightOrOne(weights)) == WeightedAverage(f2, f1, WeightOrOne(weights))
    ensures RealSum(f1.Keys, WeightOrOne(weights)) != 0.0 ==> WeightedAverage(f1, f1, WeightOrOne(weights)) == 1.0
  {
    WeightedAverageRange(f1, f2, WeightOrOne(weights));
    WeightedAverageSymmetric(f1, f2, WeightOrOne(weights));
    if RealSum(f1.Keys, WeightOrOne(weights)) != 0.0 {
      WeightedAverageSelf(f1, WeightOrOne(weights));
    }
  }

  /** Without request weights, every shared key weighs 1, so a non-empty sample compared with itself scores 1. */
  lemma CompareFeaturesSelfUnweighted(f: FeatureMap)
    requires |f| > 0
    ensures WeightedAverage(f, f, WeightOrOne(map[])) == 1.0
  {
    RealSumOnes(f.Keys, WeightOrOne(map[]));
    WeightedAverageSelf(f, WeightOrOne(map[]));
  }

  // ------------------------------------------------------------------
  // calculateBasicConfidence.
  // ------------------------------------------------------------------

  /** 0.8 below 5 features, 0.9 below 10, otherwise 1. */
  function FeaturePenalty(featureCount: int): (p: real)
    ensures 0.8 <= p <= 1.0
  {
    if featureCount < 5 then 0.8 else if featureCount < 10 then 0.9 else 1.0
  }

  /** 0.9 above a variance of 0.1, 0.95 above 0.05, otherwise 1. */
  function VariancePenalty(variance: real): (p: real)
    ensures 0.9 <= p <= 1.0
  {
    if variance > 0.1 then 0.9 else if variance > 0.05 then 0.95 else 1.0
  }

  function Clamp01(x: real): (r: real)
    ensures 0.0 <= r <= 1.0
    ensures 0.0 <= x <= 1.0 ==> r == x
  {
    if x > 1.0 then 1.0 else if x < 0.0 then 0.0 else x
  }

  /** math.Pow(x, 2). */
  function Square(x: real): real
  {
    x * x
  }

  /** The squared deviation of one difference from the mean. */
  function Deviation(d: FeatureMap, mean: real, k: string): real
  {
    Square(Lookup(d, k) - mean)
  }

  function Deviations(d: FeatureMap, mean: real): string -> real
  {
    k => Deviation(d, mean, k)
  }

  /** The population variance of the values of a map, 0 for an empty one. */
  ghost function VarianceOf(d: FeatureMap): real
  {
    if |d| == 0 then 0.0 else RealSum(d.Keys, Deviations(d, Mean(d))) / (|d| as real)
  }

  /**
   * calculateBasicConfidence: the similarity scaled by the feature-count
   * and variance penalties, clamped to [0, 1]. The feature count is the
   * size of the smaller sample; the variance is that of the differences.
   */
  ghost function BasicConfidence(similarity: real, sample1: FeatureMap, sample2: FeatureMap): real
  {
    var featureCount := if |sample2| < |sample1| then |sample2| else |sample1|;
    PenalisedConfidence(similarity, featureCount, VarianceOf(FeatureDiffsOf(sample1, sample2)))
  }

  /** The similarity times the feature-count penalty times the variance penalty, clamped to [0, 1]. */
  function PenalisedConfidence(similarity: real, featureCount: int, variance: real): (r: real)
    ensures 0.0 <= r <= 1.0
  {
    Clamp01(similarity * FeaturePenalty(featureCount) * VariancePenalty(variance))
  }

  /** The deviation loop of calculateBasicConfidence. */
  method SquaredDeviations(d: FeatureMap, mean: real) returns (total: real)
    ensures total == RealSum(d.Keys, Deviations(d, mean))
  {
    total := 0.0;
    var rest := d.Keys;
    while rest != {}
      invariant rest <= d.Keys
      invariant total + RealSum(rest, Deviations(d, mean)) == RealSum(d.Keys, Deviations(d, mean))
      decreases rest
    {
      var k :| k in rest;
      RealSumRemove(rest, Deviations(d, mean), k);
      total := total + Square(d[k] - mean);
      rest := rest - {k};
    }
  }

  /** The variance of the differences, as calculateBasicConfidence computes it: mean first, then the squared deviations. */
  method DiffVariance(sample1: FeatureMap, sample2: FeatureMap) returns (variance: real)
    ensures variance == VarianceOf(FeatureDiffsOf(sample1, sample2))
  {
    var diffs := CalculateFeatureDiffs(sample1, sample2);
    variance := 0.0;
    if |diffs| > 0 {
      var sum := TotalScore(diffs);
      var mean := sum / (|diffs| as real);
      variance := SquaredDeviations(diffs, mean);
      variance := variance / (|diffs| as real);
    }
  }

  method CalculateBasicConfidence(similarity: real, sample1: FeatureMap, sample2: FeatureMap)
    returns (confidence: real)
    ensures confidence == BasicConfidence(similarity, sample1, sample2)
    ensures 0.0 <= confidence <= 1.0
  {
    var featureCount := |sample1|;
    if |sample2| < |sample1| {
      featureCount := |sample2|;
    }
    var variance := DiffVariance(sample1, sample2);
    confidence := PenalisedConfidence(similarity, featureCount, variance);
  }

  lemma PenaltyBounds(s: real, p: real, q: real)
    requires 0.0 <= s && 0.8 <= p <= 1.0 && 0.9 <= q <= 1.0
    ensures 0.72 * s <= s * p * q <= s
  {
    assert s * p <= s;
    assert s * p * q <= s * p;
    assert s * p >= 0.8 * s;
    assert s * p * q >= (0.8 * s) * 0.9;
  }

  /**
   * For a similarity in [0, 1], the penalties can only lower it, and by
   * at most 28% (0.8 for few features times 0.9 for high variance).
   */
  lemma BasicConfidenceBounds(similarity: real, sample1: FeatureMap, sample2: FeatureMap)
    requires 0.0 <= similarity <= 1.0
    ensures 0.72 * similarity <= BasicConfidence(similarity, sample1, sample2) <= similarity
  {
    var featureCount := if |sample2| < |sample1| then |sample2| else |sample1|;
    var v := VarianceOf(FeatureDiffsOf(sample1, sample2));
    var p := FeaturePenalty(featureCount);
    var q := VariancePenalty(v);
    assert BasicConfidence(similarity, sample1, sample2) == PenalisedConfidence(similarity, featureCount, v);
    PenaltyBounds(similarity, p, q);
  }

  /** Two samples that agree exactly on every shared feature keep the full similarity once both have ten features. */
  lemma BasicConfidenceConsistentSamples(similarity: real, sample1: FeatureMap, sample2: FeatureMap)
    requires 0.0 <= similarity <= 1.0
    requires |sample1| >= 10 && |sample2| >= 10
    requires forall k :: k in sample1 && k in sample2 ==> sample1[k] == sample2[k]
    ensures BasicConfidence(similarity, sample1, sample2) == similarity
  {
    var d := FeatureDiffsOf(sample1, sample2);
    forall k | k in d
      ensures d[k] == 0.0
    {
      assert d[k] == Abs(sample1[k] - sample2[k]);
    }
    ZeroDiffsNoVariance(d);
    var featureCount := if |sample2| < |sample1| then |sample2| else |sample1|;
    assert BasicConfidence(similarity, sample1, sample2) == PenalisedConfidence(similarity, featureCount, 0.0);
  }

  /** Differences that are all zero have no variance. */
  lemma ZeroDiffsNoVariance(d: FeatureMap)
    requires forall k :: k in d ==> d[k] == 0.0
    ensures VarianceOf(d) == 0.0
  {
    if |d| > 0 {
      var zeros := (k: string) => 0.0;
      assert forall k :: k in d ==> Lookup(d, k) == 0.0;
      RealSumOnes(d.Keys, (k: string) => 1.0);
      RealSumScale(d.Keys, (k: string) => 1.0, zeros, 0.0);
      RealSumExt(d.Keys, ValuesOf(d), zeros);
      assert Mean(d) == 0.0;
      RealSumExt(d.Keys, Deviations(d, 0.0), zeros);
    }
  }

  // ------------------------------------------------------------------
  // convertToFeatureWeights.
  // ------------------------------------------------------------------

  /** The request's value for a category when it gives one, the default otherwise. */
  function Override(weights: FeatureMap, key: string, default: real): real
  {
    if key in weights then weights[key] else default
  }

  /** convertToFeatureWeights: the defaults, with each named category overridden by the request. */
  function ConvertToFeatureWeights(weights: FeatureMap): FeatureWeights
  {
    if |weights| == 0 then DefaultWeights
    else
      var d := DefaultWeights;
      FeatureWeights(
        Override(weights, "striation_features", d.striationFeatures),
        Override(weights, "firing_pin_features", d.firingPinFeatures),
        Override(weights, "breech_face_features", d.breechFaceFeatures),
        Override(weights, "ejector_features", d.ejectorFeatures),
        Override(weights, "extractor_features", d.extractorFeatures),
        Override(weights, "geometric_features", d.geometricFeatures),
        Override(weights, "texture_features", d.textureFeatures),
        Override(weights, "color_features", d.colorFeatures),
        Override(weights, "shape_features", d.shapeFeatures),
        Override(weights, "contour_features", d.contourFeatures))
  }

  /** The ten category names a request may carry. */
  const CategoryNames: set<string> := {
    "striation_features", "firing_pin_features", "breech_face_features", "ejector_features",
    "extractor_features", "geometric_features", "texture_features", "color_features",
    "shape_features", "contour_features"}

  /** A FeatureWeights value written out as the request map naming every category. */
  function WeightsMap(w: FeatureWeights): (m: FeatureMap)
    ensures m.Keys == CategoryNames
  {
    map["striation_features" := w.striationFeatures, "firing_pin_features" := w.firingPinFeatures,
        "breech_face_features" := w.breechFaceFeatures, "ejector_features" := w.ejectorFeatures,
        "extractor_features" := w.extractorFeatures, "geometric_features" := w.geometricFeatures,
        "texture_features" := w.textureFeatures, "color_features" := w.colorFeatures,
        "shape_features" := w.shapeFeatures, "contour_features" := w.contourFeatures]
  }

  /** A request naming every category is read back exactly. */
  lemma ConvertRoundTrip(w: FeatureWeights)
    ensures ConvertToFeatureWeights(WeightsMap(w)) == w
  {
    assert "striation_features" in WeightsMap(w);
    CategoryNamesDiffer();
  }

  /** The category names differ in their first two letters. */
  lemma CategoryNamesDiffer()
    ensures "striation_features"[..2] == "st" && "firing_pin_features"[..2] == "fi"
    ensures "breech_face_features"[..2] == "br" && "ejector_features"[..2] == "ej"
    ensures "extractor_features"[..2] == "ex" && "geometric_features"[..2] == "ge"
    ensures "texture_features"[..2] == "te" && "color_features"[..3] == "col"
    ensures "shape_features"[..2] == "sh" && "contour_features"[..3] == "con"
  {
  }

  /**
   * An empty request gives the defaults, and an entry whose name is not a
   * category has no effect: only the named fields are ever overridden.
   */
  lemma ConvertIgnoresOtherKeys(weights: FeatureMap, k: string, v: real)
    requires k !in CategoryNames
    ensures ConvertToFeatureWeights(map[]) == DefaultWeights
    ensures ConvertToFeatureWeights(weights[k := v]) == ConvertToFeatureWeights(weights)
  {
    var w' := weights[k := v];
    forall c | c in CategoryNames
      ensures Override(w', c, 0.0) == Override(weights, c, 0.0)
    {
    }
    if |weights| == 0 {
      forall c | c in CategoryNames
        ensures c !in w'
      {
      }
    }
  }

  /** Overriding one category leaves the other nine at their defaults. */
  lemma ConvertSingleOverride(v: real)
    ensures ConvertToFeatureWeights(map["shape_features" := v])
         == DefaultWeights.(shapeFeatures := v)
  {
  }

  // ------------------------------------------------------------------
  // Pagination of GetAnalysesHandler.
  // ------------------------------------------------------------------

  datatype Page = Page(limit: int, offset: int)

  /**
   * limit stays 10 unless the query's text is a positive integer; offset
   * stays 0 unless it is a non-negative one. An absent parameter is the
   * empty string.
   */
  function ParsePagination(limitStr: string, offsetStr: string): (p: Page)
    ensures p.limit >= 1 && p.offset >= 0
    ensures p.limit == 10 || Atoi(limitStr) == Some(p.limit)
    ensures p.offset == 0 || Atoi(offsetStr) == Some(p.offset)
    ensures (Atoi(limitStr).Some? && Atoi(limitStr).value > 0) ==> p.limit == Atoi(limitStr).value
    ensures (Atoi(offsetStr).Some? && Atoi(offsetStr).value >= 0) ==> p.offset == Atoi(offsetStr).value
  {
    var limit :=
      if limitStr != "" && Atoi(limitStr).Some? && Atoi(limitStr).value > 0 then Atoi(limitStr).value else 10;
    var offset :=
      if offsetStr != "" && Atoi(offsetStr).Some? && Atoi(offsetStr).value >= 0 then Atoi(offsetStr).value else 0;
    Page(limit, offset)
  }

  /** Printing a valid page with %d and parsing it back gives the same page. */
  lemma PaginationRoundTrip(limit: int, offset: int)
    requires 1 <= limit <= MaxInt64 && 0 <= offset <= MaxInt64
    ensures ParsePagination(IntToString(limit), IntToString(offset)) == Page(limit, offset)
  {
    AtoiRoundTrip(limit);
    AtoiRoundTrip(offset);
  }
}
