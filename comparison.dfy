/**
 * The advanced comparison service: two feature maps are compared feature
 * by feature (a normalised similarity per shared key), by weighted and
 * set-based aggregates, by five groups of ballistic marks, and the
 * outcome is reduced to a confidence and a match decision.
 *
 * `sqrt` is a parameter wherever the service takes a square root.
 */
module Comparison {
  import opened Common

  // ------------------------------------------------------------------
  // sort.Strings order: lexicographic by character.
  // ------------------------------------------------------------------

  predicate Below(a: string, b: string)
  {
    if a == [] then b != []
    else if b == [] then false
    else if a[0] != b[0] then a[0] < b[0]
    else Below(a[1..], b[1..])
  }

  lemma {:induction false} BelowIrreflexive(a: string)
    ensures !Below(a, a)
    decreases |a|
  {
    if a != [] {
      BelowIrreflexive(a[1..]);
    }
  }

  lemma {:induction false} BelowAsymmetric(a: string, b: string)
    requires Below(a, b)
    ensures !Below(b, a)
    decreases |a|
  {
    if a != [] && b != [] && a[0] == b[0] {
      BelowAsymmetric(a[1..], b[1..]);
    }
  }

  lemma {:induction false} BelowTransitive(a: string, b: string, c: string)
    requires Below(a, b) && Below(b, c)
    ensures Below(a, c)
    decreases |a|
  {
    if a != [] && a[0] == b[0] && b[0] == c[0] {
      BelowTransitive(a[1..], b[1..], c[1..]);
    }
  }

  lemma {:induction false} BelowTotal(a: string, b: string)
    requires a != b
    ensures Below(a, b) || Below(b, a)
    decreases |a|
  {
    if a != [] && b != [] && a[0] == b[0] {
      assert a == [a[0]] + a[1..] && b == [b[0]] + b[1..];
      BelowTotal(a[1..], b[1..]);
    }
  }

  /** Strictly increasing: sorted and without duplicates. */
  predicate Increasing(s: seq<string>)
  {
    forall i, j :: 0 <= i < j < |s| ==> Below(s[i], s[j])
  }

  /** Insertion into a sorted list. */
  function Insert(s: seq<string>, x: string): seq<string>
  {
    if s == [] then [x] else if Below(x, s[0]) then [x] + s else [s[0]] + Insert(s[1..], x)
  }

  lemma {:induction false} InsertFacts(s: seq<string>, x: string)
    requires Increasing(s) && x !in s
    ensures Increasing(Insert(s, x))
    ensures forall y :: y in Insert(s, x) <==> y in s || y == x
    decreases |s|
  {
    if s != [] {
      if Below(x, s[0]) {
        forall j | 0 < j < |s|
          ensures Below(x, s[j])
        {
          BelowTransitive(x, s[0], s[j]);
        }
        var r := [x] + s;
        forall i, j | 0 <= i < j < |r|
          ensures Below(r[i], r[j])
        {
          if i > 0 {
            assert r[i] == s[i - 1] && r[j] == s[j - 1];
          }
        }
      } else {
        BelowTotal(x, s[0]);
        InsertFacts(s[1..], x);
        var t := Insert(s[1..], x);
        var r := [s[0]] + t;
        forall i, j | 0 <= i < j < |r|
          ensures Below(r[i], r[j])
        {
          if i == 0 {
            assert r[j] == t[j - 1] && t[j - 1] in t;
            if t[j - 1] != x {
              var k :| 0 <= k < |s[1..]| && s[1..][k] == t[j - 1];
              assert s[k + 1] == t[j - 1];
            }
          } else {
            assert r[i] == t[i - 1] && r[j] == t[j - 1];
          }
        }
        assert forall y :: y in s <==> y == s[0] || y in s[1..];
      }
    }
  }

  /**
   * A strictly increasing list is determined by its elements: the sorted
   * key lists below do not depend on the order a map yields its keys in.
   */
  lemma {:induction false} IncreasingUnique(a: seq<string>, b: seq<string>)
    requires Increasing(a) && Increasing(b)
    requires forall x :: x in a <==> x in b
    ensures a == b
    decreases |a|
  {
    if a != [] && b != [] {
      if a[0] != b[0] {
        assert a[0] in b;
        var j :| 0 <= j < |b| && b[j] == a[0];
        assert b[0] in a;
        var i :| 0 <= i < |a| && a[i] == b[0];
        assert Below(b[0], a[0]) && Below(a[0], b[0]);
        BelowAsymmetric(a[0], b[0]);
        assert false;
      }
      BelowIrreflexive(a[0]);
      forall x
        ensures x in a[1..] <==> x in b[1..]
      {
        if x in a[1..] {
          var i :| 0 <= i < |a[1..]| && a[1..][i] == x;
          assert Below(a[0], x);
        }
        if x in b[1..] {
          var i :| 0 <= i < |b[1..]| && b[1..][i] == x;
          assert Below(b[0], x);
        }
        assert forall y :: y in a <==> y == a[0] || y in a[1..];
        assert forall y :: y in b <==> y == b[0] || y in b[1..];
      }
      IncreasingUnique(a[1..], b[1..]);
      assert a == [a[0]] + a[1..] && b == [b[0]] + b[1..];
    } else if a != [] {
      HeadIn(a);
      assert false;
    } else if b != [] {
      HeadIn(b);
      assert false;
    }
  }

  lemma HeadIn(s: seq<string>)
    ensures s != [] ==> s[0] in s
  {
  }

  /** The position of an element in a strictly increasing list is its only one. */
  lemma IncreasingFresh(s: seq<string>, i: nat)
    requires Increasing(s) && i < |s|
    ensures s[i] !in s[..i]
  {
    if s[i] in s[..i] {
      var j :| 0 <= j < i && s[..i][j] == s[i];
      assert Below(s[j], s[i]);
      BelowIrreflexive(s[i]);
      assert false;
    }
  }

  /** The keys of a set in increasing order. */
  ghost function SortedKeys(keys: set<string>): (s: seq<string>)
    ensures Increasing(s) && forall k :: k in s <==> k in keys
    decreases keys
  {
    if keys == {} then []
    else
      var x :| x in keys;
      var rest := SortedKeys(keys - {x});
      InsertFacts(rest, x);
      Insert(rest, x)
  }

  // ------------------------------------------------------------------
  // The per-feature similarity every scorer uses.
  // ------------------------------------------------------------------

  const Tiny: real := 0.000000001

  /** max(|v1|, |v2|), replaced by 1 when it is below 1e-9. */
  function Scale(v1: real, v2: real): (m: real)
    ensures m > 0.0
    ensures Abs(v1 - v2) <= 2.0 * m
  {
    var m := Max(Abs(v1), Abs(v2));
    if m < Tiny then 1.0 else m
  }

  /** The difference relative to the larger magnitude. */
  function RelDiff(v1: real, v2: real): real
  {
    Abs(v1 - v2) / Scale(v1, v2)
  }

  function Similarity(v1: real, v2: real): real
  {
    1.0 - RelDiff(v1, v2)
  }

  lemma DivAtMostTwo(d: real, m: real)
    requires m > 0.0 && 0.0 <= d <= 2.0 * m
    ensures 0.0 <= d / m <= 2.0
  {
  }

  /** The relative difference lies in [0, 2], is 0 exactly for equal values, and is symmetric. */
  lemma RelDiffBounds(v1: real, v2: real)
    ensures 0.0 <= RelDiff(v1, v2) <= 2.0
    ensures RelDiff(v1, v2) == 0.0 <==> v1 == v2
    ensures RelDiff(v1, v2) == RelDiff(v2, v1)
  {
    var d := Abs(v1 - v2);
    var m := Scale(v1, v2);
    DivAtMostTwo(d, m);
    assert RelDiff(v1, v2) * m == d;
    assert Abs(v2 - v1) == d && Scale(v2, v1) == m;
  }

  /** Hence the similarity lies in [-1, 1] and is 1 exactly for equal values. */
  lemma SimilarityBounds(v1: real, v2: real)
    ensures -1.0 <= Similarity(v1, v2) <= 1.0
    ensures Similarity(v1, v2) == 1.0 <==> v1 == v2
    ensures Similarity(v1, v2) == Similarity(v2, v1)
  {
    RelDiffBounds(v1, v2);
  }

  function SimilarityAt(f1: FeatureMap, f2: FeatureMap, k: string): real
  {
    Similarity(Lookup(f1, k), Lookup(f2, k))
  }

  function Similarities(f1: FeatureMap, f2: FeatureMap): string -> real
  {
    k => SimilarityAt(f1, f2, k)
  }

  // ------------------------------------------------------------------
  // Feature weights.
  // ------------------------------------------------------------------

  datatype FeatureWeights = FeatureWeights(
    striationFeatures: real, firingPinFeatures: real, breechFaceFeatures: real,
    ejectorFeatures: real, extractorFeatures: real, geometricFeatures: real,
    textureFeatures: real, colorFeatures: real, shapeFeatures: real, contourFeatures: real)

  /** GetDefaultWeights. */
  const DefaultWeights := FeatureWeights(3.0, 2.8, 2.5, 2.2, 2.0, 1.5, 1.3, 1.0, 1.8, 1.6)

  predicate NonNegative(w: FeatureWeights)
  {
    w.striationFeatures >= 0.0 && w.firingPinFeatures >= 0.0 && w.breechFaceFeatures >= 0.0 &&
    w.ejectorFeatures >= 0.0 && w.extractorFeatures >= 0.0 && w.geometricFeatures >= 0.0 &&
    w.textureFeatures >= 0.0 && w.colorFeatures >= 0.0 && w.shapeFeatures >= 0.0 && w.contourFeatures >= 0.0
  }

  predicate IsStriationFeature(f: string)
  {
    f in {"striation_density", "striation_angle", "striation_depth"}
  }

  predicate IsFiringPinFeature(f: string)
  {
    f in {"firing_pin_impression", "firing_pin_shape", "firing_pin_depth"}
  }

  predicate IsBreechFaceFeature(f: string)
  {
    f in {"breech_face_marks", "breech_face_texture", "breech_face_pattern"}
  }

  predicate IsEjectorFeature(f: string)
  {
    f in {"ejector_marks", "ejector_position", "ejector_shape"}
  }

  predicate IsExtractorFeature(f: string)
  {
    f in {"extractor_marks", "extractor_groove", "extractor_depth"}
  }

  predicate IsGeometricFeature(f: string)
  {
    f in {"area", "perimeter", "aspect_ratio", "extent"}
  }

  predicate IsTextureFeature(f: string)
  {
    f in {"contrast", "dissimilarity", "homogeneity", "energy"}
  }

  predicate IsColorFeature(f: string)
  {
    f in {"mean_hue", "mean_saturation", "mean_value", "color_variance"}
  }

  predicate IsShapeFeature(f: string)
  {
    f in {"circularity", "solidity", "convexity", "eccentricity"}
  }

  predicate IsContourFeature(f: string)
  {
    f in {"contour_length", "contour_smoothness", "contour_complexity"}
  }

  /** getFeatureWeight: the first category the name belongs to, else 1. */
  function GetFeatureWeight(f: string, w: FeatureWeights): real
  {
    if IsStriationFeature(f) then w.striationFeatures
    else if IsFiringPinFeature(f) then w.firingPinFeatures
    else if IsBreechFaceFeature(f) then w.breechFaceFeatures
    else if IsEjectorFeature(f) then w.ejectorFeatures
    else if IsExtractorFeature(f) then w.extractorFeatures
    else if IsGeometricFeature(f) then w.geometricFeatures
    else if IsTextureFeature(f) then w.textureFeatures
    else if IsColorFeature(f) then w.colorFeatures
    else if IsShapeFeature(f) then w.shapeFeatures
    else if IsContourFeature(f) then w.contourFeatures
    else 1.0
  }

  // The ten name lists are disjoint, so every listed name gets its own
  // category's weight whatever the order of the checks. The proof is split
  // by category to keep each string comparison problem small.

  lemma FeatureWeightOfMarks(f: string, w: FeatureWeights)
    ensures IsStriationFeature(f) ==> GetFeatureWeight(f, w) == w.striationFeatures
    ensures IsFiringPinFeature(f) ==> GetFeatureWeight(f, w) == w.firingPinFeatures
    ensures IsBreechFaceFeature(f) ==> GetFeatureWeight(f, w) == w.breechFaceFeatures
    ensures IsEjectorFeature(f) ==> GetFeatureWeight(f, w) == w.ejectorFeatures
    ensures IsExtractorFeature(f) ==> GetFeatureWeight(f, w) == w.extractorFeatures
  {
  }

  lemma FeatureWeightOfGeometryTexture(f: string, w: FeatureWeights)
    ensures IsGeometricFeature(f) ==> GetFeatureWeight(f, w) == w.geometricFeatures
    ensures IsTextureFeature(f) ==> GetFeatureWeight(f, w) == w.textureFeatures
  {
  }

  lemma FeatureWeightOfColor(f: string, w: FeatureWeights)
    ensures IsColorFeature(f) ==> GetFeatureWeight(f, w) == w.colorFeatures
  {
    if IsColorFeature(f) {
      assert |f| in {8, 10, 14, 15};
      assert !IsStriationFeature(f) && !IsFiringPinFeature(f) && !IsBreechFaceFeature(f);
      assert !IsEjectorFeature(f) && !IsExtractorFeature(f);
      assert !IsGeometricFeature(f) && !IsTextureFeature(f);
    }
  }

  lemma FeatureWeightOfShape(f: string, w: FeatureWeights)
    ensures IsShapeFeature(f) ==> GetFeatureWeight(f, w) == w.shapeFeatures
  {
    if IsShapeFeature(f) {
      assert !IsStriationFeature(f) && !IsFiringPinFeature(f) && !IsBreechFaceFeature(f);
      assert !IsEjectorFeature(f) && !IsExtractorFeature(f);
      assert !IsGeometricFeature(f) && !IsTextureFeature(f) && !IsColorFeature(f);
    }
  }

  lemma FeatureWeightOfContour(f: string, w: FeatureWeights)
    ensures IsContourFeature(f) ==> GetFeatureWeight(f, w) == w.contourFeatures
  {
    if IsContourFeature(f) {
      assert !IsStriationFeature(f) && !IsFiringPinFeature(f) && !IsBreechFaceFeature(f);
      assert !IsEjectorFeature(f) && !IsExtractorFeature(f);
      assert !IsGeometricFeature(f) && !IsTextureFeature(f) && !IsColorFeature(f) && !IsShapeFeature(f);
    }
  }

  /** Two names of the local feature set: one is a shape feature, the other is in no list. */
  lemma FeatureWeightExamples(w: FeatureWeights)
    ensures GetFeatureWeight("circularity", w) == w.shapeFeatures
    ensures GetFeatureWeight("glcm_contrast", w) == 1.0
  {
  }

  lemma WeightNonNegative(f: string, w: FeatureWeights)
    requires NonNegative(w)
    ensures GetFeatureWeight(f, w) >= 0.0
  {
  }

  /** getFeatureWeight as a total function on names. */
  function Weights(w: FeatureWeights): string -> real
  {
    k => GetFeatureWeight(k, w)
  }

  lemma WeightsNonNegative(w: FeatureWeights)
    requires NonNegative(w)
    ensures forall k :: Weights(w)(k) >= 0.0
  {
    forall k
      ensures Weights(w)(k) >= 0.0
    {
      WeightNonNegative(k, w);
    }
  }

  // ------------------------------------------------------------------
  // Common features, vectors, per-feature scores, critical features.
  // ------------------------------------------------------------------

  /** getCommonFeatures: the shared keys, sorted. */
  method GetCommonFeatures(f1: FeatureMap, f2: FeatureMap) returns (common: seq<string>)
    ensures Increasing(common)
    ensures forall k :: k in common <==> k in f1 && k in f2
  {
    common := [];
    var rest := f1.Keys;
    while rest != {}
      invariant rest <= f1.Keys && Increasing(common)
      invariant forall k :: k in common <==> k in f1 && k !in rest && k in f2
      decreases rest
    {
      var key :| key in rest;
      if key in f2 {
        InsertFacts(common, key);
        common := Insert(common, key);
      }
      rest := rest - {key};
    }
  }

  function VectorOf(f: FeatureMap, features: seq<string>): (v: seq<real>)
    ensures |v| == |features|
  {
    seq(|features|, i requires 0 <= i < |features| => Lookup(f, features[i]))
  }

  /** prepareVectors: both maps read along the feature list. */
  method PrepareVectors(f1: FeatureMap, f2: FeatureMap, features: seq<string>) returns (v1: seq<real>, v2: seq<real>)
    ensures |v1| == |features| && |v2| == |features|
    ensures forall i :: 0 <= i < |features| ==> v1[i] == Lookup(f1, features[i]) && v2[i] == Lookup(f2, features[i])
  {
    v1, v2 := [], [];
    var i := 0;
    while i < |features|
      invariant 0 <= i <= |features| && |v1| == i && |v2| == i
      invariant forall j :: 0 <= j < i ==> v1[j] == Lookup(f1, features[j]) && v2[j] == Lookup(f2, features[j])
    {
      v1 := v1 + [Lookup(f1, features[i])];
      v2 := v2 + [Lookup(f2, features[i])];
      i := i + 1;
    }
  }

  /** calculateFeatureScores: one similarity in [-1, 1] per shared key. */
  method CalculateFeatureScores(f1: FeatureMap, f2: FeatureMap) returns (scores: FeatureMap)
    ensures scores.Keys == f1.Keys * f2.Keys
    ensures forall k :: k in scores ==> scores[k] == Similarity(f1[k], f2[k]) && -1.0 <= scores[k] <= 1.0
  {
    scores := map[];
    var rest := f1.Keys;
    while rest != {}
      invariant rest <= f1.Keys
      invariant scores.Keys == (f1.Keys - rest) * f2.Keys
      invariant forall k :: k in scores ==> scores[k] == Similarity(f1[k], f2[k]) && -1.0 <= scores[k] <= 1.0
      decreases rest
    {
      var feature :| feature in rest;
      if feature in f2 {
        SimilarityBounds(f1[feature], f2[feature]);
        scores := scores[feature := Similarity(f1[feature], f2[feature])];
      }
      rest := rest - {feature};
    }
  }

  const CriticalThreshold: real := 0.3

  /** identifyCriticalFeatures: the shared keys whose relative difference exceeds 0.3, sorted. */
  method IdentifyCriticalFeatures(f1: FeatureMap, f2: FeatureMap) returns (critical: seq<string>)
    ensures Increasing(critical)
    ensures forall k :: k in critical <==> k in f1 && k in f2 && RelDiff(f1[k], f2[k]) > CriticalThreshold
    ensures f1 == f2 ==> critical == []
  {
    critical := [];
    var rest := f1.Keys;
    while rest != {}
      invariant rest <= f1.Keys && Increasing(critical)
      invariant forall k :: k in critical <==> k in f1 && k !in rest && k in f2 && RelDiff(f1[k], f2[k]) > CriticalThreshold
      decreases rest
    {
      var feature :| feature in rest;
      if feature in f2 && RelDiff(f1[feature], f2[feature]) > CriticalThreshold {
        InsertFacts(critical, feature);
        critical := Insert(critical, feature);
      }
      rest := rest - {feature};
    }
    if f1 == f2 && critical != [] {
      RelDiffBounds(f1[critical[0]], f2[critical[0]]);
    }
  }

  // ------------------------------------------------------------------
  // Weighted similarity. The sums are stated for any weight function;
  // the service uses `Weights(w)`.
  // ------------------------------------------------------------------

  /** The elements of a list, as a set. */
  function Elements(s: seq<string>): set<string>
  {
    set k | k in s
  }

  /** Extending a duplicate-free prefix by one element adds that element's term. */
  lemma PrefixSumStep(s: seq<string>, i: nat, f: string -> real)
    requires Increasing(s) && i < |s|
    ensures RealSum(Elements(s[..i + 1]), f) == RealSum(Elements(s[..i]), f) + f(s[i])
  {
    IncreasingFresh(s, i);
    var before := Elements(s[..i]);
    var after := Elements(s[..i + 1]);
    assert s[..i + 1] == s[..i] + [s[i]];
    assert after == before + {s[i]};
    RealSumRemove(after, f, s[i]);
    assert after - {s[i]} == before;
  }

  /** A shared key's weight times its normalised similarity. */
  function WeightedTerm(f1: FeatureMap, f2: FeatureMap, weight: string -> real, k: string): real
  {
    weight(k) * SimilarityAt(f1, f2, k)
  }

  function WeightedTerms(f1: FeatureMap, f2: FeatureMap, weight: string -> real): string -> real
  {
    k => WeightedTerm(f1, f2, weight, k)
  }

  function Negated(weight: string -> real): string -> real
  {
    k => -weight(k)
  }

  /**
   * calculateWeightedSimilarity: the weight-averaged per-feature similarity
   * over the shared keys, 0 without shared keys or with zero total weight.
   */
  ghost function WeightedAverage(f1: FeatureMap, f2: FeatureMap, weight: string -> real): real
  {
    var common := f1.Keys * f2.Keys;
    var total := RealSum(common, weight);
    if common == {} || total == 0.0 then 0.0 else RealSum(common, WeightedTerms(f1, f2, weight)) / total
  }

  method CalculateWeightedSimilarity(f1: FeatureMap, f2: FeatureMap, w: FeatureWeights) returns (similarity: real)
    ensures similarity == WeightedAverage(f1, f2, Weights(w))
  {
    var common := GetCommonFeatures(f1, f2);
    assert Elements(common) == f1.Keys * f2.Keys;
    if |common| == 0 {
      return 0.0;
    }
    var totalWeight, weightedSum := 0.0, 0.0;
    var i := 0;
    while i < |common|
      invariant 0 <= i <= |common|
      invariant totalWeight == RealSum(Elements(common[..i]), Weights(w))
      invariant weightedSum == RealSum(Elements(common[..i]), WeightedTerms(f1, f2, Weights(w)))
    {
      var feature := common[i];
      var weight := GetFeatureWeight(feature, w);
      WeightedStep(f1, f2, Weights(w), common, i);
      // weight * (1 - |v1 - v2| / maxVal)
      weightedSum := weightedSum + WeightedTerm(f1, f2, Weights(w), feature);
      totalWeight := totalWeight + weight;
      i := i + 1;
    }
    assert common[..i] == common;
    if totalWeight == 0.0 {
      return 0.0;
    }
    similarity := weightedSum / totalWeight;
  }

  /** One step of the weighted-similarity loop. */
  lemma WeightedStep(f1: FeatureMap, f2: FeatureMap, weight: string -> real, common: seq<string>, i: nat)
    requires Increasing(common) && i < |common|
    ensures RealSum(Elements(common[..i + 1]), weight)
         == RealSum(Elements(common[..i]), weight) + weight(common[i])
    ensures RealSum(Elements(common[..i + 1]), WeightedTerms(f1, f2, weight))
         == RealSum(Elements(common[..i]), WeightedTerms(f1, f2, weight)) + WeightedTerm(f1, f2, weight, common[i])
  {
    PrefixSumStep(common, i, weight);
    PrefixSumStep(common, i, WeightedTerms(f1, f2, weight));
  }

  lemma DivUnit(a: real, t: real)
    requires t > 0.0 && -t <= a <= t
    ensures -1.0 <= a / t <= 1.0
  {
  }

  lemma DivSelf(t: real)
    requires t != 0.0
    ensures t / t == 1.0
  {
  }

  lemma MulUnit(c: real, x: real)
    requires c >= 0.0 && -1.0 <= x <= 1.0
    ensures -c <= c * x <= c
  {
  }

  lemma TermUnit(f1: FeatureMap, f2: FeatureMap, weight: string -> real, k: string)
    requires weight(k) >= 0.0
    ensures -weight(k) <= WeightedTerm(f1, f2, weight, k) <= weight(k)
  {
    var c := weight(k);
    var x := SimilarityAt(f1, f2, k);
    assert -1.0 <= x <= 1.0 by {
      SimilarityBounds(Lookup(f1, k), Lookup(f2, k));
    }
    assert WeightedTerm(f1, f2, weight, k) == c * x;
    MulUnit(c, x);
  }

  /** With non-negative weights the weighted average lies in [-1, 1]. */
  lemma WeightedAverageRange(f1: FeatureMap, f2: FeatureMap, weight: string -> real)
    requires forall k :: weight(k) >= 0.0
    ensures -1.0 <= WeightedAverage(f1, f2, weight) <= 1.0
  {
    var common := f1.Keys * f2.Keys;
    var total := RealSum(common, weight);
    var sum := RealSum(common, WeightedTerms(f1, f2, weight));
    if common != {} && total != 0.0 {
      assert RealSum(common, Negated(weight)) <= sum <= total by {
        forall k | k in common
          ensures Negated(weight)(k) <= WeightedTerms(f1, f2, weight)(k) <= weight(k)
        {
          TermUnit(f1, f2, weight, k);
        }
        RealSumMono(common, WeightedTerms(f1, f2, weight), weight);
        RealSumMono(common, Negated(weight), WeightedTerms(f1, f2, weight));
      }
      assert RealSum(common, Negated(weight)) == -total by {
        RealSumScale(common, weight, Negated(weight), -1.0);
      }
      assert total > 0.0 by {
        RealSumNonneg(common, weight);
      }
      DivUnit(sum, total);
    }
  }

  /** With the service's non-negative weights the weighted similarity lies in [-1, 1]. */
  lemma WeightedSimilarityRange(f1: FeatureMap, f2: FeatureMap, w: FeatureWeights)
    requires NonNegative(w)
    ensures -1.0 <= WeightedAverage(f1, f2, Weights(w)) <= 1.0
  {
    WeightsNonNegative(w);
    WeightedAverageRange(f1, f2, Weights(w));
  }

  lemma TermSelf(f: FeatureMap, weight: string -> real, k: string)
    ensures WeightedTerm(f, f, weight, k) == weight(k)
  {
    var c := weight(k);
    assert SimilarityAt(f, f, k) == 1.0 by {
      SimilarityBounds(Lookup(f, k), Lookup(f, k));
    }
    assert WeightedTerm(f, f, weight, k) == c * 1.0;
  }

  /** A map compared with itself scores 1 whenever its keys carry some weight. */
  lemma WeightedAverageSelf(f: FeatureMap, weight: string -> real)
    requires RealSum(f.Keys, weight) != 0.0
    ensures WeightedAverage(f, f, weight) == 1.0
  {
    assert f.Keys * f.Keys == f.Keys;
    var total := RealSum(f.Keys, weight);
    assert RealSum(f.Keys, WeightedTerms(f, f, weight)) == total by {
      forall k | k in f.Keys
        ensures WeightedTerms(f, f, weight)(k) == weight(k)
      {
        TermSelf(f, weight, k);
      }
      RealSumExt(f.Keys, WeightedTerms(f, f, weight), weight);
    }
    assert f.Keys != {} by {
      assert RealSum({}, weight) == 0.0;
    }
    assert total / total == 1.0 by {
      DivSelf(total);
    }
  }

  lemma TermSymmetric(f1: FeatureMap, f2: FeatureMap, weight: string -> real, k: string)
    ensures WeightedTerm(f1, f2, weight, k) == WeightedTerm(f2, f1, weight, k)
  {
    var c := weight(k);
    assert SimilarityAt(f1, f2, k) == SimilarityAt(f2, f1, k) by {
      SimilarityBounds(Lookup(f1, k), Lookup(f2, k));
    }
    assert WeightedTerm(f1, f2, weight, k) == c * SimilarityAt(f1, f2, k);
    assert WeightedTerm(f2, f1, weight, k) == c * SimilarityAt(f2, f1, k);
  }

  /** The weighted average does not depend on the order of the two maps. */
  lemma WeightedAverageSymmetric(f1: FeatureMap, f2: FeatureMap, weight: string -> real)
    ensures WeightedAverage(f1, f2, weight) == WeightedAverage(f2, f1, weight)
  {
    var common := f1.Keys * f2.Keys;
    assert common == f2.Keys * f1.Keys;
    assert RealSum(common, WeightedTerms(f1, f2, weight)) == RealSum(common, WeightedTerms(f2, f1, weight)) by {
      forall k | k in common
        ensures WeightedTerms(f1, f2, weight)(k) == WeightedTerms(f2, f1, weight)(k)
      {
        TermSymmetric(f1, f2, weight, k);
      }
      RealSumExt(common, WeightedTerms(f1, f2, weight), WeightedTerms(f2, f1, weight));
    }
  }

  // ------------------------------------------------------------------
  // Jaccard index adapted to continuous values.
  // ------------------------------------------------------------------

  /**
   * calculateJaccardIndex: the per-feature similarities summed over the
   * shared keys, divided by the number of keys in either map; 0 when both
   * maps are empty.
   */
  ghost function JaccardOf(f1: FeatureMap, f2: FeatureMap): real
  {
    var all := f1.Keys + f2.Keys;
    if all == {} then 0.0 else RealSum(f1.Keys * f2.Keys, Similarities(f1, f2)) / (|all| as real)
  }

  /** Visiting one more key adds its term exactly when it is shared. */
  lemma SharedStep(done: set<string>, x: string, shared: set<string>, f: string -> real)
    requires x !in done
    ensures RealSum((done + {x}) * shared, f) == RealSum(done * shared, f) + (if x in shared then f(x) else 0.0)
  {
    if x in shared {
      RealSumRemove((done + {x}) * shared, f, x);
      assert (done + {x}) * shared - {x} == done * shared;
    } else {
      assert (done + {x}) * shared == done * shared;
    }
  }

  lemma SimilaritiesAt(f1: FeatureMap, f2: FeatureMap, k: string)
    requires k in f1 && k in f2
    ensures Similarities(f1, f2)(k) == Similarity(f1[k], f2[k])
  {
  }

  /** The allFeatures set of calculateJaccardIndex: every key of either map. */
  method AllFeatures(f1: FeatureMap, f2: FeatureMap) returns (allFeatures: set<string>)
    ensures allFeatures == f1.Keys + f2.Keys
  {
    allFeatures := {};
    var rest := f1.Keys;
    while rest != {}
      invariant rest <= f1.Keys && allFeatures == f1.Keys - rest
      decreases rest
    {
      var k :| k in rest;
      allFeatures := allFeatures + {k};
      rest := rest - {k};
    }
    rest := f2.Keys;
    while rest != {}
      invariant rest <= f2.Keys && allFeatures == f1.Keys + (f2.Keys - rest)
      decreases rest
    {
      var k :| k in rest;
      allFeatures := allFeatures + {k};
      rest := rest - {k};
    }
  }

  /** One more visited feature adds its similarity when both maps hold it. */
  lemma JaccardStep(f1: FeatureMap, f2: FeatureMap, done: set<string>, x: string)
    requires x !in done
    ensures RealSum((done + {x}) * (f1.Keys * f2.Keys), Similarities(f1, f2))
         == RealSum(done * (f1.Keys * f2.Keys), Similarities(f1, f2))
            + (if x in f1 && x in f2 then Similarity(f1[x], f2[x]) else 0.0)
  {
    SharedStep(done, x, f1.Keys * f2.Keys, Similarities(f1, f2));
    if x in f1 && x in f2 {
      SimilaritiesAt(f1, f2, x);
    }
  }

  /** The third loop of the Jaccard index: similarities of the shared features. */
  method SharedSimilaritySum(f1: FeatureMap, f2: FeatureMap, allFeatures: set<string>) returns (intersection: real)
    requires allFeatures == f1.Keys + f2.Keys
    ensures intersection == RealSum(f1.Keys * f2.Keys, Similarities(f1, f2))
  {
    intersection := 0.0;
    var rest := allFeatures;
    ghost var done: set<string> := {};
    while rest != {}
      invariant rest <= allFeatures && done == allFeatures - rest
      invariant intersection == RealSum(done * (f1.Keys * f2.Keys), Similarities(f1, f2))
      decreases rest
    {
      var feature :| feature in rest;
      JaccardStep(f1, f2, done, feature);
      if feature in f1 && feature in f2 {
        intersection := intersection + Similarity(f1[feature], f2[feature]);
      }
      done := done + {feature};
      rest := rest - {feature};
    }
    assert done * (f1.Keys * f2.Keys) == f1.Keys * f2.Keys;
  }

  method CalculateJaccardIndex(f1: FeatureMap, f2: FeatureMap) returns (index: real)
    ensures index == JaccardOf(f1, f2)
  {
    var allFeatures := AllFeatures(f1, f2);
    var intersection := SharedSimilaritySum(f1, f2, allFeatures);
    var union := |allFeatures| as real;
    if union == 0.0 {
      return 0.0;
    }
    index := intersection / union;
  }

  lemma {:induction false} CardSubset<T>(a: set<T>, b: set<T>)
    requires a <= b
    ensures |a| <= |b|
    decreases b
  {
    if a != b {
      var x :| x in b && x !in a;
      CardSubset(a, b - {x});
    }
  }

  /** The Jaccard index lies in [-1, 1]. */
  lemma JaccardRange(f1: FeatureMap, f2: FeatureMap)
    ensures -1.0 <= JaccardOf(f1, f2) <= 1.0
  {
    var all := f1.Keys + f2.Keys;
    var common := f1.Keys * f2.Keys;
    var sum := RealSum(common, Similarities(f1, f2));
    if all != {} {
      assert -(|common| as real) <= sum <= |common| as real by {
        forall k | k in common
          ensures -1.0 <= Similarities(f1, f2)(k) <= 1.0
        {
          SimilarityBounds(Lookup(f1, k), Lookup(f2, k));
        }
        RealSumUnit(common, Similarities(f1, f2));
      }
      CardSubset(common, all);
      DivUnit(sum, |all| as real);
    }
  }

  /** A non-empty map compared with itself has index 1. */
  lemma JaccardSelf(f: FeatureMap)
    requires f != map[]
    ensures JaccardOf(f, f) == 1.0
  {
    assert f.Keys * f.Keys == f.Keys && f.Keys + f.Keys == f.Keys;
    assert RealSum(f.Keys, Similarities(f, f)) == |f.Keys| as real by {
      forall k | k in f.Keys
        ensures Similarities(f, f)(k) == 1.0
      {
        SimilarityBounds(f[k], f[k]);
      }
      RealSumOnes(f.Keys, Similarities(f, f));
    }
    assert f.Keys != {} by {
      var k :| k in f;
      assert k in f.Keys;
    }
    DivSelf(|f.Keys| as real);
  }


  // ------------------------------------------------------------------
  // Vector metrics over the aligned vectors of the shared keys. Go's
  // math.Sqrt is a parameter `sqrt`; `IsSqrt` says what is assumed of it.
  // ------------------------------------------------------------------

  /** Σ |a_i − b_i| */
  function AbsDiffSum(a: seq<real>, b: seq<real>): real
    requires |a| == |b|
  {
    if a == [] then 0.0
    else AbsDiffSum(a[..|a| - 1], b[..|b| - 1]) + Abs(a[|a| - 1] - b[|b| - 1])
  }

  /** Σ (a_i − b_i)² */
  function SquaredDiffSum(a: seq<real>, b: seq<real>): real
    requires |a| == |b|
  {
    if a == [] then 0.0
    else SquaredDiffSum(a[..|a| - 1], b[..|b| - 1]) + (a[|a| - 1] - b[|b| - 1]) * (a[|a| - 1] - b[|b| - 1])
  }

  /** Σ a_i · b_i */
  function Dot(a: seq<real>, b: seq<real>): real
    requires |a| == |b|
  {
    if a == [] then 0.0 else Dot(a[..|a| - 1], b[..|b| - 1]) + a[|a| - 1] * b[|b| - 1]
  }

  /** Σ a_i */
  function Sum(a: seq<real>): real
  {
    if a == [] then 0.0 else Sum(a[..|a| - 1]) + a[|a| - 1]
  }

  /** A square root: non-negative, and squaring it gives back its argument. */
  ghost predicate IsSqrt(sqrt: real -> real)
  {
    forall x :: x >= 0.0 ==> sqrt(x) >= 0.0 && sqrt(x) * sqrt(x) == x
  }

  lemma SquareNonneg(d: real)
    ensures d * d >= 0.0
  {
    if d < 0.0 {
      assert d * d == (-d) * (-d);
    }
  }

  /**
   * Both distance sums are non-negative and vanish on equal vectors; the
   * absolute one vanishes only on equal vectors.
   */
  lemma {:induction false} DiffSumsZero(a: seq<real>, b: seq<real>)
    requires |a| == |b|
    ensures AbsDiffSum(a, b) >= 0.0 && SquaredDiffSum(a, b) >= 0.0
    ensures AbsDiffSum(a, b) == 0.0 <==> a == b
    ensures a == b ==> SquaredDiffSum(a, b) == 0.0
    decreases |a|
  {
    if a != [] {
      var n := |a| - 1;
      DiffSumsZero(a[..n], b[..n]);
      SquareNonneg(a[n] - b[n]);
      assert a == a[..n] + [a[n]] && b == b[..n] + [b[n]];
      if a == b {
        assert a[..n] == b[..n];
      }
    }
  }

  lemma {:induction false} DotSymmetric(a: seq<real>, b: seq<real>)
    requires |a| == |b|
    ensures Dot(a, b) == Dot(b, a)
    decreases |a|
  {
    if a != [] {
      DotSymmetric(a[..|a| - 1], b[..|b| - 1]);
    }
  }

  /** A vector's squared norm is non-negative. */
  lemma {:induction false} DotSelfNonneg(a: seq<real>)
    ensures Dot(a, a) >= 0.0
    decreases |a|
  {
    if a != [] {
      DotSelfNonneg(a[..|a| - 1]);
      SquareNonneg(a[|a| - 1]);
    }
  }

  /** Extending a prefix of two vectors by one position. */
  lemma PrefixStep(v1: seq<real>, v2: seq<real>, i: nat)
    requires i < |v1| && i < |v2|
    ensures v1[..i + 1][..i] == v1[..i] && v1[..i + 1][i] == v1[i]
    ensures v2[..i + 1][..i] == v2[..i] && v2[..i + 1][i] == v2[i]
  {
  }

  /** calculateManhattanDistance: +Inf on a length mismatch, else Σ |a_i − b_i|. */
  method CalculateManhattanDistance(v1: seq<real>, v2: seq<real>) returns (d: Float)
    ensures |v1| != |v2| ==> d == Inf(true)
    ensures |v1| == |v2| ==> d == Finite(AbsDiffSum(v1, v2)) && d.value >= 0.0
    ensures |v1| == |v2| ==> (d.value == 0.0 <==> v1 == v2)
  {
    if |v1| != |v2| {
      return Inf(true);
    }
    var sum := 0.0;
    var i := 0;
    while i < |v1|
      invariant 0 <= i <= |v1|
      invariant sum == AbsDiffSum(v1[..i], v2[..i])
    {
      PrefixStep(v1, v2, i);
      sum := sum + Abs(v1[i] - v2[i]);
      i := i + 1;
    }
    assert v1[..i] == v1 && v2[..i] == v2;
    DiffSumsZero(v1, v2);
    d := Finite(sum);
  }

  /** calculateEuclideanDistance: +Inf on a length mismatch, else sqrt(Σ (a_i − b_i)²). */
  method CalculateEuclideanDistance(v1: seq<real>, v2: seq<real>, sqrt: real -> real) returns (d: Float)
    ensures |v1| != |v2| ==> d == Inf(true)
    ensures |v1| == |v2| ==> d == Finite(sqrt(SquaredDiffSum(v1, v2)))
    ensures |v1| == |v2| ==> SquaredDiffSum(v1, v2) >= 0.0 && (v1 == v2 ==> SquaredDiffSum(v1, v2) == 0.0)
  {
    if |v1| != |v2| {
      return Inf(true);
    }
    var sum := 0.0;
    var i := 0;
    while i < |v1|
      invariant 0 <= i <= |v1|
      invariant sum == SquaredDiffSum(v1[..i], v2[..i])
    {
      PrefixStep(v1, v2, i);
      var diff := v1[i] - v2[i];
      sum := sum + diff * diff;
      i := i + 1;
    }
    assert v1[..i] == v1 && v2[..i] == v2;
    DiffSumsZero(v1, v2);
    d := Finite(sqrt(sum));
  }

  /** The cosine from a dot product and two squared norms; 0 when a norm is 0. */
  function CosineFrom(dot: real, norm1: real, norm2: real, sqrt: real -> real): real
    requires IsSqrt(sqrt) && norm1 >= 0.0 && norm2 >= 0.0
  {
    if norm1 == 0.0 || norm2 == 0.0 then 0.0
    else
      RootPositive(sqrt, norm1);
      RootPositive(sqrt, norm2);
      dot / (sqrt(norm1) * sqrt(norm2))
  }

  lemma RootPositive(sqrt: real -> real, x: real)
    requires IsSqrt(sqrt) && x > 0.0
    ensures sqrt(x) > 0.0
  {
  }

  /** calculateCosineSimilarity: 0 on a mismatch, for empty vectors or a zero norm. */
  ghost function CosineOf(v1: seq<real>, v2: seq<real>, sqrt: real -> real): real
    requires IsSqrt(sqrt)
  {
    if |v1| != |v2| || |v1| == 0 then 0.0
    else
      DotSelfNonneg(v1);
      DotSelfNonneg(v2);
      CosineFrom(Dot(v1, v2), Dot(v1, v1), Dot(v2, v2), sqrt)
  }

  method CalculateCosineSimilarity(v1: seq<real>, v2: seq<real>, sqrt: real -> real) returns (c: real)
    requires IsSqrt(sqrt)
    ensures c == CosineOf(v1, v2, sqrt)
  {
    if |v1| != |v2| || |v1| == 0 {
      return 0.0;
    }
    var dotProduct, norm1, norm2 := 0.0, 0.0, 0.0;
    var i := 0;
    while i < |v1|
      invariant 0 <= i <= |v1|
      invariant dotProduct == Dot(v1[..i], v2[..i])
      invariant norm1 == Dot(v1[..i], v1[..i]) && norm2 == Dot(v2[..i], v2[..i])
    {
      PrefixStep(v1, v2, i);
      dotProduct := dotProduct + v1[i] * v2[i];
      norm1 := norm1 + v1[i] * v1[i];
      norm2 := norm2 + v2[i] * v2[i];
      i := i + 1;
    }
    assert v1[..i] == v1 && v2[..i] == v2;
    DotSelfNonneg(v1);
    DotSelfNonneg(v2);
    c := CosineFrom(dotProduct, norm1, norm2, sqrt);
  }

  lemma CosineSymmetric(v1: seq<real>, v2: seq<real>, sqrt: real -> real)
    requires IsSqrt(sqrt)
    ensures CosineOf(v1, v2, sqrt) == CosineOf(v2, v1, sqrt)
  {
    if |v1| == |v2| && |v1| != 0 {
      DotSymmetric(v1, v2);
      DotSelfNonneg(v1);
      DotSelfNonneg(v2);
      CosineFromSwap(Dot(v1, v2), Dot(v1, v1), Dot(v2, v2), sqrt);
    }
  }

  lemma CosineFromSwap(dot: real, norm1: real, norm2: real, sqrt: real -> real)
    requires IsSqrt(sqrt) && norm1 >= 0.0 && norm2 >= 0.0
    ensures CosineFrom(dot, norm1, norm2, sqrt) == CosineFrom(dot, norm2, norm1, sqrt)
  {
    if norm1 != 0.0 && norm2 != 0.0 {
      assert sqrt(norm1) * sqrt(norm2) == sqrt(norm2) * sqrt(norm1);
    }
  }

  /** A vector with a non-zero norm has cosine 1 with itself. */
  lemma CosineSelf(v: seq<real>, sqrt: real -> real)
    requires IsSqrt(sqrt) && |v| != 0 && Dot(v, v) != 0.0
    ensures CosineOf(v, v, sqrt) == 1.0
  {
    DotSelfNonneg(v);
    var n := Dot(v, v);
    var r := sqrt(n);
    assert r * r == n;
    DivSelf(n);
  }

  /** Pearson's coefficient from the five running sums; 0 on a zero denominator. */
  function Pearson(n: real, sum1: real, sum2: real, sum1Sq: real, sum2Sq: real, sumProduct: real, sqrt: real -> real): real
    requires n > 0.0
  {
    var numerator := sumProduct - (sum1 * sum2) / n;
    var denominator := sqrt((sum1Sq - sum1 * sum1 / n) * (sum2Sq - sum2 * sum2 / n));
    if denominator == 0.0 then 0.0 else numerator / denominator
  }

  /** calculateCorrelation: 0 on a mismatch or for empty vectors. */
  function CorrelationOf(v1: seq<real>, v2: seq<real>, sqrt: real -> real): real
  {
    if |v1| != |v2| || |v1| == 0 then 0.0
    else Pearson(|v1| as real, Sum(v1), Sum(v2), Dot(v1, v1), Dot(v2, v2), Dot(v1, v2), sqrt)
  }

  method CalculateCorrelation(v1: seq<real>, v2: seq<real>, sqrt: real -> real) returns (c: real)
    ensures c == CorrelationOf(v1, v2, sqrt)
  {
    if |v1| != |v2| || |v1| == 0 {
      return 0.0;
    }
    var n := |v1| as real;
    var sum1, sum2, sum1Sq, sum2Sq, sumProduct := 0.0, 0.0, 0.0, 0.0, 0.0;
    var i := 0;
    while i < |v1|
      invariant 0 <= i <= |v1|
      invariant sum1 == Sum(v1[..i]) && sum2 == Sum(v2[..i])
      invariant sum1Sq == Dot(v1[..i], v1[..i]) && sum2Sq == Dot(v2[..i], v2[..i])
      invariant sumProduct == Dot(v1[..i], v2[..i])
    {
      PrefixStep(v1, v2, i);
      sum1 := sum1 + v1[i];
      sum2 := sum2 + v2[i];
      sum1Sq := sum1Sq + v1[i] * v1[i];
      sum2Sq := sum2Sq + v2[i] * v2[i];
      sumProduct := sumProduct + v1[i] * v2[i];
      i := i + 1;
    }
    assert v1[..i] == v1 && v2[..i] == v2;
    c := Pearson(n, sum1, sum2, sum1Sq, sum2Sq, sumProduct, sqrt);
  }

  lemma PearsonSwap(n: real, sum1: real, sum2: real, sum1Sq: real, sum2Sq: real, sumProduct: real, sqrt: real -> real)
    requires n > 0.0
    ensures Pearson(n, sum1, sum2, sum1Sq, sum2Sq, sumProduct, sqrt)
         == Pearson(n, sum2, sum1, sum2Sq, sum1Sq, sumProduct, sqrt)
  {
    var a := sum1Sq - sum1 * sum1 / n;
    var b := sum2Sq - sum2 * sum2 / n;
    assert a * b == b * a;
    assert sum1 * sum2 == sum2 * sum1;
  }

  /** Pearson's coefficient does not depend on the order of the two vectors. */
  lemma CorrelationSymmetric(v1: seq<real>, v2: seq<real>, sqrt: real -> real)
    ensures CorrelationOf(v1, v2, sqrt) == CorrelationOf(v2, v1, sqrt)
  {
    if |v1| == |v2| && |v1| != 0 {
      DotSymmetric(v1, v2);
      PearsonSwap(|v1| as real, Sum(v1), Sum(v2), Dot(v1, v1), Dot(v2, v2), Dot(v1, v2), sqrt);
    }
  }

  lemma {:induction false} AbsDiffSymmetric(a: seq<real>, b: seq<real>)
    requires |a| == |b|
    ensures AbsDiffSum(a, b) == AbsDiffSum(b, a)
    ensures SquaredDiffSum(a, b) == SquaredDiffSum(b, a)
    decreases |a|
  {
    if a != [] {
      var n := |a| - 1;
      AbsDiffSymmetric(a[..n], b[..n]);
      assert (a[n] - b[n]) * (a[n] - b[n]) == (b[n] - a[n]) * (b[n] - a[n]);
    }
  }

  // ------------------------------------------------------------------
  // Statistical metrics.
  // ------------------------------------------------------------------

  datatype StatisticalMetrics = StatisticalMetrics(
    correlationCoeff: real, euclideanDistance: real, manhattanDistance: real,
    cosineSimilarity: real, jaccardIndex: real)

  /** The zero value Go returns when the maps share no key. */
  const ZeroMetrics := StatisticalMetrics(0.0, 0.0, 0.0, 0.0, 0.0)

  /**
   * calculateStatisticalMetrics: all zero without shared keys (the Jaccard
   * index included); otherwise each metric over the shared keys in sorted
   * order, which does not depend on the order the maps yield their keys in.
   */
  ghost function MetricsOf(f1: FeatureMap, f2: FeatureMap, sqrt: real -> real): StatisticalMetrics
    requires IsSqrt(sqrt)
  {
    var shared := f1.Keys * f2.Keys;
    if shared == {} then ZeroMetrics
    else
      var features := SortedKeys(shared);
      var v1 := VectorOf(f1, features);
      var v2 := VectorOf(f2, features);
      StatisticalMetrics(
        CorrelationOf(v1, v2, sqrt), sqrt(SquaredDiffSum(v1, v2)), AbsDiffSum(v1, v2),
        CosineOf(v1, v2, sqrt), JaccardOf(f1, f2))
  }

  method CalculateStatisticalMetrics(f1: FeatureMap, f2: FeatureMap, sqrt: real -> real) returns (metrics: StatisticalMetrics)
    requires IsSqrt(sqrt)
    ensures metrics == MetricsOf(f1, f2, sqrt)
  {
    var common := GetCommonFeatures(f1, f2);
    assert Elements(common) == f1.Keys * f2.Keys;
    if |common| == 0 {
      assert Elements(common) == {};
      return ZeroMetrics;
    }
    IncreasingUnique(common, SortedKeys(f1.Keys * f2.Keys));
    var vec1, vec2 := PrepareVectors(f1, f2, common);
    assert vec1 == VectorOf(f1, common) && vec2 == VectorOf(f2, common);
    var correlation := CalculateCorrelation(vec1, vec2, sqrt);
    var euclidean := CalculateEuclideanDistance(vec1, vec2, sqrt);
    var manhattan := CalculateManhattanDistance(vec1, vec2);
    var cosine := CalculateCosineSimilarity(vec1, vec2, sqrt);
    var jaccard := CalculateJaccardIndex(f1, f2);
    metrics := StatisticalMetrics(correlation, euclidean.value, manhattan.value, cosine, jaccard);
  }

  lemma JaccardSymmetric(f1: FeatureMap, f2: FeatureMap)
    ensures JaccardOf(f1, f2) == JaccardOf(f2, f1)
  {
    assert f1.Keys * f2.Keys == f2.Keys * f1.Keys && f1.Keys + f2.Keys == f2.Keys + f1.Keys;
    forall k | k in f1.Keys * f2.Keys
      ensures Similarities(f1, f2)(k) == Similarities(f2, f1)(k)
    {
      SimilarityBounds(Lookup(f1, k), Lookup(f2, k));
    }
    RealSumExt(f1.Keys * f2.Keys, Similarities(f1, f2), Similarities(f2, f1));
  }

  /** Every statistical metric is symmetric in the two feature maps. */
  lemma MetricsSymmetric(f1: FeatureMap, f2: FeatureMap, sqrt: real -> real)
    requires IsSqrt(sqrt)
    ensures MetricsOf(f1, f2, sqrt) == MetricsOf(f2, f1, sqrt)
  {
    var shared := f1.Keys * f2.Keys;
    assert shared == f2.Keys * f1.Keys;
    if shared != {} {
      var features := SortedKeys(shared);
      var v1 := VectorOf(f1, features);
      var v2 := VectorOf(f2, features);
      CorrelationSymmetric(v1, v2, sqrt);
      AbsDiffSymmetric(v1, v2);
      CosineSymmetric(v1, v2, sqrt);
      JaccardSymmetric(f1, f2);
    }
  }

  /** A non-empty map against itself: Manhattan distance 0 and Jaccard index 1. */
  lemma MetricsSelf(f: FeatureMap, sqrt: real -> real)
    requires IsSqrt(sqrt) && f != map[]
    ensures MetricsOf(f, f, sqrt).manhattanDistance == 0.0
    ensures MetricsOf(f, f, sqrt).jaccardIndex == 1.0
  {
    assert f.Keys * f.Keys == f.Keys;
    assert f.Keys != {} by {
      var k :| k in f;
      assert k in f.Keys;
    }
    var v := VectorOf(f, SortedKeys(f.Keys));
    DiffSumsZero(v, v);
    JaccardSelf(f);
  }

  // ------------------------------------------------------------------
  // Ballistic feature groups.
  // ------------------------------------------------------------------

  const StriationGroup: seq<string> := ["striation_density", "striation_angle", "striation_depth"]
  const FiringPinGroup: seq<string> := ["firing_pin_impression", "firing_pin_shape", "firing_pin_depth"]
  const BreechFaceGroup: seq<string> := ["breech_face_marks", "breech_face_texture", "breech_face_pattern"]
  const EjectorGroup: seq<string> := ["ejector_marks", "ejector_position", "ejector_shape"]
  const ExtractorGroup: seq<string> := ["extractor_marks", "extractor_groove", "extractor_depth"]

  /** Running similarity total and number of members present in both maps. */
  datatype GroupTally = GroupTally(total: real, count: nat)

  function GroupTotals(f1: FeatureMap, f2: FeatureMap, features: seq<string>): GroupTally
    decreases |features|
  {
    if features == [] then GroupTally(0.0, 0)
    else
      var t := GroupTotals(f1, f2, features[..|features| - 1]);
      var k := features[|features| - 1];
      if k in f1 && k in f2 then GroupTally(t.total + Similarity(f1[k], f2[k]), t.count + 1) else t
  }

  /** analyzeFeatureGroup: the mean similarity over the members present in both maps, 0 if none. */
  function GroupScore(f1: FeatureMap, f2: FeatureMap, features: seq<string>): real
  {
    var t := GroupTotals(f1, f2, features);
    if t.count == 0 then 0.0 else t.total / (t.count as real)
  }

  method AnalyzeFeatureGroup(f1: FeatureMap, f2: FeatureMap, features: seq<string>) returns (score: real)
    ensures score == GroupScore(f1, f2, features)
  {
    var totalSimilarity := 0.0;
    var validFeatures := 0;
    var i := 0;
    while i < |features|
      invariant 0 <= i <= |features|
      invariant GroupTotals(f1, f2, features[..i]) == GroupTally(totalSimilarity, validFeatures)
    {
      assert features[..i + 1][..i] == features[..i];
      var feature := features[i];
      if feature in f1 && feature in f2 {
        totalSimilarity := totalSimilarity + Similarity(f1[feature], f2[feature]);
        validFeatures := validFeatures + 1;
      }
      i := i + 1;
    }
    assert features[..i] == features;
    if validFeatures == 0 {
      return 0.0;
    }
    score := totalSimilarity / validFeatures as real;
  }

  /** The tally counts the members present in both maps; its total stays within ±count. */
  lemma {:induction false} GroupTotalsBounds(f1: FeatureMap, f2: FeatureMap, features: seq<string>)
    ensures GroupTotals(f1, f2, features).count <= |features|
    ensures -(GroupTotals(f1, f2, features).count as real) <= GroupTotals(f1, f2, features).total
         <= GroupTotals(f1, f2, features).count as real
    ensures GroupTotals(f1, f2, features).count == 0 <==> forall k :: k in features ==> !(k in f1 && k in f2)
    decreases |features|
  {
    if features != [] {
      var n := |features| - 1;
      GroupTotalsBounds(f1, f2, features[..n]);
      var k := features[n];
      if k in f1 && k in f2 {
        SimilarityBounds(f1[k], f2[k]);
      }
      assert forall x :: x in features <==> x in features[..n] || x == k by {
        assert features == features[..n] + [k];
      }
    }
  }

  /** A group score lies in [-1, 1], and is 0 when no member is present in both maps. */
  lemma GroupScoreRange(f1: FeatureMap, f2: FeatureMap, features: seq<string>)
    ensures -1.0 <= GroupScore(f1, f2, features) <= 1.0
    ensures (forall k :: k in features ==> !(k in f1 && k in f2)) ==> GroupScore(f1, f2, features) == 0.0
  {
    GroupTotalsBounds(f1, f2, features);
    var t := GroupTotals(f1, f2, features);
    if t.count != 0 {
      DivUnit(t.total, t.count as real);
    }
  }

  lemma {:induction false} GroupTotalsSelf(f: FeatureMap, features: seq<string>)
    ensures GroupTotals(f, f, features).total == GroupTotals(f, f, features).count as real
    decreases |features|
  {
    if features != [] {
      var n := |features| - 1;
      GroupTotalsSelf(f, features[..n]);
      var k := features[n];
      if k in f {
        SimilarityBounds(f[k], f[k]);
      }
    }
  }

  /** A map against itself scores 1 on every group it has a member of. */
  lemma GroupScoreSelf(f: FeatureMap, features: seq<string>)
    requires exists k :: k in features && k in f
    ensures GroupScore(f, f, features) == 1.0
  {
    GroupTotalsSelf(f, features);
    GroupTotalsBounds(f, f, features);
    DivSelf(GroupTotals(f, f, features).count as real);
  }

  // ------------------------------------------------------------------
  // Ballistic indicators.
  // ------------------------------------------------------------------

  datatype BallisticIndicators = BallisticIndicators(
    striationMatch: real, firingPinMatch: real, breechFaceMatch: real,
    ejectorMatch: real, extractorMatch: real, overallBallisticScore: real)

  const ZeroIndicators := BallisticIndicators(0.0, 0.0, 0.0, 0.0, 0.0, 0.0)

  predicate InUnit(x: real)
  {
    -1.0 <= x <= 1.0
  }

  /** Five values averaged by five weights; 0 when the weights sum to 0. */
  function WeightedMean(x1: real, x2: real, x3: real, x4: real, x5: real,
                        c1: real, c2: real, c3: real, c4: real, c5: real): real
  {
    var total := c1 + c2 + c3 + c4 + c5;
    if total == 0.0 then 0.0 else (x1 * c1 + x2 * c2 + x3 * c3 + x4 * c4 + x5 * c5) / total
  }

  /** calculateOverallBallisticScore: the five group scores averaged by their weights. */
  function OverallBallisticScore(ind: BallisticIndicators, w: FeatureWeights): real
  {
    WeightedMean(ind.striationMatch, ind.firingPinMatch, ind.breechFaceMatch, ind.ejectorMatch, ind.extractorMatch,
      w.striationFeatures, w.firingPinFeatures, w.breechFaceFeatures, w.ejectorFeatures, w.extractorFeatures)
  }

  lemma ScaledUnit(x: real, c: real)
    requires InUnit(x) && c >= 0.0
    ensures -c <= x * c <= c
  {
    MulUnit(c, x);
    assert x * c == c * x;
  }

  lemma WeightedSumBound(x1: real, x2: real, x3: real, x4: real, x5: real,
                         c1: real, c2: real, c3: real, c4: real, c5: real)
    requires InUnit(x1) && InUnit(x2) && InUnit(x3) && InUnit(x4) && InUnit(x5)
    requires c1 >= 0.0 && c2 >= 0.0 && c3 >= 0.0 && c4 >= 0.0 && c5 >= 0.0
    ensures -(c1 + c2 + c3 + c4 + c5) <= x1 * c1 + x2 * c2 + x3 * c3 + x4 * c4 + x5 * c5 <= c1 + c2 + c3 + c4 + c5
  {
    ScaledUnit(x1, c1);
    ScaledUnit(x2, c2);
    ScaledUnit(x3, c3);
    ScaledUnit(x4, c4);
    ScaledUnit(x5, c5);
    SumBound(x1 * c1, x2 * c2, x3 * c3, x4 * c4, x5 * c5, c1, c2, c3, c4, c5);
  }

  lemma SumBound(a1: real, a2: real, a3: real, a4: real, a5: real,
                 c1: real, c2: real, c3: real, c4: real, c5: real)
    requires -c1 <= a1 <= c1 && -c2 <= a2 <= c2 && -c3 <= a3 <= c3 && -c4 <= a4 <= c4 && -c5 <= a5 <= c5
    ensures -(c1 + c2 + c3 + c4 + c5) <= a1 + a2 + a3 + a4 + a5 <= c1 + c2 + c3 + c4 + c5
  {
  }

  /** With values in [-1, 1] and non-negative weights the mean lies in [-1, 1]. */
  lemma WeightedMeanUnit(x1: real, x2: real, x3: real, x4: real, x5: real,
                         c1: real, c2: real, c3: real, c4: real, c5: real)
    requires InUnit(x1) && InUnit(x2) && InUnit(x3) && InUnit(x4) && InUnit(x5)
    requires c1 >= 0.0 && c2 >= 0.0 && c3 >= 0.0 && c4 >= 0.0 && c5 >= 0.0
    ensures InUnit(WeightedMean(x1, x2, x3, x4, x5, c1, c2, c3, c4, c5))
  {
    var total := c1 + c2 + c3 + c4 + c5;
    if total != 0.0 {
      WeightedSumBound(x1, x2, x3, x4, x5, c1, c2, c3, c4, c5);
      DivUnit(x1 * c1 + x2 * c2 + x3 * c3 + x4 * c4 + x5 * c5, total);
    }
  }

  /** Five perfect values give a perfect mean whenever the weights do not sum to 0. */
  lemma WeightedMeanPerfect(c1: real, c2: real, c3: real, c4: real, c5: real)
    requires c1 + c2 + c3 + c4 + c5 != 0.0
    ensures WeightedMean(1.0, 1.0, 1.0, 1.0, 1.0, c1, c2, c3, c4, c5) == 1.0
  {
    DivSelf(c1 + c2 + c3 + c4 + c5);
  }

  /** With non-negative weights and group scores in [-1, 1] the overall score lies in [-1, 1]; it is 0 when the five weights sum to 0. */
  lemma OverallBallisticScoreRange(ind: BallisticIndicators, w: FeatureWeights)
    requires NonNegative(w)
    requires InUnit(ind.striationMatch) && InUnit(ind.firingPinMatch) && InUnit(ind.breechFaceMatch)
    requires InUnit(ind.ejectorMatch) && InUnit(ind.extractorMatch)
    ensures InUnit(OverallBallisticScore(ind, w))
  {
    WeightedMeanUnit(ind.striationMatch, ind.firingPinMatch, ind.breechFaceMatch, ind.ejectorMatch, ind.extractorMatch,
      w.striationFeatures, w.firingPinFeatures, w.breechFaceFeatures, w.ejectorFeatures, w.extractorFeatures);
  }

  /** Five perfect group scores give a perfect overall score whenever the five weights do not sum to 0. */
  lemma OverallBallisticScorePerfect(ind: BallisticIndicators, w: FeatureWeights)
    requires ind.striationMatch == 1.0 && ind.firingPinMatch == 1.0 && ind.breechFaceMatch == 1.0
    requires ind.ejectorMatch == 1.0 && ind.extractorMatch == 1.0
    requires w.striationFeatures + w.firingPinFeatures + w.breechFaceFeatures + w.ejectorFeatures + w.extractorFeatures != 0.0
    ensures OverallBallisticScore(ind, w) == 1.0
  {
    WeightedMeanPerfect(w.striationFeatures, w.firingPinFeatures, w.breechFaceFeatures, w.ejectorFeatures, w.extractorFeatures);
  }

  /** calculateBallisticIndicators, as values. */
  function IndicatorsOf(f1: FeatureMap, f2: FeatureMap, w: FeatureWeights): BallisticIndicators
  {
    var groups := BallisticIndicators(
      GroupScore(f1, f2, StriationGroup), GroupScore(f1, f2, FiringPinGroup),
      GroupScore(f1, f2, BreechFaceGroup), GroupScore(f1, f2, EjectorGroup),
      GroupScore(f1, f2, ExtractorGroup), 0.0);
    groups.(overallBallisticScore := OverallBallisticScore(groups, w))
  }

  method CalculateBallisticIndicators(f1: FeatureMap, f2: FeatureMap, w: FeatureWeights) returns (indicators: BallisticIndicators)
    ensures indicators == IndicatorsOf(f1, f2, w)
  {
    indicators := ZeroIndicators;
    var striation := AnalyzeFeatureGroup(f1, f2, StriationGroup);
    indicators := indicators.(striationMatch := striation);
    var firingPin := AnalyzeFeatureGroup(f1, f2, FiringPinGroup);
    indicators := indicators.(firingPinMatch := firingPin);
    var breechFace := AnalyzeFeatureGroup(f1, f2, BreechFaceGroup);
    indicators := indicators.(breechFaceMatch := breechFace);
    var ejector := AnalyzeFeatureGroup(f1, f2, EjectorGroup);
    indicators := indicators.(ejectorMatch := ejector);
    var extractor := AnalyzeFeatureGroup(f1, f2, ExtractorGroup);
    indicators := indicators.(extractorMatch := extractor);
    indicators := indicators.(overallBallisticScore := OverallBallisticScore(indicators, w));
  }

  /** With non-negative weights every indicator lies in [-1, 1]. */
  lemma IndicatorsRange(f1: FeatureMap, f2: FeatureMap, w: FeatureWeights)
    requires NonNegative(w)
    ensures var ind := IndicatorsOf(f1, f2, w);
      InUnit(ind.striationMatch) && InUnit(ind.firingPinMatch) && InUnit(ind.breechFaceMatch) &&
      InUnit(ind.ejectorMatch) && InUnit(ind.extractorMatch) && InUnit(ind.overallBallisticScore)
  {
    GroupScoreRange(f1, f2, StriationGroup);
    GroupScoreRange(f1, f2, FiringPinGroup);
    GroupScoreRange(f1, f2, BreechFaceGroup);
    GroupScoreRange(f1, f2, EjectorGroup);
    GroupScoreRange(f1, f2, ExtractorGroup);
    var groups := BallisticIndicators(
      GroupScore(f1, f2, StriationGroup), GroupScore(f1, f2, FiringPinGroup),
      GroupScore(f1, f2, BreechFaceGroup), GroupScore(f1, f2, EjectorGroup),
      GroupScore(f1, f2, ExtractorGroup), 0.0);
    OverallBallisticScoreRange(groups, w);
  }

  // ------------------------------------------------------------------
  // Confidence and the match decision.
  // ------------------------------------------------------------------

  datatype ComparisonResult = ComparisonResult(
    similarity: real, confidence: real, isMatch: bool, criticalFeatures: seq<string>,
    featureScores: FeatureMap, statisticalMetrics: StatisticalMetrics,
    ballisticIndicators: BallisticIndicators)

  /** The weighted factors minus 0.05 per critical feature, before clamping. */
  function RawConfidence(r: ComparisonResult): real
  {
    Abs(r.statisticalMetrics.correlationCoeff) * 0.3 + r.statisticalMetrics.cosineSimilarity * 0.2 +
    r.statisticalMetrics.jaccardIndex * 0.2 + r.ballisticIndicators.overallBallisticScore * 0.3 -
    (|r.criticalFeatures| as real) * 0.05
  }

  /** calculateAdvancedConfidence: the raw confidence clamped to [0, 1]. */
  function CalculateAdvancedConfidence(r: ComparisonResult): (c: real)
    ensures 0.0 <= c <= 1.0
    ensures 0.0 <= RawConfidence(r) <= 1.0 ==> c == RawConfidence(r)
  {
    var confidence := RawConfidence(r);
    if confidence < 0.0 then 0.0 else if confidence > 1.0 then 1.0 else confidence
  }

  /** More critical features never raise the confidence. */
  lemma ConfidenceCriticalPenalty(r: ComparisonResult, critical: seq<string>)
    requires |critical| >= |r.criticalFeatures|
    ensures CalculateAdvancedConfidence(r.(criticalFeatures := critical)) <= CalculateAdvancedConfidence(r)
  {
    assert RawConfidence(r.(criticalFeatures := critical)) <= RawConfidence(r);
  }

  /** A higher overall ballistic score never lowers the confidence. */
  lemma ConfidenceBallisticMonotone(r: ComparisonResult, score: real)
    requires score >= r.ballisticIndicators.overallBallisticScore
    ensures CalculateAdvancedConfidence(r.(ballisticIndicators := r.ballisticIndicators.(overallBallisticScore := score)))
         >= CalculateAdvancedConfidence(r)
  {
  }

  const SimilarityThreshold: real := 0.85
  const ConfidenceThreshold: real := 0.75
  const BallisticThreshold: real := 0.80
  const MaxCriticalFeatures: nat := 3

  predicate HighSimilarity(r: ComparisonResult) { r.similarity >= SimilarityThreshold }
  predicate HighConfidence(r: ComparisonResult) { r.confidence >= ConfidenceThreshold }
  predicate GoodBallisticScore(r: ComparisonResult) { r.ballisticIndicators.overallBallisticScore >= BallisticThreshold }
  predicate FewCriticalFeatures(r: ComparisonResult) { |r.criticalFeatures| <= MaxCriticalFeatures }

  /** How many of the four criteria hold. */
  function CriteriaMet(r: ComparisonResult): (n: nat)
    ensures n <= 4
  {
    (if HighSimilarity(r) then 1 else 0) + (if HighConfidence(r) then 1 else 0) +
    (if GoodBallisticScore(r) then 1 else 0) + (if FewCriticalFeatures(r) then 1 else 0)
  }

  /** determineMatch: at least three of the four criteria. */
  function DetermineMatch(r: ComparisonResult): (m: bool)
    ensures m <==>
      (HighSimilarity(r) && HighConfidence(r) && GoodBallisticScore(r)) ||
      (HighSimilarity(r) && HighConfidence(r) && FewCriticalFeatures(r)) ||
      (HighSimilarity(r) && GoodBallisticScore(r) && FewCriticalFeatures(r)) ||
      (HighConfidence(r) && GoodBallisticScore(r) && FewCriticalFeatures(r))
  {
    CriteriaMet(r) >= 3
  }

  /** CompareAdvanced fills the result field by field, in the service's order. */
  method CompareAdvanced(f1: FeatureMap, f2: FeatureMap, w: FeatureWeights, sqrt: real -> real) returns (result: ComparisonResult)
    requires IsSqrt(sqrt)
    ensures result.statisticalMetrics == MetricsOf(f1, f2, sqrt)
    ensures result.ballisticIndicators == IndicatorsOf(f1, f2, w)
    ensures result.similarity == WeightedAverage(f1, f2, Weights(w))
    ensures result.featureScores.Keys == f1.Keys * f2.Keys
    ensures forall k :: k in result.featureScores ==> result.featureScores[k] == Similarity(f1[k], f2[k])
    ensures Increasing(result.criticalFeatures)
    ensures forall k :: k in result.criticalFeatures <==> k in f1 && k in f2 && RelDiff(f1[k], f2[k]) > CriticalThreshold
    ensures result.confidence == CalculateAdvancedConfidence(result) && 0.0 <= result.confidence <= 1.0
    ensures result.isMatch == DetermineMatch(result)
  {
    result := ComparisonResult(0.0, 0.0, false, [], map[], ZeroMetrics, ZeroIndicators);
    var metrics := CalculateStatisticalMetrics(f1, f2, sqrt);
    result := result.(statisticalMetrics := metrics);
    var indicators := CalculateBallisticIndicators(f1, f2, w);
    result := result.(ballisticIndicators := indicators);
    var similarity := CalculateWeightedSimilarity(f1, f2, w);
    result := result.(similarity := similarity);
    var scores := CalculateFeatureScores(f1, f2);
    result := result.(featureScores := scores);
    var critical := IdentifyCriticalFeatures(f1, f2);
    result := result.(criticalFeatures := critical);
    result := result.(confidence := CalculateAdvancedConfidence(result));
    result := result.(isMatch := DetermineMatch(result));
  }
}
