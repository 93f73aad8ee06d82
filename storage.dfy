/**
 * The storage service's own logic: the similarity search over stored
 * analyses, the "cosine" similarity it ranks by, and the merge of the
 * dashboard statistics. The repositories behind it (SQLite queries) are
 * represented by what they return: a list of analyses, a count, or a
 * statistics map, each possibly an error.
 */
module Storage {
  import opened Common
  import opened Comparison

  /** A stored analysis as the search sees it: its identifier and its features. */
  datatype StoredAnalysis = StoredAnalysis(id: string, features: FeatureMap)

  /** How many analyses the search asks the repository for (offset 0). */
  const SearchFetchLimit: int := 1000

  // ------------------------------------------------------------------
  // calculateCosineSimilarity.
  // ------------------------------------------------------------------

  function Product(f1: FeatureMap, f2: FeatureMap, k: string): real
  {
    Lookup(f1, k) * Lookup(f2, k)
  }

  function Products(f1: FeatureMap, f2: FeatureMap): string -> real
  {
    k => Product(f1, f2, k)
  }

  /**
   * The service's similarity: the dot product over the shared keys divided
   * by the product of the two SQUARED magnitudes over those keys (no
   * square root is taken); 0 without shared keys or with a zero magnitude.
   */
  ghost function CosineOf(f1: FeatureMap, f2: FeatureMap): real
  {
    var common := f1.Keys * f2.Keys;
    if common == {} then 0.0
    else CosineRatio(RealSum(common, Products(f1, f2)), RealSum(common, Products(f1, f1)),
                     RealSum(common, Products(f2, f2)))
  }

  /** The dot product over the product of the squared magnitudes, 0 when either magnitude is. */
  function CosineRatio(dotProduct: real, magnitude1: real, magnitude2: real): real
  {
    if magnitude1 == 0.0 || magnitude2 == 0.0 then 0.0 else dotProduct / (magnitude1 * magnitude2)
  }

  /** The first loop: the keys of `features1` that `features2` also has, each once. */
  method CommonFeatures(features1: FeatureMap, features2: FeatureMap) returns (common: seq<string>)
    ensures Distinct(common)
    ensures Elements(common) == features1.Keys * features2.Keys
  {
    common := [];
    var rest := features1.Keys;
    while rest != {}
      invariant rest <= features1.Keys
      invariant Distinct(common)
      invariant Elements(common) == (features1.Keys - rest) * features2.Keys
      decreases rest
    {
      var key :| key in rest;
      if key in features2 {
        assert key !in Elements(common);
        assert Elements(common + [key]) == Elements(common) + {key};
        common := common + [key];
      }
      rest := rest - {key};
    }
  }

  predicate Distinct(s: seq<string>)
  {
    forall i, j :: 0 <= i < j < |s| ==> s[i] != s[j]
  }

  /** Extending a duplicate-free prefix by one element adds that element's term. */
  lemma DistinctPrefixStep(s: seq<string>, i: nat, f: string -> real)
    requires Distinct(s) && i < |s|
    ensures RealSum(Elements(s[..i + 1]), f) == RealSum(Elements(s[..i]), f) + f(s[i])
  {
    assert s[..i + 1] == s[..i] + [s[i]];
    assert Elements(s[..i + 1]) == Elements(s[..i]) + {s[i]};
    assert s[i] !in Elements(s[..i]);
    RealSumAdd(Elements(s[..i]), f, s[i]);
  }

  /** The three running sums of the second loop after `i` shared keys. */
  ghost predicate SumsUpTo(f1: FeatureMap, f2: FeatureMap, common: seq<string>, i: nat,
                           dotProduct: real, magnitude1: real, magnitude2: real)
    requires i <= |common|
  {
    var visited := Elements(common[..i]);
    && dotProduct == RealSum(visited, Products(f1, f2))
    && magnitude1 == RealSum(visited, Products(f1, f1))
    && magnitude2 == RealSum(visited, Products(f2, f2))
  }

  lemma SumsStep(f1: FeatureMap, f2: FeatureMap, common: seq<string>, i: nat,
                 dotProduct: real, magnitude1: real, magnitude2: real)
    requires Distinct(common) && i < |common|
    requires SumsUpTo(f1, f2, common, i, dotProduct, magnitude1, magnitude2)
    ensures SumsUpTo(f1, f2, common, i + 1, dotProduct + Product(f1, f2, common[i]),
                     magnitude1 + Product(f1, f1, common[i]), magnitude2 + Product(f2, f2, common[i]))
  {
    DistinctPrefixStep(common, i, Products(f1, f2));
    DistinctPrefixStep(common, i, Products(f1, f1));
    DistinctPrefixStep(common, i, Products(f2, f2));
  }

  method CalculateCosineSimilarity(features1: FeatureMap, features2: FeatureMap) returns (similarity: real)
    ensures similarity == CosineOf(features1, features2)
  {
    var commonFeatures := CommonFeatures(features1, features2);
    if |commonFeatures| == 0 {
      return 0.0;
    }
    var dotProduct, magnitude1, magnitude2 := 0.0, 0.0, 0.0;
    var i := 0;
    while i < |commonFeatures|
      invariant 0 <= i <= |commonFeatures|
      invariant SumsUpTo(features1, features2, commonFeatures, i, dotProduct, magnitude1, magnitude2)
    {
      var feature := commonFeatures[i];
      SumsStep(features1, features2, commonFeatures, i, dotProduct, magnitude1, magnitude2);
      // val1 * val2, val1 * val1, val2 * val2
      dotProduct := dotProduct + Product(features1, features2, feature);
      magnitude1 := magnitude1 + Product(features1, features1, feature);
      magnitude2 := magnitude2 + Product(features2, features2, feature);
      i := i + 1;
    }
    assert commonFeatures[..i] == commonFeatures;
    similarity := CosineRatio(dotProduct, magnitude1, magnitude2);
  }

  /** The similarity does not depend on the order of its arguments. */
  lemma CosineSymmetric(f1: FeatureMap, f2: FeatureMap)
    ensures CosineOf(f1, f2) == CosineOf(f2, f1)
  {
    var common := f1.Keys * f2.Keys;
    assert common == f2.Keys * f1.Keys;
    forall k | k in common
      ensures Products(f1, f2)(k) == Products(f2, f1)(k)
    {
    }
    RealSumExt(common, Products(f1, f2), Products(f2, f1));
    var m1 := RealSum(common, Products(f1, f1));
    var m2 := RealSum(common, Products(f2, f2));
    assert m1 * m2 == m2 * m1;
  }

  lemma InverseSquare(m: real)
    requires m != 0.0
    ensures (m / (m * m)) * m == 1.0
  {
    assert m / (m * m) == 1.0 / m;
  }

  /**
   * Because the magnitudes are not square-rooted, a feature vector
   * compared with itself scores 1 / (sum of its squares), not 1: for
   * example {"a": 2} scores 0.25 against itself.
   */
  lemma CosineSelf(f: FeatureMap)
    requires RealSum(f.Keys, Products(f, f)) != 0.0
    ensures CosineOf(f, f) * RealSum(f.Keys, Products(f, f)) == 1.0
  {
    assert f.Keys * f.Keys == f.Keys;
    assert f.Keys != {} by {
      assert RealSum({}, Products(f, f)) == 0.0;
    }
    InverseSquare(RealSum(f.Keys, Products(f, f)));
  }

  lemma CosineSelfExample()
    ensures CosineOf(map["a" := 2.0], map["a" := 2.0]) == 0.25
  {
    var f := map["a" := 2.0];
    assert f.Keys == {"a"};
    assert RealSum(f.Keys, Products(f, f)) == 4.0 by {
      RealSumRemove(f.Keys, Products(f, f), "a");
      assert f.Keys - {"a"} == {};
    }
    CosineSelf(f);
  }

  // ------------------------------------------------------------------
  // SearchSimilarAnalysis.
  // ------------------------------------------------------------------

  /** The analyses of `s`, in order, whose similarity to `features` reaches the threshold. */
  ghost function Matches(features: FeatureMap, threshold: real, s: seq<StoredAnalysis>): (r: seq<StoredAnalysis>)
    ensures |r| <= |s|
  {
    if s == [] then []
    else
      var last := s[|s| - 1];
      Matches(features, threshold, s[..|s| - 1])
      + (if CosineOf(features, last.features) >= threshold then [last] else [])
  }

  /** Every match is an analysis of the list whose similarity reaches the threshold, and every such analysis matches. */
  lemma {:induction false} MatchesMembers(features: FeatureMap, threshold: real, s: seq<StoredAnalysis>)
    ensures forall a :: a in Matches(features, threshold, s) <==>
      a in s && CosineOf(features, a.features) >= threshold
  {
    if s != [] {
      MatchesMembers(features, threshold, s[..|s| - 1]);
      assert s == s[..|s| - 1] + [s[|s| - 1]];
    }
  }

  lemma MatchesStep(features: FeatureMap, threshold: real, s: seq<StoredAnalysis>, i: nat)
    requires i < |s|
    ensures Matches(features, threshold, s[..i + 1])
         == Matches(features, threshold, s[..i]) + (if CosineOf(features, s[i].features) >= threshold then [s[i]] else [])
  {
    assert s[..i + 1][..i] == s[..i];
  }

  /** Filtering a prefix gives a prefix of the filtered list. */
  lemma {:induction false} MatchesPrefix(features: FeatureMap, threshold: real, s: seq<StoredAnalysis>, i: nat)
    requires i <= |s|
    ensures |Matches(features, threshold, s[..i])| <= |Matches(features, threshold, s)|
    ensures Matches(features, threshold, s[..i])
         == Matches(features, threshold, s)[..|Matches(features, threshold, s[..i])|]
    decreases |s| - i
  {
    if i < |s| {
      MatchesPrefix(features, threshold, s[..|s| - 1], i);
      assert s[..|s| - 1][..i] == s[..i];
    } else {
      assert s[..i] == s;
    }
  }

  /** The first `n` elements, or all of them when there are fewer. */
  function Take<T>(s: seq<T>, n: nat): (r: seq<T>)
    ensures |r| <= n && r <= s
    ensures |s| <= n ==> r == s
  {
    if |s| <= n then s else s[..n]
  }

  /**
   * The scan of SearchSimilarAnalysis: it walks the list in order, keeps
   * each analysis whose similarity reaches the threshold, and stops right
   * after the analysis that brings the kept list to `limit`.
   */
  method ScanAnalyses(features: FeatureMap, threshold: real, limit: int, allAnalyses: seq<StoredAnalysis>)
    returns (similarAnalyses: seq<StoredAnalysis>, scanned: nat)
    ensures scanned <= |allAnalyses|
    ensures similarAnalyses == Matches(features, threshold, allAnalyses[..scanned])
    ensures scanned == |allAnalyses| || |similarAnalyses| >= limit
    ensures limit >= 1 ==> |similarAnalyses| <= limit
    ensures limit < 1 ==> scanned == if |allAnalyses| == 0 then 0 else 1
  {
    similarAnalyses := [];
    var i := 0;
    while i < |allAnalyses|
      invariant 0 <= i <= |allAnalyses|
      invariant similarAnalyses == Matches(features, threshold, allAnalyses[..i])
      invariant i == 0 || |similarAnalyses| < limit
      invariant limit >= 1 ==> |similarAnalyses| < limit
    {
      var analysis := allAnalyses[i];
      var similarity := CalculateCosineSimilarity(features, analysis.features);
      MatchesStep(features, threshold, allAnalyses, i);
      if similarity >= threshold {
        similarAnalyses := similarAnalyses + [analysis];
      }
      i := i + 1;
      if |similarAnalyses| >= limit {
        break;
      }
    }
    scanned := i;
  }

  /** What the scan keeps is the first `limit` matches (or, for a limit below 1, the first analysis when it matches). */
  lemma ScanResult(features: FeatureMap, threshold: real, limit: int, allAnalyses: seq<StoredAnalysis>,
                   similarAnalyses: seq<StoredAnalysis>, scanned: nat)
    requires scanned <= |allAnalyses|
    requires similarAnalyses == Matches(features, threshold, allAnalyses[..scanned])
    requires scanned == |allAnalyses| || |similarAnalyses| >= limit
    requires limit >= 1 ==> |similarAnalyses| <= limit
    requires limit < 1 ==> scanned == if |allAnalyses| == 0 then 0 else 1
    ensures limit >= 1 ==> similarAnalyses == Take(Matches(features, threshold, allAnalyses), limit)
    ensures limit < 1 ==>
      similarAnalyses == Matches(features, threshold, allAnalyses[..if |allAnalyses| == 0 then 0 else 1])
  {
    var matches := Matches(features, threshold, allAnalyses);
    MatchesPrefix(features, threshold, allAnalyses, scanned);
    if limit >= 1 {
      if |similarAnalyses| >= limit {
        assert Take(matches, limit) == matches[..limit];
      } else {
        assert allAnalyses[..scanned] == allAnalyses;
      }
    }
  }

  /**
   * SearchSimilarAnalysis over what the repository returned for the first
   * 1000 analyses. With a positive limit the result is the first `limit`
   * matches in the stored order; the scan stops at the limit. With a limit
   * of 0 or less the scan stops after the first analysis, so the result
   * holds that analysis when it matches.
   */
  method SearchSimilarAnalysis(features: FeatureMap, threshold: real, limit: int,
                               fetched: Result<seq<StoredAnalysis>>)
    returns (r: Result<seq<StoredAnalysis>>)
    ensures fetched.Err? ==> r == Err("error al obtener análisis para búsqueda: " + fetched.error)
    ensures fetched.Ok? && limit >= 1 ==> r == Ok(Take(Matches(features, threshold, fetched.value), limit))
    ensures fetched.Ok? && limit < 1 ==>
      r == Ok(Matches(features, threshold, fetched.value[..if |fetched.value| == 0 then 0 else 1]))
  {
    if fetched.Err? {
      return Err("error al obtener análisis para búsqueda: " + fetched.error);
    }
    var similarAnalyses, scanned := ScanAnalyses(features, threshold, limit, fetched.value);
    ScanResult(features, threshold, limit, fetched.value, similarAnalyses, scanned);
    return Ok(similarAnalyses);
  }

  /** Every analysis the search returns is a stored one whose similarity reaches the threshold. */
  lemma SearchResultsMatch(features: FeatureMap, threshold: real, all: seq<StoredAnalysis>, limit: nat)
    ensures forall a :: a in Take(Matches(features, threshold, all), limit) ==>
      a in all && CosineOf(features, a.features) >= threshold
  {
    MatchesMembers(features, threshold, all);
  }

  // ------------------------------------------------------------------
  // GetDashboardStats.
  // ------------------------------------------------------------------

  /** A statistics value as the repositories report it. */
  datatype StatValue = Count(n: int) | Number(x: real) | Label(s: string)

  type Stats = map<string, StatValue>

  /** `for key, value := range m { stats[key] = value }`. */
  method CopyStats(stats: Stats, m: Stats) returns (stats': Stats)
    ensures stats' == stats + m
  {
    stats' := stats;
    var rest := m.Keys;
    while rest != {}
      invariant rest <= m.Keys
      invariant stats'.Keys == stats.Keys + (m.Keys - rest)
      invariant forall k :: k in stats' ==> stats'[k] == if k in m && k !in rest then m[k] else stats[k]
      decreases rest
    {
      var key :| key in rest;
      stats' := stats'[key := m[key]];
      rest := rest - {key};
    }
    assert stats'.Keys == (stats + m).Keys;
  }

  /**
   * GetDashboardStats: the analysis count under "total_analysis", then
   * every comparison statistic, then every classification statistic, a
   * later source overwriting an earlier one under the same key. The first
   * failing repository call ends it with its error.
   */
  method GetDashboardStats(analysisCount: Result<int>, comparisonStats: Result<Stats>,
                           classificationStats: Result<Stats>)
    returns (r: Result<Stats>)
    ensures analysisCount.Err? ==> r == Err("error al obtener conteo de análisis: " + analysisCount.error)
    ensures analysisCount.Ok? && comparisonStats.Err? ==>
      r == Err("error al obtener estadísticas de comparaciones: " + comparisonStats.error)
    ensures analysisCount.Ok? && comparisonStats.Ok? && classificationStats.Err? ==>
      r == Err("error al obtener estadísticas de clasificaciones: " + classificationStats.error)
    ensures analysisCount.Ok? && comparisonStats.Ok? && classificationStats.Ok? ==>
      r == Ok(map["total_analysis" := Count(analysisCount.value)] + comparisonStats.value + classificationStats.value)
  {
    var stats: Stats := map[];
    if analysisCount.Err? {
      return Err("error al obtener conteo de análisis: " + analysisCount.error);
    }
    stats := stats["total_analysis" := Count(analysisCount.value)];
    if comparisonStats.Err? {
      return Err("error al obtener estadísticas de comparaciones: " + comparisonStats.error);
    }
    stats := CopyStats(stats, comparisonStats.value);
    if classificationStats.Err? {
      return Err("error al obtener estadísticas de clasificaciones: " + classificationStats.error);
    }
    stats := CopyStats(stats, classificationStats.value);
    return Ok(stats);
  }

  /**
   * The merged statistics hold "total_analysis" and every key of both
   * repositories; a classification value wins over a comparison value
   * under the same key, and the count survives unless a repository
   * reports a key of the same name.
   */
  lemma DashboardStatsKeys(count: int, comparison: Stats, classification: Stats)
    ensures var stats := map["total_analysis" := Count(count)] + comparison + classification;
      && stats.Keys == {"total_analysis"} + comparison.Keys + classification.Keys
      && (forall k :: k in classification ==> stats[k] == classification[k])
      && (forall k :: k in comparison && k !in classification ==> stats[k] == comparison[k])
      && ("total_analysis" !in comparison && "total_analysis" !in classification ==>
            stats["total_analysis"] == Count(count))
  {
  }
}
