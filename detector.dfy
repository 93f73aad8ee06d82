/**
 * The ballistic detector: rule-based scoring of a feature vector into a
 * weapon type and a calibre, and a set of qualitative labels and derived
 * measurements of the marks.
 *
 * Each `analyze` step adds constant scores and appends evidence lines to a
 * list the caller passes by pointer; here the list goes in and the extended
 * list comes out. An evidence line that Go formats with a number ("%.0f",
 * "%.2f") is kept as its label and the value, unformatted.
 */
module Detector {
  import opened Common

  const Undetermined := "Indeterminado"

  /** One evidence line: fixed text, or a label followed by a measured value. */
  datatype Evidence = Note(text: string) | Measured(name: string, value: real)

  /** WeaponClassification; `weaponType` or `caliber` is left empty by the detector that does not set it. */
  datatype WeaponClassification = WeaponClassification(
    weaponType: string, caliber: string, confidence: real,
    indicators: FeatureMap, evidence: seq<Evidence>)

  // ------------------------------------------------------------------
  // The weapon-type indicators.
  // ------------------------------------------------------------------

  /** A feature present with a value above `bound`. */
  predicate Above(f: FeatureMap, key: string, bound: real)
  {
    key in f && f[key] > bound
  }

  function FiringPinScore(f: FeatureMap): (s: real)
    ensures 0.0 <= s <= 1.0
    ensures s > 0.0 <==> FiringPinEvidence(f) != []
  {
    var r := Lookup(f, "firing_pin_avg_radius");
    Min((if Above(f, "firing_pin_count", 0.0) then 0.3 else 0.0)
        + (if Above(f, "firing_pin_avg_radius", 0.0)
           then 0.4 + (if r < 2.0 then 0.2 else if r > 4.0 then 0.3 else 0.0)
           else 0.0), 1.0)
  }

  function FiringPinEvidence(f: FeatureMap): seq<Evidence>
  {
    (if Above(f, "firing_pin_count", 0.0)
     then [Measured("Marcas de percutor detectadas", f["firing_pin_count"])] else [])
    + (if Above(f, "firing_pin_avg_radius", 0.0)
       then var r := f["firing_pin_avg_radius"];
         [Measured("Radio promedio de percutor", r)]
         + (if r < 2.0 then [Note("Percutor pequeño (posible pistola)")]
            else if r > 4.0 then [Note("Percutor grande (posible rifle)")] else [])
       else [])
  }

  /** analyzeFiringPinCharacteristics. */
  method AnalyzeFiringPinCharacteristics(features: FeatureMap, evidence: seq<Evidence>)
    returns (score: real, evidence': seq<Evidence>)
    ensures score == FiringPinScore(features)
    ensures evidence' == evidence + FiringPinEvidence(features)
  {
    score := 0.0;
    evidence' := evidence;
    if "firing_pin_count" in features {
      var firingPinCount := features["firing_pin_count"];
      if firingPinCount > 0.0 {
        score := score + 0.3;
        evidence' := evidence' + [Measured("Marcas de percutor detectadas", firingPinCount)];
      }
    }
    if "firing_pin_avg_radius" in features {
      var avgRadius := features["firing_pin_avg_radius"];
      if avgRadius > 0.0 {
        score := score + 0.4;
        evidence' := evidence' + [Measured("Radio promedio de percutor", avgRadius)];
        if avgRadius < 2.0 {
          evidence' := evidence' + [Note("Percutor pequeño (posible pistola)")];
          score := score + 0.2;
        } else if avgRadius > 4.0 {
          evidence' := evidence' + [Note("Percutor grande (posible rifle)")];
          score := score + 0.3;
        }
      }
    }
    score := Min(score, 1.0);
  }

  function StriationScore(f: FeatureMap): (s: real)
    ensures 0.0 <= s <= 1.0
    ensures s > 0.0 <==> StriationEvidence(f) != []
  {
    Min((if Above(f, "striation_count", 0.0) then 0.3 else 0.0)
        + (if Above(f, "striation_avg_angle", 0.0) then 0.4 else 0.0)
        + (if Above(f, "striation_avg_strength", 0.5) then 0.3 else 0.0), 1.0)
  }

  function StriationEvidence(f: FeatureMap): seq<Evidence>
  {
    (if Above(f, "striation_count", 0.0)
     then [Measured("Patrones de estriado detectados", f["striation_count"])] else [])
    + (if Above(f, "striation_avg_angle", 0.0)
       then [Measured("Ángulo promedio de estriado", f["striation_avg_angle"])] else [])
    + (if Above(f, "striation_avg_strength", 0.5) then [Note("Estriado fuerte detectado")] else [])
  }

  /** analyzeStriationCharacteristics. */
  method AnalyzeStriationCharacteristics(features: FeatureMap, evidence: seq<Evidence>)
    returns (score: real, evidence': seq<Evidence>)
    ensures score == StriationScore(features)
    ensures evidence' == evidence + StriationEvidence(features)
  {
    score := 0.0;
    evidence' := evidence;
    if "striation_count" in features {
      var striationCount := features["striation_count"];
      if striationCount > 0.0 {
        score := score + 0.3;
        evidence' := evidence' + [Measured("Patrones de estriado detectados", striationCount)];
      }
    }
    if "striation_avg_angle" in features {
      var avgAngle := features["striation_avg_angle"];
      if avgAngle > 0.0 {
        score := score + 0.4;
        evidence' := evidence' + [Measured("Ángulo promedio de estriado", avgAngle)];
      }
    }
    if "striation_avg_strength" in features {
      var avgStrength := features["striation_avg_strength"];
      if avgStrength > 0.5 {
        score := score + 0.3;
        evidence' := evidence' + [Note("Estriado fuerte detectado")];
      }
    }
    score := Min(score, 1.0);
  }

  function BreechFaceScore(f: FeatureMap): (s: real)
    ensures 0.0 <= s <= 1.0
    ensures s > 0.0 <==> BreechFaceEvidence(f) != []
  {
    Min((if Above(f, "lbp_uniformity", 0.05) then 0.4 else 0.0)
        + (if Above(f, "contour_area", 1000.0) then 0.3 else 0.0), 1.0)
  }

  function BreechFaceEvidence(f: FeatureMap): seq<Evidence>
  {
    (if Above(f, "lbp_uniformity", 0.05) then [Note("Textura de cara de cierre detectada")] else [])
    + (if Above(f, "contour_area", 1000.0) then [Note("Área de contacto significativa")] else [])
  }

  /** analyzeBreechFaceCharacteristics. */
  method AnalyzeBreechFaceCharacteristics(features: FeatureMap, evidence: seq<Evidence>)
    returns (score: real, evidence': seq<Evidence>)
    ensures score == BreechFaceScore(features)
    ensures evidence' == evidence + BreechFaceEvidence(features)
  {
    score := 0.0;
    evidence' := evidence;
    if "lbp_uniformity" in features {
      var lbpUniformity := features["lbp_uniformity"];
      if lbpUniformity > 0.05 {
        score := score + 0.4;
        evidence' := evidence' + [Note("Textura de cara de cierre detectada")];
      }
    }
    if "contour_area" in features {
      var contourArea := features["contour_area"];
      if contourArea > 1000.0 {
        score := score + 0.3;
        evidence' := evidence' + [Note("Área de contacto significativa")];
      }
    }
    score := Min(score, 1.0);
  }

  // ------------------------------------------------------------------
  // The calibre indicators.
  // ------------------------------------------------------------------

  /** analyzeProjectileSize, as a value. */
  function ProjectileSizeScore(f: FeatureMap): (s: real)
    ensures "contour_area" !in f ==> s == 0.0
    ensures "contour_area" in f ==> s in {0.7, 0.8, 0.9}
    ensures "contour_area" in f && f["contour_area"] < 500.0 ==> s == 0.8
    ensures "contour_area" in f && f["contour_area"] > 2000.0 ==> s == 0.9
  {
    if "contour_area" !in f then 0.0
    else if f["contour_area"] < 500.0 then 0.8
    else if f["contour_area"] > 2000.0 then 0.9
    else 0.7
  }

  function ProjectileSizeEvidence(f: FeatureMap): seq<Evidence>
  {
    if "contour_area" !in f then []
    else
      var a := f["contour_area"];
      [Measured("Área del proyectil", a),
       Note(if a < 500.0 then "Proyectil pequeño" else if a > 2000.0 then "Proyectil grande" else "Proyectil mediano")]
  }

  /** analyzeProjectileSize. */
  method AnalyzeProjectileSize(features: FeatureMap, evidence: seq<Evidence>)
    returns (score: real, evidence': seq<Evidence>)
    ensures score == ProjectileSizeScore(features)
    ensures evidence' == evidence + ProjectileSizeEvidence(features)
  {
    score := 0.0;
    evidence' := evidence;
    if "contour_area" in features {
      var contourArea := features["contour_area"];
      evidence' := evidence' + [Measured("Área del proyectil", contourArea)];
      if contourArea < 500.0 {
        evidence' := evidence' + [Note("Proyectil pequeño")];
        score := 0.8;
      } else if contourArea > 2000.0 {
        evidence' := evidence' + [Note("Proyectil grande")];
        score := 0.9;
      } else {
        evidence' := evidence' + [Note("Proyectil mediano")];
        score := 0.7;
      }
    }
  }

  /**
   * analyzeRiflingPattern, as a value: the open interval (10, 30) scores
   * 0.8, above 30 scores 0.9, and an angle of exactly 30 scores nothing.
   */
  function RiflingScore(f: FeatureMap): (s: real)
    ensures s in {0.0, 0.8, 0.9}
    ensures s == 0.8 <==> "striation_avg_angle" in f && 10.0 < f["striation_avg_angle"] < 30.0
    ensures s == 0.9 <==> Above(f, "striation_avg_angle", 30.0)
  {
    if "striation_avg_angle" !in f then 0.0
    else
      var a := f["striation_avg_angle"];
      if a > 10.0 && a < 30.0 then 0.8 else if a > 30.0 then 0.9 else 0.0
  }

  function RiflingEvidence(f: FeatureMap): seq<Evidence>
  {
    if "striation_avg_angle" !in f then []
    else
      var a := f["striation_avg_angle"];
      [Measured("Ángulo de rifling", a)]
      + (if a > 10.0 && a < 30.0 then [Note("Rifling estándar")]
         else if a > 30.0 then [Note("Rifling agresivo")] else [])
  }

  /** analyzeRiflingPattern. */
  method AnalyzeRiflingPattern(features: FeatureMap, evidence: seq<Evidence>)
    returns (score: real, evidence': seq<Evidence>)
    ensures score == RiflingScore(features)
    ensures evidence' == evidence + RiflingEvidence(features)
  {
    score := 0.0;
    evidence' := evidence;
    if "striation_avg_angle" in features {
      var striationAngle := features["striation_avg_angle"];
      evidence' := evidence' + [Measured("Ángulo de rifling", striationAngle)];
      if striationAngle > 10.0 && striationAngle < 30.0 {
        evidence' := evidence' + [Note("Rifling estándar")];
        score := 0.8;
      } else if striationAngle > 30.0 {
        evidence' := evidence' + [Note("Rifling agresivo")];
        score := 0.9;
      }
    }
  }

  /** analyzeStriationDensity, as a value: the count over 50, capped at 1. */
  function StriationDensityScore(f: FeatureMap): (s: real)
    ensures s <= 1.0
    ensures "striation_count" !in f ==> s == 0.0
    ensures "striation_count" in f && f["striation_count"] <= 50.0 ==> s * 50.0 == f["striation_count"]
    ensures "striation_count" in f && f["striation_count"] >= 0.0 ==> 0.0 <= s
  {
    if "striation_count" in f then Min(f["striation_count"] / 50.0, 1.0) else 0.0
  }

  function StriationDensityEvidence(f: FeatureMap): seq<Evidence>
  {
    if "striation_count" in f then [Measured("Densidad de estriado", f["striation_count"])] else []
  }

  /** analyzeStriationDensity. */
  method AnalyzeStriationDensity(features: FeatureMap, evidence: seq<Evidence>)
    returns (score: real, evidence': seq<Evidence>)
    ensures score == StriationDensityScore(features)
    ensures evidence' == evidence + StriationDensityEvidence(features)
  {
    if "striation_count" in features {
      var striationCount := features["striation_count"];
      evidence' := evidence + [Measured("Densidad de estriado", striationCount)];
      score := Min(striationCount / 50.0, 1.0);
      return;
    }
    score, evidence' := 0.0, evidence;
  }

  /** Each calibre step adds evidence exactly when its feature is present. */
  lemma CaliberEvidencePresence(f: FeatureMap)
    ensures ProjectileSizeEvidence(f) != [] <==> "contour_area" in f
    ensures RiflingEvidence(f) != [] <==> "striation_avg_angle" in f
    ensures StriationDensityEvidence(f) != [] <==> "striation_count" in f
    ensures ProjectileSizeScore(f) > 0.0 <==> "contour_area" in f
  {
  }

  // ------------------------------------------------------------------
  // Per-class scores. A feature missing from the map reads as 0.
  // ------------------------------------------------------------------

  /** The inclusive range test of the classifiers. */
  predicate In(x: real, lo: real, hi: real) { lo <= x <= hi }

  function Points(c: bool, p: real): (r: real)
    ensures p >= 0.0 ==> 0.0 <= r <= p
  {
    if c then p else 0.0
  }

  const Pistola := "Pistola"
  const Rifle := "Rifle"
  const Revolver := "Revólver"
  const Escopeta := "Escopeta"
  const Subfusil := "Subfusil"

  function PistolaScore(f: FeatureMap): real
  {
    Points(In(Lookup(f, "firing_pin_avg_radius"), 1.0, 2.5), 0.3)
    + Points(In(Lookup(f, "striation_count"), 5.0, 15.0), 0.25)
    + Points(In(Lookup(f, "contour_area"), 200.0, 800.0), 0.2)
    + Points(In(Lookup(f, "striation_avg_angle"), 10.0, 30.0), 0.15)
    + Points(In(Lookup(f, "lbp_uniformity"), 0.03, 0.08), 0.1)
  }

  function RifleScore(f: FeatureMap): real
  {
    Points(In(Lookup(f, "firing_pin_avg_radius"), 1.5, 3.5), 0.25)
    + Points(In(Lookup(f, "striation_count"), 15.0, 35.0), 0.3)
    + Points(In(Lookup(f, "contour_area"), 400.0, 1500.0), 0.2)
    + Points(In(Lookup(f, "striation_avg_angle"), 15.0, 45.0), 0.15)
    + Points(In(Lookup(f, "lbp_uniformity"), 0.05, 0.12), 0.1)
  }

  /** More than one firing-pin mark is what singles out a revolver. */
  function RevolverScore(f: FeatureMap): real
  {
    Points(Lookup(f, "firing_pin_count") > 1.0, 0.4)
    + Points(In(Lookup(f, "firing_pin_avg_radius"), 1.2, 2.8), 0.2)
    + Points(In(Lookup(f, "striation_count"), 8.0, 20.0), 0.2)
    + Points(In(Lookup(f, "contour_area"), 300.0, 1000.0), 0.15)
    + Points(In(Lookup(f, "lbp_uniformity"), 0.04, 0.09), 0.05)
  }

  /** Many or very few striations, a very flat or very steep angle. */
  function EscopetaScore(f: FeatureMap): real
  {
    var count := Lookup(f, "striation_count");
    var angle := Lookup(f, "striation_avg_angle");
    Points(In(Lookup(f, "firing_pin_avg_radius"), 2.0, 4.0), 0.25)
    + Points(count >= 20.0 || count <= 3.0, 0.3)
    + Points(Lookup(f, "contour_area") >= 800.0, 0.2)
    + Points(angle <= 15.0 || angle >= 60.0, 0.15)
    + Points(Lookup(f, "lbp_uniformity") >= 0.08, 0.1)
  }

  function SubfusilScore(f: FeatureMap): real
  {
    Points(In(Lookup(f, "firing_pin_avg_radius"), 1.8, 3.0), 0.25)
    + Points(In(Lookup(f, "striation_count"), 12.0, 25.0), 0.3)
    + Points(In(Lookup(f, "contour_area"), 250.0, 600.0), 0.2)
    + Points(In(Lookup(f, "striation_avg_angle"), 20.0, 40.0), 0.15)
    + Points(In(Lookup(f, "lbp_uniformity"), 0.06, 0.11), 0.1)
  }

  /** The `scores` map of classifyWeaponType. */
  function WeaponScores(f: FeatureMap): (m: map<string, real>)
    ensures m.Keys == {Pistola, Rifle, Revolver, Escopeta, Subfusil}
    ensures Undetermined !in m
    ensures forall t :: t in m ==> 0.0 <= m[t] <= 1.0
  {
    map[Pistola := PistolaScore(f), Rifle := RifleScore(f), Revolver := RevolverScore(f),
        Escopeta := EscopetaScore(f), Subfusil := SubfusilScore(f)]
  }

  /** The calibre score: area 0.35, firing-pin radius 0.3, count 0.2, angle 0.1, texture 0.05. */
  function CaliberPoints(f: FeatureMap, area: (real, real), radius: (real, real),
                         count: (real, real), angle: (real, real), lbp: bool): (r: real)
    ensures 0.0 <= r <= 1.0
  {
    Points(In(Lookup(f, "contour_area"), area.0, area.1), 0.35)
    + Points(In(Lookup(f, "firing_pin_avg_radius"), radius.0, radius.1), 0.3)
    + Points(In(Lookup(f, "striation_count"), count.0, count.1), 0.2)
    + Points(In(Lookup(f, "striation_avg_angle"), angle.0, angle.1), 0.1)
    + Points(lbp, 0.05)
  }

  /** The `scores` map of classifyCaliber. */
  function CaliberScores(f: FeatureMap): (m: map<string, real>)
    ensures m.Keys == {".22 LR", "9mm", ".40 S&W", ".45 ACP", ".308 Winchester", ".30-06", ".38 Special", ".357 Magnum"}
    ensures Undetermined !in m
    ensures forall t :: t in m ==> 0.0 <= m[t] <= 1.0
  {
    var lbp := Lookup(f, "lbp_uniformity");
    map[".22 LR" := CaliberPoints(f, (150.0, 350.0), (0.8, 1.6), (3.0, 8.0), (5.0, 20.0), lbp <= 0.05),
        "9mm" := CaliberPoints(f, (400.0, 900.0), (1.2, 2.2), (8.0, 18.0), (12.0, 28.0), In(lbp, 0.03, 0.08)),
        ".40 S&W" := CaliberPoints(f, (600.0, 1200.0), (1.4, 2.4), (12.0, 22.0), (15.0, 32.0), In(lbp, 0.04, 0.09)),
        ".45 ACP" := CaliberPoints(f, (800.0, 1500.0), (1.6, 2.8), (10.0, 20.0), (10.0, 25.0), In(lbp, 0.05, 0.1)),
        ".308 Winchester" := CaliberPoints(f, (1000.0, 2000.0), (1.8, 3.2), (20.0, 35.0), (20.0, 45.0), In(lbp, 0.06, 0.12)),
        ".30-06" := CaliberPoints(f, (1500.0, 2500.0), (2.0, 3.5), (25.0, 40.0), (25.0, 50.0), In(lbp, 0.07, 0.13)),
        ".38 Special" := CaliberPoints(f, (500.0, 1000.0), (1.3, 2.3), (10.0, 20.0), (12.0, 30.0), In(lbp, 0.04, 0.09)),
        ".357 Magnum" := CaliberPoints(f, (600.0, 1200.0), (1.4, 2.5), (12.0, 25.0), (15.0, 35.0), In(lbp, 0.05, 0.1))]
  }

  // ------------------------------------------------------------------
  // The top score and the decision rule.
  // ------------------------------------------------------------------

  /**
   * `top` is what the argmax loop of the classifiers ends with: the largest
   * score, or 0 when no score is positive.
   */
  ghost predicate IsTopScore(scores: map<string, real>, top: real)
  {
    && top >= 0.0
    && (forall t :: t in scores ==> scores[t] <= top)
    && (top > 0.0 ==> exists t :: t in scores && scores[t] == top)
  }

  lemma TopScoreUnique(scores: map<string, real>, a: real, b: real)
    requires IsTopScore(scores, a) && IsTopScore(scores, b)
    ensures a == b
  {
    if a > 0.0 {
      var t :| t in scores && scores[t] == a;
      assert a <= b;
    }
    if b > 0.0 {
      var t :| t in scores && scores[t] == b;
      assert b <= a;
    }
  }

  ghost function MaxOver(s: set<string>, scores: map<string, real>): real
    requires s <= scores.Keys
    decreases s
  {
    if s == {} then 0.0 else var k :| k in s; Max(scores[k], MaxOver(s - {k}, scores))
  }

  lemma {:induction false} MaxOverFacts(s: set<string>, scores: map<string, real>)
    requires s <= scores.Keys
    ensures MaxOver(s, scores) >= 0.0
    ensures forall t :: t in s ==> scores[t] <= MaxOver(s, scores)
    ensures MaxOver(s, scores) > 0.0 ==> exists t :: t in s && scores[t] == MaxOver(s, scores)
    decreases s
  {
    if s != {} {
      var k :| k in s && MaxOver(s, scores) == Max(scores[k], MaxOver(s - {k}, scores));
      MaxOverFacts(s - {k}, scores);
      var m := MaxOver(s - {k}, scores);
      assert m >= 0.0;
      assert MaxOver(s, scores) == Max(scores[k], m);
      assert Max(scores[k], m) >= m;
      forall t | t in s
        ensures scores[t] <= MaxOver(s, scores)
      {
        if t != k {
          assert t in s - {k};
        }
      }
      if MaxOver(s, scores) > 0.0 {
        if MaxOver(s, scores) != scores[k] {
          var t :| t in s - {k} && scores[t] == MaxOver(s - {k}, scores);
          assert t in s;
        }
      }
    }
  }

  /** The top score of a score map; it does not depend on the order the loop visits the map. */
  ghost function TopScore(scores: map<string, real>): (top: real)
    ensures IsTopScore(scores, top)
  {
    MaxOverFacts(scores.Keys, scores);
    MaxOver(scores.Keys, scores)
  }

  /** The confidence the classifiers return for a top score and a mean indicator. */
  function FinalConfidence(top: real, avg: real, threshold: real, factor: real): (c: real)
    ensures c <= 1.0
  {
    var raw := top * avg;
    Min(if raw < threshold then raw * factor else raw, 1.0)
  }

  /**
   * The outcome of a classifier: the confidence is determined by the top
   * score and the mean indicator; a label other than "Indeterminado" is a
   * class holding the top score, and is given exactly when that score is
   * positive and its product with the mean reaches the threshold.
   */
  ghost predicate IsDecision(scores: map<string, real>, avg: real, threshold: real, factor: real,
                             chosen: string, confidence: real)
  {
    var top := TopScore(scores);
    && confidence == FinalConfidence(top, avg, threshold, factor)
    && (chosen != Undetermined <==> top > 0.0 && top * avg >= threshold)
    && (chosen != Undetermined ==> chosen in scores && scores[chosen] == top)
  }

  /** The argmax loop: strict `>` from (0, "Indeterminado"), over the map in any order. */
  method BestScore(scores: map<string, real>) returns (best: string, maxScore: real)
    requires Undetermined !in scores
    ensures maxScore == TopScore(scores)
    ensures best == Undetermined <==> maxScore == 0.0
    ensures best != Undetermined ==> best in scores && scores[best] == maxScore
  {
    maxScore, best := 0.0, Undetermined;
    var rest := scores.Keys;
    while rest != {}
      invariant rest <= scores.Keys
      invariant maxScore >= 0.0
      invariant forall t :: t in scores && t !in rest ==> scores[t] <= maxScore
      invariant maxScore > 0.0 ==> best in scores && scores[best] == maxScore
      invariant maxScore == 0.0 ==> best == Undetermined
      decreases rest
    {
      var t :| t in rest;
      if scores[t] > maxScore {
        maxScore := scores[t];
        best := t;
      }
      rest := rest - {t};
    }
    TopScoreUnique(scores, maxScore, TopScore(scores));
  }

  /** The tail shared by both classifiers: argmax, confidence, threshold, cap. */
  method Decide(scores: map<string, real>, avgScore: real, threshold: real, factor: real)
    returns (chosen: string, confidence: real)
    requires Undetermined !in scores
    ensures IsDecision(scores, avgScore, threshold, factor, chosen, confidence)
  {
    var maxScore;
    chosen, maxScore := BestScore(scores);
    confidence := maxScore * avgScore;
    if confidence < threshold {
      chosen := Undetermined;
      confidence := confidence * factor;
    }
    confidence := Min(confidence, 1.0);
  }

  /** The mean of the indicator values. */
  ghost function Mean(m: FeatureMap): real
  {
    if |m| == 0 then 0.0 else RealSum(m.Keys, ValuesOf(m)) / (|m| as real)
  }

  /** The `totalScore` loop over the indicators, in any order. */
  method TotalScore(m: FeatureMap) returns (total: real)
    ensures total == RealSum(m.Keys, ValuesOf(m))
  {
    total := 0.0;
    var rest := m.Keys;
    while rest != {}
      invariant rest <= m.Keys
      invariant total + RealSum(rest, ValuesOf(m)) == RealSum(m.Keys, ValuesOf(m))
      decreases rest
    {
      var k :| k in rest;
      RealSumRemove(rest, ValuesOf(m), k);
      total := total + m[k];
      rest := rest - {k};
    }
  }

  /** classifyWeaponType: threshold 0.4, factor 0.7. */
  method ClassifyWeaponType(indicators: FeatureMap, features: FeatureMap)
    returns (weaponType: string, confidence: real)
    requires indicators != map[]
    ensures IsDecision(WeaponScores(features), Mean(indicators), 0.4, 0.7, weaponType, confidence)
  {
    var totalScore := TotalScore(indicators);
    var avgScore := totalScore / (|indicators| as real);
    weaponType, confidence := Decide(WeaponScores(features), avgScore, 0.4, 0.7);
  }

  /** classifyCaliber: threshold 0.35, factor 0.6. */
  method ClassifyCaliber(indicators: FeatureMap, features: FeatureMap)
    returns (caliber: string, confidence: real)
    requires indicators != map[]
    ensures IsDecision(CaliberScores(features), Mean(indicators), 0.35, 0.6, caliber, confidence)
  {
    var totalScore := TotalScore(indicators);
    var avgScore := totalScore / (|indicators| as real);
    caliber, confidence := Decide(CaliberScores(features), avgScore, 0.35, 0.6);
  }

  /** With a unique best class, the label does not depend on the visiting order. */
  lemma DecisionLabelUnique(scores: map<string, real>, avg: real, threshold: real, factor: real,
                            l1: string, c1: real, l2: string, c2: real)
    requires IsDecision(scores, avg, threshold, factor, l1, c1)
    requires IsDecision(scores, avg, threshold, factor, l2, c2)
    requires forall s, t :: s in scores && t in scores && scores[s] == scores[t] == TopScore(scores) ==> s == t
    ensures l1 == l2 && c1 == c2
  {
  }

  /** Top score and mean between 0 and 1, and a factor between 0 and 1, give a confidence between 0 and 1. */
  lemma FinalConfidenceUnit(top: real, avg: real, threshold: real, factor: real)
    requires 0.0 <= top <= 1.0 && 0.0 <= avg <= 1.0 && 0.0 <= factor <= 1.0
    ensures 0.0 <= FinalConfidence(top, avg, threshold, factor) <= 1.0
  {
    ProductUnit(top, avg);
    ProductUnit(top * avg, factor);
  }

  lemma ProductUnit(x: real, y: real)
    requires 0.0 <= x <= 1.0 && 0.0 <= y <= 1.0
    ensures 0.0 <= x * y <= x
  {
  }

  /** A confidence under the threshold is cut by the factor and labelled "Indeterminado". */
  lemma BelowThresholdUndetermined(scores: map<string, real>, avg: real, threshold: real, factor: real,
                                   chosen: string, confidence: real)
    requires IsDecision(scores, avg, threshold, factor, chosen, confidence)
    requires TopScore(scores) * avg < threshold
    ensures chosen == Undetermined
    ensures confidence == Min(TopScore(scores) * avg * factor, 1.0)
  {
  }

  // ------------------------------------------------------------------
  // The two detectors.
  // ------------------------------------------------------------------

  /** The mean of a three-entry indicator map. */
  lemma MeanOfThree(m: FeatureMap, k1: string, k2: string, k3: string)
    requires m.Keys == {k1, k2, k3} && k1 != k2 && k1 != k3 && k2 != k3
    ensures Mean(m) == (m[k1] + m[k2] + m[k3]) / 3.0
  {
    var f := ValuesOf(m);
    RealSumRemove(m.Keys, f, k1);
    RealSumRemove(m.Keys - {k1}, f, k2);
    RealSumRemove(m.Keys - {k1} - {k2}, f, k3);
    assert m.Keys - {k1} - {k2} - {k3} == {};
  }

  lemma WeaponIndicatorMean(features: FeatureMap)
    ensures Mean(map["firing_pin_score" := FiringPinScore(features),
                     "striation_score" := StriationScore(features),
                     "breech_face_score" := BreechFaceScore(features)])
         == (FiringPinScore(features) + StriationScore(features) + BreechFaceScore(features)) / 3.0
  {
    assert "firing_pin_score"[0] == 'f' && "striation_score"[0] == 's' && "breech_face_score"[0] == 'b';
    MeanOfLiteral("firing_pin_score", "striation_score", "breech_face_score",
                  FiringPinScore(features), StriationScore(features), BreechFaceScore(features));
  }

  lemma CaliberIndicatorMean(features: FeatureMap)
    ensures Mean(map["size_score" := ProjectileSizeScore(features),
                     "rifling_score" := RiflingScore(features),
                     "striation_density" := StriationDensityScore(features)])
         == (ProjectileSizeScore(features) + RiflingScore(features) + StriationDensityScore(features)) / 3.0
  {
    assert "size_score"[1] == 'i' && "rifling_score"[0] == 'r' && "striation_density"[1] == 't';
    MeanOfLiteral("size_score", "rifling_score", "striation_density",
                  ProjectileSizeScore(features), RiflingScore(features), StriationDensityScore(features));
  }

  lemma MeanOfLiteral(k1: string, k2: string, k3: string, v1: real, v2: real, v3: real)
    requires k1 != k2 && k1 != k3 && k2 != k3
    ensures Mean(map[k1 := v1, k2 := v2, k3 := v3]) == (v1 + v2 + v3) / 3.0
  {
    MeanOfThree(map[k1 := v1, k2 := v2, k3 := v3], k1, k2, k3);
  }

  /** The indicator half of DetectWeaponType: the three scores under their keys, the evidence in order. */
  method WeaponIndicators(features: FeatureMap) returns (indicators: FeatureMap, evidence: seq<Evidence>)
    ensures indicators == map["firing_pin_score" := FiringPinScore(features),
                              "striation_score" := StriationScore(features),
                              "breech_face_score" := BreechFaceScore(features)]
    ensures evidence == FiringPinEvidence(features) + StriationEvidence(features) + BreechFaceEvidence(features)
  {
    indicators, evidence := map[], [];
    var firingPinScore;
    firingPinScore, evidence := AnalyzeFiringPinCharacteristics(features, evidence);
    assert evidence == FiringPinEvidence(features);
    indicators := indicators["firing_pin_score" := firingPinScore];
    var striationScore;
    striationScore, evidence := AnalyzeStriationCharacteristics(features, evidence);
    indicators := indicators["striation_score" := striationScore];
    var breechFaceScore;
    breechFaceScore, evidence := AnalyzeBreechFaceCharacteristics(features, evidence);
    indicators := indicators["breech_face_score" := breechFaceScore];
  }

  /** DetectWeaponType: the three indicators and their evidence, then the weapon decision. */
  method DetectWeaponType(features: FeatureMap) returns (result: WeaponClassification)
    ensures result.indicators == map["firing_pin_score" := FiringPinScore(features),
                                     "striation_score" := StriationScore(features),
                                     "breech_face_score" := BreechFaceScore(features)]
    ensures result.evidence == FiringPinEvidence(features) + StriationEvidence(features) + BreechFaceEvidence(features)
    ensures result.caliber == ""
    ensures Mean(result.indicators) == (FiringPinScore(features) + StriationScore(features) + BreechFaceScore(features)) / 3.0
    ensures IsDecision(WeaponScores(features), Mean(result.indicators), 0.4, 0.7, result.weaponType, result.confidence)
    ensures 0.0 <= result.confidence <= 1.0
  {
    var indicators, evidence := WeaponIndicators(features);
    assert "firing_pin_score" in indicators;
    var weaponType, confidence := ClassifyWeaponType(indicators, features);
    WeaponIndicatorMean(features);
    FinalConfidenceUnit(TopScore(WeaponScores(features)), Mean(indicators), 0.4, 0.7);
    result := WeaponClassification(weaponType, "", confidence, indicators, evidence);
  }

  /** The indicator half of DetectCaliber. */
  method CaliberIndicators(features: FeatureMap) returns (indicators: FeatureMap, evidence: seq<Evidence>)
    ensures indicators == map["size_score" := ProjectileSizeScore(features),
                              "rifling_score" := RiflingScore(features),
                              "striation_density" := StriationDensityScore(features)]
    ensures evidence == ProjectileSizeEvidence(features) + RiflingEvidence(features) + StriationDensityEvidence(features)
  {
    indicators, evidence := map[], [];
    var sizeScore;
    sizeScore, evidence := AnalyzeProjectileSize(features, evidence);
    assert evidence == ProjectileSizeEvidence(features);
    indicators := indicators["size_score" := sizeScore];
    var riflingScore;
    riflingScore, evidence := AnalyzeRiflingPattern(features, evidence);
    indicators := indicators["rifling_score" := riflingScore];
    var striationDensity;
    striationDensity, evidence := AnalyzeStriationDensity(features, evidence);
    indicators := indicators["striation_density" := striationDensity];
  }

  /** DetectCaliber: the three indicators and their evidence, then the calibre decision. */
  method DetectCaliber(features: FeatureMap) returns (result: WeaponClassification)
    ensures result.indicators == map["size_score" := ProjectileSizeScore(features),
                                     "rifling_score" := RiflingScore(features),
                                     "striation_density" := StriationDensityScore(features)]
    ensures result.evidence == ProjectileSizeEvidence(features) + RiflingEvidence(features) + StriationDensityEvidence(features)
    ensures result.weaponType == ""
    ensures Mean(result.indicators) == (ProjectileSizeScore(features) + RiflingScore(features) + StriationDensityScore(features)) / 3.0
    ensures IsDecision(CaliberScores(features), Mean(result.indicators), 0.35, 0.6, result.caliber, result.confidence)
    ensures result.confidence <= 1.0
  {
    var indicators, evidence := CaliberIndicators(features);
    assert "size_score" in indicators;
    var caliber, confidence := ClassifyCaliber(indicators, features);
    CaliberIndicatorMean(features);
    result := WeaponClassification("", caliber, confidence, indicators, evidence);
  }

  /** With no features at all every indicator is 0, so the weapon type is undetermined with confidence 0. */
  lemma NoFeaturesNoWeapon(chosen: string, confidence: real)
    requires IsDecision(WeaponScores(map[]), (FiringPinScore(map[]) + StriationScore(map[]) + BreechFaceScore(map[])) / 3.0,
                        0.4, 0.7, chosen, confidence)
    ensures chosen == Undetermined && confidence == 0.0
  {
    assert FiringPinScore(map[]) == StriationScore(map[]) == BreechFaceScore(map[]) == 0.0;
  }

  // ------------------------------------------------------------------
  // Qualitative labels and derived measurements.
  // ------------------------------------------------------------------

  /** detectFiringPinType: below 1.5 small, above 3 large, otherwise medium. */
  function FiringPinType(f: FeatureMap): (r: string)
    ensures r == Undetermined <==> "firing_pin_avg_radius" !in f
    ensures r == "Circular pequeño" <==> "firing_pin_avg_radius" in f && f["firing_pin_avg_radius"] < 1.5
    ensures r == "Circular grande" <==> Above(f, "firing_pin_avg_radius", 3.0)
    ensures r == "Circular mediano" <==> "firing_pin_avg_radius" in f && In(f["firing_pin_avg_radius"], 1.5, 3.0)
  {
    if "firing_pin_avg_radius" in f then
      var radius := f["firing_pin_avg_radius"];
      if radius < 1.5 then "Circular pequeño" else if radius > 3.0 then "Circular grande" else "Circular mediano"
    else Undetermined
  }

  /** detectBreechFacePattern: above 0.1 rough, above 0.05 medium, otherwise smooth. */
  function BreechFacePattern(f: FeatureMap): (r: string)
    ensures r == Undetermined <==> "lbp_uniformity" !in f
    ensures r == "Textura rugosa" <==> Above(f, "lbp_uniformity", 0.1)
    ensures r == "Textura media" <==> "lbp_uniformity" in f && 0.05 < f["lbp_uniformity"] <= 0.1
    ensures r == "Textura lisa" <==> "lbp_uniformity" in f && f["lbp_uniformity"] <= 0.05
  {
    if "lbp_uniformity" in f then
      var lbp := f["lbp_uniformity"];
      if lbp > 0.1 then "Textura rugosa" else if lbp > 0.05 then "Textura media" else "Textura lisa"
    else Undetermined
  }

  /** detectStriationPattern: above 30 dense, above 15 moderate, above 5 light, otherwise minimal. */
  function StriationPattern(f: FeatureMap): (r: string)
    ensures r == Undetermined <==> "striation_count" !in f
    ensures r == "Estriado denso" <==> Above(f, "striation_count", 30.0)
    ensures r == "Estriado moderado" <==> "striation_count" in f && 15.0 < f["striation_count"] <= 30.0
    ensures r == "Estriado ligero" <==> "striation_count" in f && 5.0 < f["striation_count"] <= 15.0
    ensures r == "Estriado mínimo" <==> "striation_count" in f && f["striation_count"] <= 5.0
  {
    if "striation_count" in f then
      var count := f["striation_count"];
      if count > 30.0 then "Estriado denso"
      else if count > 15.0 then "Estriado moderado"
      else if count > 5.0 then "Estriado ligero"
      else "Estriado mínimo"
    else Undetermined
  }

  /** detectRiflingType: above 45 pronounced, above 20 standard, above 5 soft, otherwise minimal. */
  function RiflingType(f: FeatureMap): (r: string)
    ensures r == Undetermined <==> "striation_avg_angle" !in f
    ensures r == "Rifling pronunciado" <==> Above(f, "striation_avg_angle", 45.0)
    ensures r == "Rifling estándar" <==> "striation_avg_angle" in f && 20.0 < f["striation_avg_angle"] <= 45.0
    ensures r == "Rifling suave" <==> "striation_avg_angle" in f && 5.0 < f["striation_avg_angle"] <= 20.0
    ensures r == "Rifling mínimo" <==> "striation_avg_angle" in f && f["striation_avg_angle"] <= 5.0
  {
    if "striation_avg_angle" in f then
      var angle := f["striation_avg_angle"];
      if angle > 45.0 then "Rifling pronunciado"
      else if angle > 20.0 then "Rifling estándar"
      else if angle > 5.0 then "Rifling suave"
      else "Rifling mínimo"
    else Undetermined
  }

  /** detectTwistDirection: left exactly when the mean angle exceeds 90. */
  function TwistDirection(f: FeatureMap): (r: string)
    ensures r == Undetermined <==> "striation_avg_angle" !in f
    ensures r == "Izquierda" <==> Above(f, "striation_avg_angle", 90.0)
    ensures r == "Derecha" <==> "striation_avg_angle" in f && f["striation_avg_angle"] <= 90.0
  {
    if "striation_avg_angle" in f then (if f["striation_avg_angle"] > 90.0 then "Izquierda" else "Derecha")
    else Undetermined
  }

  /**
   * calculateLandGrooveRatio: the mean striation length per striation
   * plus one, when both features are present. The division is unguarded;
   * a count of -1 gives Go's NaN or infinity.
   */
  function LandGrooveRatio(f: FeatureMap): (r: Float)
    ensures ("striation_count" !in f || "striation_avg_length" !in f) ==> r == Finite(0.0)
    ensures "striation_count" in f && "striation_avg_length" in f && f["striation_count"] >= 0.0 ==>
      r.Finite? && r.value * (f["striation_count"] + 1.0) == f["striation_avg_length"]
  {
    if "striation_count" in f && "striation_avg_length" in f then
      Div(f["striation_avg_length"], f["striation_count"] + 1.0)
    else Finite(0.0)
  }

  /** calculateStriationDensity: striations per 1000 units of contour area, 0 without a positive area. */
  function StriationDensity(f: FeatureMap): (r: real)
    ensures !("striation_count" in f && Above(f, "contour_area", 0.0)) ==> r == 0.0
    ensures "striation_count" in f && Above(f, "contour_area", 0.0) ==>
      r * f["contour_area"] == f["striation_count"] * 1000.0
  {
    if "striation_count" in f && Above(f, "contour_area", 0.0) then
      var count, area := f["striation_count"], f["contour_area"];
      assert (count / area) * area == count;
      count / area * 1000.0
    else 0.0
  }

  /** calculateFiringPinDepth: 0.3 times the radius, 0 when the radius is absent. */
  function FiringPinDepth(f: FeatureMap): (r: real)
    ensures r == 0.3 * Lookup(f, "firing_pin_avg_radius")
  {
    if "firing_pin_avg_radius" in f then f["firing_pin_avg_radius"] * 0.3 else 0.0
  }

  datatype BallisticCharacteristics = BallisticCharacteristics(
    firingPinType: string, breechFacePattern: string, striationPattern: string,
    riflingType: string, twistDirection: string,
    landGrooveRatio: Float, striationDensity: real, firingPinDepth: real)

  /**
   * DetectBallisticCharacteristics. The labels and measurements agree on
   * which features were present: both angle labels are undetermined
   * together, and a non-zero measurement comes with a determined label.
   */
  function DetectBallisticCharacteristics(f: FeatureMap): (c: BallisticCharacteristics)
    ensures c.riflingType == Undetermined <==> c.twistDirection == Undetermined
    ensures c.striationDensity != 0.0 ==> c.striationPattern != Undetermined
    ensures c.landGrooveRatio != Finite(0.0) ==> c.striationPattern != Undetermined
    ensures c.firingPinDepth != 0.0 ==> c.firingPinType != Undetermined
  {
    BallisticCharacteristics(FiringPinType(f), BreechFacePattern(f), StriationPattern(f),
                             RiflingType(f), TwistDirection(f),
                             LandGrooveRatio(f), StriationDensity(f), FiringPinDepth(f))
  }
}
