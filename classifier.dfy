/**
 * The classification service: it runs the three detectors on a feature
 * vector, weighs the two confidences into an overall score, derives a list
 * of recommendations, and stores the outcome. Storage is abstracted to the
 * error (if any) that saving reports.
 */
module Classification {
  import opened Common
  import opened Detector

  // ------------------------------------------------------------------
  // Overall score.
  // ------------------------------------------------------------------

  /**
   * calculateOverallScore: 0.6 of the weapon confidence plus 0.4 of the
   * calibre confidence, cut to 70% when the weapon type is undetermined
   * and to 80% when the calibre is.
   */
  function CalculateOverallScore(weapon: WeaponClassification, caliber: WeaponClassification): (r: real)
    ensures 0.0 <= weapon.confidence <= 1.0 && 0.0 <= caliber.confidence <= 1.0 ==> 0.0 <= r <= 1.0
  {
    var overall := weapon.confidence * 0.6 + caliber.confidence * 0.4;
    var afterWeapon := if weapon.weaponType == Undetermined then overall * 0.7 else overall;
    if caliber.caliber == Undetermined then afterWeapon * 0.8 else afterWeapon
  }

  /** The two penalties together multiply the weighted confidence by 0.56. */
  lemma OverallScoreBothUndetermined(weapon: WeaponClassification, caliber: WeaponClassification)
    requires weapon.weaponType == Undetermined && caliber.caliber == Undetermined
    ensures CalculateOverallScore(weapon, caliber) == (weapon.confidence * 0.6 + caliber.confidence * 0.4) * 0.56
  {
  }

  /**
   * With the same confidences, settling a label never lowers the overall
   * score (for non-negative confidences).
   */
  lemma OverallScoreDeterminedNotLower(weapon: WeaponClassification, caliber: WeaponClassification,
                                       weapon': WeaponClassification, caliber': WeaponClassification)
    requires weapon.confidence == weapon'.confidence >= 0.0 && caliber.confidence == caliber'.confidence >= 0.0
    requires weapon'.weaponType == Undetermined ==> weapon.weaponType == Undetermined
    requires caliber'.caliber == Undetermined ==> caliber.caliber == Undetermined
    ensures CalculateOverallScore(weapon, caliber) <= CalculateOverallScore(weapon', caliber')
  {
  }

  // ------------------------------------------------------------------
  // Recommendations.
  // ------------------------------------------------------------------

  /** The fixed recommendation lines; `Text` gives each one's wording. */
  datatype Advice =
    | ConfirmWeapon | ConfirmCaliber | LowDensity | ShallowFiringPin
    | CompareReference | MeasureCaliber
    | PistolaTraits | RifleRifling | RevolverMarks | EscopetaPellets
    | AllConfident

  function Text(a: Advice): string
  {
    match a
    case ConfirmWeapon => "Se recomienda análisis adicional para confirmar el tipo de arma"
    case ConfirmCaliber => "Se recomienda análisis adicional para confirmar el calibre"
    case LowDensity => "Baja densidad de estriado detectada - verificar calidad de la muestra"
    case ShallowFiringPin => "Marca de percutor poco profunda - posible desgaste del arma"
    case CompareReference => "Considerar análisis comparativo con base de datos de referencia"
    case MeasureCaliber => "Realizar mediciones físicas adicionales para determinar calibre"
    case PistolaTraits => "Verificar características típicas de pistola semiautomática"
    case RifleRifling => "Analizar patrones de rifling característicos de rifle"
    case RevolverMarks => "Examinar múltiples marcas de percutor típicas de revólver"
    case EscopetaPellets => "Considerar análisis de patrones de perdigones si aplica"
    case AllConfident => "Clasificación completada con alta confianza"
  }

  function ConfidenceAdvice(weapon: WeaponClassification, caliber: WeaponClassification): seq<Advice>
  {
    (if weapon.confidence < 0.7 then [ConfirmWeapon] else [])
    + (if caliber.confidence < 0.7 then [ConfirmCaliber] else [])
  }

  function CharacteristicAdvice(ch: BallisticCharacteristics): seq<Advice>
  {
    (if ch.striationDensity < 0.1 then [LowDensity] else [])
    + (if ch.firingPinDepth < 0.5 then [ShallowFiringPin] else [])
  }

  function UndeterminedAdvice(weapon: WeaponClassification, caliber: WeaponClassification): seq<Advice>
  {
    (if weapon.weaponType == Undetermined then [CompareReference] else [])
    + (if caliber.caliber == Undetermined then [MeasureCaliber] else [])
  }

  /** The weapon-specific line; a submachine gun has none. */
  function WeaponAdvice(weaponType: string): seq<Advice>
  {
    if weaponType == Pistola then [PistolaTraits]
    else if weaponType == Rifle then [RifleRifling]
    else if weaponType == Revolver then [RevolverMarks]
    else if weaponType == Escopeta then [EscopetaPellets]
    else []
  }

  /** The recommendations in their fixed order, or the single high-confidence line when none applies. */
  function RecommendationsOf(weapon: WeaponClassification, caliber: WeaponClassification,
                             ch: BallisticCharacteristics): (r: seq<Advice>)
    ensures 1 <= |r| <= 7
  {
    var advice := ConfidenceAdvice(weapon, caliber) + CharacteristicAdvice(ch)
                  + UndeterminedAdvice(weapon, caliber) + WeaponAdvice(weapon.weaponType);
    if advice == [] then [AllConfident] else advice
  }

  /** The confidence lines of generateRecommendations, appended in order. */
  method AppendConfidenceAdvice(weapon: WeaponClassification, caliber: WeaponClassification,
                                recommendations: seq<Advice>) returns (recommendations': seq<Advice>)
    ensures recommendations' == recommendations + ConfidenceAdvice(weapon, caliber)
  {
    recommendations' := recommendations;
    if weapon.confidence < 0.7 {
      recommendations' := recommendations' + [ConfirmWeapon];
    }
    if caliber.confidence < 0.7 {
      recommendations' := recommendations' + [ConfirmCaliber];
    }
  }

  /** The density and depth lines of generateRecommendations. */
  method AppendCharacteristicAdvice(ch: BallisticCharacteristics, recommendations: seq<Advice>)
    returns (recommendations': seq<Advice>)
    ensures recommendations' == recommendations + CharacteristicAdvice(ch)
  {
    recommendations' := recommendations;
    if ch.striationDensity < 0.1 {
      recommendations' := recommendations' + [LowDensity];
    }
    if ch.firingPinDepth < 0.5 {
      recommendations' := recommendations' + [ShallowFiringPin];
    }
  }

  /** The lines for unsettled labels in generateRecommendations. */
  method AppendUndeterminedAdvice(weapon: WeaponClassification, caliber: WeaponClassification,
                                  recommendations: seq<Advice>) returns (recommendations': seq<Advice>)
    ensures recommendations' == recommendations + UndeterminedAdvice(weapon, caliber)
  {
    recommendations' := recommendations;
    if weapon.weaponType == Undetermined {
      recommendations' := recommendations' + [CompareReference];
    }
    if caliber.caliber == Undetermined {
      recommendations' := recommendations' + [MeasureCaliber];
    }
  }

  /** The weapon-specific line of generateRecommendations. */
  method AppendWeaponAdvice(weaponType: string, recommendations: seq<Advice>)
    returns (recommendations': seq<Advice>)
    ensures recommendations' == recommendations + WeaponAdvice(weaponType)
  {
    recommendations' := recommendations;
    if weaponType == Pistola {
      recommendations' := recommendations' + [PistolaTraits];
    } else if weaponType == Rifle {
      recommendations' := recommendations' + [RifleRifling];
    } else if weaponType == Revolver {
      recommendations' := recommendations' + [RevolverMarks];
    } else if weaponType == Escopeta {
      recommendations' := recommendations' + [EscopetaPellets];
    }
  }

  /** generateRecommendations: every applicable line in order, or the high-confidence line alone. */
  method GenerateRecommendations(weapon: WeaponClassification, caliber: WeaponClassification,
                                 ch: BallisticCharacteristics) returns (recommendations: seq<Advice>)
    ensures recommendations == RecommendationsOf(weapon, caliber, ch)
  {
    recommendations := AppendConfidenceAdvice(weapon, caliber, []);
    recommendations := AppendCharacteristicAdvice(ch, recommendations);
    recommendations := AppendUndeterminedAdvice(weapon, caliber, recommendations);
    recommendations := AppendWeaponAdvice(weapon.weaponType, recommendations);
    if |recommendations| == 0 {
      recommendations := recommendations + [AllConfident];
    }
  }

  /**
   * The high-confidence line is given exactly when both confidences reach
   * 0.7, density and depth reach their floors, both labels are settled
   * and the weapon type has no line of its own; it is then the only line.
   */
  lemma AllConfidentExactly(weapon: WeaponClassification, caliber: WeaponClassification,
                            ch: BallisticCharacteristics)
    ensures AllConfident in RecommendationsOf(weapon, caliber, ch) <==>
      && weapon.confidence >= 0.7 && caliber.confidence >= 0.7
      && ch.striationDensity >= 0.1 && ch.firingPinDepth >= 0.5
      && weapon.weaponType != Undetermined && caliber.caliber != Undetermined
      && weapon.weaponType !in {Pistola, Rifle, Revolver, Escopeta}
    ensures AllConfident in RecommendationsOf(weapon, caliber, ch) ==>
      RecommendationsOf(weapon, caliber, ch) == [AllConfident]
  {
    var advice := ConfidenceAdvice(weapon, caliber) + CharacteristicAdvice(ch)
                  + UndeterminedAdvice(weapon, caliber) + WeaponAdvice(weapon.weaponType);
    assert AllConfident !in advice by {
      assert forall m :: m in advice ==> !m.AllConfident?;
    }
  }

  /** An undetermined weapon type always asks for a reference comparison, whatever else is said. */
  lemma UndeterminedWeaponAdvice(weapon: WeaponClassification, caliber: WeaponClassification,
                                 ch: BallisticCharacteristics)
    requires weapon.weaponType == Undetermined
    ensures CompareReference in RecommendationsOf(weapon, caliber, ch)
    ensures ConfirmWeapon in RecommendationsOf(weapon, caliber, ch) <==> weapon.confidence < 0.7
  {
    var conf := ConfidenceAdvice(weapon, caliber);
    var rest := CharacteristicAdvice(ch) + UndeterminedAdvice(weapon, caliber) + WeaponAdvice(weapon.weaponType);
    assert RecommendationsOf(weapon, caliber, ch) == conf + rest;
    assert CompareReference in UndeterminedAdvice(weapon, caliber);
    assert ConfirmWeapon !in rest by {
      assert forall m :: m in rest ==> m in {LowDensity, ShallowFiringPin, CompareReference, MeasureCaliber};
    }
  }

  // ------------------------------------------------------------------
  // Combining indicators and evidence.
  // ------------------------------------------------------------------

  /** The key an indicator is stored under in the combined map. */
  function Key(prefix: string, k: string): string { prefix + k }

  /** Prefixing is injective. */
  lemma KeyInjective(p: string, a: string, b: string)
    ensures Key(p, a) == Key(p, b) ==> a == b
  {
    if p + a == p + b {
      assert a == (p + a)[|p|..];
      assert b == (p + b)[|p|..];
    }
  }

  /**
   * Part way through copying `m` renamed into `base`: the keys outside
   * `rest` have been copied (`origin` remembers each copy's source key),
   * the entries of `base` are kept, and nothing else was added.
   */
  ghost predicate CopiedSoFar(prefix: string, m: FeatureMap, base: FeatureMap, combined: FeatureMap,
                              rest: set<string>, origin: map<string, string>)
  {
    && rest <= m.Keys
    && (forall j :: j in base ==> j in combined && combined[j] == base[j])
    && (forall k :: k in m && k !in rest ==> Key(prefix, k) in combined && combined[Key(prefix, k)] == m[k])
    && (forall j :: j in combined && j !in base ==>
          j in origin && origin[j] in m && origin[j] !in rest && Key(prefix, origin[j]) == j)
  }

  lemma CardStep(combined: FeatureMap, key: string, v: real, rest: set<string>, k: string)
    requires key !in combined && k in rest
    ensures |combined[key := v]| == |combined| + 1 && |rest - {k}| == |rest| - 1
  {
  }

  lemma CopyStep(prefix: string, m: FeatureMap, base: FeatureMap, combined: FeatureMap,
                 rest: set<string>, origin: map<string, string>, k: string)
    requires forall k :: k in m ==> Key(prefix, k) !in base
    requires CopiedSoFar(prefix, m, base, combined, rest, origin)
    requires k in rest
    ensures Key(prefix, k) !in combined
    ensures CopiedSoFar(prefix, m, base, combined[Key(prefix, k) := m[k]], rest - {k}, origin[Key(prefix, k) := k])
  {
    assert Key(prefix, k) !in combined by {
      forall j | j in combined && j !in base
        ensures j != Key(prefix, k)
      {
        KeyInjective(prefix, origin[j], k);
      }
    }
    var combined', origin' := combined[Key(prefix, k) := m[k]], origin[Key(prefix, k) := k];
    forall j | j in combined' && j !in base
      ensures j in origin' && origin'[j] in m && origin'[j] !in rest - {k} && Key(prefix, origin'[j]) == j
    {
      if j != Key(prefix, k) {
        assert j in combined && origin'[j] == origin[j];
      }
    }
    assert forall j :: j in base ==> j in combined' && combined'[j] == base[j];
    assert forall k' :: k' in m && k' !in rest - {k} ==> Key(prefix, k') in combined' && combined'[Key(prefix, k')] == m[k'];
  }

  /**
   * Copies every entry of `m` under its renamed key into `combined`,
   * visiting the keys in any order.
   */
  method CopyRenamed(prefix: string, m: FeatureMap, combined: FeatureMap) returns (combined': FeatureMap)
    requires forall k :: k in m ==> Key(prefix, k) !in combined
    ensures forall j :: j in combined ==> j in combined' && combined'[j] == combined[j]
    ensures forall k :: k in m ==> Key(prefix, k) in combined' && combined'[Key(prefix, k)] == m[k]
    ensures forall j :: j in combined' ==> j in combined || exists k :: k in m && j == Key(prefix, k)
    ensures |combined'| == |combined| + |m|
  {
    combined' := combined;
    var rest := m.Keys;
    ghost var origin: map<string, string> := map[];
    while rest != {}
      invariant CopiedSoFar(prefix, m, combined, combined', rest, origin)
      invariant |combined'| + |rest| == |combined| + |m|
      decreases rest
    {
      var k :| k in rest;
      CopyStep(prefix, m, combined, combined', rest, origin, k);
      CardStep(combined', Key(prefix, k), m[k], rest, k);
      combined' := combined'[Key(prefix, k) := m[k]];
      origin := origin[Key(prefix, k) := k];
      rest := rest - {k};
    }
    forall j | j in combined' && j !in combined
      ensures exists k :: k in m && j == Key(prefix, k)
    {
      assert Key(prefix, origin[j]) == j;
    }
  }

  /**
   * combineIndicators: every weapon indicator under "weapon_" and every
   * calibre indicator under "caliber_", values unchanged, nothing else.
   */
  method CombineIndicators(weaponIndicators: FeatureMap, caliberIndicators: FeatureMap)
    returns (combined: FeatureMap)
    ensures forall k :: k in weaponIndicators ==>
      "weapon_" + k in combined && combined["weapon_" + k] == weaponIndicators[k]
    ensures forall k :: k in caliberIndicators ==>
      "caliber_" + k in combined && combined["caliber_" + k] == caliberIndicators[k]
    ensures forall j :: j in combined ==>
      (exists k :: k in weaponIndicators && j == "weapon_" + k)
      || (exists k :: k in caliberIndicators && j == "caliber_" + k)
    ensures |combined| == |weaponIndicators| + |caliberIndicators|
  {
    combined := CopyRenamed("weapon_", weaponIndicators, map[]);
    forall k | k in caliberIndicators
      ensures Key("caliber_", k) !in combined
    {
      forall k' | k' in weaponIndicators
        ensures Key("caliber_", k) != Key("weapon_", k')
      {
        assert Key("caliber_", k)[0] == 'c' && Key("weapon_", k')[0] == 'w';
      }
    }
    combined := CopyRenamed("caliber_", caliberIndicators, combined);
  }

  /** combineEvidence: the weapon evidence followed by the calibre evidence. */
  method CombineEvidence(weaponEvidence: seq<Evidence>, caliberEvidence: seq<Evidence>)
    returns (combined: seq<Evidence>)
    ensures |combined| == |weaponEvidence| + |caliberEvidence|
    ensures combined[..|weaponEvidence|] == weaponEvidence
    ensures combined[|weaponEvidence|..] == caliberEvidence
  {
    combined := [];
    combined := combined + weaponEvidence;
    combined := combined + caliberEvidence;
  }

  // ------------------------------------------------------------------
  // The service.
  // ------------------------------------------------------------------

  datatype ClassificationResult = ClassificationResult(
    analysisID: string, weaponType: WeaponClassification, caliber: WeaponClassification,
    characteristics: BallisticCharacteristics, overallScore: real, recommendations: seq<Advice>)

  /**
   * ClassifyBallistic. `saveError` is what storing the classification
   * reports; on an error no result is returned.
   */
  method ClassifyBallistic(analysisID: string, features: FeatureMap, saveError: Option<string>)
    returns (r: Result<ClassificationResult>)
    ensures r.Err? <==> saveError.Some?
    ensures r.Err? ==> r.error == "error guardando clasificación: " + saveError.value
    ensures r.Ok? ==> r.value.analysisID == analysisID
    ensures r.Ok? ==> r.value.characteristics == DetectBallisticCharacteristics(features)
    ensures r.Ok? ==> r.value.weaponType.caliber == "" &&
                      r.value.weaponType.indicators == map["firing_pin_score" := FiringPinScore(features),
                                                           "striation_score" := StriationScore(features),
                                                           "breech_face_score" := BreechFaceScore(features)] &&
                      r.value.weaponType.evidence ==
                        FiringPinEvidence(features) + StriationEvidence(features) + BreechFaceEvidence(features)
    ensures r.Ok? ==> r.value.caliber.weaponType == "" &&
                      r.value.caliber.indicators == map["size_score" := ProjectileSizeScore(features),
                                                        "rifling_score" := RiflingScore(features),
                                                        "striation_density" := StriationDensityScore(features)] &&
                      r.value.caliber.evidence ==
                        ProjectileSizeEvidence(features) + RiflingEvidence(features) + StriationDensityEvidence(features)
    ensures r.Ok? ==> IsDecision(WeaponScores(features), Mean(r.value.weaponType.indicators), 0.4, 0.7,
                                 r.value.weaponType.weaponType, r.value.weaponType.confidence)
    ensures r.Ok? ==> IsDecision(CaliberScores(features), Mean(r.value.caliber.indicators), 0.35, 0.6,
                                 r.value.caliber.caliber, r.value.caliber.confidence)
    ensures r.Ok? ==> r.value.overallScore == CalculateOverallScore(r.value.weaponType, r.value.caliber)
    ensures r.Ok? ==>
      r.value.recommendations == RecommendationsOf(r.value.weaponType, r.value.caliber, r.value.characteristics)
  {
    var weaponType := DetectWeaponType(features);
    var caliber := DetectCaliber(features);
    var characteristics := DetectBallisticCharacteristics(features);
    var overallScore := CalculateOverallScore(weaponType, caliber);
    var recommendations := GenerateRecommendations(weaponType, caliber, characteristics);
    var result := ClassificationResult(analysisID, weaponType, caliber, characteristics,
                                       overallScore, recommendations);
    if saveError.Some? {
      return Err("error guardando clasificación: " + saveError.value);
    }
    return Ok(result);
  }

  /** GetClassificationHistory: always an empty list and no error, whatever the limit. */
  function GetClassificationHistory(limit: int): (r: Result<seq<ClassificationResult>>)
    ensures r.Ok? && |r.value| == 0
  {
    Ok([])
  }
}
