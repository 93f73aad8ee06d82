/**
 * The data model of an analysis: colours packed the way Go's image/color
 * package expects, and the constructors of a new analysis and a new
 * cartridge case.
 */
module Models {
  import opened Common

  /** RGB: one unsigned byte per channel. */
  datatype RGB = RGB(r: bv8, g: bv8, b: bv8)

  /** The four 32-bit values RGBA returns. */
  datatype Channels = Channels(r: bv32, g: bv32, b: bv32, a: bv32)

  /** One channel widened to 16 bits by repeating its byte. */
  function Widen(c: bv8): (w: bv32)
    ensures w as int == 257 * c as int
    ensures w <= 0xFFFF
    ensures (w >> 8) as bv8 == c
  {
    ((c as bv32) << 8) | ((c as bv32) << 0)
  }

  /**
   * RGBA: every channel is the byte repeated in both halves of a 16-bit
   * value (257 times the byte), and alpha is fully opaque.
   */
  function RGBA(c: RGB): (ch: Channels)
    ensures ch.r as int == 257 * c.r as int && ch.g as int == 257 * c.g as int && ch.b as int == 257 * c.b as int
    ensures ch.r <= 0xFFFF && ch.g <= 0xFFFF && ch.b <= 0xFFFF
    ensures ch.a == 0xFFFF
  {
    Channels(Widen(c.r), Widen(c.g), Widen(c.b), 0xFFFF)
  }

  /** The high byte of each channel recovers the colour, as colour conversion relies on. */
  lemma RGBARoundTrip(c: RGB)
    ensures var ch := RGBA(c);
      RGB((ch.r >> 8) as bv8, (ch.g >> 8) as bv8, (ch.b >> 8) as bv8) == c
  {
  }

  /** Distinct colours give distinct channel values. */
  lemma RGBAInjective(c: RGB, d: RGB)
    requires RGBA(c) == RGBA(d)
    ensures c == d
  {
    RGBARoundTrip(c);
    RGBARoundTrip(d);
  }

  datatype ColorData = ColorData(color: RGB, frequency: real)

  datatype ChromaAnalysis = ChromaAnalysis(dominantColors: seq<ColorData>, colorVariance: real)

  /** The classification attached to a stored analysis. */
  datatype AnalysisClassification = AnalysisClassification(
    weaponType: string, caliber: string, confidence: real, indicators: FeatureMap,
    evidence: seq<string>, overallScore: real)

  datatype AnalysisMetadata = AnalysisMetadata(
    timestamp: string, imageHash: string, processorVersion: string, pythonFeaturesUsed: bool,
    confidence: real, caliber: string, manufacturer: string, filename: string,
    contentType: string, fileSize: int)

  /** BallisticAnalysis; a nil classification is None. */
  datatype BallisticAnalysis = BallisticAnalysis(
    features: FeatureMap, chromaData: ChromaAnalysis,
    classification: Option<AnalysisClassification>, metadata: AnalysisMetadata)

  const ProcessorVersion := "1.3.0"

  /**
   * NewBallisticAnalysis: no features, no colours, no classification, and
   * metadata carrying only the creation time (formatted by the caller)
   * and the processor version.
   */
  function NewBallisticAnalysis(now: string): (a: BallisticAnalysis)
    ensures a.features == map[] && a.classification.None?
    ensures a.chromaData.dominantColors == [] && a.chromaData.colorVariance == 0.0
    ensures a.metadata.timestamp == now && a.metadata.processorVersion == "1.3.0"
    ensures a.metadata.imageHash == "" && !a.metadata.pythonFeaturesUsed && a.metadata.confidence == 0.0
    ensures a.metadata.caliber == "" && a.metadata.manufacturer == "" && a.metadata.filename == ""
    ensures a.metadata.contentType == "" && a.metadata.fileSize == 0
  {
    BallisticAnalysis(map[], ChromaAnalysis([], 0.0), None,
      AnalysisMetadata(now, "", ProcessorVersion, false, 0.0, "", "", "", "", 0))
  }

  datatype CartridgeCase = CartridgeCase(
    id: string, breechFaceMarks: FeatureMap, firingPinMarks: FeatureMap, chamberMarks: FeatureMap,
    extractorMarks: FeatureMap, ejectorMarks: FeatureMap, features: FeatureMap)

  /** Every mark map of a cartridge case taken together. */
  function AllMarks(c: CartridgeCase): seq<FeatureMap>
  {
    [c.breechFaceMarks, c.firingPinMarks, c.chamberMarks, c.extractorMarks, c.ejectorMarks, c.features]
  }

  /** NewCartridgeCase: no identifier and all six mark maps allocated and empty. */
  function NewCartridgeCase(): (c: CartridgeCase)
    ensures c.id == ""
    ensures |AllMarks(c)| == 6
    ensures forall i :: 0 <= i < |AllMarks(c)| ==> AllMarks(c)[i] == map[]
  {
    CartridgeCase("", map[], map[], map[], map[], map[], map[])
  }
}
