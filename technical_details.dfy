/** The technical-details panel (app/components/TechnicalDetails.tsx):
    file-size units, the three-way quality indicator, and which sections
    each detail level shows. `toFixed` rounding is not modelled: a size is
    shown as the exact quotient. */
module TechnicalDetailsView {
  import opened Common
  import opened Results

  datatype SizeUnit = Bytes | KiloBytes | MegaBytes

  /** `formatFileSize`: the number shown and its unit. */
  function FormatFileSize(bytes: nat): (r: (real, SizeUnit))
  {
    if bytes < 1024 then (bytes as real, Bytes)
    else if bytes < 1024 * 1024 then (bytes as real / 1024.0, KiloBytes)
    else (bytes as real / (1024 * 1024) as real, MegaBytes)
  }

  function UnitSize(u: SizeUnit): nat
  {
    match u
    case Bytes => 1
    case KiloBytes => 1024
    case MegaBytes => 1024 * 1024
  }

  /** The number times its unit is the size; below MB the number is under
      1024 and from KB on it is at least 1; a larger file never gets a
      smaller unit. */
  lemma FileSizeUnits(bytes: nat, other: nat)
    ensures var (v, u) := FormatFileSize(bytes);
      && v * UnitSize(u) as real == bytes as real
      && (u != MegaBytes ==> v < 1024.0)
      && (u != Bytes ==> v >= 1.0)
    ensures bytes <= other ==> UnitSize(FormatFileSize(bytes).1) <= UnitSize(FormatFileSize(other).1)
  {
    var (v, u) := FormatFileSize(bytes);
    if u == KiloBytes {
      assert v * 1024.0 == bytes as real;
    } else if u == MegaBytes {
      assert v * 1048576.0 == bytes as real;
    }
  }

  datatype Indicator = Ok | Warn | Bad

  /** `getQualityIndicator`. */
  function QualityIndicator(value: real, threshold: real): Indicator
  {
    if value >= threshold then Ok else if value >= threshold * 0.7 then Warn else Bad
  }

  function IndicatorRank(i: Indicator): nat
  {
    match i
    case Bad => 0
    case Warn => 1
    case Ok => 2
  }

  /** For a non-negative threshold the indicator never gets worse as the
      value grows. */
  lemma IndicatorMonotone(v: real, w: real, threshold: real)
    requires 0.0 <= threshold && v <= w
    ensures IndicatorRank(QualityIndicator(v, threshold)) <= IndicatorRank(QualityIndicator(w, threshold))
  {
  }

  /** The five indicators: sharpness as is, noise and the three artifact
      levels turned around as `1 - value`. */
  datatype Indicators = Indicators(sharpness: Indicator, noise: Indicator, compression: Indicator,
                                   quantization: Indicator, blocking: Indicator)

  function IndicatorsOf(t: TechnicalDetails): Indicators
  {
    Indicators(
      QualityIndicator(t.sharpness, 0.7),
      QualityIndicator(1.0 - t.noiseLevel, 0.7),
      QualityIndicator(1.0 - t.artifacts.compression, 0.8),
      QualityIndicator(1.0 - t.artifacts.quantization, 0.8),
      QualityIndicator(1.0 - t.artifacts.blocking, 0.8))
  }

  /** A higher noise or artifact level never gives a better indicator. */
  lemma InvertedIndicators(t: TechnicalDetails, u: TechnicalDetails)
    requires t.noiseLevel <= u.noiseLevel && t.artifacts.compression <= u.artifacts.compression
    ensures IndicatorRank(IndicatorsOf(u).noise) <= IndicatorRank(IndicatorsOf(t).noise)
    ensures IndicatorRank(IndicatorsOf(u).compression) <= IndicatorRank(IndicatorsOf(t).compression)
  {
    IndicatorMonotone(1.0 - u.noiseLevel, 1.0 - t.noiseLevel, 0.7);
    IndicatorMonotone(1.0 - u.artifacts.compression, 1.0 - t.artifacts.compression, 0.8);
  }

  /** With the value ranges the mock analysis draws from, noise and every
      artifact level always show Ok, and sharpness never shows Bad. */
  lemma MockIndicators(t: TechnicalDetails)
    requires 0.0 <= t.noiseLevel < 0.3 && 0.5 <= t.sharpness < 0.9
    requires 0.0 <= t.artifacts.compression < 0.2 && 0.0 <= t.artifacts.quantization < 0.15
    requires 0.0 <= t.artifacts.blocking < 0.1
    ensures var i := IndicatorsOf(t);
      i.noise == Ok && i.compression == Ok && i.quantization == Ok && i.blocking == Ok && i.sharpness != Bad
  {
  }

  datatype DetailLevel = Basic | Intermediate | Advanced

  datatype Panel = ImageProperties | QualityMetrics | ContentAnalysis | ArtifactAnalysis | MetadataAnomalies | ProcessingHistory

  /** The sections shown, in display order. */
  function Panels(level: DetailLevel, t: TechnicalDetails): seq<Panel>
  {
    [ImageProperties, QualityMetrics]
    + (if level == Intermediate || level == Advanced then [ContentAnalysis] else [])
    + (if level == Advanced then [ArtifactAnalysis] else [])
    + (if level == Advanced && |t.metadataAnomalies| > 0 then [MetadataAnomalies] else [])
    + (if level == Advanced && |t.processingHistory| > 0 then [ProcessingHistory] else [])
  }

  function LevelRank(level: DetailLevel): nat
  {
    match level
    case Basic => 0
    case Intermediate => 1
    case Advanced => 2
  }

  /** Content analysis needs intermediate or advanced; artifacts,
      anomalies and history need advanced, and the last two also a
      non-empty list; a higher level shows every section a lower one does. */
  lemma PanelsByLevel(level: DetailLevel, higher: DetailLevel, t: TechnicalDetails)
    ensures ContentAnalysis in Panels(level, t) <==> level != Basic
    ensures ArtifactAnalysis in Panels(level, t) <==> level == Advanced
    ensures MetadataAnomalies in Panels(level, t) <==> level == Advanced && |t.metadataAnomalies| > 0
    ensures ProcessingHistory in Panels(level, t) <==> level == Advanced && |t.processingHistory| > 0
    ensures LevelRank(level) <= LevelRank(higher) ==> forall p :: p in Panels(level, t) ==> p in Panels(higher, t)
  {
  }

  /** The processing steps, numbered from 1 in list order. */
  function NumberedSteps(history: seq<string>): (r: seq<(nat, string)>)
    ensures |r| == |history|
    ensures forall i :: 0 <= i < |r| ==> r[i] == (i + 1, history[i])
  {
    seq(|history|, i requires 0 <= i < |history| => (i + 1, history[i]))
  }
}
