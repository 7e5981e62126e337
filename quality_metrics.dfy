/** The quality card (app/components/ImageQualityMetrics.tsx): a score that
    starts at 100 and loses fixed penalties, and its level. The two ratios
    are JavaScript numbers: an image with no pixels makes them infinite, or
    NaN for an empty file, and every comparison with NaN is false. */
module QualityMetrics {
  import opened Common

  datatype JsNumber = Finite(value: real) | PosInfinity | NaN

  predicate Below(x: JsNumber, c: real)
  {
    x.Finite? && x.value < c
  }

  predicate Above(x: JsNumber, c: real)
  {
    x.PosInfinity? || (x.Finite? && x.value > c)
  }

  /** `file.size / (width * height)`. */
  function BytesPerPixel(fileSize: nat, pixels: nat): JsNumber
  {
    if pixels > 0 then Finite(fileSize as real / pixels as real)
    else if fileSize > 0 then PosInfinity
    else NaN
  }

  /** `(file.size / (width * height * 3)) * 100`. */
  function CompressionRatio(fileSize: nat, pixels: nat): JsNumber
  {
    if pixels > 0 then Finite(fileSize as real / (pixels * 3) as real * 100.0)
    else if fileSize > 0 then PosInfinity
    else NaN
  }

  /** In exact arithmetic the compression ratio is `bytesPerPixel * 100 / 3`. */
  lemma RatioOfBytesPerPixel(fileSize: nat, pixels: nat)
    requires pixels > 0
    ensures CompressionRatio(fileSize, pixels).value == BytesPerPixel(fileSize, pixels).value * 100.0 / 3.0
  {
    var s := fileSize as real;
    var p := pixels as real;
    assert (pixels * 3) as real == p * 3.0;
    calc {
      s / (p * 3.0) * 100.0;
      (s / p) / 3.0 * 100.0;
      (s / p) * 100.0 / 3.0;
    }
  }

  /** Below 0.5 bytes per pixel the ratio is below 50/3, so the two size
      penalties never apply together. */
  lemma PenaltiesExclusive(fileSize: nat, pixels: nat)
    ensures !(Below(BytesPerPixel(fileSize, pixels), 0.5) && Above(CompressionRatio(fileSize, pixels), 50.0))
  {
    if pixels > 0 {
      RatioOfBytesPerPixel(fileSize, pixels);
    }
  }

  /** `getQualityScore`. */
  method QualityScore(hasArtifacts: bool, bytesPerPixel: JsNumber, compressionRatio: JsNumber) returns (score: int)
    ensures score == 100 - (if hasArtifacts then 20 else 0)
                         - (if Below(bytesPerPixel, 0.5) then 15 else 0)
                         - (if Above(compressionRatio, 50.0) then 10 else 0)
    ensures 55 <= score <= 100
  {
    score := 100;
    if hasArtifacts {
      score := score - 20;
    }
    if Below(bytesPerPixel, 0.5) {
      score := score - 15;
    }
    if Above(compressionRatio, 50.0) {
      score := score - 10;
    }
    score := Max(0, Min(100, score));
  }

  /** The score of an image: never below 65, since the two size penalties
      exclude each other. */
  method ImageQualityScore(hasArtifacts: bool, fileSize: nat, width: nat, height: nat) returns (score: int)
    ensures 65 <= score <= 100
    ensures !hasArtifacts ==> score >= 85
    ensures score == 100 <==> !hasArtifacts && !Below(BytesPerPixel(fileSize, width * height), 0.5)
                              && !Above(CompressionRatio(fileSize, width * height), 50.0)
  {
    PenaltiesExclusive(fileSize, width * height);
    score := QualityScore(hasArtifacts, BytesPerPixel(fileSize, width * height), CompressionRatio(fileSize, width * height));
  }

  datatype Level = Excellent | Good | Fair | Poor

  /** Levels from worst to best. */
  function Rank(l: Level): nat
  {
    match l
    case Poor => 0
    case Fair => 1
    case Good => 2
    case Excellent => 3
  }

  /** The level and the bar colour. */
  function LevelOf(score: int): Level
  {
    if score >= 80 then Excellent else if score >= 60 then Good else if score >= 40 then Fair else Poor
  }

  function BarColor(score: int): string
  {
    if score >= 80 then "bg-green-500" else if score >= 60 then "bg-blue-500" else if score >= 40 then "bg-yellow-500" else "bg-red-500"
  }

  /** The level is monotone in the score and the bar colour changes exactly
      where the level does; a reachable score is Excellent or Good. */
  lemma LevelBands(s: int, t: int)
    ensures s <= t ==> Rank(LevelOf(s)) <= Rank(LevelOf(t))
    ensures LevelOf(s) == LevelOf(t) <==> BarColor(s) == BarColor(t)
    ensures 65 <= s ==> LevelOf(s) == Excellent || LevelOf(s) == Good
  {
  }
}
