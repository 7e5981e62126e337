/** The pixel scan of `analyzeImageCharacteristics` (lib/image-analysis.ts):
    distinct colours, horizontal edges and skin-tone pixels over the canvas
    bytes, turned into three ratios and a face flag. Image loading and the
    canvas are not modelled: the outcome of loading is an `ImageLoad`. */
module ImageAnalysis {
  import opened Common

  datatype Characteristics = Characteristics(
    hasFaces: bool,
    hasText: bool,
    colorComplexity: real,
    edgeDensity: real,
    compressionLevel: real,
    width: Option<nat>,
    height: Option<nat>)

  /** What happened before the scan: no browser, a decoding error, no 2D
      context, or a decoded image with its natural size and the bytes of the
      canvas it was drawn on. */
  datatype ImageLoad =
    | ServerSide
    | LoadFailed
    | NoContext
    | Decoded(width: nat, height: nat, pixels: seq<Byte>)

  /** The canvas is the image scaled down to at most 200 by 200. */
  const CanvasLimit: nat := 200

  /** Summed channel difference above which a pixel is an edge. */
  const EdgeThreshold: nat := 30

  /** The canvas holds `Min(width, 200) * Min(height, 200)` RGBA pixels. */
  predicate WellFormed(load: ImageLoad)
  {
    load.Decoded? ==>
      |load.pixels| == 4 * (Min(load.width, CanvasLimit) * Min(load.height, CanvasLimit))
  }

  /** The answer given without a browser and when the image fails to load. */
  const Fallback := Characteristics(false, false, 0.5, 0.5, 0.5, Some(1920), Some(1080))

  /** The answer given when the canvas has no 2D context: no size. */
  const NoContextResult := Characteristics(false, false, 0.5, 0.5, 0.5, None, None)

  /** The colour of every pixel, in buffer order. */
  function Rgbs(pixels: seq<Byte>): (cs: seq<Rgb>)
    requires IsRgba(pixels)
    ensures |cs| == |pixels| / 4
    ensures forall p :: 0 <= p < |cs| ==> cs[p] == PixelAt(pixels, p)
  {
    seq(|pixels| / 4, p requires 0 <= p < |pixels| / 4 => PixelAt(pixels, p))
  }

  function ColorDistance(a: Rgb, b: Rgb): nat
  {
    Abs(a.r - b.r) + Abs(a.g - b.g) + Abs(a.b - b.b)
  }

  /** Pixel `p` is an edge: not the first or the last pixel, and far enough
      from the pixel before it. */
  predicate IsEdgeAt(cs: seq<Rgb>, p: nat)
    requires p < |cs|
  {
    0 < p < |cs| - 1 && ColorDistance(cs[p], cs[p - 1]) > EdgeThreshold
  }

  function EdgeAt(cs: seq<Rgb>): nat -> bool
  {
    (p: nat) => p < |cs| && IsEdgeAt(cs, p)
  }

  predicate IsSkinTone(c: Rgb)
  {
    && 95 < c.r < 240 && 40 < c.g < 210 && 20 < c.b < 200
    && c.r > c.g && c.g > c.b && c.r - c.b > 15
  }

  function SkinAt(cs: seq<Rgb>): nat -> bool
  {
    (p: nat) => p < |cs| && IsSkinTone(cs[p])
  }

  function DistinctColors(cs: seq<Rgb>): set<Rgb>
  {
    set c | c in cs
  }

  /** The result of a scan of `cs` taken from an image of the given size. */
  function Scanned(cs: seq<Rgb>, width: nat, height: nat, fileSize: nat): Characteristics
    requires |cs| > 0 && width > 0 && height > 0
  {
    var total := |cs| as real;
    Characteristics(
      CountUpTo(|cs|, SkinAt(cs)) as real / total > 0.1,
      false,
      MinReal(1.0, |DistinctColors(cs)| as real / total),
      MinReal(1.0, CountUpTo(|cs|, EdgeAt(cs)) as real / total),
      MinReal(1.0, fileSize as real / (width * height) as real),
      Some(width), Some(height))
  }

  /** What `analyzeImageCharacteristics` resolves to; `None` when it never
      resolves, which is what happens to an image of zero width or height:
      reading an empty canvas throws inside the load handler. */
  function CharacteristicsOf(load: ImageLoad, fileSize: nat): Option<Characteristics>
    requires WellFormed(load)
  {
    match load
    case ServerSide => Some(Fallback)
    case LoadFailed => Some(Fallback)
    case NoContext => Some(NoContextResult)
    case Decoded(width, height, pixels) =>
      if width == 0 || height == 0 then None
      else
        CanvasNotEmpty(width, height);
        Some(Scanned(Rgbs(pixels), width, height, fileSize))
  }

  lemma CanvasNotEmpty(width: nat, height: nat)
    requires width > 0 && height > 0
    ensures Min(width, CanvasLimit) * Min(height, CanvasLimit) > 0
  {
    var w := Min(width, CanvasLimit);
    var h := Min(height, CanvasLimit);
    assert w >= 1 && h >= 1;
    assert w * h >= 1 * h;
  }

  /** The canvas of a decoded non-empty image holds whole pixels, at least one. */
  lemma CanvasPixels(load: ImageLoad)
    requires WellFormed(load) && load.Decoded? && load.width > 0 && load.height > 0
    ensures IsRgba(load.pixels) && |load.pixels| / 4 > 0
  {
    CanvasNotEmpty(load.width, load.height);
    var n := Min(load.width, CanvasLimit) * Min(load.height, CanvasLimit);
    assert |load.pixels| == 4 * n;
    assert (4 * n) % 4 == 0 && (4 * n) / 4 == n;
  }

  /** The first pass: distinct colours, edges and the pixel count. */
  method ColorAndEdgePass(pixels: seq<Byte>) returns (colors: set<Rgb>, edgeCount: nat, totalPixels: nat)
    requires IsRgba(pixels)
    ensures totalPixels == |pixels| / 4
    ensures colors == DistinctColors(Rgbs(pixels))
    ensures edgeCount == CountUpTo(totalPixels, EdgeAt(Rgbs(pixels)))
  {
    ghost var cs := Rgbs(pixels);
    ghost var n := |pixels| / 4;
    assert |pixels| == 4 * n;
    colors := {};
    edgeCount := 0;
    totalPixels := 0;
    var i := 0;
    while i < |pixels|
      invariant i == 4 * totalPixels && totalPixels <= n
      invariant colors == DistinctColors(cs[..totalPixels])
      invariant edgeCount == CountUpTo(totalPixels, EdgeAt(cs))
    {
      ghost var p := totalPixels;
      var color := Rgb(pixels[i], pixels[i + 1], pixels[i + 2]);
      assert color == cs[p];
      AddColor(cs, p);
      colors := colors + {color};
      totalPixels := totalPixels + 1;
      var edge := EdgeCheck(pixels, i, p);
      assert CountUpTo(p + 1, EdgeAt(cs)) == CountUpTo(p, EdgeAt(cs)) + (if edge then 1 else 0);
      if edge {
        edgeCount := edgeCount + 1;
      }
      i := i + 4;
    }
    assert cs[..totalPixels] == cs;
  }

  /** The edge test of the first pass for the pixel at byte offset `i`: an
      interior pixel whose colour is far from the one before it. */
  method EdgeCheck(pixels: seq<Byte>, i: nat, ghost p: nat) returns (edge: bool)
    requires IsRgba(pixels) && i == 4 * p && i < |pixels|
    ensures edge == EdgeAt(Rgbs(pixels))(p)
  {
    edge := false;
    if i > 0 && i < |pixels| - 4 {
      var color := Rgb(pixels[i], pixels[i + 1], pixels[i + 2]);
      var previous := Rgb(pixels[i - 4], pixels[i - 3], pixels[i - 2]);
      assert color == Rgbs(pixels)[p] && previous == Rgbs(pixels)[p - 1];
      if ColorDistance(color, previous) > EdgeThreshold {
        edge := true;
      }
    }
  }

  /** One more pixel adds its colour to the colours seen. */
  lemma AddColor(cs: seq<Rgb>, p: nat)
    requires p < |cs|
    ensures DistinctColors(cs[..p + 1]) == DistinctColors(cs[..p]) + {cs[p]}
  {
    assert cs[..p + 1] == cs[..p] + [cs[p]];
  }

  /** The second pass: skin-tone pixels. */
  method SkinTonePass(pixels: seq<Byte>) returns (skinTonePixels: nat)
    requires IsRgba(pixels)
    ensures skinTonePixels == CountUpTo(|pixels| / 4, SkinAt(Rgbs(pixels)))
  {
    ghost var cs := Rgbs(pixels);
    ghost var n := |pixels| / 4;
    assert |pixels| == 4 * n;
    skinTonePixels := 0;
    var i := 0;
    ghost var p := 0;
    while i < |pixels|
      invariant i == 4 * p && p <= n
      invariant skinTonePixels == CountUpTo(p, SkinAt(cs))
    {
      var color := Rgb(pixels[i], pixels[i + 1], pixels[i + 2]);
      assert color == cs[p];
      if IsSkinTone(color) {
        skinTonePixels := skinTonePixels + 1;
      }
      i := i + 4;
      p := p + 1;
    }
  }

  /** `analyzeImageCharacteristics` after the image has loaded or failed to. */
  method AnalyzeCharacteristics(load: ImageLoad, fileSize: nat) returns (r: Option<Characteristics>)
    requires WellFormed(load)
    ensures r == CharacteristicsOf(load, fileSize)
  {
    match load {
      case ServerSide =>
        return Some(Fallback);
      case LoadFailed =>
        return Some(Fallback);
      case NoContext =>
        return Some(NoContextResult);
      case Decoded(width, height, pixels) =>
        if width == 0 || height == 0 {
          return None;
        }
        CanvasPixels(load);
        var c := ScanCanvas(width, height, pixels, fileSize);
        return Some(c);
    }
  }

  /** The load handler once the image is drawn: both passes over the canvas
      and the ratios computed from them. */
  method ScanCanvas(width: nat, height: nat, pixels: seq<Byte>, fileSize: nat) returns (c: Characteristics)
    requires width > 0 && height > 0 && IsRgba(pixels) && |pixels| / 4 > 0
    ensures c == Scanned(Rgbs(pixels), width, height, fileSize)
  {
    ghost var cs := Rgbs(pixels);
    var colors, edgeCount, totalPixels := ColorAndEdgePass(pixels);
    var colorComplexity := |colors| as real / totalPixels as real;
    var edgeDensity := edgeCount as real / totalPixels as real;
    var compressionLevel := fileSize as real / (width * height) as real;
    var skinTonePixels := SkinTonePass(pixels);
    var hasFaces := skinTonePixels as real / totalPixels as real > 0.1;
    assert totalPixels == |cs|;
    c := Characteristics(hasFaces, false,
      MinReal(1.0, colorComplexity), MinReal(1.0, edgeDensity), MinReal(1.0, compressionLevel),
      Some(width), Some(height));
  }

  // -------------------------------------------------------------- lemmas

  /** Between one colour and one per pixel. */
  lemma {:induction false} DistinctColorsBounds(cs: seq<Rgb>)
    ensures |DistinctColors(cs)| <= |cs|
    ensures |cs| > 0 ==> |DistinctColors(cs)| >= 1
  {
    if cs != [] {
      var init := cs[..|cs| - 1];
      var last := cs[|cs| - 1];
      DistinctColorsBounds(init);
      assert cs == init + [last];
      assert DistinctColors(cs) == DistinctColors(init) + {last};
      assert last in DistinctColors(cs);
    }
  }

  /** Only interior pixels can be edges: among the first `n` pixels at
      most `Min(n, total - 1) - 1` are. */
  lemma {:induction false} EdgeCountPrefixBound(cs: seq<Rgb>, n: nat)
    ensures CountUpTo(n, EdgeAt(cs)) <= Max(0, Min(n, |cs| - 1) - 1)
  {
    if n > 0 {
      EdgeCountPrefixBound(cs, n - 1);
    }
  }

  /** The first and the last pixel are never edges. */
  lemma EdgeCountBound(cs: seq<Rgb>)
    ensures CountUpTo(|cs|, EdgeAt(cs)) <= Max(0, |cs| - 2)
  {
    EdgeCountPrefixBound(cs, |cs|);
  }

  /** `skinTonePixels / totalPixels > 0.1` is `10 * skin > total`. */
  lemma TenthComparison(s: nat, t: nat)
    requires t > 0
    ensures s as real / t as real > 0.1 <==> 10 * s > t
  {
    var tr := t as real;
    DivOrder(s as real, 0.1 * tr, tr);
    assert (0.1 * tr) / tr == 0.1;
  }

  /** The properties of a completed scan: the face flag is a 10% threshold
      on skin-tone pixels, text is never reported, the colour ratio is the
      exact share of distinct colours and lies in (0,1], and every ratio
      lies in [0,1]. */
  lemma ScannedProperties(cs: seq<Rgb>, width: nat, height: nat, fileSize: nat)
    requires |cs| > 0 && width > 0 && height > 0
    ensures var c := Scanned(cs, width, height, fileSize);
      && (c.hasFaces <==> 10 * CountUpTo(|cs|, SkinAt(cs)) > |cs|)
      && !c.hasText
      && c.colorComplexity == |DistinctColors(cs)| as real / |cs| as real
      && 0.0 < c.colorComplexity <= 1.0
      && 0.0 <= c.edgeDensity <= 1.0
      && 0.0 <= c.compressionLevel <= 1.0
      && c.width == Some(width) && c.height == Some(height)
  {
    var total := |cs| as real;
    TenthComparison(CountUpTo(|cs|, SkinAt(cs)), |cs|);
    DistinctColorsBounds(cs);
    var d := |DistinctColors(cs)| as real;
    DivOrder(d, total, total);
    DivOrder(d, 0.0, total);
    DivSelf(total);
    DivOrder(0.0, CountUpTo(|cs|, EdgeAt(cs)) as real, total);
    assert width * height >= 1 * height;
    DivOrder(0.0, fileSize as real, (width * height) as real);
  }

  /** Every outcome: defaults when the image is not scanned, the scan's
      properties when it is, and no answer for an empty image. */
  lemma OutcomeProperties(load: ImageLoad, fileSize: nat)
    requires WellFormed(load)
    ensures (load.ServerSide? || load.LoadFailed?) ==> CharacteristicsOf(load, fileSize) == Some(Fallback)
    ensures load.NoContext? ==>
      var r := CharacteristicsOf(load, fileSize);
      r.Some? && r.value.width.None? && r.value.height.None?
    ensures CharacteristicsOf(load, fileSize).None? <==> load.Decoded? && (load.width == 0 || load.height == 0)
    ensures CharacteristicsOf(load, fileSize).Some? ==>
      var c := CharacteristicsOf(load, fileSize).value;
      !c.hasText && 0.0 <= c.colorComplexity <= 1.0 && 0.0 <= c.edgeDensity <= 1.0
      && 0.0 <= c.compressionLevel <= 1.0
  {
    if load.Decoded? && load.width > 0 && load.height > 0 {
      CanvasNotEmpty(load.width, load.height);
      ScannedProperties(Rgbs(load.pixels), load.width, load.height, fileSize);
    }
  }

  /** The alpha bytes never change the result. */
  lemma AlphaIgnored(width: nat, height: nat, a: seq<Byte>, b: seq<Byte>, fileSize: nat)
    requires WellFormed(Decoded(width, height, a)) && |b| == |a|
    requires forall i :: 0 <= i < |a| && i % 4 != 3 ==> a[i] == b[i]
    ensures CharacteristicsOf(Decoded(width, height, a), fileSize)
         == CharacteristicsOf(Decoded(width, height, b), fileSize)
  {
    forall p | 0 <= p < |a| / 4
      ensures PixelAt(a, p) == PixelAt(b, p)
    {
      assert (4 * p) % 4 == 0 && (4 * p + 1) % 4 == 1 && (4 * p + 2) % 4 == 2;
    }
    assert Rgbs(a) == Rgbs(b);
  }
}
