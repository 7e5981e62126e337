/** The canvas scans of lib/image-utils.ts: the block-boundary variance
    behind `detectCompressionArtifacts`, and the quantise, count and rank
    pipeline of `extractDominantColors`. Loading the image and drawing it
    are not modelled: the scans take the canvas bytes and size. */
module ImageUtils {
  import opened Common
  import Ranking

  /** How a promise-returning canvas scan ends: rejected (the image did not
      load or there is no 2D context), never settled (reading an empty
      canvas throws inside the load handler), or resolved. */
  datatype Settled<T> = Rejected | Unsettled | Resolved(value: T)

  /** What was drawn: nothing usable, or a canvas of the given size. */
  datatype Canvas = NoCanvas | Pixels(width: nat, height: nat, data: seq<Byte>)

  predicate WellFormed(canvas: Canvas)
  {
    canvas.Pixels? ==> IsRgba(canvas.data) && |canvas.data| == 4 * (canvas.width * canvas.height)
  }

  // ------------------------------------------------------- edge variance

  /** Byte offset of pixel `i` of the top row of the block at (x, y). */
  function TopIndex(x: nat, y: nat, width: nat, i: nat): (t: nat)
    ensures t % 4 == 0
  {
    (y * width + x + i) * 4
  }

  /** Byte offset of pixel `i` of the row `blockSize` rows further down. */
  function BottomIndex(x: nat, y: nat, blockSize: nat, width: nat, i: nat): (t: nat)
    ensures t % 4 == 0
  {
    ((y + blockSize) * width + x + i) * 4
  }

  predicate PairInside(pixels: seq<Byte>, a: nat, b: nat)
  {
    a < |pixels| && b < |pixels|
  }

  /** A pixel offset inside an RGBA buffer leaves room for its three colour bytes. */
  lemma WholePixel(pixels: seq<Byte>, t: nat)
    requires IsRgba(pixels) && t % 4 == 0 && t < |pixels|
    ensures t + 2 < |pixels|
  {
  }

  function PixelDiff(pixels: seq<Byte>, a: nat, b: nat): (d: nat)
    requires a + 2 < |pixels| && b + 2 < |pixels|
    ensures d <= 3 * 255
  {
    Abs(pixels[a] as int - pixels[b] as int) + Abs(pixels[a + 1] as int - pixels[b + 1] as int)
    + Abs(pixels[a + 2] as int - pixels[b + 2] as int)
  }

  /** The contribution of column `i`: the mean channel difference when both
      pixels are inside the buffer, else nothing. */
  function Contribution(pixels: seq<Byte>, x: nat, y: nat, blockSize: nat, width: nat, i: nat): real
    requires IsRgba(pixels)
  {
    var a := TopIndex(x, y, width, i);
    var b := BottomIndex(x, y, blockSize, width, i);
    if PairInside(pixels, a, b) then
      WholePixel(pixels, a);
      WholePixel(pixels, b);
      PixelDiff(pixels, a, b) as real / 3.0
    else 0.0
  }

  function VarianceSum(pixels: seq<Byte>, x: nat, y: nat, blockSize: nat, width: nat, k: nat): real
    requires IsRgba(pixels)
  {
    if k == 0 then 0.0
    else VarianceSum(pixels, x, y, blockSize, width, k - 1) + Contribution(pixels, x, y, blockSize, width, k - 1)
  }

  function PairCount(pixels: seq<Byte>, x: nat, y: nat, blockSize: nat, width: nat, k: nat): nat
  {
    if k == 0 then 0
    else
      PairCount(pixels, x, y, blockSize, width, k - 1)
      + (if PairInside(pixels, TopIndex(x, y, width, k - 1), BottomIndex(x, y, blockSize, width, k - 1)) then 1 else 0)
  }

  /** `calculateEdgeVariance`: the mean channel difference between the top
      row of a block and the row below it, scaled by 255; 0 with no pair. */
  function EdgeVarianceOf(pixels: seq<Byte>, x: nat, y: nat, blockSize: nat, width: nat): real
    requires IsRgba(pixels)
  {
    var count := PairCount(pixels, x, y, blockSize, width, blockSize);
    if count > 0 then VarianceSum(pixels, x, y, blockSize, width, blockSize) / count as real / 255.0
    else 0.0
  }

  method EdgeVariance(pixels: seq<Byte>, x: nat, y: nat, blockSize: nat, width: nat) returns (v: real)
    requires IsRgba(pixels)
    ensures v == EdgeVarianceOf(pixels, x, y, blockSize, width)
  {
    var variance := 0.0;
    var count := 0;
    var i := 0;
    while i < blockSize
      invariant 0 <= i <= blockSize
      invariant variance == VarianceSum(pixels, x, y, blockSize, width, i)
      invariant count == PairCount(pixels, x, y, blockSize, width, i)
    {
      var idx1 := TopIndex(x, y, width, i);
      var idx2 := BottomIndex(x, y, blockSize, width, i);
      if idx1 < |pixels| && idx2 < |pixels| {
        WholePixel(pixels, idx1);
        WholePixel(pixels, idx2);
        var diff := Abs(pixels[idx1] as int - pixels[idx2] as int)
                  + Abs(pixels[idx1 + 1] as int - pixels[idx2 + 1] as int)
                  + Abs(pixels[idx1 + 2] as int - pixels[idx2 + 2] as int);
        variance := variance + diff as real / 3.0;
        count := count + 1;
      }
      i := i + 1;
    }
    v := if count > 0 then variance / count as real / 255.0 else 0.0;
  }

  lemma {:induction false} VarianceSumBounds(pixels: seq<Byte>, x: nat, y: nat, blockSize: nat, width: nat, k: nat)
    requires IsRgba(pixels)
    ensures 0.0 <= VarianceSum(pixels, x, y, blockSize, width, k)
                <= 255.0 * PairCount(pixels, x, y, blockSize, width, k) as real
  {
    if k > 0 {
      VarianceSumBounds(pixels, x, y, blockSize, width, k - 1);
    }
  }

  lemma MeanBound(v: real, c: real)
    requires c > 0.0 && 0.0 <= v <= 255.0 * c
    ensures 0.0 <= v / c / 255.0 <= 1.0
  {
    var q := v / c;
    assert q * c == v;
    if q > 255.0 {
      MulStrictlyMonotone(q, 255.0, c);
      assert false;
    }
    if q < 0.0 {
      MulStrictlyMonotone(0.0, q, c);
      assert false;
    }
  }

  lemma {:induction false} NoPairNoCount(pixels: seq<Byte>, x: nat, y: nat, blockSize: nat, width: nat, k: nat)
    requires forall i :: 0 <= i < k ==> !PairInside(pixels, TopIndex(x, y, width, i), BottomIndex(x, y, blockSize, width, i))
    ensures PairCount(pixels, x, y, blockSize, width, k) == 0
  {
    if k > 0 {
      NoPairNoCount(pixels, x, y, blockSize, width, k - 1);
    }
  }

  /** The variance lies in [0,1], and is 0 when no pair is inside the buffer. */
  lemma EdgeVarianceRange(pixels: seq<Byte>, x: nat, y: nat, blockSize: nat, width: nat)
    requires IsRgba(pixels)
    ensures 0.0 <= EdgeVarianceOf(pixels, x, y, blockSize, width) <= 1.0
    ensures (forall i :: 0 <= i < blockSize ==>
               !PairInside(pixels, TopIndex(x, y, width, i), BottomIndex(x, y, blockSize, width, i)))
            ==> EdgeVarianceOf(pixels, x, y, blockSize, width) == 0.0
  {
    var count := PairCount(pixels, x, y, blockSize, width, blockSize);
    VarianceSumBounds(pixels, x, y, blockSize, width, blockSize);
    if count > 0 {
      MeanBound(VarianceSum(pixels, x, y, blockSize, width, blockSize), count as real);
    }
    if forall i :: 0 <= i < blockSize ==>
         !PairInside(pixels, TopIndex(x, y, width, i), BottomIndex(x, y, blockSize, width, i)) {
      NoPairNoCount(pixels, x, y, blockSize, width, blockSize);
    }
  }

  /** The colour bytes at offset `k` are the same in both buffers. */
  predicate SamePixel(a: seq<Byte>, b: seq<Byte>, k: nat)
  {
    k + 2 < |a| && k + 2 < |b| ==> a[k] == b[k] && a[k + 1] == b[k + 1] && a[k + 2] == b[k + 2]
  }

  /** Two buffers that agree on the colour bytes of the compared pixels. */
  predicate AgreeOnRows(a: seq<Byte>, b: seq<Byte>, x: nat, y: nat, blockSize: nat, width: nat)
  {
    && |a| == |b|
    && forall i :: 0 <= i < blockSize ==>
         SamePixel(a, b, TopIndex(x, y, width, i)) && SamePixel(a, b, BottomIndex(x, y, blockSize, width, i))
  }

  lemma {:induction false} VarianceSumLocal(a: seq<Byte>, b: seq<Byte>, x: nat, y: nat, blockSize: nat, width: nat, k: nat)
    requires IsRgba(a) && IsRgba(b) && k <= blockSize && AgreeOnRows(a, b, x, y, blockSize, width)
    ensures VarianceSum(a, x, y, blockSize, width, k) == VarianceSum(b, x, y, blockSize, width, k)
    ensures PairCount(a, x, y, blockSize, width, k) == PairCount(b, x, y, blockSize, width, k)
  {
    if k > 0 {
      VarianceSumLocal(a, b, x, y, blockSize, width, k - 1);
      ContributionLocal(a, b, x, y, blockSize, width, k - 1);
    }
  }

  /** One column contributes the same to both buffers. */
  lemma ContributionLocal(a: seq<Byte>, b: seq<Byte>, x: nat, y: nat, blockSize: nat, width: nat, i: nat)
    requires IsRgba(a) && IsRgba(b) && i < blockSize && AgreeOnRows(a, b, x, y, blockSize, width)
    ensures Contribution(a, x, y, blockSize, width, i) == Contribution(b, x, y, blockSize, width, i)
  {
    var t := TopIndex(x, y, width, i);
    var u := BottomIndex(x, y, blockSize, width, i);
    if PairInside(a, t, u) {
      WholePixel(a, t);
      WholePixel(a, u);
      assert SamePixel(a, b, t) && SamePixel(a, b, u);
      assert PixelDiff(a, t, u) == PixelDiff(b, t, u);
    }
  }

  /** Only row y and row y + blockSize, columns x .. x + blockSize - 1, are read. */
  lemma EdgeVarianceLocal(a: seq<Byte>, b: seq<Byte>, x: nat, y: nat, blockSize: nat, width: nat)
    requires IsRgba(a) && IsRgba(b) && AgreeOnRows(a, b, x, y, blockSize, width)
    ensures EdgeVarianceOf(a, x, y, blockSize, width) == EdgeVarianceOf(b, x, y, blockSize, width)
  {
    VarianceSumLocal(a, b, x, y, blockSize, width, blockSize);
  }

  // ---------------------------------------------------------- block scan

  const BlockSize: nat := 8

  /** How many block origins 0, 8, 16, ... lie strictly below `n - 8`. */
  function BlockSteps(n: nat): nat
  {
    if n <= BlockSize then 0 else (n - 1) / BlockSize
  }

  /** Block origin `8 * j` is visited exactly when it is below `n - 8`. */
  lemma BlockStepsMeaning(n: nat, j: nat)
    ensures j < BlockSteps(n) <==> BlockSize * j < n - BlockSize
  {
  }

  /** Whether the block in column `j` of the row at `y` has a sharp top edge. */
  function ColumnFlagged(pixels: seq<Byte>, width: nat, y: nat): nat -> bool
    requires IsRgba(pixels)
  {
    (j: nat) => EdgeVarianceOf(pixels, BlockSize * j, y, BlockSize, width) > 0.3
  }

  /** Flagged blocks in the block row starting at row `8 * r`. */
  function RowScores(pixels: seq<Byte>, width: nat): nat -> nat
    requires IsRgba(pixels)
  {
    (r: nat) => CountUpTo(BlockSteps(width), ColumnFlagged(pixels, width, BlockSize * r))
  }

  function FlaggedBlocks(pixels: seq<Byte>, width: nat, height: nat): nat
    requires IsRgba(pixels)
  {
    SumUpTo(BlockSteps(height), RowScores(pixels, width))
  }

  /** The outcome of `detectCompressionArtifacts`. `confidence` is the
      score times 100. */
  datatype ArtifactReport = ArtifactReport(hasArtifacts: bool, confidence: nat, details: seq<string>)

  const BlockMessage: string := "Block artifacts detected (possible JPEG compression)"
  const DensityMessage: string := "Low bytes-per-pixel ratio (possible heavy compression)"

  /** Fewer than half a byte of file per pixel. */
  predicate LowDensity(fileSize: nat, width: nat, height: nat)
    requires width * height > 0
  {
    fileSize as real / (width * height) as real < 0.5
  }

  /** The artifact score in tenths: one per flagged block, three more for a
      low byte density. */
  function ArtifactTenths(pixels: seq<Byte>, width: nat, height: nat, fileSize: nat): nat
    requires IsRgba(pixels) && width * height > 0
  {
    FlaggedBlocks(pixels, width, height) + (if LowDensity(fileSize, width, height) then 3 else 0)
  }

  /** `artifactScore > 0.3` for the score as the source accumulates it in
      doubles: one addition of 0.1 per flagged block, then 0.3 for a low
      byte density. Three additions of 0.1 already give 0.30000000000000004,
      which is above 0.3, and each further addition raises the score; 0.3 on
      its own is not above 0.3, while 0.1 + 0.3 is 0.4. So the verdict is
      not "more than three tenths": exactly three blocks report artifacts. */
  predicate ScoreAboveThreshold(blocks: nat, low: bool)
  {
    blocks >= 3 || (low && blocks >= 1)
  }

  function ArtifactsOf(canvas: Canvas, fileSize: nat): Settled<ArtifactReport>
    requires WellFormed(canvas)
  {
    match canvas
    case NoCanvas => Rejected
    case Pixels(width, height, pixels) =>
      if width == 0 || height == 0 then Unsettled
      else
        PositiveArea(width, height);
        var blocks := FlaggedBlocks(pixels, width, height);
        var low := LowDensity(fileSize, width, height);
        var tenths := ArtifactTenths(pixels, width, height, fileSize);
        Resolved(ArtifactReport(
          ScoreAboveThreshold(blocks, low),
          Min(100, 10 * tenths),
          (if blocks > 5 then [BlockMessage] else []) + (if low then [DensityMessage] else [])))
  }

  lemma PositiveArea(width: nat, height: nat)
    requires width > 0 && height > 0
    ensures width * height > 0
  {
    assert width * height >= 1 * height;
  }

  /** The inner block loop: flagged blocks along the block row at `y`. */
  method ScanBlockRow(pixels: seq<Byte>, width: nat, y: nat) returns (flagged: nat)
    requires IsRgba(pixels)
    ensures flagged == CountUpTo(BlockSteps(width), ColumnFlagged(pixels, width, y))
  {
    flagged := 0;
    var x := 0;
    ghost var j := 0;
    while x < width - BlockSize
      invariant x == BlockSize * j && j <= BlockSteps(width)
      invariant flagged == CountUpTo(j, ColumnFlagged(pixels, width, y))
    {
      BlockStepsMeaning(width, j);
      var edgeVariance := EdgeVariance(pixels, x, y, BlockSize, width);
      if edgeVariance > 0.3 {
        flagged := flagged + 1;
      }
      x := x + BlockSize;
      j := j + 1;
    }
    BlockStepsMeaning(width, j);
  }

  /** The outer block loop: flagged blocks over the whole image. */
  method ScanBlocks(pixels: seq<Byte>, width: nat, height: nat) returns (flagged: nat)
    requires IsRgba(pixels)
    ensures flagged == FlaggedBlocks(pixels, width, height)
  {
    flagged := 0;
    var y := 0;
    ghost var j := 0;
    while y < height - BlockSize
      invariant y == BlockSize * j && j <= BlockSteps(height)
      invariant flagged == SumUpTo(j, RowScores(pixels, width))
    {
      BlockStepsMeaning(height, j);
      var row := ScanBlockRow(pixels, width, y);
      assert RowScores(pixels, width)(j) == row;
      assert SumUpTo(j + 1, RowScores(pixels, width)) == SumUpTo(j, RowScores(pixels, width)) + row;
      flagged := flagged + row;
      y := y + BlockSize;
      j := j + 1;
    }
    BlockStepsMeaning(height, j);
  }

  /** `detectCompressionArtifacts` once the image is on the canvas: the
      block scan, then the byte-density check. */
  method DetectArtifacts(canvas: Canvas, fileSize: nat) returns (r: Settled<ArtifactReport>)
    requires WellFormed(canvas)
    ensures r == ArtifactsOf(canvas, fileSize)
  {
    if canvas.NoCanvas? {
      return Rejected;
    }
    var width, height, pixels := canvas.width, canvas.height, canvas.data;
    if width == 0 || height == 0 {
      return Unsettled;
    }
    PositiveArea(width, height);
    var details: seq<string> := [];
    var blocks := ScanBlocks(pixels, width, height);
    var tenths := blocks;
    if tenths > 5 {
      details := details + [BlockMessage];
    }
    var pixelsCount := width * height;
    var bytesPerPixel := fileSize as real / pixelsCount as real;
    var low := bytesPerPixel < 0.5;
    assert low == LowDensity(fileSize, width, height);
    if low {
      details := details + [DensityMessage];
      tenths := tenths + 3;
    }
    assert tenths == ArtifactTenths(pixels, width, height, fileSize);
    assert details == (if blocks > 5 then [BlockMessage] else [])
                    + (if low then [DensityMessage] else []);
    return Resolved(ArtifactReport(ScoreAboveThreshold(blocks, low), Min(100, 10 * tenths), details));
  }

  /** `bytesPerPixel < 0.5` is `2 * fileSize < width * height`. */
  lemma LowDensityInIntegers(fileSize: nat, width: nat, height: nat)
    requires width * height > 0
    ensures LowDensity(fileSize, width, height) <==> 2 * fileSize < width * height
  {
    var area := (width * height) as real;
    var q := fileSize as real / area;
    assert q * area == fileSize as real;
    if q < 0.5 {
      MulStrictlyMonotone(0.5, q, area);
    } else {
      MulMonotone(0.5, q, area);
    }
  }

  /** The verdict: artifacts exactly when three blocks are flagged, or one
      block with less than half a byte per pixel; confidence never above 100, the block message exactly when more than
      five blocks are flagged, the density message exactly when there is
      less than half a byte per pixel, block message first. */
  lemma ArtifactVerdict(canvas: Canvas, fileSize: nat)
    requires WellFormed(canvas) && canvas.Pixels? && canvas.width > 0 && canvas.height > 0
    ensures var r := ArtifactsOf(canvas, fileSize);
      var blocks := FlaggedBlocks(canvas.data, canvas.width, canvas.height);
      var low := 2 * fileSize < canvas.width * canvas.height;
      && r.Resolved?
      && (r.value.hasArtifacts <==> blocks >= 3 || (low && blocks >= 1))
      && r.value.confidence <= 100
      && (BlockMessage in r.value.details <==> blocks > 5)
      && (DensityMessage in r.value.details <==> low)
      && |r.value.details| <= 2
  {
    PositiveArea(canvas.width, canvas.height);
    LowDensityInIntegers(fileSize, canvas.width, canvas.height);
  }

  /** The verdict against the exact score: it is "more than three tenths"
      everywhere except at exactly three flagged blocks without a low byte
      density, where the rounded sum of the tenths lies above 0.3. A low
      density on its own never reports artifacts. */
  lemma ArtifactThresholds(canvas: Canvas, fileSize: nat)
    requires WellFormed(canvas) && canvas.Pixels? && canvas.width > 0 && canvas.height > 0
    ensures var blocks := FlaggedBlocks(canvas.data, canvas.width, canvas.height);
      var low := 2 * fileSize < canvas.width * canvas.height;
      var hasArtifacts := ArtifactsOf(canvas, fileSize).value.hasArtifacts;
      && (hasArtifacts <==> ArtifactTenths(canvas.data, canvas.width, canvas.height, fileSize) > 3 || (blocks == 3 && !low))
      && (blocks == 0 ==> !hasArtifacts)
  {
    ArtifactVerdict(canvas, fileSize);
  }

  // ------------------------------------------------------ dominant colours

  /** `Math.floor(c / 32) * 32`. */
  function Quantize(c: Byte): (q: Byte)
    ensures q % 32 == 0 && q <= 224 && q <= c < q + 32
  {
    c / 32 * 32
  }

  function QuantizeColor(c: Rgb): Rgb
  {
    Rgb(Quantize(c.r), Quantize(c.g), Quantize(c.b))
  }

  /** The map key of the pixel whose bytes start at offset `i`: its
      quantised red, green and blue. */
  function KeyAt(pixels: seq<Byte>, i: nat): Rgb
    requires i + 2 < |pixels|
  {
    Rgb(Quantize(pixels[i]), Quantize(pixels[i + 1]), Quantize(pixels[i + 2]))
  }

  /** The key of every pixel, in buffer order. */
  function Keys(pixels: seq<Byte>): (ks: seq<Rgb>)
    requires IsRgba(pixels)
    ensures |pixels| == 4 * |ks|
    ensures forall p :: 0 <= p < |ks| ==> ks[p] == KeyAt(pixels, 4 * p)
  {
    seq(|pixels| / 4, p requires 0 <= p < |pixels| / 4 => KeyAt(pixels, 4 * p))
  }

  /** The distinct keys in order of first occurrence: the iteration order of a
      JavaScript `Map` filled by `set`. */
  function FirstOccurrences(ks: seq<Rgb>): (r: seq<Rgb>)
    ensures forall k :: k in r <==> k in ks
    ensures forall i, j :: 0 <= i < j < |r| ==> r[i] != r[j]
  {
    if ks == [] then []
    else
      var init := FirstOccurrences(ks[..|ks| - 1]);
      var last := ks[|ks| - 1];
      assert forall k :: k in ks <==> k in ks[..|ks| - 1] || k == last;
      if last in init then init else init + [last]
  }

  /** The position of the first pixel whose key is `k`. */
  function FirstIndex(ks: seq<Rgb>, k: Rgb): (p: nat)
    requires k in ks
    ensures p < |ks| && ks[p] == k && k !in ks[..p]
  {
    if ks[0] == k then 0
    else
      var p := 1 + FirstIndex(ks[1..], k);
      assert ks[..p] == [ks[0]] + ks[1..][..p - 1];
      p
  }

  /** A position holding `k` with no `k` before it is the first index. */
  lemma FirstIndexUnique(ks: seq<Rgb>, k: Rgb, p: nat)
    requires p < |ks| && ks[p] == k && k !in ks[..p]
    ensures FirstIndex(ks, k) == p
  {
  }

  /** Appending a pixel leaves the first index of an earlier key alone. */
  lemma FirstIndexPrefix(ks: seq<Rgb>, n: nat, k: Rgb)
    requires n <= |ks| && k in ks[..n]
    ensures FirstIndex(ks, k) == FirstIndex(ks[..n], k)
  {
    var p := FirstIndex(ks[..n], k);
    assert ks[..n][..p] == ks[..p];
    FirstIndexUnique(ks, k, p);
  }

  /** The key order of the map is the order in which keys are first seen:
      a key listed earlier first occurs at an earlier pixel. */
  lemma {:induction false} FirstOccurrencesOrder(ks: seq<Rgb>)
    ensures forall i, j :: 0 <= i < j < |FirstOccurrences(ks)| ==>
      FirstIndex(ks, FirstOccurrences(ks)[i]) < FirstIndex(ks, FirstOccurrences(ks)[j])
  {
    if ks != [] {
      var n := |ks| - 1;
      var init := FirstOccurrences(ks[..n]);
      var last := ks[n];
      FirstOccurrencesOrder(ks[..n]);
      var r := FirstOccurrences(ks);
      assert r == if last in init then init else init + [last];
      forall i, j | 0 <= i < j < |r|
        ensures FirstIndex(ks, r[i]) < FirstIndex(ks, r[j])
      {
        FirstIndexPrefix(ks, n, r[i]);
        if j < |init| {
          FirstIndexPrefix(ks, n, r[j]);
        } else {
          assert r[j] == last && last !in ks[..n];
          assert ks[..n] == ks[..|ks| - 1];
          FirstIndexUnique(ks, last, n);
        }
      }
    }
  }

  datatype ColorCount = ColorCount(color: Rgb, frequency: nat)

  function Frequency(c: ColorCount): int
  {
    c.frequency
  }

  /** The map's entries: each key with the number of pixels that have it. */
  function Entries(ks: seq<Rgb>): (es: seq<ColorCount>)
    ensures |es| == |FirstOccurrences(ks)|
    ensures forall i :: 0 <= i < |es| ==>
      es[i].color == FirstOccurrences(ks)[i] && es[i].frequency == multiset(ks)[es[i].color]
  {
    var keys := FirstOccurrences(ks);
    seq(|keys|, i requires 0 <= i < |keys| => ColorCount(keys[i], multiset(ks)[keys[i]]))
  }

  /** `c.toString(16).padStart(2, '0')` for a byte. */
  function Hex2(v: Byte): (h: string)
    ensures |h| == 2 && h[0] == HexDigits[v / 16] && h[1] == HexDigits[v % 16]
    ensures IsHexDigit(h[0]) && IsHexDigit(h[1])
  {
    HexDigitsAreDigits(v / 16);
    HexDigitsAreDigits(v % 16);
    var digits := if v < 16 then [HexDigits[v]] else [HexDigits[v / 16], HexDigits[v % 16]];
    if |digits| < 2 then ['0'] + digits else digits
  }

  /** `#` and two hex digits per channel. */
  function HexColor(c: Rgb): (h: string)
    ensures |h| == 7 && h[0] == '#'
  {
    "#" + Hex2(c.r) + Hex2(c.g) + Hex2(c.b)
  }

  /** Every character after the `#` is a hex digit. */
  lemma HexColorDigits(c: Rgb)
    ensures forall i :: 1 <= i < 7 ==> IsHexDigit(HexColor(c)[i])
  {
    var r, g, b := Hex2(c.r), Hex2(c.g), Hex2(c.b);
    var h := HexColor(c);
    assert h[1] == r[0] && h[2] == r[1] && h[3] == g[0] && h[4] == g[1] && h[5] == b[0] && h[6] == b[1];
  }

  /** The channels appear in the order red, green, blue, two digits each. */
  lemma HexColorChannels(c: Rgb)
    ensures HexColor(c)[1..3] == Hex2(c.r) && HexColor(c)[3..5] == Hex2(c.g) && HexColor(c)[5..7] == Hex2(c.b)
  {
    var r, g, b := Hex2(c.r), Hex2(c.g), Hex2(c.b);
    assert HexColor(c) == "#" + r + g + b;
    assert ("#" + r + g + b)[1..3] == r;
    assert ("#" + r + g + b)[3..5] == g;
    assert ("#" + r + g + b)[5..7] == b;
  }

  /** The colours of the ranked entries, most frequent first, cut at `count`. */
  function TopEntries(ks: seq<Rgb>, count: int): seq<ColorCount>
  {
    SliceTo(Ranking.SortDesc(Entries(ks), Frequency), count)
  }

  function DominantColorsOf(canvas: Canvas, count: int): Settled<seq<string>>
    requires WellFormed(canvas)
  {
    match canvas
    case NoCanvas => Rejected
    case Pixels(width, height, pixels) =>
      if width == 0 || height == 0 then Unsettled
      else
        var top := TopEntries(Keys(pixels), count);
        Resolved(seq(|top|, i requires 0 <= i < |top| => HexColor(top[i].color)))
  }

  /** The counting loop: `colorMap` as a map and its key order. */
  method CountColors(pixels: seq<Byte>) returns (colorMap: map<Rgb, nat>, order: seq<Rgb>)
    requires IsRgba(pixels)
    ensures order == FirstOccurrences(Keys(pixels))
    ensures forall k :: k in colorMap <==> k in order
    ensures forall k :: k in colorMap ==> colorMap[k] == multiset(Keys(pixels))[k]
  {
    ghost var ks := Keys(pixels);
    ghost var n := 0;
    colorMap := map[];
    order := [];
    var i := 0;
    while i < |pixels|
      invariant i == 4 * n && n <= |ks|
      invariant order == FirstOccurrences(ks[..n])
      invariant forall k :: k in colorMap <==> k in order
      invariant forall k :: k in colorMap ==> colorMap[k] == multiset(ks[..n])[k]
    {
      var key := KeyAt(pixels, i);
      assert ks[..n + 1] == ks[..n] + [key];
      colorMap, order := Tally(colorMap, order, key, ks[..n]);
      i := i + 4;
      n := n + 1;
    }
    assert ks[..n] == ks;
  }

  /** `colorMap.set(key, (colorMap.get(key) || 0) + 1)`, with the key order
      the map keeps, after the keys `seen`. */
  method Tally(colorMap: map<Rgb, nat>, order: seq<Rgb>, key: Rgb, ghost seen: seq<Rgb>)
    returns (colorMap': map<Rgb, nat>, order': seq<Rgb>)
    requires order == FirstOccurrences(seen)
    requires forall k :: k in colorMap <==> k in order
    requires forall k :: k in colorMap ==> colorMap[k] == multiset(seen)[k]
    ensures order' == FirstOccurrences(seen + [key])
    ensures forall k :: k in colorMap' <==> k in order'
    ensures forall k :: k in colorMap' ==> colorMap'[k] == multiset(seen + [key])[k]
  {
    assert (seen + [key])[..|seen|] == seen;
    assert multiset(seen + [key]) == multiset(seen) + multiset{key};
    if key in colorMap {
      colorMap' := colorMap[key := colorMap[key] + 1];
      order' := order;
    } else {
      colorMap' := colorMap[key := 1];
      order' := order + [key];
    }
  }

  /** `extractDominantColors(file, count)` once the image is on the canvas. */
  method DominantColors(canvas: Canvas, count: int) returns (r: Settled<seq<string>>)
    requires WellFormed(canvas)
    ensures r == DominantColorsOf(canvas, count)
  {
    if canvas.NoCanvas? {
      return Rejected;
    }
    if canvas.width == 0 || canvas.height == 0 {
      return Unsettled;
    }
    var pixels := canvas.data;
    var colorMap, order := CountColors(pixels);
    var entries := seq(|order|, i requires 0 <= i < |order| => ColorCount(order[i], colorMap[order[i]]));
    ghost var spec := Entries(Keys(pixels));
    assert |entries| == |spec|;
    forall i | 0 <= i < |entries|
      ensures entries[i] == spec[i]
    {
    }
    assert entries == spec;
    var top := SliceTo(Ranking.SortDesc(entries, Frequency), count);
    return Resolved(seq(|top|, i requires 0 <= i < |top| => HexColor(top[i].color)));
  }

  // -------------------------------------------------------------- lemmas

  function TotalFrequency(es: seq<ColorCount>): nat
  {
    if es == [] then 0 else es[0].frequency + TotalFrequency(es[1..])
  }

  function SumOver(keys: seq<Rgb>, m: multiset<Rgb>): nat
  {
    if keys == [] then 0 else m[keys[0]] + SumOver(keys[1..], m)
  }

  lemma {:induction false} SumOverAppend(keys: seq<Rgb>, k: Rgb, m: multiset<Rgb>)
    ensures SumOver(keys + [k], m) == SumOver(keys, m) + m[k]
  {
    if keys != [] {
      assert (keys + [k])[1..] == keys[1..] + [k];
      SumOverAppend(keys[1..], k, m);
    }
  }

  /** Adding one occurrence of `x` adds one to the sum over distinct keys
      when `x` is among them, and nothing otherwise. */
  lemma {:induction false} SumOverAdd(keys: seq<Rgb>, m: multiset<Rgb>, x: Rgb)
    requires forall i, j :: 0 <= i < j < |keys| ==> keys[i] != keys[j]
    ensures SumOver(keys, m + multiset{x}) == SumOver(keys, m) + (if x in keys then 1 else 0)
  {
    if keys != [] {
      SumOverAdd(keys[1..], m, x);
      if keys[0] == x {
        assert x !in keys[1..];
      }
    }
  }

  /** The per-key counts add up to the number of pixels. */
  lemma {:induction false} CountsAddUp(ks: seq<Rgb>)
    ensures SumOver(FirstOccurrences(ks), multiset(ks)) == |ks|
  {
    if ks != [] {
      var init := ks[..|ks| - 1];
      var last := ks[|ks| - 1];
      assert ks == init + [last];
      CountsAddUp(init);
      var keys := FirstOccurrences(init);
      SumOverAdd(keys, multiset(init), last);
      if last !in keys {
        SumOverAppend(keys, last, multiset(ks));
        assert multiset(init)[last] == 0;
      }
    }
  }

  lemma {:induction false} TotalFrequencyIsSumOver(ks: seq<Rgb>, keys: seq<Rgb>, es: seq<ColorCount>)
    requires |es| == |keys|
    requires forall i :: 0 <= i < |es| ==> es[i].color == keys[i] && es[i].frequency == multiset(ks)[keys[i]]
    ensures TotalFrequency(es) == SumOver(keys, multiset(ks))
  {
    if es != [] {
      TotalFrequencyIsSumOver(ks, keys[1..], es[1..]);
    }
  }

  /** Every pixel is counted once: the entries' frequencies sum to the pixel count. */
  lemma FrequenciesSumToPixels(pixels: seq<Byte>)
    requires IsRgba(pixels)
    ensures TotalFrequency(Entries(Keys(pixels))) == |pixels| / 4
  {
    var ks := Keys(pixels);
    TotalFrequencyIsSumOver(ks, FirstOccurrences(ks), Entries(ks));
    CountsAddUp(ks);
  }

  /** Every quantised channel is a multiple of 32 in [0, 224]. */
  lemma QuantizedChannels(pixels: seq<Byte>, p: nat)
    requires IsRgba(pixels) && p < |pixels| / 4
    ensures var k := Keys(pixels)[p];
      && k == QuantizeColor(PixelAt(pixels, p))
      && k.r % 32 == 0 && k.g % 32 == 0 && k.b % 32 == 0
      && k.r <= 224 && k.g <= 224 && k.b <= 224
  {
  }

  /** The result: `slice(0, count)` of the ranked entries, so `min(count, n)`
      of the `n` distinct keys for a non-negative `count` and the first
      `n + count` for a negative one; ranked by non-increasing frequency,
      the listed ones at least as frequent as any left out, each colour
      once. */
  lemma DominantColorsProperties(ks: seq<Rgb>, count: int)
    ensures var top := TopEntries(ks, count);
      var sorted := Ranking.SortDesc(Entries(ks), Frequency);
      && (count >= 0 ==> |top| == Min(count, |FirstOccurrences(ks)|))
      && (count < 0 ==> |top| == Max(0, |FirstOccurrences(ks)| + count))
      && |top| <= |FirstOccurrences(ks)|
      && Ranking.SortedDesc(top, Frequency)
      && (forall i, j :: 0 <= i < |top| <= j < |sorted| ==> top[i].frequency >= sorted[j].frequency)
      && (forall e :: e in top ==> e in Entries(ks))
      && (forall i, j :: 0 <= i < j < |top| ==> top[i].color != top[j].color)
  {
    var sorted := Ranking.SortDesc(Entries(ks), Frequency);
    Ranking.SortDescFacts(Entries(ks), Frequency);
    Ranking.SortDescMembers(Entries(ks), Frequency);
    var top := TopEntries(ks, count);
    forall e | e in top
      ensures e in Entries(ks)
    {
      var i :| 0 <= i < |top| && top[i] == e;
      assert sorted[i] == e;
    }
    TopColorsDistinct(ks, count);
  }

  /** No colour is listed twice among the top entries. */
  lemma TopColorsDistinct(ks: seq<Rgb>, count: int)
    ensures var top := TopEntries(ks, count);
      forall i, j :: 0 <= i < j < |top| ==> top[i].color != top[j].color
  {
    var sorted := Ranking.SortDesc(Entries(ks), Frequency);
    Ranking.SortDescFacts(Entries(ks), Frequency);
    Ranking.SortDescMembers(Entries(ks), Frequency);
    var top := TopEntries(ks, count);
    EntriesDistinct(ks);
    DistinctPermutation(Entries(ks), sorted);
    forall i, j | 0 <= i < j < |top|
      ensures top[i].color != top[j].color
    {
      assert top[i] == sorted[i] && top[j] == sorted[j];
      EntryDeterminedByColor(ks, sorted[i], sorted[j]);
    }
  }

  /** The entries repeat no colour, so they repeat no entry. */
  lemma EntriesDistinct(ks: seq<Rgb>)
    ensures Distinct(Entries(ks))
  {
  }

  /** Two entries of the map with the same colour are the same entry. */
  lemma EntryDeterminedByColor(ks: seq<Rgb>, e: ColorCount, f: ColorCount)
    requires e in Entries(ks) && f in Entries(ks)
    ensures e.color == f.color ==> e == f
  {
  }

  /** The hex strings name the ranked colours, in rank order. */
  lemma DominantColorsFormat(canvas: Canvas, count: int)
    requires WellFormed(canvas) && canvas.Pixels? && canvas.width > 0 && canvas.height > 0
    ensures var r := DominantColorsOf(canvas, count);
      var top := TopEntries(Keys(canvas.data), count);
      && r.Resolved? && |r.value| == |top|
      && forall i :: 0 <= i < |top| ==>
           && r.value[i] == HexColor(top[i].color)
           && |r.value[i]| == 7 && r.value[i][0] == '#'
           && (forall j :: 1 <= j < 7 ==> IsHexDigit(r.value[i][j]))
  {
    var top := TopEntries(Keys(canvas.data), count);
    forall i | 0 <= i < |top| {
      HexColorDigits(top[i].color);
    }
  }
}
