/** The colour-analysis panel's RGB histogram (app/components/ColorHistogram.tsx):
    the image is drawn on a canvas of at most 200×200 pixels, one 256-bin
    histogram per colour channel is filled by a single pass over the RGBA
    bytes, the bins are scaled so that the largest bin of all three channels
    reads 100, and every fourth bin is drawn as a bar. */
module ColorHistogram {
  import opened Common

  const Bins: nat := 256
  const MaxSide: nat := 200

  /** The number of pixels on the canvas an image of `width`×`height` is drawn
      on: each side is capped at 200. */
  function CanvasPixels(width: nat, height: nat): nat
  {
    Min(width, MaxSide) * Min(height, MaxSide)
  }

  /** Pixel `p` has the value `v` in channel `ch` (0 red, 1 green, 2 blue). */
  function ChannelIs(pixels: seq<Byte>, ch: nat, v: int): nat -> bool
  {
    (p: nat) => 4 * p + ch < |pixels| && pixels[4 * p + ch] == v
  }

  /** The bins of channel `ch` after the first `n` pixels have been counted:
      bin `v` holds how many of them have the value `v` in that channel. */
  function Histogram(pixels: seq<Byte>, ch: nat, n: nat): (h: seq<nat>)
    ensures |h| == Bins
  {
    seq(Bins, v requires 0 <= v < Bins => CountUpTo(n, ChannelIs(pixels, ch, v)))
  }

  /** The single pass over the canvas bytes: one increment per pixel in each
      of the red, green and blue histograms; the alpha byte is skipped. */
  method ChannelHistograms(pixels: seq<Byte>) returns (rHist: seq<nat>, gHist: seq<nat>, bHist: seq<nat>)
    requires IsRgba(pixels)
    ensures rHist == Histogram(pixels, 0, |pixels| / 4)
    ensures gHist == Histogram(pixels, 1, |pixels| / 4)
    ensures bHist == Histogram(pixels, 2, |pixels| / 4)
  {
    var r := new nat[Bins](_ => 0);
    var g := new nat[Bins](_ => 0);
    var b := new nat[Bins](_ => 0);
    var i := 0;
    while i < |pixels|
      invariant 0 <= i <= |pixels| && i % 4 == 0
      invariant r[..] == Histogram(pixels, 0, i / 4)
      invariant g[..] == Histogram(pixels, 1, i / 4)
      invariant b[..] == Histogram(pixels, 2, i / 4)
      decreases |pixels| - i
    {
      Count(r, pixels, 0, i / 4);
      Count(g, pixels, 1, i / 4);
      Count(b, pixels, 2, i / 4);
      i := i + 4;
    }
    rHist, gHist, bHist := r[..], g[..], b[..];
  }

  /** `hist[pixels[4 * n + ch]]++`: counts pixel `n` into the histogram of
      channel `ch`. */
  method Count(hist: array<nat>, pixels: seq<Byte>, ch: nat, n: nat)
    requires 4 * n + ch < |pixels|
    requires hist[..] == Histogram(pixels, ch, n)
    modifies hist
    ensures hist[..] == Histogram(pixels, ch, n + 1)
  {
    var v := pixels[4 * n + ch];
    hist[v] := hist[v] + 1;
    forall u | 0 <= u < Bins
      ensures hist[u] == CountUpTo(n + 1, ChannelIs(pixels, ch, u))
    {
    }
  }

  /** The sum of a list of bins. */
  function Total(h: seq<nat>): nat
  {
    if h == [] then 0 else Total(h[..|h| - 1]) + h[|h| - 1]
  }

  /** Counting pixel `n` adds one to exactly the bin of its value: among the
      first `k` bins, one more when that value is below `k`. */
  lemma {:induction false} TotalStep(pixels: seq<Byte>, ch: nat, n: nat, k: nat)
    requires 4 * n + ch < |pixels| && k <= Bins
    ensures Total(Histogram(pixels, ch, n + 1)[..k])
            == Total(Histogram(pixels, ch, n)[..k]) + (if pixels[4 * n + ch] < k then 1 else 0)
  {
    if k > 0 {
      var after := Histogram(pixels, ch, n + 1);
      var before := Histogram(pixels, ch, n);
      TotalStep(pixels, ch, n, k - 1);
      assert after[..k][..k - 1] == after[..k - 1];
      assert before[..k][..k - 1] == before[..k - 1];
      assert after[k - 1] == before[k - 1] + (if pixels[4 * n + ch] == k - 1 then 1 else 0);
    }
  }

  /** Every channel histogram sums to the number of pixels counted: each pixel
      lands in exactly one bin of each channel. */
  lemma {:induction false} HistogramSum(pixels: seq<Byte>, ch: nat, n: nat)
    requires ch < 3 && 4 * n <= |pixels|
    ensures Total(Histogram(pixels, ch, n)) == n
  {
    if n == 0 {
      var h := Histogram(pixels, ch, 0);
      AllZeroTotal(h);
    } else {
      HistogramSum(pixels, ch, n - 1);
      TotalStep(pixels, ch, n - 1, Bins);
      assert Histogram(pixels, ch, n)[..Bins] == Histogram(pixels, ch, n);
      assert Histogram(pixels, ch, n - 1)[..Bins] == Histogram(pixels, ch, n - 1);
    }
  }

  lemma {:induction false} AllZeroTotal(h: seq<nat>)
    requires forall v :: 0 <= v < |h| ==> h[v] == 0
    ensures Total(h) == 0
  {
    if h != [] {
      AllZeroTotal(h[..|h| - 1]);
    }
  }

  /** Two predicates that agree on the first `n` indices count the same. */
  lemma {:induction false} CountUpToCongruent(n: nat, f: nat -> bool, g: nat -> bool)
    requires forall p :: 0 <= p < n ==> f(p) == g(p)
    ensures CountUpTo(n, f) == CountUpTo(n, g)
  {
    if n > 0 {
      CountUpToCongruent(n - 1, f, g);
    }
  }

  lemma {:induction false} CountUpToAtMost(n: nat, f: nat -> bool)
    ensures CountUpTo(n, f) <= n
  {
    if n > 0 {
      CountUpToAtMost(n - 1, f);
    }
  }

  /** The alpha bytes are never read: buffers that differ only there give the
      same three histograms. */
  lemma AlphaIgnored(pixels: seq<Byte>, other: seq<Byte>, ch: nat)
    requires |pixels| == |other| && ch < 3
    requires forall i :: 0 <= i < |pixels| && i % 4 != 3 ==> pixels[i] == other[i]
    ensures Histogram(pixels, ch, |pixels| / 4) == Histogram(other, ch, |other| / 4)
  {
    forall v | 0 <= v < Bins
      ensures Histogram(pixels, ch, |pixels| / 4)[v] == Histogram(other, ch, |other| / 4)[v]
    {
      forall p | 0 <= p < |pixels| / 4
        ensures ChannelIs(pixels, ch, v)(p) == ChannelIs(other, ch, v)(p)
      {
        assert (4 * p + ch) % 4 == ch;
      }
      CountUpToCongruent(|pixels| / 4, ChannelIs(pixels, ch, v), ChannelIs(other, ch, v));
    }
  }

  /** No bin can exceed the 40000 pixels of the largest canvas. */
  lemma BinsBounded(pixels: seq<Byte>, width: nat, height: nat, ch: nat)
    requires |pixels| == 4 * CanvasPixels(width, height)
    ensures forall v :: 0 <= v < Bins ==> Histogram(pixels, ch, |pixels| / 4)[v] <= 40000
  {
    var n := |pixels| / 4;
    var w, h := Min(width, MaxSide), Min(height, MaxSide);
    assert n == w * h;
    assert w * h <= 200 * h <= 200 * 200 by {
      MulMonotoneNat(w, 200, h);
      MulMonotoneNat(h, 200, 200);
    }
    forall v | 0 <= v < Bins
      ensures Histogram(pixels, ch, n)[v] <= 40000
    {
      CountUpToAtMost(n, ChannelIs(pixels, ch, v));
    }
  }

  lemma MulMonotoneNat(a: nat, b: nat, c: nat)
    requires a <= b
    ensures a * c <= b * c
  {
  }

  // ------------------------------------------------------------ normalisation

  /** `(v / max) * 100` for a positive `max`. */
  function Scale(v: nat, max: nat): real
    requires max > 0
  {
    (v as real / max as real) * 100.0
  }

  /** `Math.max(...rHist, ...gHist, ...bHist)`. */
  function Largest(rHist: seq<nat>, gHist: seq<nat>, bHist: seq<nat>): (m: nat)
    requires |rHist| == Bins && |gHist| == Bins && |bHist| == Bins
    ensures m in rHist + gHist + bHist
    ensures forall x :: x in rHist + gHist + bHist ==> x <= m
  {
    var all: seq<int> := rHist + gHist + bHist;
    assert all[0] in all && all[0] >= 0;
    MaxOf(all)
  }

  datatype Scaled = Scaled(r: seq<real>, g: seq<real>, b: seq<real>)

  /** The scaled histogram, or `None` when no pixel was counted. Nothing is
      counted only for a 0 by 0 canvas, and there `getImageData` throws
      inside the load handler before any division, so the histogram is never
      set; `None` stands for that throw (were it reached, every scaled value
      would be the NaN of `0 / 0`). */
  function Normalise(rHist: seq<nat>, gHist: seq<nat>, bHist: seq<nat>): (s: Option<Scaled>)
    requires |rHist| == Bins && |gHist| == Bins && |bHist| == Bins
    ensures s.None? <==> Largest(rHist, gHist, bHist) == 0
  {
    var max := Largest(rHist, gHist, bHist);
    if max == 0 then None
    else Some(Scaled(
      seq(Bins, v requires 0 <= v < Bins => Scale(rHist[v], max)),
      seq(Bins, v requires 0 <= v < Bins => Scale(gHist[v], max)),
      seq(Bins, v requires 0 <= v < Bins => Scale(bHist[v], max))))
  }

  /** Scaling by a positive maximum keeps every value in [0,100], maps the
      maximum itself to 100 and keeps the order between bins. */
  lemma ScaleMeaning(v: nat, w: nat, max: nat)
    requires 0 < max && v <= max && w <= max
    ensures 0.0 <= Scale(v, max) <= 100.0
    ensures v == max ==> Scale(v, max) == 100.0
    ensures v <= w <==> Scale(v, max) <= Scale(w, max)
  {
    var m := max as real;
    DivOrder(v as real, w as real, m);
    DivOrder(0.0, v as real, m);
    DivOrder(v as real, m, m);
    DivSelf(m);
  }

  /** The histogram of a non-empty canvas scales into [0,100]; a bin holding
      the largest count of all three channels reads exactly 100, and the
      heights keep the order of the counts. */
  lemma NormaliseMeaning(rHist: seq<nat>, gHist: seq<nat>, bHist: seq<nat>, v: nat, w: nat)
    requires |rHist| == Bins && |gHist| == Bins && |bHist| == Bins
    requires Largest(rHist, gHist, bHist) > 0 && v < Bins && w < Bins
    ensures var s := Normalise(rHist, gHist, bHist).value;
      && 0.0 <= s.r[v] <= 100.0 && 0.0 <= s.g[v] <= 100.0 && 0.0 <= s.b[v] <= 100.0
      && (rHist[v] == Largest(rHist, gHist, bHist) ==> s.r[v] == 100.0)
      && (gHist[v] == Largest(rHist, gHist, bHist) ==> s.g[v] == 100.0)
      && (bHist[v] == Largest(rHist, gHist, bHist) ==> s.b[v] == 100.0)
      && (rHist[v] <= rHist[w] <==> s.r[v] <= s.r[w])
  {
    var all := rHist + gHist + bHist;
    var max := Largest(rHist, gHist, bHist);
    assert all[v] == rHist[v] && all[w] == rHist[w];
    assert all[Bins + v] == gHist[v] && all[2 * Bins + v] == bHist[v];
    assert all[v] in all && all[w] in all && all[Bins + v] in all && all[2 * Bins + v] in all;
    ScaleMeaning(rHist[v], rHist[w], max);
    ScaleMeaning(gHist[v], gHist[v], max);
    ScaleMeaning(bHist[v], bHist[v], max);
  }

  /** The largest bin of the counted histograms is 0 exactly when the canvas
      has no pixels, so `Normalise` gives `None` only for the empty canvas,
      the one on which the source's `getImageData` throws. */
  lemma EmptyCanvasHasNoHistogram(pixels: seq<Byte>)
    requires IsRgba(pixels)
    ensures var n := |pixels| / 4;
      Largest(Histogram(pixels, 0, n), Histogram(pixels, 1, n), Histogram(pixels, 2, n)) == 0
      <==> |pixels| == 0
  {
    var n := |pixels| / 4;
    var r := Histogram(pixels, 0, n);
    var g := Histogram(pixels, 1, n);
    var b := Histogram(pixels, 2, n);
    HistogramSum(pixels, 0, n);
    if Largest(r, g, b) == 0 {
      forall v | 0 <= v < |r|
        ensures r[v] == 0
      {
        assert (r + g + b)[v] == r[v];
        assert r[v] in r + g + b;
      }
      AllZeroTotal(r);
    }
  }

  // ------------------------------------------------------------------ display

  /** `values.filter((_, index) => index % 4 === 0)`, with `index` the
      position of the head of `s` in the whole list. */
  function EveryFourthFrom(s: seq<real>, index: nat): (r: seq<real>)
    ensures |r| <= |s|
  {
    if s == [] then []
    else (if index % 4 == 0 then [s[0]] else []) + EveryFourthFrom(s[1..], index + 1)
  }

  function EveryFourth(s: seq<real>): seq<real>
  {
    EveryFourthFrom(s, 0)
  }

  /** Only the position modulo 4 matters. */
  lemma {:induction false} EveryFourthFromMod(s: seq<real>, index: nat)
    ensures EveryFourthFrom(s, index) == EveryFourthFrom(s, index % 4)
  {
    if s != [] {
      EveryFourthFromMod(s[1..], index + 1);
      EveryFourthFromMod(s[1..], index % 4 + 1);
      assert (index + 1) % 4 == (index % 4 + 1) % 4;
    }
  }

  /** Four values further on, the pattern repeats. */
  lemma FourStep(s: seq<real>)
    requires |s| >= 4
    ensures EveryFourth(s) == [s[0]] + EveryFourth(s[4..])
  {
    assert EveryFourthFrom(s, 0) == [s[0]] + EveryFourthFrom(s[1..], 1);
    assert EveryFourthFrom(s[1..], 1) == EveryFourthFrom(s[2..], 2) by {
      assert s[1..][1..] == s[2..];
    }
    assert EveryFourthFrom(s[2..], 2) == EveryFourthFrom(s[3..], 3) by {
      assert s[2..][1..] == s[3..];
    }
    assert EveryFourthFrom(s[3..], 3) == EveryFourthFrom(s[4..], 4) by {
      assert s[3..][1..] == s[4..];
    }
    EveryFourthFromMod(s[4..], 4);
  }

  /** The kept values are the bins 0, 4, 8, ...: a list of `n` values gives
      `ceil(n / 4)` bars, so a 256-bin channel gives 64. */
  lemma {:induction false} EveryFourthMeaning(s: seq<real>)
    ensures |EveryFourth(s)| == (|s| + 3) / 4
    ensures forall i :: 0 <= i < |EveryFourth(s)| ==> EveryFourth(s)[i] == s[4 * i]
    ensures |s| == Bins ==> |EveryFourth(s)| == 64
    decreases |s|
  {
    if |s| >= 4 {
      FourStep(s);
      EveryFourthMeaning(s[4..]);
      var r := EveryFourth(s);
      forall i | 1 <= i < |r|
        ensures r[i] == s[4 * i]
      {
        assert r[i] == EveryFourth(s[4..])[i - 1];
      }
    } else if s != [] {
      EmptyBeforeNextMultiple(s[1..], 1);
      assert EveryFourth(s) == [s[0]];
    }
  }

  /** Fewer than `4 - index % 4` values, starting after a multiple of 4,
      contain no kept position. */
  lemma {:induction false} EmptyBeforeNextMultiple(s: seq<real>, index: nat)
    requires 1 <= index <= 3 && |s| + index <= 4
    ensures EveryFourthFrom(s, index) == []
    decreases |s|
  {
    if |s| > 1 {
      EmptyBeforeNextMultiple(s[1..], index + 1);
    }
  }
}
