/** The average hash of lib/hash.ts: the image drawn on an 8x8 canvas,
    each pixel turned to gray, one bit per pixel saying whether it is
    brighter than the mean, and the bit string written in hexadecimal,
    four bits per digit. The canvas work is not modelled: the method takes
    the canvas bytes. */
module PerceptualHash {
  import opened Common

  /** r + g + b of pixel `p`; the alpha byte is not read. */
  function Intensity(pixels: seq<Byte>, p: nat): nat
    requires 4 * p + 3 <= |pixels|
  {
    pixels[4 * p] as int + pixels[4 * p + 1] as int + pixels[4 * p + 2] as int
  }

  function Gray(pixels: seq<Byte>, p: nat): real
    requires 4 * p + 3 <= |pixels|
  {
    Intensity(pixels, p) as real / 3.0
  }

  /** One gray value per whole pixel. */
  function Grays(pixels: seq<Byte>): (g: seq<real>)
    requires IsRgba(pixels)
    ensures |g| == |pixels| / 4
  {
    seq(|pixels| / 4, p requires 0 <= p < |pixels| / 4 => Gray(pixels, p))
  }

  /** Left-to-right running sum, as the loop accumulates it. */
  function SumReal(s: seq<real>): real
  {
    if s == [] then 0.0 else SumReal(s[..|s| - 1]) + s[|s| - 1]
  }

  function IntensitySum(pixels: seq<Byte>, n: nat): nat
    requires 4 * n <= |pixels|
  {
    if n == 0 then 0 else IntensitySum(pixels, n - 1) + Intensity(pixels, n - 1)
  }

  function Average(pixels: seq<Byte>): real
    requires IsRgba(pixels) && |pixels| > 0
  {
    SumReal(Grays(pixels)) / (|pixels| / 4) as real
  }

  /** The hash bits: '1' exactly for the pixels strictly brighter than the mean. */
  function HashBits(pixels: seq<Byte>): (bits: string)
    requires IsRgba(pixels)
    ensures |bits| == |pixels| / 4
  {
    if |pixels| == 0 then []
    else
      var avg := Average(pixels);
      seq(|pixels| / 4, p requires 0 <= p < |pixels| / 4 => if Gray(pixels, p) > avg then '1' else '0')
  }

  // ------------------------------------------------------------ hex digits

  function HexDigit(v: nat): char
    requires v < 16
  {
    HexDigits[v]
  }

  function Pow2(k: nat): nat
  {
    if k == 0 then 1 else 2 * Pow2(k - 1)
  }

  function Bit(c: char): nat
  {
    if c == '1' then 1 else 0
  }

  /** `parseInt(nibble, 2)`. */
  function BinValue(s: string): (v: nat)
    ensures v < Pow2(|s|)
  {
    if s == [] then 0 else Bit(s[0]) * Pow2(|s| - 1) + BinValue(s[1..])
  }

  /** The hex string: one digit per group of four bits, the last group
      possibly shorter, as `substr(i, 4)` cuts it. */
  function HexString(bits: string): (hex: string)
    decreases |bits|
  {
    if bits == [] then []
    else
      var m := Min(4, |bits|);
      assert Pow2(m) <= 16 by {
        assert Pow2(1) == 2 && Pow2(2) == 4 && Pow2(3) == 8 && Pow2(4) == 16;
      }
      [HexDigit(BinValue(bits[..m]))] + HexString(bits[m..])
  }

  /** The hash has one hex digit per started group of four bits. */
  lemma {:induction false} HexStringLength(bits: string)
    ensures |HexString(bits)| == (|bits| + 3) / 4
    decreases |bits|
  {
    if bits != [] {
      HexStringLength(bits[Min(4, |bits|)..]);
    }
  }

  /** Digits of a whole-nibble prefix are not affected by what follows. */
  lemma {:induction false} HexStringAppend(a: string, b: string)
    requires |a| % 4 == 0
    ensures HexString(a + b) == HexString(a) + HexString(b)
    decreases |a|
  {
    if a != [] {
      assert (a + b)[..4] == a[..4];
      assert (a + b)[4..] == a[4..] + b;
      HexStringAppend(a[4..], b);
    } else {
      assert a + b == b;
    }
  }

  /** Per-step form of the loop that writes the hex digits. */
  lemma HexStringStep(bits: string, i: nat)
    requires i % 4 == 0 && i < |bits|
    ensures Pow2(|bits[i..Min(i + 4, |bits|)]|) <= 16
    ensures HexString(bits[..Min(i + 4, |bits|)])
            == HexString(bits[..i]) + [HexDigit(BinValue(bits[i..Min(i + 4, |bits|)]))]
  {
    var e := Min(i + 4, |bits|);
    var c := bits[i..e];
    assert bits[..e] == bits[..i] + c;
    HexStringAppend(bits[..i], c);
    HexStringShort(c);
  }

  /** A group of at most four bits is one hex digit. */
  lemma HexStringShort(c: string)
    requires 0 < |c| <= 4
    ensures Pow2(|c|) <= 16
    ensures HexString(c) == [HexDigit(BinValue(c))]
  {
    assert Pow2(1) == 2 && Pow2(2) == 4 && Pow2(3) == 8 && Pow2(4) == 16;
    assert c[..Min(4, |c|)] == c && c[Min(4, |c|)..] == [];
  }

  // ----------------------------------------------------------- the method

  /** `calculatePerceptualHash` from the canvas bytes on: the gray loop,
      the mean, the bit loop and the hex loop. */
  method PerceptualHashHex(pixels: seq<Byte>) returns (hexHash: string)
    requires IsRgba(pixels)
    ensures hexHash == HexString(HashBits(pixels))
  {
    var grayscale, sum := GrayPass(pixels);
    // With no pixels JavaScript divides 0 by 0 here, but then no bit is produced.
    var average := if |grayscale| > 0 then sum / |grayscale| as real else 0.0;
    var hash := BitPass(grayscale, average);
    assert hash == HashBits(pixels);
    hexHash := HexPass(hash);
  }

  /** The gray loop: one gray value per pixel and their running sum. */
  method GrayPass(pixels: seq<Byte>) returns (grayscale: seq<real>, sum: real)
    requires IsRgba(pixels)
    ensures grayscale == Grays(pixels) && sum == SumReal(Grays(pixels))
  {
    sum := 0.0;
    grayscale := [];
    var i := 0;
    while i < |pixels|
      invariant 0 <= i <= |pixels| && i % 4 == 0
      invariant grayscale == Grays(pixels)[..i / 4]
      invariant sum == SumReal(grayscale)
    {
      var gray := (pixels[i] as int + pixels[i + 1] as int + pixels[i + 2] as int) as real / 3.0;
      assert gray == Grays(pixels)[i / 4];
      assert Grays(pixels)[..i / 4 + 1] == grayscale + [gray];
      grayscale := grayscale + [gray];
      sum := sum + gray;
      i := i + 4;
    }
    assert grayscale == Grays(pixels);
  }

  /** The bit loop: '1' for every gray value strictly above `average`. */
  method BitPass(grayscale: seq<real>, average: real) returns (hash: string)
    ensures |hash| == |grayscale|
    ensures forall k :: 0 <= k < |hash| ==> (hash[k] == '1' <==> grayscale[k] > average)
    ensures forall k :: 0 <= k < |hash| ==> hash[k] == '0' || hash[k] == '1'
  {
    hash := "";
    var k := 0;
    while k < |grayscale|
      invariant 0 <= k <= |grayscale| && |hash| == k
      invariant forall m :: 0 <= m < k ==> hash[m] == (if grayscale[m] > average then '1' else '0')
    {
      hash := hash + [if grayscale[k] > average then '1' else '0'];
      k := k + 1;
    }
  }

  /** The hex loop: one digit per group of four bits. */
  method HexPass(hash: string) returns (hexHash: string)
    ensures hexHash == HexString(hash)
  {
    hexHash := "";
    var j := 0;
    ghost var digits := 0;
    while j < |hash|
      invariant j == 4 * digits && j <= |hash| + 3
      invariant hexHash == HexString(hash[..Min(j, |hash|)])
    {
      var nibble := hash[j..Min(j + 4, |hash|)];
      assert j % 4 == 0;
      HexStringStep(hash, j);
      hexHash := hexHash + [HexDigit(BinValue(nibble))];
      assert hexHash == HexString(hash[..Min(j + 4, |hash|)]);
      j := j + 4;
      digits := digits + 1;
    }
    assert hash[..Min(j, |hash|)] == hash;
  }

  // -------------------------------------------------------------- lemmas

  /** A bit is '1' exactly when the pixel is strictly brighter than the
      mean; a pixel equal to the mean gives '0'. */
  lemma BitMeansAboveAverage(pixels: seq<Byte>, p: nat)
    requires IsRgba(pixels) && p < |pixels| / 4
    ensures HashBits(pixels)[p] == '1' <==> Gray(pixels, p) > Average(pixels)
    ensures Gray(pixels, p) == Average(pixels) ==> HashBits(pixels)[p] == '0'
  {
  }

  lemma {:induction false} SumOfGrays(pixels: seq<Byte>, n: nat)
    requires IsRgba(pixels) && n <= |pixels| / 4
    ensures SumReal(Grays(pixels)[..n]) == IntensitySum(pixels, n) as real / 3.0
  {
    if n > 0 {
      SumOfGrays(pixels, n - 1);
      assert Grays(pixels)[..n][..n - 1] == Grays(pixels)[..n - 1];
    }
  }

  /** The comparison with the mean can be done in integers:
      gray_p > mean exactly when n * (r+g+b)_p > the sum of all r+g+b. */
  lemma AboveMeanInIntegers(pixels: seq<Byte>, p: nat)
    requires IsRgba(pixels) && p < |pixels| / 4
    ensures Gray(pixels, p) > Average(pixels)
            <==> (|pixels| / 4) * Intensity(pixels, p) > IntensitySum(pixels, |pixels| / 4)
  {
    AverageInIntegers(pixels);
    MeanComparison(Gray(pixels, p), Average(pixels), Intensity(pixels, p),
                   IntensitySum(pixels, |pixels| / 4), |pixels| / 4);
  }

  /** Hence each hash bit is an integer comparison. */
  lemma BitInIntegers(pixels: seq<Byte>, p: nat)
    requires IsRgba(pixels) && p < |pixels| / 4
    ensures HashBits(pixels)[p] == '1'
            <==> (|pixels| / 4) * Intensity(pixels, p) > IntensitySum(pixels, |pixels| / 4)
  {
    AboveMeanInIntegers(pixels, p);
    BitMeansAboveAverage(pixels, p);
  }

  /** The mean gray value is the integer intensity sum over 3n. */
  lemma AverageInIntegers(pixels: seq<Byte>)
    requires IsRgba(pixels) && |pixels| > 0
    ensures Average(pixels) == (IntensitySum(pixels, |pixels| / 4) as real / 3.0) / (|pixels| / 4) as real
  {
    var n := |pixels| / 4;
    SumOfGrays(pixels, n);
    assert Grays(pixels)[..n] == Grays(pixels);
  }

  lemma ProductAsReal(a: nat, b: nat)
    ensures a as real * b as real == (a * b) as real
  {
  }

  /** v/3 > (t/3)/n exactly when n*v > t, for n > 0. */
  lemma MeanComparison(gray: real, mean: real, v: nat, t: nat, n: nat)
    requires n > 0 && gray == v as real / 3.0 && mean == (t as real / 3.0) / n as real
    ensures gray > mean <==> n * v > t
  {
    var x := v as real;
    var a := (t as real / 3.0) / n as real;
    assert a * n as real == t as real / 3.0;
    assert gray > a <==> n as real * gray > n as real * a;
    assert n as real * gray == (n as real * x) / 3.0;
    ProductAsReal(n, v);
  }

  lemma Distribute(a: int, b: int, c: int)
    ensures a * (b + c) == a * b + a * c && (b + c) * a == b * a + c * a
  {
  }

  /** Summing "n * v_p > T" over the first m pixels. */
  lemma {:induction false} NotAllAboveMean(pixels: seq<Byte>, m: nat, n: nat, total: int)
    requires 4 * m <= |pixels|
    requires forall p :: 0 <= p < m ==> n * Intensity(pixels, p) > total
    ensures m > 0 ==> n * IntensitySum(pixels, m) > m * total
  {
    if m > 1 {
      NotAllAboveMean(pixels, m - 1, n, total);
      var prev := IntensitySum(pixels, m - 1);
      var last := Intensity(pixels, m - 1);
      assert IntensitySum(pixels, m) == prev + last;
      Distribute(n, prev, last);
      Distribute(total, m - 1, 1);
      assert n * last > total;
    } else if m == 1 {
      assert IntensitySum(pixels, 1) == Intensity(pixels, 0);
    }
  }

  /** A non-empty hash always holds a '0' bit. */
  lemma HashHasZeroBit(pixels: seq<Byte>)
    requires IsRgba(pixels) && |pixels| > 0
    ensures '0' in HashBits(pixels)
  {
    var n := |pixels| / 4;
    if forall p :: 0 <= p < n ==> HashBits(pixels)[p] == '1' {
      forall p | 0 <= p < n
        ensures n * Intensity(pixels, p) > IntensitySum(pixels, n)
      {
        BitInIntegers(pixels, p);
      }
      NotAllAboveMean(pixels, n, n, IntensitySum(pixels, n));
      assert false;
    }
  }

  /** The 8x8 canvas gives 64 bits and 16 hex digits. */
  lemma EightByEightLength(pixels: seq<Byte>)
    requires |pixels| == 4 * 64
    ensures |HashBits(pixels)| == 64
    ensures |HexString(HashBits(pixels))| == 16
  {
    HexStringLength(HashBits(pixels));
  }

  /** Alpha bytes never influence the hash. */
  lemma AlphaIgnored(pixels: seq<Byte>, other: seq<Byte>)
    requires IsRgba(pixels) && |other| == |pixels|
    requires forall i :: 0 <= i < |pixels| && i % 4 != 3 ==> other[i] == pixels[i]
    ensures HashBits(other) == HashBits(pixels)
  {
    var n := |pixels| / 4;
    forall p | 0 <= p < n
      ensures Gray(other, p) == Gray(pixels, p)
    {
      assert (4 * p) % 4 == 0 && (4 * p + 1) % 4 == 1 && (4 * p + 2) % 4 == 2;
      assert other[4 * p] == pixels[4 * p] && other[4 * p + 1] == pixels[4 * p + 1]
        && other[4 * p + 2] == pixels[4 * p + 2];
    }
    assert Grays(other) == Grays(pixels);
    if n > 0 {
      assert Average(other) == Average(pixels);
      forall p | 0 <= p < n
        ensures HashBits(other)[p] == HashBits(pixels)[p]
      {
      }
    }
  }

  // --------------------------------------------------------- decoding hex

  function HexValue(c: char): nat
  {
    if '0' <= c <= '9' then c as int - '0' as int
    else if 'a' <= c <= 'f' then c as int - 'a' as int + 10
    else 0
  }

  function BitChar(b: bool): char
  {
    if b then '1' else '0'
  }

  /** The four bits a hex digit stands for. */
  function Nibble(v: nat): string
  {
    [BitChar(v / 8 % 2 == 1), BitChar(v / 4 % 2 == 1), BitChar(v / 2 % 2 == 1), BitChar(v % 2 == 1)]
  }

  function BitsOfHex(hex: string): string
  {
    if hex == [] then [] else Nibble(HexValue(hex[0])) + BitsOfHex(hex[1..])
  }

  predicate IsBinary(bits: string)
  {
    forall i :: 0 <= i < |bits| ==> bits[i] == '0' || bits[i] == '1'
  }

  lemma HexValueOfDigit(v: nat)
    requires v < 16
    ensures HexValue(HexDigit(v)) == v
  {
  }

  /** Reading four bits as a number and writing the number back as four
      bits gives the same bits. */
  lemma NibbleOfValue(b: string)
    requires |b| == 4 && IsBinary(b)
    ensures Nibble(BinValue(b)) == b
  {
    var x0, x1, x2, x3 := b[0] == '1', b[1] == '1', b[2] == '1', b[3] == '1';
    var v := 8 * BitOf(x0) + 4 * BitOf(x1) + 2 * BitOf(x2) + BitOf(x3);
    BinValueOfFour(b);
    assert BinValue(b) == v;
    NibbleOfBits(x0, x1, x2, x3);
    assert [BitChar(x0), BitChar(x1), BitChar(x2), BitChar(x3)] == b;
  }

  /** The value of four bits, weighted 8, 4, 2 and 1. */
  lemma BinValueOfFour(b: string)
    requires |b| == 4
    ensures BinValue(b) == 8 * BitOf(b[0] == '1') + 4 * BitOf(b[1] == '1') + 2 * BitOf(b[2] == '1') + BitOf(b[3] == '1')
  {
    assert Pow2(1) == 2 && Pow2(2) == 4 && Pow2(3) == 8;
    assert b[1..][1..] == b[2..] && b[2..][1..] == b[3..] && b[3..][1..] == [];
    assert BinValue(b[3..]) == Bit(b[3]);
    assert BinValue(b[2..]) == 2 * Bit(b[2]) + Bit(b[3]);
    assert BinValue(b[1..]) == 4 * Bit(b[1]) + 2 * Bit(b[2]) + Bit(b[3]);
  }

  function BitOf(x: bool): nat
  {
    if x then 1 else 0
  }

  /** The digits of `8·x0 + 4·x1 + 2·x2 + x3` are the four bits. */
  lemma NibbleOfBits(x0: bool, x1: bool, x2: bool, x3: bool)
    ensures Nibble(8 * BitOf(x0) + 4 * BitOf(x1) + 2 * BitOf(x2) + BitOf(x3))
      == [BitChar(x0), BitChar(x1), BitChar(x2), BitChar(x3)]
  {
    var low := 2 * BitOf(x2) + BitOf(x3);
    var v := 8 * BitOf(x0) + 4 * BitOf(x1) + low;
    assert v / 8 == BitOf(x0) && v / 4 == 2 * BitOf(x0) + BitOf(x1);
    assert v / 2 == 4 * BitOf(x0) + 2 * BitOf(x1) + BitOf(x2);
  }

  /** Decoding the hex digits gives back the bit string, for whole nibbles. */
  lemma {:induction false} HexRoundTrip(bits: string)
    requires IsBinary(bits) && |bits| % 4 == 0
    ensures BitsOfHex(HexString(bits)) == bits
    decreases |bits|
  {
    if bits != [] {
      var v := BinValue(bits[..4]);
      assert Pow2(4) == 16 by {
        assert Pow2(1) == 2 && Pow2(2) == 4 && Pow2(3) == 8;
      }
      HexValueOfDigit(v);
      NibbleOfValue(bits[..4]);
      HexRoundTrip(bits[4..]);
      assert HexString(bits)[1..] == HexString(bits[4..]);
      assert bits == bits[..4] + bits[4..];
    }
  }

  /** The hash of a pixel buffer decodes back to its bits. */
  lemma HashRoundTrip(pixels: seq<Byte>)
    requires |pixels| % 16 == 0
    ensures BitsOfHex(HexString(HashBits(pixels))) == HashBits(pixels)
  {
    HexRoundTrip(HashBits(pixels));
  }
}
