/** Shared vocabulary: optional values, RGBA canvas bytes, the string and
    sequence operations the application borrows from JavaScript
    (`toLowerCase`, `includes`, `filter`, `Math.max`, `Math.round`). */
module Common {

  datatype Option<+T> = None | Some(value: T)

  /** One element of a canvas `Uint8ClampedArray`. */
  type Byte = x: int | 0 <= x < 256

  /** A canvas buffer holds whole RGBA pixels: four bytes each. */
  predicate IsRgba(pixels: seq<Byte>)
  {
    |pixels| % 4 == 0
  }

  /** The red, green and blue bytes of a pixel; the alpha byte is not part of it. */
  datatype Rgb = Rgb(r: Byte, g: Byte, b: Byte)

  function PixelAt(pixels: seq<Byte>, p: nat): Rgb
    requires 4 * p + 3 <= |pixels|
  {
    Rgb(pixels[4 * p], pixels[4 * p + 1], pixels[4 * p + 2])
  }

  function Abs(x: int): nat
  {
    if x < 0 then -x else x
  }

  function Min(a: int, b: int): int
  {
    if a <= b then a else b
  }

  function Max(a: int, b: int): int
  {
    if a >= b then a else b
  }

  function MinReal(a: real, b: real): real
  {
    if a <= b then a else b
  }

  function MaxReal(a: real, b: real): real
  {
    if a >= b then a else b
  }

  /** `Math.floor` on an exact rational. */
  function Floor(x: real): int
  {
    x.Floor
  }

  /** `Math.round`: halves round towards positive infinity. */
  function Round(x: real): int
  {
    (x + 0.5).Floor
  }

  /** `Math.floor(Math.random() * k)` for one draw `u` of `Math.random()`. */
  function Pick(u: real, k: nat): (r: int)
    requires 0.0 <= u < 1.0
    ensures 0 <= r && (k > 0 ==> r < k)
  {
    var x := u * k as real;
    assert 0.0 <= x;
    assert k > 0 ==> x < k as real;
    x.Floor
  }

  /** All draws of a `Math.random()` stream lie in [0,1). */
  predicate IsRandomStream(rs: seq<real>)
  {
    forall i :: 0 <= i < |rs| ==> 0.0 <= rs[i] < 1.0
  }

  // ---------------------------------------------------------------- strings

  /** `toLowerCase` on the ASCII letters; every other character is kept. */
  function LowerChar(c: char): char
  {
    if 'A' <= c <= 'Z' then (c as int + 32) as char else c
  }

  function Lower(s: string): (r: string)
    ensures |r| == |s|
    ensures forall i :: 0 <= i < |s| ==> r[i] == LowerChar(s[i])
  {
    if s == [] then [] else [LowerChar(s[0])] + Lower(s[1..])
  }

  lemma LowerCharIdempotent(c: char)
    ensures LowerChar(LowerChar(c)) == LowerChar(c)
  {
  }

  /** Lower-casing twice is lower-casing once. */
  lemma LowerIdempotent(s: string)
    ensures Lower(Lower(s)) == Lower(s)
  {
    forall i | 0 <= i < |s|
      ensures Lower(Lower(s))[i] == Lower(s)[i]
    {
      LowerCharIdempotent(s[i]);
    }
  }

  predicate IsPrefix(t: string, s: string)
  {
    |t| <= |s| && s[..|t|] == t
  }

  /** `s.includes(t)`: `t` occurs in `s` at some offset. */
  predicate Contains(s: string, t: string)
    decreases |s|
  {
    IsPrefix(t, s) || (|s| > 0 && Contains(s[1..], t))
  }

  /** `Contains` holds exactly when `t` occurs in `s` at some offset `i`. */
  lemma {:induction false} ContainsAt(s: string, t: string, i: nat)
    requires i + |t| <= |s| && s[i..i + |t|] == t
    ensures Contains(s, t)
    decreases i
  {
    if i > 0 {
      assert s[1..][i - 1..i - 1 + |t|] == s[i..i + |t|];
      ContainsAt(s[1..], t, i - 1);
    } else {
      assert s[..|t|] == t;
    }
  }

  lemma {:induction false} ContainsWitness(s: string, t: string) returns (i: nat)
    requires Contains(s, t)
    ensures i + |t| <= |s| && s[i..i + |t|] == t
    decreases |s|
  {
    if IsPrefix(t, s) {
      i := 0;
    } else {
      var j := ContainsWitness(s[1..], t);
      assert s[1..][j..j + |t|] == s[j + 1..j + 1 + |t|];
      i := j + 1;
    }
  }

  /** Every string includes the empty string. */
  lemma ContainsEmpty(s: string)
    ensures Contains(s, "")
  {
    ContainsAt(s, "", 0);
  }

  // -------------------------------------------------------------- sequences

  /** `Array.prototype.filter`. */
  function Filter<T>(s: seq<T>, p: T -> bool): (r: seq<T>)
    ensures |r| <= |s|
    ensures forall x :: x in r ==> x in s && p(x)
  {
    if s == [] then []
    else (if p(s[0]) then [s[0]] else []) + Filter(s[1..], p)
  }

  /** An element of `s` that satisfies `p` survives the filter. */
  lemma {:induction false} FilterKeeps<T>(s: seq<T>, p: T -> bool, x: T)
    requires x in s && p(x)
    ensures x in Filter(s, p)
  {
    if s[0] != x {
      FilterKeeps(s[1..], p, x);
    }
  }

  /** `a` is `b` with some elements dropped, the rest kept in order. */
  predicate Subsequence<T(==)>(a: seq<T>, b: seq<T>)
    decreases |b|
  {
    if a == [] then true
    else if b == [] then false
    else (a[0] == b[0] && Subsequence(a[1..], b[1..])) || Subsequence(a, b[1..])
  }

  /** Filtering keeps the surviving elements in their original order. */
  lemma {:induction false} FilterIsSubsequence<T>(s: seq<T>, p: T -> bool)
    ensures Subsequence(Filter(s, p), s)
  {
    if s != [] {
      FilterIsSubsequence(s[1..], p);
      if p(s[0]) {
        assert Filter(s, p) == [s[0]] + Filter(s[1..], p);
      } else {
        assert Filter(s, p) == Filter(s[1..], p);
      }
    }
  }

  /** No element occurs twice. */
  predicate Distinct<T(==)>(s: seq<T>)
  {
    forall i, j :: 0 <= i < j < |s| ==> s[i] != s[j]
  }

  /** In a list without repeats every value occurs at most once. */
  lemma {:induction false} DistinctOnce<T>(s: seq<T>, x: T)
    requires Distinct(s)
    ensures multiset(s)[x] <= 1
  {
    if s != [] {
      DistinctOnce(s[1..], x);
      assert s == [s[0]] + s[1..];
      if s[0] == x {
        assert forall k :: 0 <= k < |s[1..]| ==> s[1..][k] == s[k + 1];
        assert x !in s[1..];
      }
    }
  }

  /** A rearrangement of a list without repeats has none either. */
  lemma DistinctPermutation<T>(a: seq<T>, b: seq<T>)
    requires multiset(a) == multiset(b) && Distinct(a)
    ensures Distinct(b)
  {
    forall i, j | 0 <= i < j < |b|
      ensures b[i] != b[j]
    {
      DistinctOnce(a, b[i]);
      assert b == b[..i] + [b[i]] + b[i + 1..j] + [b[j]] + b[j + 1..];
      assert multiset(b)[b[i]] >= 1 + multiset([b[j]])[b[i]];
    }
  }

  /** Every list is a subsequence of itself. */
  lemma SubsequenceReflexive<T>(s: seq<T>)
    ensures Subsequence(s, s)
  {
    FilterAll(s, (x: T) => true);
    FilterIsSubsequence(s, (x: T) => true);
  }

  /** A filter whose predicate holds everywhere changes nothing. */
  lemma {:induction false} FilterAll<T>(s: seq<T>, p: T -> bool)
    requires forall x :: x in s ==> p(x)
    ensures Filter(s, p) == s
  {
    if s != [] {
      FilterAll(s[1..], p);
    }
  }

  /** Filters with predicates that agree on `s` give the same result. */
  lemma {:induction false} FilterCongruent<T>(s: seq<T>, p: T -> bool, q: T -> bool)
    requires forall x :: x in s ==> p(x) == q(x)
    ensures Filter(s, p) == Filter(s, q)
  {
    if s != [] {
      FilterCongruent(s[1..], p, q);
    }
  }

  function Sum(s: seq<int>): int
  {
    if s == [] then 0 else s[0] + Sum(s[1..])
  }

  /** `Math.max(...s)` on a non-empty list. */
  function MaxOf(s: seq<int>): (m: int)
    requires |s| > 0
    ensures m in s
    ensures forall x :: x in s ==> x <= m
  {
    if |s| == 1 then s[0]
    else
      var m := MaxOf(s[1..]);
      assert forall x :: x in s ==> x == s[0] || x in s[1..];
      Max(s[0], m)
  }

  /** The number of elements of `s` that satisfy `p`: `s.filter(p).length`. */
  function Count<T>(s: seq<T>, p: T -> bool): (n: nat)
    ensures n <= |s|
  {
    |Filter(s, p)|
  }

  /** How many of the indices 0..n-1 satisfy `f`, counted one index at a
      time as a loop does. */
  function CountUpTo(n: nat, f: nat -> bool): nat
  {
    if n == 0 then 0 else CountUpTo(n - 1, f) + (if f(n - 1) then 1 else 0)
  }

  /** The running count is the size of the set of indices it counts. */
  lemma {:induction false} CountUpToIsCard(n: nat, f: nat -> bool)
    ensures CountUpTo(n, f) == |set p | 0 <= p < n && f(p)|
  {
    if n > 0 {
      CountUpToIsCard(n - 1, f);
      CardStep(n, f);
    }
  }

  /** One more index adds one to the counted set exactly when it satisfies `f`. */
  lemma CardStep(n: nat, f: nat -> bool)
    requires n > 0
    ensures |set p | 0 <= p < n && f(p)| == |set p | 0 <= p < n - 1 && f(p)| + (if f(n - 1) then 1 else 0)
  {
    var before := set p | 0 <= p < n - 1 && f(p);
    var after := set p | 0 <= p < n && f(p);
    if f(n - 1) {
      assert after == before + {n - 1};
      assert n - 1 !in before;
    } else {
      assert after == before;
    }
  }

  /** The sum of `f(0) .. f(n-1)`. */
  function SumUpTo(n: nat, f: nat -> nat): nat
  {
    if n == 0 then 0 else SumUpTo(n - 1, f) + f(n - 1)
  }

  /** `Array.prototype.slice(0, end)`: a negative end counts from the back. */
  function SliceTo<T>(s: seq<T>, end: int): (r: seq<T>)
    ensures end >= 0 ==> |r| == Min(end, |s|)
    ensures end < 0 ==> |r| == Max(0, |s| + end)
    ensures forall i :: 0 <= i < |r| ==> r[i] == s[i]
  {
    if end >= 0 then s[..Min(end, |s|)] else s[..Max(0, |s| + end)]
  }

  lemma MulStrictlyMonotone(a: real, b: real, c: real)
    requires a > b && c > 0.0
    ensures a * c > b * c
  {
    assert a * c - b * c == (a - b) * c;
  }

  lemma MulMonotone(a: real, b: real, c: real)
    requires a <= b && c > 0.0
    ensures a * c <= b * c
  {
    assert b * c - a * c == (b - a) * c;
  }

  lemma DivSelf(m: real)
    requires m > 0.0
    ensures 0.0 / m == 0.0 && m / m == 1.0
  {
  }

  /** Dividing by a positive number keeps the order. */
  lemma DivOrder(a: real, b: real, m: real)
    requires m > 0.0
    ensures a <= b <==> a / m <= b / m
  {
    var qa := a / m;
    var qb := b / m;
    assert qa * m == a && qb * m == b;
    if qa <= qb {
      MulMonotone(qa, qb, m);
    } else {
      MulStrictlyMonotone(qa, qb, m);
    }
  }

  const HexDigits: string := "0123456789abcdef"

  /** A lower-case hexadecimal digit. */
  predicate IsHexDigit(ch: char)
  {
    '0' <= ch <= '9' || 'a' <= ch <= 'f'
  }

  lemma HexDigitsAreDigits(k: nat)
    requires k < 16
    ensures IsHexDigit(HexDigits[k])
  {
  }

  /** Decimal rendering of a natural number, as a template literal prints it. */
  function Decimal(n: nat): (r: string)
    ensures |r| > 0
    ensures forall i :: 0 <= i < |r| ==> '0' <= r[i] <= '9'
  {
    if n < 10 then [('0' as int + n) as char]
    else Decimal(n / 10) + [('0' as int + n % 10) as char]
  }
}
