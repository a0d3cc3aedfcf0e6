/**
  Numbers in the save file: decimal text, doubles, and `std::from_chars` between them. Doubles are
  dyadic fractions; rounding is to nearest, ties to even, with 53 bits of precision.
*/
module Numbers {

  // ---------------------------------------------------------------------------
  // Decimal digits

  predicate IsDigit(c: char) {
    '0' <= c <= '9'
  }

  predicate AllDigits(s: string) {
    forall i :: 0 <= i < |s| ==> IsDigit(s[i])
  }

  function DigitValue(c: char): (v: nat)
    requires IsDigit(c)
    ensures v < 10
  {
    c as int - '0' as int
  }

  function DigitChar(v: nat): (c: char)
    requires v < 10
    ensures IsDigit(c) && DigitValue(c) == v
  {
    (v + '0' as int) as char
  }

  function NatOf(digits: string): nat
    requires AllDigits(digits)
  {
    if digits == "" then 0
    else 10 * NatOf(digits[..|digits| - 1]) + DigitValue(digits[|digits| - 1])
  }

  function NatText(n: nat): (s: string)
    ensures s != "" && AllDigits(s)
  {
    if n < 10 then [DigitChar(n)] else NatText(n / 10) + [DigitChar(n % 10)]
  }

  function IntText(n: int): (s: string)
    ensures s != ""
  {
    if n < 0 then "-" + NatText(-n) else NatText(n)
  }

  lemma {:induction false} NatTextValue(n: nat)
    ensures NatOf(NatText(n)) == n
  {
    if n < 10 {
      assert [DigitChar(n)][..0] == "";
    } else {
      NatTextValue(n / 10);
      var head, last := NatText(n / 10), [DigitChar(n % 10)];
      assert (head + last)[..|head|] == head;
    }
  }

  // ---------------------------------------------------------------------------
  // Powers of two

  function Pow2(k: nat): nat {
    if k == 0 then 1 else 2 * Pow2(k - 1)
  }

  lemma {:induction false} Pow2Positive(k: nat)
    ensures Pow2(k) > 0
  {
    if k > 0 { Pow2Positive(k - 1); }
  }

  lemma {:induction false} Pow2Monotone(j: nat, k: nat)
    requires j <= k
    ensures Pow2(j) <= Pow2(k)
    decreases k
  {
    if j < k {
      Pow2Monotone(j, k - 1);
      Pow2Positive(k - 1);
    }
  }

  lemma {:induction false} Pow2Sum(j: nat, k: nat)
    ensures Pow2(j + k) == Pow2(j) * Pow2(k)
  {
    if j > 0 {
      Pow2Sum(j - 1, k);
      assert Pow2(j) == 2 * Pow2(j - 1);
    }
  }

  const TWO_53: int := 0x20_0000_0000_0000

  lemma DoubleRange()
    ensures TWO_53 < Pow2(1024)
  {
    assert Pow2(10) == 1024;
    Pow2Sum(10, 10);
    Pow2Sum(20, 20);
    Pow2Sum(40, 20);
    Pow2Monotone(60, 1024);
  }

  lemma DivTwice(n: nat, v: nat)
    requires v > 0
    ensures n / (2 * v) == (n / 2) / v
  {
    var q := (n / 2) / v;
    var r := (n / 2) % v;
    assert n / 2 == q * v + r;
    assert n == q * (2 * v) + (2 * r + n % 2);
    DivIs(n, 2 * v, q, 2 * r + n % 2);
  }

  lemma DivIs(n: nat, d: nat, q: nat, r: nat)
    requires d > 0 && r < d && n == q * d + r
    ensures n / d == q && n % d == r
  {
    var q', r' := n / d, n % d;
    assert n == q' * d + r';
    Distribute(q, q', d);
    if q' < q {
      AtLeastOne(q - q', d);
    } else if q' > q {
      AtLeastOne(q' - q, d);
    }
  }

  lemma Distribute(a: int, b: int, d: int)
    ensures (a - b) * d == a * d - b * d
    ensures (b - a) * d == b * d - a * d
  {
  }

  lemma AtLeastOne(a: nat, d: nat)
    requires a >= 1
    ensures a * d >= d
  {
  }

  // ---------------------------------------------------------------------------
  // Integers as doubles

  /** Distance between neighbouring doubles around a positive integer, when it is at least one. */
  function Ulp(n: nat): (u: nat)
    ensures u >= 1 && n / u < TWO_53
    ensures u == 1 || n / u >= TWO_53 / 2
  {
    if n < TWO_53 then 1
    else
      var v := Ulp(n / 2);
      DivTwice(n, v);
      2 * v
  }

  /** The quotient rounded to the nearest integer, ties to even. */
  function RoundHalfEven(num: nat, den: nat): nat
    requires den > 0
  {
    var q, m := num / den, num % den;
    if 2 * m < den || (2 * m == den && q % 2 == 0) then q else q + 1
  }

  /** Round to the nearest double, ties to even. */
  function RoundNat(n: nat): nat {
    RoundHalfEven(n, Ulp(n)) * Ulp(n)
  }

  /** The double read from the decimal text of an integer; out of range leaves the default zero. */
  function ToDouble(n: int): int {
    var r: int := RoundNat(if n < 0 then -n else n);
    if r >= Pow2(1024) then 0 else if n < 0 then -r else r
  }

  /** A timestamp that a double represents exactly. */
  predicate Exact(t: int) {
    var n := if t < 0 then -t else t;
    n % Ulp(n) == 0 && n < Pow2(1024)
  }

  /** The trip through a double keeps exactly the multiples of the local spacing. */
  lemma ToDoubleExact(t: int)
    ensures ToDouble(t) == t <==> Exact(t)
  {
    var n := if t < 0 then -t else t;
    var u := Ulp(n);
    var q, m := n / u, n % u;
    assert n == q * u + m;
    assert (q + 1) * u == q * u + u;
    assert Pow2(1024) > 0 by { Pow2Positive(1024); }
  }

  /** Every timestamp up to 2^53 in magnitude survives. */
  lemma SmallTimesExact(t: int)
    requires -TWO_53 <= t <= TWO_53
    ensures Exact(t)
  {
    DoubleRange();
    if t == TWO_53 || t == -TWO_53 {
      assert Ulp(TWO_53 / 2) == 1;
      assert Ulp(TWO_53) == 2;
    }
  }

  /** The bound is sharp: the next timestamp comes back changed. */
  lemma FirstInexactTime()
    ensures !Exact(TWO_53 + 1) && ToDouble(TWO_53 + 1) != TWO_53 + 1
  {
    assert Ulp((TWO_53 + 1) / 2) == 1;
    assert Ulp(TWO_53 + 1) == 2;
    ToDoubleExact(TWO_53 + 1);
  }

  lemma {:induction false} UlpIsPower(n: nat) returns (k: nat)
    ensures Ulp(n) == Pow2(k)
  {
    if n < TWO_53 {
      k := 0;
    } else {
      k := UlpIsPower(n / 2);
      k := k + 1;
    }
  }

  /** A mantissa of at most 2^53 times a power of two is a multiple of the spacing at its own size. */
  lemma {:induction false} MantissaIsExact(n: nat, q: nat, k: nat)
    requires q <= TWO_53 && n == q * Pow2(k)
    ensures n % Ulp(n) == 0
    decreases k
  {
    if k == 0 {
      WholeMantissaIsExact(n);
    } else {
      var half := q * Pow2(k - 1);
      TwiceProduct(q, Pow2(k - 1));
      MantissaIsExact(half, q, k - 1);
      TwiceIsExact(half, n);
    }
  }

  lemma WholeMantissaIsExact(n: nat)
    requires n <= TWO_53
    ensures n % Ulp(n) == 0
  {
    if n == TWO_53 {
      assert Ulp(n / 2) == 1;
      assert Ulp(n) == 2;
    }
  }

  lemma TwiceIsExact(half: nat, n: nat)
    requires half % Ulp(half) == 0 && n == 2 * half
    ensures n % Ulp(n) == 0
  {
    if n >= TWO_53 {
      assert n / 2 == half;
      TwiceMultiple(half, Ulp(half));
    }
  }

  lemma TwiceProduct(a: nat, b: nat)
    ensures a * (2 * b) == 2 * (a * b)
  {
  }

  lemma TwiceMultiple(n: nat, u: nat)
    requires u > 0 && n % u == 0
    ensures (2 * n) % (2 * u) == 0
  {
    var q := n / u;
    TwiceProduct(q, u);
    DivIs(2 * n, 2 * u, q, 0);
  }

  predicate Scaled(n: nat, q: nat, k: nat) {
    q < TWO_53 && n == q * Pow2(k)
  }

  /** The doubles among the integers are exactly the 53-bit mantissas times powers of two, in range. */
  lemma ExactIsMantissa(t: int)
    ensures var n := if t < 0 then -t else t;
            Exact(t) <==> n < Pow2(1024) && exists q, k :: Scaled(n, q, k)
  {
    var n := if t < 0 then -t else t;
    if Exact(t) {
      var k := UlpIsPower(n);
      MultipleOf(n, Ulp(n));
      assert Scaled(n, n / Ulp(n), k);
    }
    if n < Pow2(1024) && exists q, k :: Scaled(n, q, k) {
      var q, k :| Scaled(n, q, k);
      MantissaIsExact(n, q, k);
    }
  }

  lemma MultipleOf(n: nat, u: nat)
    requires u > 0 && n % u == 0
    ensures n == (n / u) * u
  {
  }

  /** Rounding gives a double, and rounding it again changes nothing. */
  lemma RoundedIsExact(t: int)
    ensures Exact(ToDouble(t)) && ToDouble(ToDouble(t)) == ToDouble(t)
  {
    var n := if t < 0 then -t else t;
    Pow2Positive(1024);
    var k := UlpIsPower(n);
    MantissaIsExact(RoundNat(n), RoundHalfEven(n, Ulp(n)), k);
    ToDoubleExact(ToDouble(t));
  }

  /** Positive integers between the same neighbouring multiples have the same spacing. */
  lemma {:induction false} SameSpacing(m: nat, n: nat)
    requires m / Ulp(n) == n / Ulp(n)
    ensures Ulp(m) == Ulp(n)
    decreases n
  {
    if n >= TWO_53 {
      var v := Ulp(n / 2);
      DivTwice(n, v);
      DivTwice(m, v);
      SameSpacing(m / 2, n / 2);
      QuotientBelow(m, Ulp(n), TWO_53 / 2);
      AtLeastTwice(TWO_53 / 2, Ulp(n));
    }
  }

  lemma QuotientBelow(m: nat, u: nat, b: nat)
    requires u > 0 && m / u >= b
    ensures m >= b * u
  {
    assert m == (m / u) * u + m % u;
    Distribute(m / u, b, u);
    NonNegative(m / u - b, u);
  }

  lemma NonNegative(a: nat, b: nat)
    ensures a * b >= 0
  {
  }

  lemma AtLeastTwice(a: nat, u: nat)
    requires u >= 2
    ensures a * u >= 2 * a
  {
    Distribute(u, 2, a);
    NonNegative(u - 2, a);
  }

  /** No double lies strictly between the two multiples of the spacing around an integer. */
  lemma NoDoubleBetween(n: nat, m: nat)
    requires m % Ulp(m) == 0
    ensures var lo := (n / Ulp(n)) * Ulp(n); m <= lo || m >= lo + Ulp(n)
  {
    var u := Ulp(n);
    var q := n / u;
    if q * u < m < q * u + u {
      DivIs(m, u, q, m - q * u);
      SameSpacing(m, n);
      assert false;
    }
  }

  lemma HalfEvenNear(num: nat, den: nat)
    requires den > 0
    ensures var r := RoundHalfEven(num, den) * den;
            var lo := (num / den) * den;
            && lo <= num < lo + den && (r == lo || r == lo + den)
            && Distance(r, num) <= num - lo && Distance(r, num) <= lo + den - num
            && 2 * Distance(r, num) <= den
  {
    var q, m := num / den, num % den;
    assert num == q * den + m;
    assert (q + 1) * den == q * den + den;
  }

  function Distance(a: int, b: int): nat {
    if a < b then b - a else a - b
  }

  lemma NearestNat(n: nat, m: nat)
    requires m % Ulp(m) == 0
    ensures Distance(RoundNat(n), n) <= Distance(m, n)
  {
    NoDoubleBetween(n, m);
    HalfEvenNear(n, Ulp(n));
  }

  /** The double read for an integer in range is the nearest there is. */
  lemma NearestDouble(t: int, x: int)
    requires RoundNat(if t < 0 then -t else t) < Pow2(1024) && Exact(x)
    ensures Distance(ToDouble(t), t) <= Distance(x, t)
  {
    var n := if t < 0 then -t else t;
    NearestNat(n, if x < 0 then -x else x);
    assert 0 % Ulp(0) == 0;
    NearestNat(n, 0);
  }

  // ---------------------------------------------------------------------------
  // Decimal fractions as doubles

  /** A dyadic fraction `m / 2^s` in lowest terms, an infinity, or no number. */
  datatype Double = Dyadic(m: int, s: nat) | Infinite(negative: bool) | NotANumber

  const MAX_SHIFT: nat := 1074

  /** Towards zero. Of an infinity or a NaN the cast is undefined; the model takes zero. */
  function Truncate(d: Double): int {
    match d
    case Dyadic(m, s) => Pow2Positive(s); if m < 0 then -((-m) / Pow2(s)) else m / Pow2(s)
    case _ => 0
  }

  function Signed(negative: bool, n: nat): int {
    if negative then 0 - n else n
  }

  function Reduce(negative: bool, m: nat, s: nat): Double {
    if s > 0 && m % 2 == 0 then Reduce(negative, m / 2, s - 1) else Dyadic(Signed(negative, m), s)
  }

  /** How often a quotient must be halved to be below 2^53... */
  function Halvings(num: nat, den: nat): nat
    requires den > 0
    decreases num - den
  {
    if num < den * TWO_53 then 0 else 1 + Halvings(num, 2 * den)
  }

  /** ... or doubled to reach 2^52, within the range of subnormals. */
  function Doublings(num: nat, den: nat, room: nat): (k: nat)
    requires den > 0
    ensures k <= room
    decreases room
  {
    if room == 0 || num >= den * (TWO_53 / 2) then 0 else 1 + Doublings(2 * num, den, room - 1)
  }

  /** The powers of two by which a quotient is scaled to 53 bits: numerator and denominator. */
  function Scale(num: nat, den: nat): (r: (nat, nat))
    requires den > 0
    ensures r.1 == 0 || r.0 == 0
  {
    var t := Halvings(num, den);
    (if t == 0 then Doublings(num, den, MAX_SHIFT) else 0, t)
  }

  /** The double nearest to `num / den`; out of range leaves the default zero. */
  function Nearest(negative: bool, num: nat, den: nat): Double
    requires den > 0
  {
    var (s, t) := Scale(num, den);
    Pow2Positive(t);
    AtLeastOne(Pow2(t), den);
    var r := RoundHalfEven(num * Pow2(s), den * Pow2(t)) * Pow2(t);
    if r >= Pow2(1024) * Pow2(s) then Dyadic(0, 0) else Reduce(negative, r, s)
  }

  /**
    Correct rounding of any decimal fraction: scaled by powers of two to 53 significant bits, or to as
    many as the smallest double leaves, it is off by at most half a unit of the last one, and what is
    kept is that value in lowest terms.
  */
  lemma NearestIsPrecise(negative: bool, num: nat, den: nat)
    requires den > 0
    ensures var (s, t) := Scale(num, den);
            var n, d := num * Pow2(s), den * Pow2(t);
            && d > 0 && n < d * TWO_53 && (s == MAX_SHIFT || n >= d * (TWO_53 / 2))
            && 2 * Distance(RoundHalfEven(n, d) * d, n) <= d
            && (RoundHalfEven(n, d) * Pow2(t) < Pow2(1024) * Pow2(s) ==>
                  IsValue(Nearest(negative, num, den), negative, RoundHalfEven(n, d) * Pow2(t), s))
  {
    var (s, t) := Scale(num, den);
    ScaleIsFull(num, den);
    HalfEvenNear(num * Pow2(s), den * Pow2(t));
    ReduceIsValue(negative, RoundHalfEven(num * Pow2(s), den * Pow2(t)) * Pow2(t), s);
  }

  /** The double is `m / 2^s` with a sign, in lowest terms. */
  predicate IsValue(d: Double, negative: bool, m: nat, s: nat) {
    && d.Dyadic? && d.s <= s && d.m * Pow2(s - d.s) == Signed(negative, m) && (d.s == 0 || d.m % 2 != 0)
  }

  lemma {:induction false} ReduceIsValue(negative: bool, m: nat, s: nat)
    ensures IsValue(Reduce(negative, m, s), negative, m, s)
    decreases s
  {
    if s > 0 && m % 2 == 0 {
      ReduceIsValue(negative, m / 2, s - 1);
      var d := Reduce(negative, m, s);
      TwiceInt(d.m, Pow2(s - 1 - d.s));
    }
  }

  lemma TwiceInt(a: int, b: nat)
    ensures a * (2 * b) == 2 * (a * b)
  {
  }


  lemma {:induction false} HalvingsScale(num: nat, den: nat)
    requires den > 0
    ensures Pow2(Halvings(num, den)) > 0
    ensures num < den * Pow2(Halvings(num, den)) * TWO_53
    ensures Halvings(num, den) > 0 ==> num >= den * Pow2(Halvings(num, den)) * (TWO_53 / 2)
    decreases num - den
  {
    if num >= den * TWO_53 {
      HalvingsScale(num, 2 * den);
      var k := Halvings(num, 2 * den);
      assert 2 * den * Pow2(k) == den * Pow2(k + 1);
    }
  }

  lemma {:induction false} DoublingsScale(num: nat, den: nat, room: nat)
    requires den > 0 && num < den * TWO_53
    ensures num * Pow2(Doublings(num, den, room)) < den * TWO_53
    ensures Doublings(num, den, room) < room ==> num * Pow2(Doublings(num, den, room)) >= den * (TWO_53 / 2)
    decreases room
  {
    if room > 0 && num < den * (TWO_53 / 2) {
      DoublingsScale(2 * num, den, room - 1);
      var k := Doublings(2 * num, den, room - 1);
      assert 2 * num * Pow2(k) == num * Pow2(k + 1);
    }
  }

  /** Scaled, the quotient has 53 significant bits, or as many as the smallest double leaves. */
  lemma ScaleIsFull(num: nat, den: nat)
    requires den > 0
    ensures var (s, t) := Scale(num, den);
            var n, d := num * Pow2(s), den * Pow2(t);
            d > 0 && n < d * TWO_53 && (s == MAX_SHIFT || n >= d * (TWO_53 / 2))
  {
    var (s, t) := Scale(num, den);
    HalvingsScale(num, den);
    Pow2Positive(t);
    AtLeastOne(Pow2(t), den);
    if t == 0 {
      DoublingsScale(num, den, MAX_SHIFT);
    }
  }

  lemma {:induction false} ReduceWhole(negative: bool, n: nat, s: nat)
    ensures Reduce(negative, n * Pow2(s), s) == Dyadic(Signed(negative, n), 0)
    decreases s
  {
    if s > 0 {
      TwiceProduct(n, Pow2(s - 1));
      ReduceWhole(negative, n, s - 1);
    }
  }

  lemma {:induction false} HalvingsHalf(n: nat, den: nat)
    requires den > 0
    ensures Halvings(n, 2 * den) == Halvings(n / 2, den)
    decreases n - den
  {
    if n >= 2 * den * TWO_53 {
      HalvingsHalf(n, 2 * den);
    }
  }

  lemma {:induction false} HalvingsUlp(n: nat)
    ensures Pow2(Halvings(n, 1)) == Ulp(n)
    decreases n
  {
    if n >= TWO_53 {
      HalvingsHalf(n, 1);
      HalvingsUlp(n / 2);
    }
  }

  /** An integer read as a decimal fraction gives its own double. */
  lemma WholeIsNearest(negative: bool, n: nat)
    ensures Nearest(negative, n, 1) == Dyadic(ToDouble(Signed(negative, n)), 0)
  {
    if n < TWO_53 {
      SmallWhole(negative, n);
    } else {
      HalvingsUlp(n);
      assert Ulp(n) >= 2;
    }
  }

  lemma SmallWhole(negative: bool, n: nat)
    requires n < TWO_53
    ensures Nearest(negative, n, 1) == Dyadic(Signed(negative, n), 0) && ToDouble(Signed(negative, n)) == Signed(negative, n)
  {
    var s := Doublings(n, 1, MAX_SHIFT);
    DoubleRange();
    Pow2Positive(s);
    assert RoundHalfEven(n * Pow2(s), 1) == n * Pow2(s);
    LessTimes(n, Pow2(1024), Pow2(s));
    ReduceWhole(negative, n, s);
    assert RoundNat(n) == n;
  }

  lemma LessTimes(a: nat, b: nat, c: nat)
    requires a < b && c > 0
    ensures a * c < b * c
  {
    Distribute(b, a, c);
    AtLeastOne(b - a, c);
  }

  // ---------------------------------------------------------------------------
  // Reading a number

  /** A number as it is written: `m * 10^x` with a sign, or a special word. */
  datatype Numeral = Decimal(negative: bool, m: nat, x: int) | Infinity(negative: bool) | Nan

  const ZERO := Decimal(false, 0, 0)

  /** The double that a numeral is read as. */
  function DoubleOf(n: Numeral): Double {
    match n
    case Decimal(negative, m, x) =>
      if x >= 0 then Nearest(negative, m * Pow10(x), 1) else Nearest(negative, m, Pow10(-x))
    case Infinity(negative) => Infinite(negative)
    case Nan => NotANumber
  }

  /** The numeral that an integer is printed as. */
  function Printed(n: int): Numeral {
    Decimal(n < 0, if n < 0 then -n else n, 0)
  }

  /** A printed integer is read as its own double. */
  lemma PrintedDouble(n: int)
    ensures DoubleOf(Printed(n)) == Dyadic(ToDouble(n), 0) && Truncate(DoubleOf(Printed(n))) == ToDouble(n)
  {
    var m := if n < 0 then -n else n;
    assert m * Pow10(0) == m;
    WholeIsNearest(n < 0, m);
  }

  datatype Scan = NoNumber | Number(value: Numeral, end: nat)

  function DigitsEnd(s: string, p: nat): (e: nat)
    requires p <= |s|
    ensures p <= e <= |s| && AllDigits(s[p..e])
    ensures e < |s| ==> !IsDigit(s[e])
    decreases |s| - p
  {
    if p < |s| && IsDigit(s[p]) then
      var e := DigitsEnd(s, p + 1);
      assert s[p..e] == [s[p]] + s[p + 1..e];
      e
    else p
  }

  function Pow10(k: nat): (r: nat)
    ensures r > 0
  {
    if k == 0 then 1 else 10 * Pow10(k - 1)
  }

  /** An exponent counts only when it has digits. */
  function ScanExponent(s: string, p: nat): (r: (int, nat))
    requires p <= |s|
    ensures p <= r.1 <= |s|
  {
    if p < |s| && (s[p] == 'e' || s[p] == 'E') then
      var signed := p + 1 < |s| && (s[p + 1] == '-' || s[p + 1] == '+');
      var from := if signed then p + 2 else p + 1;
      var end := DigitsEnd(s, from);
      if end == from then (0, p)
      else (Signed(s[p + 1] == '-', NatOf(s[from..end])), end)
    else (0, p)
  }

  function Lower(c: char): char {
    if 'A' <= c <= 'Z' then (c as int + 32) as char else c
  }

  predicate WordAt(s: string, p: nat, w: string) {
    p + |w| <= |s| && forall i :: 0 <= i < |w| ==> Lower(s[p + i]) == w[i]
  }

  predicate NanChar(c: char) {
    IsDigit(c) || 'a' <= Lower(c) <= 'z' || c == '_'
  }

  /** The end of a parenthesised tag behind `nan`, if there is one. */
  function TagEnd(s: string, p: nat): (e: nat)
    requires p <= |s|
    ensures e <= |s|
    decreases |s| - p
  {
    if p < |s| && NanChar(s[p]) then TagEnd(s, p + 1)
    else if p < |s| && s[p] == ')' then p + 1
    else 0
  }

  function ScanSpecial(s: string, p: nat, negative: bool): (r: Scan)
    requires p <= |s|
    ensures r.Number? ==> p < r.end <= |s|
  {
    if WordAt(s, p, "infinity") then Number(Infinity(negative), p + 8)
    else if WordAt(s, p, "inf") then Number(Infinity(negative), p + 3)
    else if WordAt(s, p, "nan") then
      var tag := if p + 3 < |s| && s[p + 3] == '(' then TagEnd(s, p + 4) else 0;
      Number(Nan, if tag > p + 3 then tag else p + 3)
    else NoNumber
  }

  /** The digits behind a point, and where they end. */
  function ScanFraction(s: string, p: nat): (r: (string, nat))
    requires p <= |s|
    ensures p <= r.1 <= |s| && AllDigits(r.0) && (r.0 != "" ==> r.1 > p)
  {
    if p < |s| && s[p] == '.' then (s[p + 1..DigitsEnd(s, p + 1)], DigitsEnd(s, p + 1)) else ("", p)
  }

  function ScanUnsigned(s: string, p: nat, negative: bool): (r: Scan)
    requires p <= |s|
    ensures r.Number? ==> p < r.end <= |s|
  {
    var e := DigitsEnd(s, p);
    var (fraction, f) := ScanFraction(s, e);
    if e == p && fraction == "" then ScanSpecial(s, p, negative)
    else
      var (x, end) := ScanExponent(s, f);
      Number(Decimal(negative, NatOf(s[p..e] + fraction), x - |fraction|), end)
  }

  /** `std::from_chars` for a double: the pattern at the position, its value and its end. */
  function ScanNumber(s: string, p: nat): (r: Scan)
    requires p <= |s|
    ensures r.Number? ==> p < r.end <= |s|
  {
    if p < |s| && s[p] == '-' then ScanUnsigned(s, p + 1, true) else ScanUnsigned(s, p, false)
  }
}
