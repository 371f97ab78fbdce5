/** Decimal text, its 15-digit exponent notation, the benchmark's division-only shortcut to it, and the order on it. */
module Exponents {
  import opened Common
  import opened Items

  datatype Exponential = Exponential(mantissa: int, exponent: int)
  {
    predicate Less(o: Exponential)
    {
      if exponent == o.exponent then mantissa < o.mantissa else exponent < o.exponent
    }

    predicate LessEq(o: Exponential)
    {
      if exponent == o.exponent then mantissa <= o.mantissa else exponent < o.exponent
    }
  }

  const TEN14: int := 100_000_000_000_000
  const TEN15: int := 1_000_000_000_000_000
  const INT64_BOUND: int := 0x8000_0000_0000_0000

  function Digit(d: nat): char
    requires d < 10
  {
    "0123456789"[d]
  }

  function DigitValue(c: char): int { c as int - '0' as int }

  /** The decimal text of a natural number. */
  function Digits(n: nat): (s: string)
    ensures |s| > 0
  {
    if n < 10 then [Digit(n)] else Digits(n / 10) + [Digit(n % 10)]
  }

  /** The decimal text of an integer. */
  function ToText(n: int): string { if n < 0 then "-" + Digits(-n) else Digits(n) }

  function ParseDigits(s: string): int
  {
    if |s| == 0 then 0 else 10 * ParseDigits(s[..|s| - 1]) + DigitValue(s[|s| - 1])
  }

  function ParseText(s: string): int
  {
    if |s| > 0 && s[0] == '-' then -ParseDigits(s[1..]) else ParseDigits(s)
  }

  /** The applications' exponent notation: the first 15 characters of the decimal text, and how many were cut. */
  function Big2Exp(n: int): Exponential
  {
    var s := ToText(n);
    if |s| <= 15 then Exponential(n, 0) else Exponential(ParseText(s[..15]), |s| - 15)
  }

  lemma {:induction false} ParseInvertsDigits(n: nat)
    ensures ParseDigits(Digits(n)) == n && '0' <= Digits(n)[0] <= '9'
  {
    if n >= 10 {
      ParseInvertsDigits(n / 10);
      assert Digits(n)[..|Digits(n)| - 1] == Digits(n / 10);
    } else {
      assert Digits(n)[..0] == [];
    }
  }

  lemma {:induction false} DigitsCount(n: nat)
    ensures n < Pow(10, |Digits(n)|)
    ensures 0 < n ==> Pow(10, |Digits(n)| - 1) <= n
  {
    if n >= 10 {
      DigitsCount(n / 10);
      var k := |Digits(n / 10)|;
      assert |Digits(n)| == k + 1;
      assert Pow(10, k + 1) == 10 * Pow(10, k);
      assert Pow(10, k) == 10 * Pow(10, k - 1);
    } else {
      assert Pow(10, 1) == 10 * Pow(10, 0);
    }
  }

  lemma DivideTwice(n: nat, p: int)
    requires 0 < p
    ensures (n / 10) / p == n / (10 * p)
    ensures (n / p) / 10 == n / (10 * p)
  {
    TenFirst(n, p);
    TenLast(n, p);
  }

  lemma TenFirst(n: nat, p: int)
    requires 0 < p
    ensures (n / 10) / p == n / (10 * p)
  {
    var q, r, s := n / 10 / p, n / 10 % p, n % 10;
    assert n / 10 == p * q + r && n == 10 * (n / 10) + s;
    assert 10 * (p * q) == (10 * p) * q;
    QuotientIs(n, 10 * p, q, r * 10 + s);
  }

  lemma TenLast(n: nat, p: int)
    requires 0 < p
    ensures (n / p) / 10 == n / (10 * p)
  {
    var m, s := n / p, n % p;
    var q, r := m / 10, m % 10;
    assert n == p * m + s;
    DigitTimes(p, q, r);
    QuotientIs(n, 10 * p, q, r * p + s);
  }

  lemma DigitTimes(p: int, q: int, r: int)
    requires 0 < p && 0 <= r <= 9
    ensures p * (10 * q + r) == (10 * p) * q + r * p
    ensures 0 <= r * p <= 9 * p
  {
    ProductNonNegative(r, p);
    ProductNonNegative(9 - r, p);
    assert (9 - r) * p == 9 * p - r * p;
  }

  lemma MultipleBound(d: int, k: int)
    requires 0 < d
    ensures 1 <= k ==> d <= d * k
    ensures k <= -1 ==> d * k <= -d
  {
    if 1 <= k {
      assert d * k == d + d * (k - 1);
      ProductNonNegative(d, k - 1);
    } else if k <= -1 {
      assert d * k == -d - d * (-k - 1);
      ProductNonNegative(d, -k - 1);
    }
  }

  lemma QuotientIs(n: int, d: int, q: int, r: int)
    requires 0 < d && n == d * q + r && 0 <= r < d
    ensures n / d == q
  {
    var k := n / d - q;
    assert n == d * (n / d) + n % d;
    assert d * (n / d) - d * q == d * k;
    MultipleBound(d, k);
  }

  lemma {:induction false} DigitsPrefix(n: nat, k: nat)
    requires 1 <= k <= |Digits(n)|
    ensures 0 < Pow(10, |Digits(n)| - k)
    ensures Digits(n)[..k] == Digits(n / Pow(10, |Digits(n)| - k))
    decreases n
  {
    var cut := |Digits(n)| - k;
    PowPositive(10, cut);
    if cut == 0 {
      assert Digits(n)[..k] == Digits(n);
    } else {
      assert n >= 10;
      DigitsPrefix(n / 10, k);
      assert Digits(n)[..k] == Digits(n / 10)[..k];
      assert Pow(10, cut) == 10 * Pow(10, cut - 1);
      PowPositive(10, cut - 1);
      DivideTwice(n, Pow(10, cut - 1));
    }
  }

  lemma Fifteen()
    ensures Pow(10, 14) == TEN14 && Pow(10, 15) == TEN15
  {
    assert Pow(10, 4) == 10_000 by {
      assert Pow(10, 1) == 10 * Pow(10, 0);
      assert Pow(10, 2) == 10 * Pow(10, 1);
      assert Pow(10, 3) == 10 * Pow(10, 2);
    }
    PowAdds(10, 4, 4);
    PowAdds(10, 8, 4);
    PowAdds(10, 12, 1);
    PowAdds(10, 12, 2);
    assert Pow(10, 1) == 10 * Pow(10, 0);
    assert Pow(10, 2) == 10 * Pow(10, 1);
    assert Pow(10, 15) == 10 * Pow(10, 14);
  }

  /** On a natural number the text notation is truncating division: a full 15-digit mantissa, or the number itself. */
  lemma Big2ExpTruncates(n: nat)
    ensures n < TEN15 <==> |Digits(n)| <= 15
    ensures n < TEN15 ==> Big2Exp(n) == Exponential(n, 0)
    ensures TEN15 <= n ==>
      var e := |Digits(n)| - 15;
      1 <= e && 0 < Pow(10, e) && Big2Exp(n) == Exponential(n / Pow(10, e), e)
      && TEN14 <= n / Pow(10, e) < TEN15
  {
    Fifteen();
    DigitsCount(n);
    var l := |Digits(n)|;
    if l <= 15 {
      PowMonotone(l, 15);
    } else {
      PowMonotone(15, l - 1);
      DigitsPrefix(n, 15);
      ParseInvertsDigits(n / Pow(10, l - 15));
      var m := n / Pow(10, l - 15);
      DigitsCount(m);
      assert Digits(m) == Digits(n)[..15];
      assert ToText(n)[..15] == Digits(m);
    }
  }

  lemma {:induction false} PowMonotone(e: nat, f: nat)
    requires e <= f
    ensures 1 <= Pow(10, e) <= Pow(10, f)
    decreases f - e
  {
    PowPositive(10, e);
    if e < f {
      PowMonotone(e, f - 1);
    }
  }

  lemma QuotientGrows(n: int, m: int, d: int)
    requires 0 < d && n <= m
    ensures n / d <= m / d
  {
    var k := n / d - m / d;
    assert n == d * (n / d) + n % d;
    assert m == d * (m / d) + m % d;
    assert d * (n / d) - d * (m / d) == d * k;
    MultipleBound(d, k);
  }

  /** Rounding to 15 digits preserves order, and a strictly smaller notation means a strictly smaller number. */
  lemma Big2ExpIsMonotone(n: nat, m: nat)
    requires n <= m
    ensures Big2Exp(n).LessEq(Big2Exp(m)) && !Big2Exp(m).Less(Big2Exp(n))
  {
    hide Big2Exp, Digits, Pow;
    Big2ExpTruncates(n);
    Big2ExpTruncates(m);
    if TEN15 <= n {
      DigitsCount(n);
      DigitsCount(m);
      if |Digits(m)| < |Digits(n)| {
        PowMonotone(|Digits(m)|, |Digits(n)| - 1);
      } else if |Digits(m)| == |Digits(n)| {
        QuotientGrows(n, m, Pow(10, |Digits(n)| - 15));
      }
    }
  }

  lemma Big2ExpReflectsOrder(n: nat, m: nat)
    ensures Big2Exp(n).Less(Big2Exp(m)) ==> n < m
  {
    if m <= n {
      Big2ExpIsMonotone(m, n);
    }
  }

  /** The two comparisons are each other's negation, and together tell notations apart. */
  lemma OrderIsTotal(x: Exponential, y: Exponential)
    ensures x.Less(y) <==> !y.LessEq(x)
    ensures x.LessEq(y) && y.LessEq(x) <==> x == y
  {
  }

  /** One rounded number is less than another exactly if it is less and rounds differently. */
  lemma Big2ExpOrder(n: nat, m: nat)
    ensures Big2Exp(n).Less(Big2Exp(m)) <==> n < m && Big2Exp(n) != Big2Exp(m)
    ensures Big2Exp(n).LessEq(Big2Exp(m)) <==> n <= m || Big2Exp(n) == Big2Exp(m)
  {
    hide Big2Exp;
    OrderIsTotal(Big2Exp(n), Big2Exp(m));
    OrderIsTotal(Big2Exp(m), Big2Exp(n));
    if n <= m {
      Big2ExpIsMonotone(n, m);
    } else {
      Big2ExpIsMonotone(m, n);
    }
  }

  /** The benchmark's converter, with its shared cache of powers of ten. */
  class FastNotation {
    var e10cache: map<nat, int>

    ghost predicate Valid()
      reads this
    {
      forall i :: i in e10cache ==> e10cache[i] == Pow(10, i)
    }

    constructor ()
      ensures Valid() && e10cache == map[]
    {
      e10cache := map[];
    }

    /**
     `estimate` is the digit count estimated from the bit length; it may be too small by any amount and too
     large by two.  A negative number ends the program, modelled by None; no other input does.
     */
    method Big2ExpFast(n: int, estimate: int) returns (r: Option<Exponential>)
      requires Valid()
      requires TEN15 <= n ==> estimate <= |Digits(n)| + 2
      modifies this
      ensures Valid()
      ensures r == if n < 0 then None else Some(Big2Exp(n))
    {
      if n < 0 {
        return None;
      }
      Big2ExpTruncates(n);
      if n < INT64_BOUND && n < TEN15 {
        return Some(Exponential(n, 0));
      }
      var i: nat := if estimate - 17 <= 0 then 1 else estimate - 17;
      if i !in e10cache {
        var e := PowerOfTen(i);
        e10cache := e10cache[i := e];
      }
      PowPositive(10, i);
      r := ShiftDown(n, i, n / e10cache[i]);
    }
  }

  /** Divides by ten until 15 digits are left; None would be the "something wrong" exit. */
  method ShiftDown(n: nat, exponent: nat, quotient: int) returns (r: Option<Exponential>)
    requires TEN15 <= n && 1 <= exponent <= |Digits(n)| - 15
    requires 0 < Pow(10, exponent) && quotient == n / Pow(10, exponent)
    ensures r == Some(Big2Exp(n))
  {
    Big2ExpTruncates(n);
    var i, t := exponent, quotient;
    while true
      invariant exponent <= i <= |Digits(n)| - 15 && 0 < Pow(10, i) && t == n / Pow(10, i)
      decreases |Digits(n)| - i
    {
      TruncationSize(n, i);
      if t < INT64_BOUND {
        if t < TEN14 {
          return None;
        }
        if t < TEN15 {
          return Some(Exponential(t, i));
        }
      }
      DivideTwice(n, Pow(10, i));
      assert Pow(10, i + 1) == 10 * Pow(10, i);
      t := t / 10;
      i := i + 1;
    }
  }

  method PowerOfTen(i: nat) returns (e: int)
    ensures e == Pow(10, i)
  {
    e := 1;
    var k := 0;
    while k < i
      invariant 0 <= k <= i && e == Pow(10, k)
    {
      e := 10 * e;
      k := k + 1;
    }
  }

  /** Cutting i digits leaves 15 digits exactly when i is the right exponent, and more before that. */
  lemma TruncationSize(n: nat, i: nat)
    requires TEN15 <= n && 1 <= i <= |Digits(n)| - 15
    ensures 0 < Pow(10, i)
    ensures n / Pow(10, i) < TEN15 <==> i == |Digits(n)| - 15
    ensures TEN14 <= n / Pow(10, i)
  {
    var l := |Digits(n)|;
    Fifteen();
    PowPositive(10, i);
    Big2ExpTruncates(n);
    if i < l - 15 {
      DigitsCount(n);
      PowMonotone(15 + i, l - 1);
      PowAdds(10, i, 15);
      assert Pow(10, 15 + i) <= n;
      QuotientGrows(Pow(10, i) * TEN15, n, Pow(10, i));
      QuotientIs(Pow(10, i) * TEN15, Pow(10, i), TEN15, 0);
    }
  }
}
