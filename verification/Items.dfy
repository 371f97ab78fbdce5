/** The item master: price and power of the x-th copy of an item, (c*x + 1) * d^(a*x + b). */
module Items {

  /** A power base of the item master. */
  type Base = d: int | 1 <= d witness 1

  function Pow(d: int, e: nat): int
  {
    if e == 0 then 1 else d * Pow(d, e - 1)
  }

  lemma {:induction false} PowPositive(d: Base, e: nat)
    ensures 1 <= Pow(d, e)
  {
    if e > 0 {
      PowPositive(d, e - 1);
    }
  }

  lemma {:induction false} PowAdds(d: int, e: nat, f: nat)
    ensures Pow(d, e + f) == Pow(d, e) * Pow(d, f)
  {
    if e > 0 {
      PowAdds(d, e - 1, f);
      assert d * (Pow(d, e - 1) * Pow(d, f)) == (d * Pow(d, e - 1)) * Pow(d, f);
    }
  }

  datatype MItem = MItem(
    power1: nat, power2: nat, power3: nat, power4: Base,
    price1: nat, price2: nat, price3: nat, price4: Base)
  {
    function GetPrice(count: nat): (p: int)
      ensures 1 <= p
    {
      PowPositive(price4, price1 * count + price2);
      ProductPositive(price3 * count + 1, Pow(price4, price1 * count + price2));
      (price3 * count + 1) * Pow(price4, price1 * count + price2)
    }

    function GetPower(count: nat): (p: int)
      ensures 1 <= p
    {
      PowPositive(power4, power1 * count + power2);
      ProductPositive(power3 * count + 1, Pow(power4, power1 * count + power2));
      (power3 * count + 1) * Pow(power4, power1 * count + power2)
    }
  }

  lemma ProductPositive(x: int, y: int)
    requires 1 <= x && 1 <= y
    ensures 1 <= x * y
  {
  }

  lemma ProductNonNegative(x: int, y: int)
    requires 0 <= x && 0 <= y
    ensures 0 <= x * y
  {
  }

  lemma FourFactors(p: int, q: int, u: int, v: int)
    ensures q * (v * u) * p == p * u * q * v
  {
  }

  lemma RatioOfCopies(c: nat, x: nat, d: Base, a: nat, b: nat)
    ensures (c * (x + 1) + 1) * Pow(d, a * (x + 1) + b) * (c * x + 1)
         == (c * x + 1) * Pow(d, a * x + b) * (c * (x + 1) + 1) * Pow(d, a)
  {
    hide Pow;
    assert a * (x + 1) + b == a + (a * x + b);
    PowAdds(d, a, a * x + b);
    FourFactors(c * x + 1, c * (x + 1) + 1, Pow(d, a * x + b), Pow(d, a));
  }

  /** Copy 0 costs d^b, and from copy to copy the price grows by d^a and by the step from c*x + 1 to the next. */
  lemma PricesGrow(m: MItem, x: nat)
    ensures m.GetPrice(0) == Pow(m.price4, m.price2)
    ensures m.GetPrice(x + 1) * (m.price3 * x + 1)
         == m.GetPrice(x) * (m.price3 * (x + 1) + 1) * Pow(m.price4, m.price1)
  {
    RatioOfCopies(m.price3, x, m.price4, m.price1, m.price2);
  }

  /** Likewise its power. */
  lemma PowersGrow(m: MItem, x: nat)
    ensures m.GetPower(0) == Pow(m.power4, m.power2)
    ensures m.GetPower(x + 1) * (m.power3 * x + 1)
         == m.GetPower(x) * (m.power3 * (x + 1) + 1) * Pow(m.power4, m.power1)
  {
    RatioOfCopies(m.power3, x, m.power4, m.power1, m.power2);
  }

  lemma {:induction false} PowOfOne(e: nat)
    ensures Pow(1, e) == 1
  {
    if e > 0 {
      PowOfOne(e - 1);
    }
  }

  lemma PowersOfTwo()
    ensures Pow(2, 3) == 8 && Pow(2, 10) == 1024
  {
    assert Pow(2, 1) == 2 * Pow(2, 0);
    assert Pow(2, 2) == 2 * Pow(2, 1);
    assert Pow(2, 3) == 2 * Pow(2, 2);
    PowAdds(2, 3, 3);
    PowAdds(2, 6, 3);
    PowAdds(2, 9, 1);
  }

  /** The game's second item. */
  lemma SecondItem(x: nat)
    ensures var m := MItem(0, 1, 1, 1, 0, 1, 2, 1); m.GetPower(x) == x + 1 && m.GetPrice(x) == 2 * x + 1
  {
    PowOfOne(1);
  }

  /** And its third. */
  lemma ThirdItem(x: nat)
    ensures var m := MItem(1, 10, 0, 2, 1, 3, 1, 2);
      m.GetPower(x) == 1024 * Pow(2, x) && m.GetPrice(x) == (x + 1) * (8 * Pow(2, x))
  {
    hide Pow;
    PowAdds(2, x, 10);
    PowAdds(2, x, 3);
    PowersOfTwo();
    assert 1 * x + 10 == x + 10 && 1 * x + 3 == x + 3 && 0 * x + 1 == 1 && 1 * x + 1 == x + 1;
  }

  /** Power by repeated squaring, with the PHP server's base cases. */
  function GmpExp(n: int, p: nat): int
  {
    if p == 0 then 0
    else if p == 1 then n
    else
      var m := GmpExp(n, p / 2);
      if p % 2 == 1 then m * m * n else m * m
  }

  /** Repeated squaring computes the power for every positive exponent, and only for those. */
  lemma {:induction false} GmpExpIsPow(n: int, p: nat)
    ensures GmpExp(n, p) == Pow(n, p) <==> p != 0
  {
    if p > 1 {
      GmpExpIsPow(n, p / 2);
      var m := Pow(n, p / 2);
      PowAdds(n, p / 2, p / 2);
      if p % 2 == 1 {
        assert p / 2 + p / 2 + 1 == p;
        assert Pow(n, p) == n * Pow(n, p / 2 + p / 2);
        assert n * (m * m) == m * m * n;
      } else {
        assert p / 2 + p / 2 == p;
      }
    } else if p == 1 {
      assert Pow(n, 1) == n * Pow(n, 0);
    }
  }
}
