/**
 The meaning of a room's two tables.  `adding` rows give isu at a time; `buying` rows cost their price
 at once and produce power from their time on.  Balances are in milli-isu.
 */
module Ledger {
  import opened Items
  import opened Sums

  datatype Adding = Adding(time: int, isu: int)
  datatype Buying = Buying(item: int, ordinal: nat, time: int)
  type Masters = map<int, MItem>

  function Price(ms: Masters, item: int, count: nat): (p: int)
    ensures 0 <= p
  {
    if item in ms then ms[item].GetPrice(count) else 0
  }

  function Power(ms: Masters, item: int, count: nat): (p: int)
    ensures 0 <= p
  {
    if item in ms then ms[item].GetPower(count) else 0
  }

  // Per-row amounts.
  function IsuBy(t: int): Adding -> int { (a: Adding) => if a.time <= t then a.isu else 0 }
  function IsuAt(t: int): Adding -> int { (a: Adding) => if a.time == t then a.isu else 0 }
  function Cost(ms: Masters): Buying -> int { (b: Buying) => 1000 * Price(ms, b.item, b.ordinal) }
  function Gain(ms: Masters, t: int): Buying -> int {
    (b: Buying) => if b.time <= t then Power(ms, b.item, b.ordinal) * (t - b.time) else 0
  }
  function PowerRow(ms: Masters): Buying -> int { (b: Buying) => Power(ms, b.item, b.ordinal) }
  function PowerBy(ms: Masters, t: int): Buying -> int {
    (b: Buying) => if b.time <= t then Power(ms, b.item, b.ordinal) else 0
  }
  function PowerAt(ms: Masters, t: int): Buying -> int {
    (b: Buying) => if b.time == t then Power(ms, b.item, b.ordinal) else 0
  }
  function ItemPowerRow(ms: Masters, item: int): Buying -> int {
    (b: Buying) => if b.item == item then Power(ms, b.item, b.ordinal) else 0
  }
  function ItemPowerBy(ms: Masters, item: int, t: int): Buying -> int {
    (b: Buying) => if b.item == item && b.time <= t then Power(ms, b.item, b.ordinal) else 0
  }
  function ItemPowerAt(ms: Masters, item: int, t: int): Buying -> int {
    (b: Buying) => if b.item == item && b.time == t then Power(ms, b.item, b.ordinal) else 0
  }
  function OfItem(item: int): Buying -> int { (b: Buying) => if b.item == item then 1 else 0 }
  function BuiltBy(item: int, t: int): Buying -> int { (b: Buying) => if b.item == item && b.time <= t then 1 else 0 }
  function BuiltAt(item: int, t: int): Buying -> int { (b: Buying) => if b.item == item && b.time == t then 1 else 0 }

  /** B(t): all isu dated up to t, minus every price ever paid, plus what the built items produced by t. */
  function Balance(ms: Masters, adding: seq<Adding>, buying: seq<Buying>, t: int): int
  {
    1000 * Sum(adding, IsuBy(t)) - Sum(buying, Cost(ms)) + Sum(buying, Gain(ms, t))
  }

  /** P(t). */
  function TotalPower(ms: Masters, buying: seq<Buying>, t: int): int { Sum(buying, PowerBy(ms, t)) }

  function ItemPower(ms: Masters, buying: seq<Buying>, item: int, t: int): int { Sum(buying, ItemPowerBy(ms, item, t)) }

  /** N_i(t). */
  function Built(buying: seq<Buying>, item: int, t: int): (n: nat)
  {
    SumNonNegative(buying, BuiltBy(item, t));
    Sum(buying, BuiltBy(item, t))
  }

  function Bought(buying: seq<Buying>, item: int): (n: nat)
  {
    SumNonNegative(buying, OfItem(item));
    Sum(buying, OfItem(item))
  }

  // What the tables' keys and the game's rules guarantee.

  /** The primary key (room_name, time) of adding. */
  ghost predicate UniqueTimes(adding: seq<Adding>)
  {
    forall i, j :: 0 <= i < j < |adding| ==> adding[i].time != adding[j].time
  }

  ghost predicate NonNegativeIsu(adding: seq<Adding>)
  {
    forall i :: 0 <= i < |adding| ==> 0 <= adding[i].isu
  }

  ghost predicate KnownItems(ms: Masters, buying: seq<Buying>)
  {
    forall i :: 0 <= i < |buying| ==> buying[i].item in ms
  }

  /** Each item's rows are listed in ordinal order, numbered from 1 without gaps. */
  ghost predicate InOrdinalOrder(buying: seq<Buying>)
  {
    forall k :: 0 <= k < |buying| ==> buying[k].ordinal == Bought(buying[..k], buying[k].item) + 1
  }

  lemma GainStep(p: int, t: int, u: int, s: int)
    requires s <= t <= u
    ensures p * (u - s) == p * (t - s) + (u - t) * p
  {
  }

  /** B is piecewise linear: it runs with slope P(t) until the next dated row. */
  lemma BalanceRunsLinearly(ms: Masters, adding: seq<Adding>, buying: seq<Buying>, t: int, u: int)
    requires t <= u
    requires forall i :: 0 <= i < |adding| ==> !(t < adding[i].time <= u)
    requires forall i :: 0 <= i < |buying| ==> !(t < buying[i].time <= u)
    ensures Balance(ms, adding, buying, u) == Balance(ms, adding, buying, t) + (u - t) * TotalPower(ms, buying, t)
    ensures TotalPower(ms, buying, u) == TotalPower(ms, buying, t)
  {
    SumAgree(adding, IsuBy(u), IsuBy(t));
    forall i | 0 <= i < |buying|
      ensures Gain(ms, u)(buying[i]) == Gain(ms, t)(buying[i]) + (u - t) * PowerBy(ms, t)(buying[i])
    {
      if buying[i].time <= t {
        GainStep(Power(ms, buying[i].item, buying[i].ordinal), t, u, buying[i].time);
      }
    }
    SumLinear(buying, Gain(ms, u), Gain(ms, t), u - t, PowerBy(ms, t));
    SumAgree(buying, PowerBy(ms, u), PowerBy(ms, t));
  }

  /** With no negative isu, B never falls as time passes. */
  lemma BalanceNeverFalls(ms: Masters, adding: seq<Adding>, buying: seq<Buying>, t: int, u: int)
    requires NonNegativeIsu(adding) && t <= u
    ensures Balance(ms, adding, buying, t) <= Balance(ms, adding, buying, u)
    ensures TotalPower(ms, buying, t) <= TotalPower(ms, buying, u)
    ensures 0 <= TotalPower(ms, buying, t)
  {
    SumAtMost(adding, IsuBy(t), IsuBy(u));
    forall i | 0 <= i < |buying| ensures Gain(ms, t)(buying[i]) <= Gain(ms, u)(buying[i]) {
      var p := Power(ms, buying[i].item, buying[i].ordinal);
      if buying[i].time <= t {
        GainStep(p, t, u, buying[i].time);
        ProductNonNegative(u - t, p);
      } else if buying[i].time <= u {
        ProductNonNegative(p, u - buying[i].time);
      }
    }
    SumAtMost(buying, Gain(ms, t), Gain(ms, u));
    SumAtMost(buying, PowerBy(ms, t), PowerBy(ms, u));
    SumNonNegative(buying, PowerBy(ms, t));
  }

  function GainBefore(ms: Masters, t: int): Buying -> int {
    (b: Buying) => if b.time < t then Power(ms, b.item, b.ordinal) * (t - b.time) else 0
  }

  /** Counting only rows dated strictly before t, as one implementation does, gives the same balance. */
  lemma {:induction false} StrictlyBeforeIsTheSame(ms: Masters, adding: seq<Adding>, buying: seq<Buying>, t: int)
    ensures 1000 * Sum(adding, IsuBy(t)) - Sum(buying, Cost(ms)) + Sum(buying, GainBefore(ms, t))
      == Balance(ms, adding, buying, t)
  {
    SumAgree(buying, GainBefore(ms, t), Gain(ms, t));
  }

  /** B, P, the per-item powers and the counts do not depend on the order the tables' rows come in. */
  lemma RowOrderIsIrrelevant(ms: Masters, as1: seq<Adding>, as2: seq<Adding>, bs1: seq<Buying>, bs2: seq<Buying>,
                             t: int, item: int)
    requires multiset(as1) == multiset(as2) && multiset(bs1) == multiset(bs2)
    ensures Balance(ms, as1, bs1, t) == Balance(ms, as2, bs2, t)
    ensures TotalPower(ms, bs1, t) == TotalPower(ms, bs2, t)
    ensures ItemPower(ms, bs1, item, t) == ItemPower(ms, bs2, item, t)
    ensures Built(bs1, item, t) == Built(bs2, item, t) && Bought(bs1, item) == Bought(bs2, item)
  {
    SumOrderFree(as1, as2, IsuBy(t));
    SumOrderFree(bs1, bs2, Cost(ms));
    SumOrderFree(bs1, bs2, Gain(ms, t));
    SumOrderFree(bs1, bs2, PowerBy(ms, t));
    SumOrderFree(bs1, bs2, ItemPowerBy(ms, item, t));
    SumOrderFree(bs1, bs2, BuiltBy(item, t));
    SumOrderFree(bs1, bs2, OfItem(item));
  }

  /** Appending a purchase moves the balance by its price and, from its time on, by what it produces. */
  lemma BalanceAfterPurchase(ms: Masters, adding: seq<Adding>, buying: seq<Buying>, b: Buying, t: int)
    ensures Balance(ms, adding, buying + [b], t)
         == Balance(ms, adding, buying, t) - 1000 * Price(ms, b.item, b.ordinal)
          + (if b.time <= t then Power(ms, b.item, b.ordinal) * (t - b.time) else 0)
  {
    SumPush(buying, b, Cost(ms));
    SumPush(buying, b, Gain(ms, t));
  }

  /**
   A room of the game's second item alone: 10 isu from time 0, its first copy, for 3 isu, built at 5 with power 2, its
   second, for 5 isu, built at 6 with power 3.
   */
  lemma TwoCopies(t: int)
    requires 6 <= t
    ensures var ms := map[2 := MItem(0, 1, 1, 1, 0, 1, 2, 1)];
            var adding, buying := [Adding(0, 10)], [Buying(2, 1, 5), Buying(2, 2, 6)];
            && Balance(ms, adding, buying, t) == 10_000 - 3_000 - 5_000 + 2 * (t - 5) + 3 * (t - 6)
            && TotalPower(ms, buying, t) == 5 && Built(buying, 2, t) == 2
  {
    var ms := map[2 := MItem(0, 1, 1, 1, 0, 1, 2, 1)];
    var a, b, d := Adding(0, 10), Buying(2, 1, 5), Buying(2, 2, 6);
    SecondItem(1);
    SecondItem(2);
    hide Pow;
    assert [a][..0] == [] && [b, d][..1] == [b] && [b][..0] == [];
    assert Cost(ms)(b) == 3_000 && Cost(ms)(d) == 5_000;
    assert Sum([b, d], Cost(ms)) == Sum([b], Cost(ms)) + Cost(ms)(d);
    assert Sum([b, d], Gain(ms, t)) == Sum([b], Gain(ms, t)) + Gain(ms, t)(d);
    assert Sum([b, d], PowerBy(ms, t)) == Sum([b], PowerBy(ms, t)) + PowerBy(ms, t)(d);
    assert Sum([b, d], BuiltBy(2, t)) == Sum([b], BuiltBy(2, t)) + BuiltBy(2, t)(d);
  }
}
