/**
 Row order.  The queries behind a status have no ORDER BY, and calcStatus looks up a built row's power by the running
 count of its item's rows, where the row's own ordinal is meant.  So the order in which the database lists an item's
 rows can matter: this module says exactly when the loop computes what the tables mean, shows a listing for which it
 does not, and which listings of the same rows give the same status.
 */
module RowOrder {
  import opened Answered
  import opened Bracketing
  import opened Common
  import opened Exponents
  import opened Items
  import opened Ledger
  import opened Rows
  import opened Status
  import opened Sums
  import opened Windows

  lemma {:induction false} WhereOrderFree<T(!new)>(xs: seq<T>, ys: seq<T>, p: T -> bool)
    requires multiset(xs) == multiset(ys)
    ensures multiset(Where(xs, p)) == multiset(Where(ys, p))
  {
    forall x ensures multiset(Where(xs, p))[x] == multiset(Where(ys, p))[x] {
      WhereCount(xs, p, x);
      WhereCount(ys, p, x);
    }
  }

  lemma {:induction false} WhereCount<T(!new)>(xs: seq<T>, p: T -> bool, x: T)
    ensures multiset(Where(xs, p))[x] == if p(x) then multiset(xs)[x] else 0
  {
    if |xs| > 0 {
      var n := |xs| - 1;
      WhereCount(xs[..n], p, x);
      assert xs == xs[..n] + [xs[n]];
    }
  }

  lemma SameElements<T>(xs: seq<T>, ys: seq<T>)
    requires multiset(xs) == multiset(ys)
    ensures forall x :: x in xs <==> x in ys
  {
    forall x ensures x in xs <==> x in ys {
      assert x in multiset(xs) <==> x in multiset(ys);
    }
  }

  lemma SameDatedAdds(as1: seq<Adding>, as2: seq<Adding>, c: int, t: int)
    requires UniqueTimes(as1) && UniqueTimes(as2) && multiset(as1) == multiset(as2) && c < t
    ensures t in FutureAdds(as1, c) <==> t in FutureAdds(as2, c)
    ensures GetOr(FutureAdds(as1, c), t, 0) == GetOr(FutureAdds(as2, c), t, 0)
  {
    SameElements(as1, as2);
    FutureAddsAt(as1, c, t);
    FutureAddsAt(as2, c, t);
    SumOrderFree(as1, as2, IsuAt(t));
    if t in FutureAdds(as1, c) {
      var k :| 0 <= k < |as1| && as1[k].time == t;
      assert as1[k] in as2;
    }
    if t in FutureAdds(as2, c) {
      var k :| 0 <= k < |as2| && as2[k].time == t;
      assert as2[k] in as1;
    }
  }

  lemma SameDatedBuys(bs1: seq<Buying>, bs2: seq<Buying>, c: int, t: int)
    requires multiset(bs1) == multiset(bs2) && c < t
    ensures t in FutureBuys(bs1, c) <==> t in FutureBuys(bs2, c)
    ensures multiset(GetOr(FutureBuys(bs1, c), t, [])) == multiset(GetOr(FutureBuys(bs2, c), t, []))
  {
    SameElements(bs1, bs2);
    FutureBuysAt(bs1, c, t);
    FutureBuysAt(bs2, c, t);
    WhereOrderFree(bs1, bs2, DatedAt(t));
    if t in FutureBuys(bs1, c) {
      var k :| 0 <= k < |bs1| && bs1[k].time == t;
      assert bs1[k] in bs2;
    }
    if t in FutureBuys(bs2, c) {
      var k :| 0 <= k < |bs2| && bs2[k].time == t;
      assert bs2[k] in bs1;
    }
  }

  // ---- What a listing shows of the build times ----------------------------------------------------------------------

  /** The item's rows in listing order: when each is built, if by c; a row dated later only holds its place. */
  function TimesBy(buying: seq<Buying>, item: int, c: int): seq<Option<int>>
  {
    if |buying| == 0 then []
    else
      var b, rest := buying[|buying| - 1], TimesBy(buying[..|buying| - 1], item, c);
      if b.item == item then rest + [if b.time <= c then Some(b.time) else None] else rest
  }

  lemma {:induction false} TimesCount(buying: seq<Buying>, item: int, c: int)
    ensures |TimesBy(buying, item, c)| == Bought(buying, item)
    ensures forall k :: 0 <= k < |TimesBy(buying, item, c)| && TimesBy(buying, item, c)[k].Some? ==>
      TimesBy(buying, item, c)[k].value <= c
  {
    if |buying| > 0 {
      TimesCount(buying[..|buying| - 1], item, c);
    }
  }

  lemma NextInOrder(rest: seq<Buying>, b: Buying)
    requires InOrdinalOrder(rest) && b.ordinal == Bought(rest, b.item) + 1
    ensures InOrdinalOrder(rest + [b]) && forall i :: Bought(rest + [b], i) == Bought(rest, i) + OfItem(i)(b)
  {
    hide Bought;
    forall k | 0 <= k < |rest + [b]|
      ensures (rest + [b])[k].ordinal == Bought((rest + [b])[..k], (rest + [b])[k].item) + 1
    {
      assert (rest + [b])[..k] == rest[..k];
    }
    forall i ensures Bought(rest + [b], i) == Bought(rest, i) + OfItem(i)(b) {
      BoughtPush(rest, b, i);
    }
  }

  lemma BoughtPush(rest: seq<Buying>, b: Buying, i: int)
    ensures Bought(rest + [b], i) == Bought(rest, i) + OfItem(i)(b)
  {
    SumPush(rest, b, OfItem(i));
  }

  lemma {:induction false} RecountedInOrder(buying: seq<Buying>)
    ensures InOrdinalOrder(Recounted(buying)) && forall i :: Bought(Recounted(buying), i) == Bought(buying, i)
  {
    if |buying| > 0 {
      var n := |buying| - 1;
      var rest, b := buying[..n], buying[n];
      RecountedInOrder(rest);
      NextInOrder(Recounted(rest), Counted(rest, b));
      assert buying == rest + [b];
      hide InOrdinalOrder, Bought;
      forall i ensures Bought(Recounted(buying), i) == Bought(buying, i) {
        BoughtPush(rest, b, i);
      }
    }
  }

  lemma {:induction false} OrderedIsRecounted(buying: seq<Buying>)
    requires InOrdinalOrder(buying)
    ensures Recounted(buying) == buying
  {
    if |buying| > 0 {
      PrefixInOrder(buying, |buying| - 1);
      OrderedIsRecounted(buying[..|buying| - 1]);
    }
  }

  /** The rows the loop takes as built are those the listing shows. */
  lemma {:induction false} BuiltRowsShown(buying: seq<Buying>, c: int, b: Buying)
    requires b.time <= c
    ensures b in Recounted(buying)
      <==> 1 <= b.ordinal <= |TimesBy(buying, b.item, c)| && TimesBy(buying, b.item, c)[b.ordinal - 1] == Some(b.time)
  {
    if |buying| > 0 {
      var n := |buying| - 1;
      BuiltRowsShown(buying[..n], c, b);
      TimesCount(buying[..n], b.item, c);
    }
  }

  function BuiltRow(c: int): Buying -> bool { (b: Buying) => b.time <= c }

  /** A total over built rows depends on a listing only through the build times it shows. */
  lemma SameTimesSameSum(bs1: seq<Buying>, bs2: seq<Buying>, c: int, f: Buying -> int)
    requires forall i :: TimesBy(bs1, i, c) == TimesBy(bs2, i, c)
    requires forall b: Buying :: c < b.time ==> f(b) == 0
    ensures Sum(Recounted(bs1), f) == Sum(Recounted(bs2), f)
  {
    var xs, ys := Recounted(bs1), Recounted(bs2);
    forall b ensures b in Where(xs, BuiltRow(c)) <==> b in Where(ys, BuiltRow(c)) {
      if b.time <= c {
        BuiltRowsShown(bs1, c, b);
        BuiltRowsShown(bs2, c, b);
      }
    }
    RecountedInOrder(bs1);
    RecountedInOrder(bs2);
    RowsAreDistinct(xs);
    RowsAreDistinct(ys);
    DistinctWhere(xs, BuiltRow(c));
    DistinctWhere(ys, BuiltRow(c));
    SumWhere(xs, BuiltRow(c), f, f);
    SumWhere(ys, BuiltRow(c), f, f);
    SameRowsSameSum(Where(xs, BuiltRow(c)), Where(ys, BuiltRow(c)), f);
  }

  // ---- When the loop reads a listing right -------------------------------------------------------------------------

  /** For every item master, the loop computes the closed forms. */
  ghost predicate ReadsRight(buying: seq<Buying>, c: int)
  {
    forall ms :: KnownItems(ms, buying) ==> BooksRead(ms, buying, c) == BooksOf(ms, buying, c)
  }

  /** Item by item, the listing shows the build times by c in the order of the ordinals. */
  ghost predicate ShowsInOrder(buying: seq<Buying>, base: seq<Buying>, c: int)
  {
    forall i :: TimesBy(buying, i, c) == TimesBy(base, i, c)
  }

  lemma SameTotal(buying: seq<Buying>, base: seq<Buying>, c: int, f: Buying -> int)
    requires InOrdinalOrder(base) && multiset(buying) == multiset(base) && ShowsInOrder(buying, base, c)
    requires forall b: Buying :: c < b.time ==> f(b) == 0
    ensures Sum(Recounted(buying), f) == Sum(buying, f)
  {
    SameTimesSameSum(buying, base, c, f);
    OrderedIsRecounted(base);
    SumOrderFree(buying, base, f);
  }

  lemma InOrderReadsRight(ms: Masters, buying: seq<Buying>, base: seq<Buying>, c: int)
    requires InOrdinalOrder(base) && multiset(buying) == multiset(base) && ShowsInOrder(buying, base, c)
    ensures BooksRead(ms, buying, c) == BooksOf(ms, buying, c)
  {
    SameTotal(buying, base, c, Gain(ms, c));
    SameTotal(buying, base, c, PowerBy(ms, c));
    forall i ensures ItemPower(ms, Recounted(buying), i, c) == ItemPower(ms, buying, i, c) {
      SameTotal(buying, base, c, ItemPowerBy(ms, i, c));
    }
    SameTable(PowerMap(ms, Recounted(buying), c), PowerMap(ms, buying, c));
  }

  // And conversely.  With powers d, d*d, ... for one item and 1 for all others, the production by c plus the power,
  // read in base d, has one digit per row of the item.

  function ShownDigit(o: Option<int>, c: int): int { if o.None? then 0 else c - o.value + 1 }

  function Number(ts: seq<Option<int>>, c: int, d: int): int
  {
    if |ts| == 0 then 0 else ShownDigit(ts[0], c) + d * Number(ts[1..], c, d)
  }

  lemma NextPlace(n: int, x: int, p: int, d: int)
    ensures d * (n + x * p) == d * n + (d * p) * x
  {
    assert d * (x * p) == (d * p) * x;
  }

  lemma {:induction false} NumberPush(ts: seq<Option<int>>, o: Option<int>, c: int, d: int)
    ensures Number(ts + [o], c, d) == Number(ts, c, d) + ShownDigit(o, c) * Pow(d, |ts|)
  {
    if |ts| == 0 {
      assert ts + [o] == [o] && [o][1..] == [];
      assert Number([o], c, d) == ShownDigit(o, c) + d * 0;
    } else {
      NumberPush(ts[1..], o, c, d);
      assert (ts + [o])[1..] == ts[1..] + [o];
      NextPlace(Number(ts[1..], c, d), ShownDigit(o, c), Pow(d, |ts| - 1), d);
      assert Pow(d, |ts|) == d * Pow(d, |ts| - 1);
      hide ShownDigit;
    }
  }

  ghost predicate SmallDigits(ts: seq<Option<int>>, c: int, d: int)
  {
    forall k :: 0 <= k < |ts| ==> 0 <= ShownDigit(ts[k], c) < d && (ts[k].Some? ==> ts[k].value <= c)
  }

  lemma MultiplesLieApart(d: int, z: int)
    requires 0 < d && z != 0
    ensures d * z <= -d || d <= d * z
  {
    if z < 0 {
      ProductNonNegative(d, -z - 1);
      assert d * z == -d - d * (-z - 1);
    } else {
      ProductNonNegative(d, z - 1);
      assert d * z == d + d * (z - 1);
    }
  }

  lemma LeadingDigit(a: int, x: int, b: int, y: int, d: int)
    requires 0 <= a < d && 0 <= b < d && a + d * x == b + d * y
    ensures a == b && x == y
  {
    assert d * (x - y) == d * x - d * y;
    if x != y {
      MultiplesLieApart(d, x - y);
    }
  }

  lemma {:induction false} NumberDetermines(ts: seq<Option<int>>, us: seq<Option<int>>, c: int, d: int)
    requires |ts| == |us| && SmallDigits(ts, c, d) && SmallDigits(us, c, d) && Number(ts, c, d) == Number(us, c, d)
    ensures ts == us
  {
    if |ts| > 0 {
      LeadingDigit(ShownDigit(ts[0], c), Number(ts[1..], c, d), ShownDigit(us[0], c), Number(us[1..], c, d), d);
      NumberDetermines(ts[1..], us[1..], c, d);
      assert ts[0] == us[0];
      assert ts == [ts[0]] + ts[1..] && us == [us[0]] + us[1..];
    }
  }

  /** What a row of the item adds: its digit at the place of its ordinal. */
  function Placed(item: int, c: int, d: int): Buying -> int {
    (b: Buying) => if b.item == item && b.time <= c then Pow(d, b.ordinal) * (c - b.time + 1) else 0
  }

  lemma NextRowMakesNumber(rest: seq<Buying>, b: Buying, item: int, c: int, d: int)
    requires Sum(Recounted(rest), Placed(item, c, d)) == d * Number(TimesBy(rest, item, c), c, d)
    ensures Sum(Recounted(rest) + [Counted(rest, b)], Placed(item, c, d))
      == d * Number(TimesBy(rest + [b], item, c), c, d)
  {
    assert (rest + [b])[..|rest|] == rest;
    var ts, o := TimesBy(rest, item, c), if b.time <= c then Some(b.time) else None;
    SumPush(Recounted(rest), Counted(rest, b), Placed(item, c, d));
    TimesCount(rest, item, c);
    NumberPush(ts, o, c, d);
    NextPlace(Number(ts, c, d), ShownDigit(o, c), Pow(d, |ts|), d);
    assert Pow(d, |ts| + 1) == d * Pow(d, |ts|);
    hide Number, Pow, Sum, Recounted, Bought;
    if b.item == item {
      assert TimesBy(rest + [b], item, c) == ts + [o];
    }
  }

  lemma {:induction false} RowsMakeNumber(buying: seq<Buying>, item: int, c: int, d: int)
    ensures Sum(Recounted(buying), Placed(item, c, d)) == d * Number(TimesBy(buying, item, c), c, d)
  {
    if |buying| > 0 {
      var n := |buying| - 1;
      RowsMakeNumber(buying[..n], item, c, d);
      NextRowMakesNumber(buying[..n], buying[n], item, c, d);
      assert buying[..n] + [buying[n]] == buying;
    }
  }

  /** The item master that tells: powers d, d*d, ... for the item, 1 for all others. */
  function Telling(buying: seq<Buying>, item: int, d: Base): Masters
  {
    map i | i in ItemsOf(buying) + {item} ::
      if i == item then MItem(1, 0, 0, d, 0, 0, 0, 1) else MItem(0, 0, 0, 1, 0, 0, 0, 1)
  }

  lemma TellingPowers(buying: seq<Buying>, item: int, d: Base, i: int, n: nat)
    requires i in ItemsOf(buying) + {item}
    ensures Power(Telling(buying, item, d), i, n) == if i == item then Pow(d, n) else 1
  {
    assert Pow(1, 0) == 1;
  }

  function GainElse(item: int, c: int): Buying -> int {
    (b: Buying) => if b.item != item && b.time <= c then c - b.time else 0
  }

  lemma TellingSplits(buying: seq<Buying>, item: int, c: int, d: Base, b: Buying)
    requires b.item in ItemsOf(buying)
    ensures var ms := Telling(buying, item, d);
      Gain(ms, c)(b) + ItemPowerBy(ms, item, c)(b) == Placed(item, c, d)(b) + GainElse(item, c)(b)
  {
    TellingPowers(buying, item, d, b.item, b.ordinal);
    var p := Pow(d, b.ordinal);
    assert p * (c - b.time) + p == p * (c - b.time + 1);
  }

  function Both(ms: Masters, item: int, c: int): Buying -> int {
    (b: Buying) => Gain(ms, c)(b) + ItemPowerBy(ms, item, c)(b)
  }

  lemma TellingTotal(buying: seq<Buying>, rows: seq<Buying>, item: int, c: int, d: Base)
    requires forall k :: 0 <= k < |rows| ==> rows[k].item in ItemsOf(buying)
    ensures var ms := Telling(buying, item, d);
      Sum(rows, Gain(ms, c)) + ItemPower(ms, rows, item, c)
        == Sum(rows, Placed(item, c, d)) + Sum(rows, GainElse(item, c))
  {
    var ms := Telling(buying, item, d);
    forall k | 0 <= k < |rows|
      ensures Both(ms, item, c)(rows[k]) == Placed(item, c, d)(rows[k]) + 1 * GainElse(item, c)(rows[k])
    {
      TellingSplits(buying, item, c, d, rows[k]);
    }
    SumLinear(rows, Both(ms, item, c), Gain(ms, c), 1, ItemPowerBy(ms, item, c));
    SumLinear(rows, Both(ms, item, c), Placed(item, c, d), 1, GainElse(item, c));
  }

  lemma ItemsAreKnown(buying: seq<Buying>, item: int, d: Base)
    ensures KnownItems(Telling(buying, item, d), buying)
    ensures forall k :: 0 <= k < |buying| ==> buying[k].item in ItemsOf(buying)
  {
    forall k | 0 <= k < |buying| ensures buying[k].item in ItemsOf(buying) {
      assert buying[k] in buying;
    }
  }

  lemma RightReadingTotals(ms: Masters, buying: seq<Buying>, item: int, c: int)
    requires item in ms && BooksRead(ms, buying, c) == BooksOf(ms, buying, c)
    ensures Sum(Recounted(buying), Gain(ms, c)) == Sum(buying, Gain(ms, c))
    ensures ItemPower(ms, Recounted(buying), item, c) == ItemPower(ms, buying, item, c)
  {
    assert PowerMap(ms, Recounted(buying), c)[item] == PowerMap(ms, buying, c)[item];
  }

  lemma RecountingKeepsElse(buying: seq<Buying>, item: int, c: int)
    ensures Sum(Recounted(buying), GainElse(item, c)) == Sum(buying, GainElse(item, c))
    ensures forall k :: 0 <= k < |Recounted(buying)| ==> Recounted(buying)[k].item in ItemsOf(buying)
  {
    RecountedAt(buying);
    forall k | 0 <= k < |buying| ensures Recounted(buying)[k].item in ItemsOf(buying) {
      assert buying[k] in buying;
    }
    SumPairwise(Recounted(buying), buying, GainElse(item, c));
  }

  lemma RightReadingSums(buying: seq<Buying>, item: int, c: int, d: Base)
    requires ReadsRight(buying, c)
    ensures Sum(Recounted(buying), Placed(item, c, d)) == Sum(buying, Placed(item, c, d))
  {
    var ms, read := Telling(buying, item, d), Recounted(buying);
    ItemsAreKnown(buying, item, d);
    assert item in ms && BooksRead(ms, buying, c) == BooksOf(ms, buying, c);
    hide ReadsRight, BooksRead, BooksOf, KnownItems, ItemsOf, Recounted, Sum, ItemPower, Telling;
    RecountingKeepsElse(buying, item, c);
    RightReadingTotals(ms, buying, item, c);
    TellingTotal(buying, read, item, c, d);
    TellingTotal(buying, buying, item, c, d);
  }

  function Weight(c: int): Buying -> int { (b: Buying) => if b.time <= c then c - b.time + 1 else 0 }

  lemma {:induction false} WeightsBound(buying: seq<Buying>, item: int, c: int)
    ensures SmallDigits(TimesBy(buying, item, c), c, Sum(buying, Weight(c)) + 1) && 0 <= Sum(buying, Weight(c))
  {
    if |buying| > 0 {
      WeightsBound(buying[..|buying| - 1], item, c);
    }
  }

  lemma RightReadingShows(buying: seq<Buying>, base: seq<Buying>, item: int, c: int)
    requires InOrdinalOrder(base) && multiset(buying) == multiset(base) && ReadsRight(buying, c)
    ensures TimesBy(buying, item, c) == TimesBy(base, item, c)
  {
    var d := Sum(base, Weight(c)) + 1;
    WeightsBound(base, item, c);
    WeightsBound(buying, item, c);
    SumOrderFree(buying, base, Weight(c));
    RightReadingSums(buying, item, c, d);
    SumOrderFree(buying, base, Placed(item, c, d));
    OrderedIsRecounted(base);
    RowsMakeNumber(buying, item, c, d);
    RowsMakeNumber(base, item, c, d);
    LeadingDigit(0, Number(TimesBy(buying, item, c), c, d), 0, Number(TimesBy(base, item, c), c, d), d);
    TimesCount(buying, item, c);
    TimesCount(base, item, c);
    SumOrderFree(buying, base, OfItem(item));
    NumberDetermines(TimesBy(buying, item, c), TimesBy(base, item, c), c, d);
  }

  /**
   The loop computes what the tables mean, whatever the item master, exactly if the listing shows every item's build
   times by c in the order of the ordinals.
   */
  lemma ListingReadsRight(buying: seq<Buying>, base: seq<Buying>, c: int)
    requires InOrdinalOrder(base) && multiset(buying) == multiset(base)
    ensures ReadsRight(buying, c) <==> ShowsInOrder(buying, base, c)
  {
    if ShowsInOrder(buying, base, c) {
      forall ms | KnownItems(ms, buying) ensures BooksRead(ms, buying, c) == BooksOf(ms, buying, c) {
        InOrderReadsRight(ms, buying, base, c);
      }
    }
    if ReadsRight(buying, c) {
      forall i ensures TimesBy(buying, i, c) == TimesBy(base, i, c) {
        RightReadingShows(buying, base, i, c);
      }
    }
  }

  // ---- Statuses of two listings ------------------------------------------------------------------------------------

  lemma SameWindow(ms: Masters, as1: seq<Adding>, as2: seq<Adding>, bs1: seq<Buying>, bs2: seq<Buying>, c: int)
    requires UniqueTimes(as1) && UniqueTimes(as2)
    requires multiset(as1) == multiset(as2) && multiset(bs1) == multiset(bs2) && ShowsInOrder(bs1, bs2, c)
    ensures Alike(ReadWindow(ms, as1, bs1, c), ReadWindow(ms, as2, bs2, c))
    ensures ReadWindow(ms, as1, bs1, c).base == ReadWindow(ms, as2, bs2, c).base
  {
    var v, w := ReadWindow(ms, as1, bs1, c), ReadWindow(ms, as2, bs2, c);
    SumOrderFree(as1, as2, IsuBy(c));
    SumOrderFree(bs1, bs2, Cost(ms));
    SameTimesSameSum(bs1, bs2, c, Gain(ms, c));
    SameTimesSameSum(bs1, bs2, c, PowerBy(ms, c));
    forall i
      ensures ItemPower(ms, Recounted(bs1), i, c) == ItemPower(ms, Recounted(bs2), i, c)
        && Built(bs1, i, c) == Built(bs2, i, c)
    {
      SameTimesSameSum(bs1, bs2, c, ItemPowerBy(ms, i, c));
      SumOrderFree(bs1, bs2, BuiltBy(i, c));
    }
    SameTable(v.itemPower, w.itemPower);
    SameTable(v.itemBuilt, w.itemBuilt);
    forall t | c < t
      ensures (t in v.adds <==> t in w.adds) && GetOr(v.adds, t, 0) == GetOr(w.adds, t, 0)
      ensures (t in v.buys <==> t in w.buys) && multiset(BuysAt(v, t)) == multiset(BuysAt(w, t))
    {
      SameDatedAdds(as1, as2, c, t);
      SameDatedBuys(bs1, bs2, c, t);
    }
  }

  lemma SameItemsListed(v: Window, w: Window, items: seq<ItemStatus>, bought: map<int, nat>)
    requires Alike(v, w)
    ensures ListsItems(items, v, bought) <==> ListsItems(items, w, bought)
  {
    forall i: int, n: nat ensures ItemView(v, i, n) == ItemView(w, i, n) {
      ViewsAgree(v, w, i, n);
    }
  }

  lemma SameOnSaleMap(v: Window, w: Window, needs: map<int, int>)
    requires Alike(v, w) && v.base == w.base
    ensures OnSaleMap(v, needs, Horizon(v)) == OnSaleMap(w, needs, Horizon(w))
  {
    assert v.start == w.start;
    hide Alike, OnSaleTo;
    forall i | i in needs ensures OnSaleTo(v, needs[i], Horizon(v)) == OnSaleTo(w, needs[i], Horizon(w)) {
      SameOnSale(v, w, needs[i], Horizon(v));
    }
    SameTable(OnSaleMap(v, needs, Horizon(v)), OnSaleMap(w, needs, Horizon(w)));
  }

  lemma SameShown(st: GameStatus, v: Window, w: Window, bought: map<int, nat>)
    requires Alike(v, w) && v.base == w.base
    ensures Shows(st, v, bought) <==> Shows(st, w, bought)
  {
    SameSchedule(v, w, Horizon(v));
    SameItemsListed(v, w, st.items, bought);
    SameOnSaleMap(v, w, Needs(v.ms, bought));
  }

  lemma SameFutureAdds(as1: seq<Adding>, as2: seq<Adding>, c: int)
    requires UniqueTimes(as1) && UniqueTimes(as2) && multiset(as1) == multiset(as2)
    ensures FutureAdds(as1, c) == FutureAdds(as2, c)
  {
    forall t: int
      ensures t in FutureAdds(as1, c) <==> t in FutureAdds(as2, c)
      ensures t in FutureAdds(as1, c) ==> FutureAdds(as1, c)[t] == FutureAdds(as2, c)[t]
    {
      FutureAddsAt(as1, c, t);
      FutureAddsAt(as2, c, t);
      if c < t {
        SameDatedAdds(as1, as2, c, t);
      }
    }
    SameTable(FutureAdds(as1, c), FutureAdds(as2, c));
  }

  lemma SameBoughtMap(ms: Masters, bs1: seq<Buying>, bs2: seq<Buying>)
    requires multiset(bs1) == multiset(bs2)
    ensures BoughtMap(ms, bs1) == BoughtMap(ms, bs2)
  {
    forall i ensures Bought(bs1, i) == Bought(bs2, i) {
      SumOrderFree(bs1, bs2, OfItem(i));
    }
    SameTable<nat>(BoughtMap(ms, bs1), BoughtMap(ms, bs2));
  }

  /** Two listings of the same rows that show the same build times, item by item, give the same statuses. */
  lemma ListingOrderIsIrrelevant(ms: Masters, as1: seq<Adding>, as2: seq<Adding>, bs1: seq<Buying>, bs2: seq<Buying>,
                                 c: int, st: GameStatus)
    requires UniqueTimes(as1) && UniqueTimes(as2)
    requires multiset(as1) == multiset(as2) && multiset(bs1) == multiset(bs2) && ShowsInOrder(bs1, bs2, c)
    ensures IsReading(st, ms, as1, bs1, c) <==> IsReading(st, ms, as2, bs2, c)
  {
    SameWindow(ms, as1, as2, bs1, bs2, c);
    SameFutureAdds(as1, as2, c);
    SameBoughtMap(ms, bs1, bs2);
    hide Alike, Shows, ListsAdds, ReadWindow, FutureAdds, BoughtMap;
    SameShown(st, ReadWindow(ms, as1, bs1, c), ReadWindow(ms, as2, bs2, c), BoughtMap(ms, bs1));
  }

  /** One item whose n-th copy costs 1 isu and has power n + 1. */
  function RisingShop(): Masters { map[1 := MItem(0, 0, 1, 1, 0, 0, 0, 1)] }

  lemma SwappedBases(adding: seq<Adding>)
    requires Sum(adding, IsuBy(10)) == 2
    ensures ReadWindow(RisingShop(), adding, [Buying(1, 1, 0), Buying(1, 2, 5)], 10).base == 35
    ensures ReadWindow(RisingShop(), adding, [Buying(1, 2, 5), Buying(1, 1, 0)], 10).base == 40
  {
    hide RisingShop, Recounted, Sum, SpentRead, ReadWindow, Price, Power;
    RisingPrices(1);
    RisingPrices(2);
    SwappedSums(RisingShop(), Buying(1, 1, 0), Buying(1, 2, 5));
    OpeningRead(RisingShop(), adding, [Buying(1, 1, 0), Buying(1, 2, 5)], 10);
    OpeningRead(RisingShop(), adding, [Buying(1, 2, 5), Buying(1, 1, 0)], 10);
  }

  lemma OpeningRead(ms: Masters, adding: seq<Adding>, buying: seq<Buying>, c: int)
    ensures ReadWindow(ms, adding, buying, c).base == 1000 * Sum(adding, IsuBy(c)) + SpentRead(ms, buying, c)
  {
  }

  /**
   Two copies of an item, built at 0 and at 5, listed the wrong way round: at 10 calcStatus counts 5 milli-isu too
   many, and no status is what it makes of both listings.
   */
  lemma SwappedListing(adding: seq<Adding>, st: GameStatus)
    requires Sum(adding, IsuBy(10)) == 2 && IsReading(st, RisingShop(), adding, [Buying(1, 1, 0), Buying(1, 2, 5)], 10)
    ensures !IsReading(st, RisingShop(), adding, [Buying(1, 2, 5), Buying(1, 1, 0)], 10)
  {
    var right, wrong := [Buying(1, 1, 0), Buying(1, 2, 5)], [Buying(1, 2, 5), Buying(1, 1, 0)];
    hide RisingShop, IsReading, ReadWindow, Sum;
    SwappedBases(adding);
    ReadingOpens(RisingShop(), adding, right, 10, st);
    if IsReading(st, RisingShop(), adding, wrong, 10) {
      ReadingOpens(RisingShop(), adding, wrong, 10, st);
    }
  }

  lemma ReadingOpens(ms: Masters, adding: seq<Adding>, buying: seq<Buying>, c: int, st: GameStatus)
    requires IsReading(st, ms, adding, buying, c) && 0 <= ReadWindow(ms, adding, buying, c).base < TEN15
    ensures |st.schedule| > 0 && st.schedule[0].milliIsu == Exponential(ReadWindow(ms, adding, buying, c).base, 0)
  {
    var w := ReadWindow(ms, adding, buying, c);
    assert st.schedule == RoundSchedule(ScheduleTo(w, Horizon(w)));
    hide IsReading, ReadWindow, Big2Exp, Digits;
    Big2ExpTruncates(w.base);
  }

  lemma OneRow<T>(x: T, y: T, f: T -> int)
    ensures Sum([x, y], f) == f(x) + f(y)
  {
    assert [x] + [y] == [x, y] && [] + [x] == [x];
    SumPush([], x, f);
    SumPush([x], y, f);
  }

  lemma RisingPrices(n: nat)
    ensures Price(RisingShop(), 1, n) == 1 && Power(RisingShop(), 1, n) == n + 1
  {
    assert Pow(1, 0) == 1;
  }

  lemma SwappedRows(a: Buying, b: Buying)
    requires a == Buying(1, 1, 0) && b == Buying(1, 2, 5)
    ensures Recounted([a, b]) == [a, b] && Recounted([b, a]) == [Buying(1, 1, 5), Buying(1, 2, 0)]
  {
    RecountedAt([a, b]);
    RecountedAt([b, a]);
    assert [a, b][..0] == [] && [b, a][..0] == [] && [a, b][..1] == [a] && [b, a][..1] == [b];
    assert [a][..0] == [] && [b][..0] == [];
  }

  lemma SwappedSums(ms: Masters, a: Buying, b: Buying)
    requires Price(ms, 1, 1) == 1 && Price(ms, 1, 2) == 1 && Power(ms, 1, 1) == 2 && Power(ms, 1, 2) == 3
    requires a == Buying(1, 1, 0) && b == Buying(1, 2, 5)
    ensures SpentRead(ms, [a, b], 10) == 35 - 2000 && SpentRead(ms, [b, a], 10) == 40 - 2000
  {
    hide Price, Power, Recounted, Sum;
    SwappedRows(a, b);
    OneRow(a, b, Gain(ms, 10));
    OneRow(Buying(1, 1, 5), Buying(1, 2, 0), Gain(ms, 10));
    OneRow(a, b, Cost(ms));
    OneRow(b, a, Cost(ms));
  }
}
