/**
 A status read against known row times gives back the window of the room's tables: when the copies a status
 counts are exactly the rows of the buying table, reading them item by item loses nothing.
 */
module TableReading {
  import opened BenchLog
  import opened Common
  import opened Ledger
  import opened Status
  import opened StatusReading
  import opened Sums
  import opened Windows

  function AllPart(f: (int, nat) -> int): ItemStatus -> seq<Buying> {
    (x: ItemStatus) => Copies(x.itemId, 0, x.countBought, f)
  }

  function PartTotal(g: ItemStatus -> seq<Buying>, f: Buying -> int): ItemStatus -> int
  {
    (x: ItemStatus) => Sum(g(x), f)
  }

  lemma {:induction false} SumFlatten(items: seq<ItemStatus>, g: ItemStatus -> seq<Buying>, f: Buying -> int)
    ensures Sum(Flatten(items, g), f) == Sum(items, PartTotal(g, f))
  {
    if |items| > 0 {
      var n := |items| - 1;
      SumFlatten(items[..n], g, f);
      SumConcat(Flatten(items[..n], g), g(items[n]), f);
    }
  }

  lemma {:induction false} CopiesSplit(item: int, lo: nat, hi: nat, f: (int, nat) -> int)
    requires lo <= hi
    ensures Copies(item, 0, lo, f) + Copies(item, lo, hi, f) == Copies(item, 0, hi, f)
    decreases hi
  {
    if lo < hi {
      CopiesSplit(item, lo, hi - 1, f);
    }
  }

  /** What is summed over all copies splits into what is built and what is coming. */
  lemma PartsAddUp(items: seq<ItemStatus>, f: (int, nat) -> int, v: Buying -> int)
    requires forall x :: x in items ==> x.countBuilt <= x.countBought
    ensures Sum(Flatten(items, AllPart(f)), v)
      == Sum(Flatten(items, BuiltPart(f)), v) + Sum(Flatten(items, FuturePart(f)), v)
  {
    SumFlatten(items, AllPart(f), v);
    SumFlatten(items, BuiltPart(f), v);
    SumFlatten(items, FuturePart(f), v);
    forall k | 0 <= k < |items|
      ensures PartTotal(AllPart(f), v)(items[k])
        == PartTotal(BuiltPart(f), v)(items[k]) + 1 * PartTotal(FuturePart(f), v)(items[k])
    {
      var x := items[k];
      CopiesSplit(x.itemId, x.countBuilt, x.countBought, f);
      SumConcat(BuiltPart(f)(x), FuturePart(f)(x), v);
    }
    SumLinear(items, PartTotal(AllPart(f), v), PartTotal(BuiltPart(f), v), 1, PartTotal(FuturePart(f), v));
  }

  lemma PartsOwnTheirRows(items: seq<ItemStatus>, f: (int, nat) -> int)
    ensures forall x :: x in items ==> OwnRows(AllPart(f), x) && OwnRows(BuiltPart(f), x) && OwnRows(FuturePart(f), x)
  {
    forall x | x in items ensures OwnRows(AllPart(f), x) && OwnRows(BuiltPart(f), x) && OwnRows(FuturePart(f), x) {
      CopiesHold(x.itemId, 0, x.countBought, f);
      CopiesHold(x.itemId, 0, x.countBuilt, f);
      CopiesHold(x.itemId, x.countBuilt, x.countBought, f);
    }
  }

  /** The table's rows are the copies the items count, timed by f. */
  ghost predicate HoldsCopies(buying: seq<Buying>, items: seq<ItemStatus>, f: (int, nat) -> int)
  {
    Distinct(buying) && forall b :: b in buying <==> b in Flatten(items, AllPart(f))
  }

  /** The copies counted as built are those dated by c. */
  ghost predicate CountsBuilt(items: seq<ItemStatus>, f: (int, nat) -> int, c: int)
  {
    forall x :: x in items ==> x.countBuilt <= x.countBought && forall k: nat :: 1 <= k <= x.countBought ==>
      (f(x.itemId, k) <= c <==> k <= x.countBuilt)
  }

  lemma BuiltRowsAre(items: seq<ItemStatus>, f: (int, nat) -> int, c: int)
    requires UniqueIds(items) && CountsBuilt(items, f, c)
    ensures Distinct(Flatten(items, BuiltPart(f))) && Distinct(Flatten(items, FuturePart(f)))
      && Distinct(Flatten(items, AllPart(f)))
    ensures forall b :: b in Flatten(items, BuiltPart(f)) <==> b in Flatten(items, AllPart(f)) && b.time <= c
    ensures forall b :: b in Flatten(items, FuturePart(f)) <==> b in Flatten(items, AllPart(f)) && c < b.time
  {
    PartsOwnTheirRows(items, f);
    FlattenHolds(items, AllPart(f));
    FlattenHolds(items, BuiltPart(f));
    FlattenHolds(items, FuturePart(f));
    forall b, x | x in items
      ensures b in BuiltPart(f)(x) <==> b in AllPart(f)(x) && b.time <= c
      ensures b in FuturePart(f)(x) <==> b in AllPart(f)(x) && c < b.time
    {
      CopiesHold(x.itemId, 0, x.countBought, f);
      CopiesHold(x.itemId, 0, x.countBuilt, f);
      CopiesHold(x.itemId, x.countBuilt, x.countBought, f);
    }
  }

  /** A per-row amount that only built rows have, summed over the table. */
  lemma BuiltSum(buying: seq<Buying>, items: seq<ItemStatus>, f: (int, nat) -> int, c: int, v: Buying -> int,
                 u: Buying -> int)
    requires UniqueIds(items) && CountsBuilt(items, f, c) && HoldsCopies(buying, items, f)
    requires forall b :: v(b) == if b.time <= c then u(b) else 0
    ensures Sum(buying, v) == Sum(Flatten(items, BuiltPart(f)), u)
  {
    BuiltRowsAre(items, f, c);
    SameRowsSameSum(buying, Flatten(items, AllPart(f)), v);
    PartsAddUp(items, f, v);
    var built, future := Flatten(items, BuiltPart(f)), Flatten(items, FuturePart(f));
    forall k | 0 <= k < |built| ensures v(built[k]) == u(built[k]) {
      assert built[k] in built;
    }
    SumAgree(built, v, u);
    forall k | 0 <= k < |future| ensures v(future[k]) == 0 {
      assert future[k] in future;
    }
    Zeros(future, v);
  }

  lemma OpeningIsBalance(ms: Masters, adding: seq<Adding>, buying: seq<Buying>, items: seq<ItemStatus>,
                         f: (int, nat) -> int, c: int)
    requires UniqueIds(items) && CountsBuilt(items, f, c) && HoldsCopies(buying, items, f)
    ensures Opening(ms, c, Sum(adding, IsuBy(c)), Flatten(items, BuiltPart(f)), Flatten(items, FuturePart(f)))
      == Balance(ms, adding, buying, c)
  {
    BuiltSum(buying, items, f, c, Gain(ms, c), Produced(ms, c));
    BuiltRowsAre(items, f, c);
    SameRowsSameSum(buying, Flatten(items, AllPart(f)), Cost(ms));
    PartsAddUp(items, f, Cost(ms));
  }

  lemma PowersAreRead(ms: Masters, buying: seq<Buying>, items: seq<ItemStatus>, f: (int, nat) -> int, c: int)
    requires UniqueIds(items) && CountsBuilt(items, f, c) && HoldsCopies(buying, items, f)
    ensures Sum(Flatten(items, BuiltPart(f)), PowerRow(ms)) == TotalPower(ms, buying, c)
    ensures PowerTable(ms, Flatten(items, BuiltPart(f))) == map i | i in ms :: ItemPower(ms, buying, i, c)
  {
    BuiltSum(buying, items, f, c, PowerBy(ms, c), PowerRow(ms));
    forall i ensures Sum(Flatten(items, BuiltPart(f)), ItemPowerRow(ms, i)) == ItemPower(ms, buying, i, c) {
      BuiltSum(buying, items, f, c, ItemPowerBy(ms, i, c), ItemPowerRow(ms, i));
    }
    SameTable(PowerTable(ms, Flatten(items, BuiltPart(f))), map i | i in ms :: ItemPower(ms, buying, i, c));
  }

  lemma {:induction false} OneForEach(item: int, lo: nat, hi: nat, f: (int, nat) -> int, i: int)
    requires lo <= hi
    ensures Sum(Copies(item, lo, hi, f), OfItem(i)) == if item == i then hi - lo else 0
    decreases hi
  {
    if lo < hi {
      OneForEach(item, lo, hi - 1, f, i);
      SumPush(Copies(item, lo, hi - 1, f), Buying(item, hi, f(item, hi)), OfItem(i));
    }
  }

  lemma {:induction false} CountOfItem(items: seq<ItemStatus>, f: (int, nat) -> int, k: nat)
    requires UniqueIds(items) && k < |items|
    ensures Sum(Flatten(items, BuiltPart(f)), OfItem(items[k].itemId)) == items[k].countBuilt
  {
    var n, i := |items| - 1, items[k].itemId;
    SumConcat(Flatten(items[..n], BuiltPart(f)), BuiltPart(f)(items[n]), OfItem(i));
    OneForEach(items[n].itemId, 0, items[n].countBuilt, f, i);
    if k < n {
      CountOfItem(items[..n], f, k);
    } else {
      SumFlatten(items[..n], BuiltPart(f), OfItem(i));
      forall j | 0 <= j < n ensures PartTotal(BuiltPart(f), OfItem(i))(items[..n][j]) == 0 {
        OneForEach(items[j].itemId, 0, items[j].countBuilt, f, i);
      }
      Zeros(items[..n], PartTotal(BuiltPart(f), OfItem(i)));
    }
  }

  lemma CountIsRead(buying: seq<Buying>, items: seq<ItemStatus>, f: (int, nat) -> int, c: int, k: nat)
    requires UniqueIds(items) && CountsBuilt(items, f, c) && HoldsCopies(buying, items, f) && k < |items|
    ensures items[k].countBuilt == Built(buying, items[k].itemId, c)
  {
    hide UniqueIds, CountsBuilt, HoldsCopies, Sum, Flatten;
    CountOfItem(items, f, k);
    BuiltSum(buying, items, f, c, BuiltBy(items[k].itemId, c), OfItem(items[k].itemId));
  }

  lemma CountsAreRead(ms: Masters, buying: seq<Buying>, items: seq<ItemStatus>, f: (int, nat) -> int, c: int)
    requires UniqueIds(items) && CountsBuilt(items, f, c) && HoldsCopies(buying, items, f)
    requires forall i :: i in ms <==> exists k :: 0 <= k < |items| && items[k].itemId == i
    ensures BuiltCounts(items) == map i | i in ms :: Built(buying, i, c)
  {
    hide UniqueIds, CountsBuilt, HoldsCopies, BuiltCounts, Built, Sum, Flatten;
    CountsAreListed(items);
    forall k | 0 <= k < |items| ensures items[k].countBuilt == Built(buying, items[k].itemId, c) {
      CountIsRead(buying, items, f, c, k);
    }
    SameTable<nat>(BuiltCounts(items), map i | i in ms :: Built(buying, i, c));
  }

  lemma ComingRowsAt(buying: seq<Buying>, items: seq<ItemStatus>, f: (int, nat) -> int, c: int, t: int)
    requires UniqueIds(items) && CountsBuilt(items, f, c) && HoldsCopies(buying, items, f) && c < t
    ensures t in FutureBuys(buying, c) <==> t in ByTime(Flatten(items, FuturePart(f)))
    ensures multiset(GetOr(FutureBuys(buying, c), t, []))
      == multiset(GetOr(ByTime(Flatten(items, FuturePart(f))), t, []))
  {
    var future := Flatten(items, FuturePart(f));
    BuiltRowsAre(items, f, c);
    FutureBuysAt(buying, c, t);
    ByTimeAt(future, t);
    assert forall b: Buying :: b.time == t ==> (b in buying <==> b in future);
    if t in FutureBuys(buying, c) {
      var k :| 0 <= k < |buying| && buying[k].time == t;
      assert buying[k] in future;
    }
    DistinctWhere(buying, DatedAt(t));
    DistinctWhere(future, DatedAt(t));
    SameRowsSameMultiset(Where(buying, DatedAt(t)), Where(future, DatedAt(t)));
  }

  /** The window read from the status is the window of the tables, up to the order of rows within a millisecond. */
  lemma ReadingIsWindow(ms: Masters, st: GameStatus, adding: seq<Adding>, buying: seq<Buying>, f: (int, nat) -> int,
                        c: int)
    requires |st.schedule| > 0 && st.schedule[0].time == c
    requires UniqueIds(st.items) && CountsBuilt(st.items, f, c) && HoldsCopies(buying, st.items, f)
    requires forall i :: i in ms <==> exists k :: 0 <= k < |st.items| && st.items[k].itemId == i
    requires AddsOf(st.adding) == FutureAdds(adding, c)
    ensures var v, w := WindowOf(ms, adding, buying, c),
              StatusWindow(ms, st, Sum(adding, IsuBy(c)), Flatten(st.items, BuiltPart(f)),
                Flatten(st.items, FuturePart(f)));
            Alike(v, w) && v.base == w.base
  {
    OpeningIsBalance(ms, adding, buying, st.items, f, c);
    PowersAreRead(ms, buying, st.items, f, c);
    CountsAreRead(ms, buying, st.items, f, c);
    forall t | c < t
      ensures t in FutureBuys(buying, c) <==> t in ByTime(Flatten(st.items, FuturePart(f)))
      ensures multiset(GetOr(FutureBuys(buying, c), t, []))
        == multiset(GetOr(ByTime(Flatten(st.items, FuturePart(f))), t, []))
    {
      ComingRowsAt(buying, st.items, f, c, t);
    }
  }
}
